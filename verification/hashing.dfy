/**
  core/hash: two digests of one stream, kept up to date as the bytes go past.
  BLAKE3 and SHA-256 are foreign code; a digest is modelled by what it stands for, so that two
  digests are equal exactly when the digested bytes are.
*/
module Hashing {
  import opened Texts

  datatype Hash = Blake3(absorbed: Bytes)

  /** The digest a phone can compute as well. */
  datatype Sha = Sha256(content: Bytes)

  datatype Digest = Digest(full: Hash, head: Hash, size: nat)

  /** How much of a stream the head digest covers: 1 MiB. */
  const HEAD_SIZE := 0x10_0000

  function Head(b: Bytes): Bytes {
    if |b| <= HEAD_SIZE then b else b[..HEAD_SIZE]
  }

  /** What hashing a finished file from scratch yields. */
  function DigestOf(b: Bytes): Digest {
    Digest(Blake3(b), Blake3(Head(b)), |b|)
  }

  class Hasher {
    var full: Bytes
    var head: Bytes
    var n: nat

    /** The hasher has seen exactly these bytes. */
    ghost predicate Holds(seen: Bytes)
      reads this
    {
      full == seen && head == Head(seen) && n == |seen|
    }

    constructor ()
      ensures Holds([])
    {
      full, head, n := [], [], 0;
    }

    method Write(p: Bytes)
      modifies this
      ensures forall seen | old(Holds(seen)) :: Holds(seen + p)
    {
      ghost var before := full;
      full := full + p;
      var remaining := HEAD_SIZE - n;
      if remaining > 0 {
        var part := p;
        if |part| > remaining {
          part := part[..remaining];
        }
        head := head + part;
      }
      n := n + |p|;
    }

    method Sum() returns (d: Digest)
      ensures forall seen | Holds(seen) :: d == DigestOf(seen)
    {
      d := Digest(Blake3(full), Blake3(head), n);
    }

    method Reset()
      modifies this
      ensures Holds([])
    {
      full, head, n := [], [], 0;
    }
  }

  function Concat(chunks: seq<Bytes>): Bytes {
    if chunks == [] then [] else Concat(chunks[..|chunks| - 1]) + chunks[|chunks| - 1]
  }

  /** `Reader`: whatever sizes the reads come back in, the digest is that of the whole stream. */
  method Reader(pieces: seq<Bytes>) returns (d: Digest)
    ensures d == DigestOf(Concat(pieces))
  {
    var h := new Hasher();
    for i := 0 to |pieces|
      invariant fresh(h) && h.Holds(Concat(pieces[..i]))
    {
      assert pieces[..i + 1][..i] == pieces[..i];
      if |pieces[i]| > 0 {
        h.Write(pieces[i]);
      }
    }
    assert pieces[..|pieces|] == pieces;
    d := h.Sum();
  }
}
