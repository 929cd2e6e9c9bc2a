/**
  core/receiver/upload.go: an upload is hashed while its bytes land, over as many chunks as it takes,
  and the running digest is used for the finished file when it covers all of it. The state machine
  says what one upload goes through; the class is the original's table of running hashers.
*/
module Uploads {
  import opened Wrappers
  import opened Texts
  import opened Naming
  import opened OutputPolicy
  import opened Hashing
  import opened Ledger
  import opened Allocator
  import opened ReceiverRuns
  import opened Conversions
  import opened Receiver

  /** What a running hasher has absorbed, and how much of the upload it is believed to cover. */
  datatype Run = Run(seen: Bytes, offset: nat)

  datatype Up = Up(bin: Bytes, run: Option<Run>)

  /** One buffer of a copy, and how many of its bytes the file took: a short write ends the copy. */
  datatype Buffer = Buffer(data: Bytes, landed: nat)

  predicate Full(b: Buffer) { b.landed >= |b.data| }

  /** What landed of a short write. */
  function Landed(b: Buffer): Bytes {
    if Full(b) then b.data else b.data[..b.landed]
  }

  datatype Event =
    | Chunk(offset: nat, buffers: seq<Buffer>)
    | Restart(tail: Bytes)
    | Forget

  /** `hasherFor`. */
  function HasherAt(run: Option<Run>, offset: nat): Option<Run> {
    if run.Some? && run.value.offset == offset then run
    else if offset != 0 then None
    else Some(Run([], 0))
  }

  /** One write to the file and the hasher: a short one reaches the file and not the hasher. */
  function Absorbed(up: Up, b: Buffer): Up {
    Up(up.bin + Landed(b),
       if up.run.Some? && Full(b) then Some(up.run.value.(seen := up.run.value.seen + b.data)) else up.run)
  }

  /** The copy of a request's body, which ends at the first short write. */
  function CopyInto(up: Up, buffers: seq<Buffer>): Up {
    if buffers == [] then up
    else
      var before := CopyInto(up, buffers[..|buffers| - 1]);
      var b := buffers[|buffers| - 1];
      if exists c | c in buffers[..|buffers| - 1] :: !Full(c) then before
      else Absorbed(before, b)
  }

  /** `advanceHasher`, which is called when anything was written. */
  function Advanced(up: Up, before: nat): Up {
    if |up.bin| > before && up.run.Some? then up.(run := Some(up.run.value.(offset := |up.bin|))) else up
  }

  /** `WriteChunk`. */
  function Chunked(up: Up, offset: nat, buffers: seq<Buffer>): Up {
    if |up.bin| != offset then up
    else Advanced(CopyInto(up.(run := HasherAt(up.run, offset)), buffers), offset)
  }

  function After(up: Up, e: Event): Up {
    match e
    case Chunk(offset, buffers) => Chunked(up, offset, buffers)
    case Restart(tail) => Up(up.bin + tail, None)
    case Forget => up.(run := None)
  }

  /** One upload from its creation on. */
  function Played(events: seq<Event>): Up {
    if events == [] then Up([], None) else After(Played(events[..|events| - 1]), events[|events| - 1])
  }

  /** `digest`: the running one when it covers the whole file, the re-read one otherwise. */
  function Used(up: Up, size: nat): Digest {
    if up.run.Some? && up.run.value.offset == size then DigestOf(up.run.value.seen) else DigestOf(up.bin)
  }

  // ---- when the shortcut is right ----

  /** Some write of this copy was short and not empty, before any that was short and empty. */
  function Tears(buffers: seq<Buffer>): bool {
    buffers != [] &&
    (Tears(buffers[..|buffers| - 1]) ||
     ((forall c | c in buffers[..|buffers| - 1] :: Full(c)) && !Full(buffers[|buffers| - 1]) &&
         buffers[|buffers| - 1].landed > 0))
  }

  /** A torn write since the running hasher was started. */
  function Torn(events: seq<Event>): bool {
    if events == [] then false
    else
      var up, before := Played(events[..|events| - 1]), Torn(events[..|events| - 1]);
      match events[|events| - 1]
      case Chunk(offset, buffers) =>
        if |up.bin| != offset then before
        else (up.run.Some? && before) || Tears(buffers)
      case _ => false
  }

  lemma {:induction false} CopyGrows(up: Up, buffers: seq<Buffer>)
    ensures up.bin <= CopyInto(up, buffers).bin && (CopyInto(up, buffers).run.Some? <==> up.run.Some?)
  {
    if buffers != [] {
      CopyGrows(up, buffers[..|buffers| - 1]);
    }
  }

  lemma CopyStopped(up: Up, buffers: seq<Buffer>, i: nat, k: nat)
    requires k < i < |buffers| && !Full(buffers[k])
    ensures CopyInto(up, buffers) == CopyInto(up, buffers[..|buffers| - 1])
  {
    hide Absorbed, Full;
    assert buffers[k] in buffers[..|buffers| - 1];
  }

  lemma {:induction false} CopyStops(up: Up, buffers: seq<Buffer>, i: nat)
    requires i <= |buffers| && (i < |buffers| ==> exists k: nat | k < i :: !Full(buffers[k]))
    ensures CopyInto(up, buffers) == CopyInto(up, buffers[..i])
  {
    hide Absorbed, Full, CopyInto;
    if i < |buffers| {
      var k: nat :| k < i && !Full(buffers[k]);
      var short := buffers[..|buffers| - 1];
      assert short[..i] == buffers[..i] && short[k] == buffers[k];
      CopyStopped(up, buffers, i, k);
      CopyStops(up, short, i);
    } else {
      assert buffers[..i] == buffers;
    }
  }

  /** The hasher sees all that lands but the part of a torn write. */
  lemma {:induction false} CopyHashes(up: Up, buffers: seq<Buffer>)
    requires up.run.Some?
    ensures var v := CopyInto(up, buffers);
      && v.run.Some? && v.run.value.offset == up.run.value.offset
      && |v.run.value.seen| - |up.run.value.seen| <= |v.bin| - |up.bin|
      && (Tears(buffers) <==> |v.run.value.seen| - |up.run.value.seen| < |v.bin| - |up.bin|)
      && (up.run.value.seen == up.bin && !Tears(buffers) ==> v.run.value.seen == v.bin)
  {
    if buffers != [] {
      var short := buffers[..|buffers| - 1];
      CopyHashes(up, short);
      if Tears(short) {
        TearStops(short);
      }
    }
  }

  lemma {:induction false} TearStops(buffers: seq<Buffer>)
    requires Tears(buffers)
    ensures exists c | c in buffers :: !Full(c)
  {
    var last := buffers[|buffers| - 1];
    if Tears(buffers[..|buffers| - 1]) {
      TearStops(buffers[..|buffers| - 1]);
    } else {
      assert last in buffers && !Full(last);
    }
  }

  /** Whatever happened, a running hasher is believed to cover the file as it stands. */
  predicate Tracks(up: Up, torn: bool) {
    up.run.Some? ==>
      && up.run.value.offset == |up.bin|
      && (torn <==> |up.run.value.seen| < |up.bin|)
      && (!torn ==> up.run.value.seen == up.bin)
  }

  lemma {:induction false} TracksInEveryHistory(events: seq<Event>)
    ensures Tracks(Played(events), Torn(events))
  {
    if events != [] {
      var before := events[..|events| - 1];
      TracksInEveryHistory(before);
      var up := Played(before);
      match events[|events| - 1]
      case Chunk(offset, buffers) =>
        if |up.bin| == offset {
          var start := up.(run := HasherAt(up.run, offset));
          CopyGrows(start, buffers);
          if start.run.Some? {
            CopyHashes(start, buffers);
          }
        }
      case _ =>
    }
  }

  /**
    Over any split into chunks, any dropped connections, resumes and restarts: the digest of a
    finished upload is the one of its bytes read from scratch, full and head alike, if and only if
    no write was torn since the hasher that is used for it was started.
  */
  lemma DigestIsOfTheFile(events: seq<Event>, size: nat)
    ensures var up := Played(events);
      Used(up, size) == DigestOf(up.bin) <==> !(up.run.Some? && size == |up.bin| && Torn(events))
  {
    TracksInEveryHistory(events);
  }

  /** So an upload is stored under its own digest, and refused for a wrong one, unless a write was torn. */
  lemma WholeUploadsAreStoredAsThemselves(events: seq<Event>, size: nat)
    requires !Torn(events)
    ensures Used(Played(events), size) == DigestOf(Played(events).bin)
    ensures Used(Played(events), size).full == Blake3(Played(events).bin)
  {
    DigestIsOfTheFile(events, size);
  }

  /** With whole writes only, how the bytes were cut up plays no part at all. */
  lemma ChunkingPlaysNoPart(one: seq<Event>, other: seq<Event>, size: nat)
    requires WholeWrites(one) && WholeWrites(other) && Played(one).bin == Played(other).bin
    ensures Used(Played(one), size) == Used(Played(other), size) == DigestOf(Played(one).bin)
  {
    WholeWritesNeverTear(one);
    WholeWritesNeverTear(other);
    DigestIsOfTheFile(one, size);
    DigestIsOfTheFile(other, size);
  }

  predicate WholeWrites(events: seq<Event>) {
    forall e | e in events && e.Chunk? :: forall b | b in e.buffers :: Full(b) || b.landed == 0
  }

  lemma {:induction false} WholeNeverTears(buffers: seq<Buffer>)
    requires forall b | b in buffers :: Full(b) || b.landed == 0
    ensures !Tears(buffers)
  {
    if buffers != [] {
      WholeNeverTears(buffers[..|buffers| - 1]);
    }
  }

  lemma {:induction false} WholeWritesNeverTear(events: seq<Event>)
    requires WholeWrites(events)
    ensures !Torn(events)
  {
    if events != [] {
      WholeWritesNeverTear(events[..|events| - 1]);
      var e := events[|events| - 1];
      assert e in events;
      if e.Chunk? {
        WholeNeverTears(e.buffers);
      }
    }
  }

  /** The smallest history that goes wrong: one byte of two lands, and the rest is sent again. */
  lemma TornWriteGoesUnnoticed(a: Byte, b: Byte)
    ensures var up := Played([Chunk(0, [Buffer([a, b], 1)]), Chunk(1, [Buffer([b], 1)])]);
      up.bin == [a, b] && Used(up, 2) == DigestOf([b]) != DigestOf([a, b])
  {
    var first := [Buffer([a, b], 1)];
    var second := [Buffer([b], 1)];
    var events := [Chunk(0, first), Chunk(1, second)];
    assert first[..0] == [] && second[..0] == [];
    assert CopyInto(Up([], Some(Run([], 0))), first) == Up([a], Some(Run([], 0)));
    assert events[..1] == [Chunk(0, first)] && events[..1][..0] == [];
    assert Played(events[..1][..0]) == Up([], None);
    assert Played(events[..1]) == Up([a], Some(Run([], 1)));
    assert CopyInto(Up([a], Some(Run([], 1))), []) == Up([a], Some(Run([], 1)));
    assert CopyInto(Up([a], Some(Run([], 1))), second) == Up([a] + [b], Some(Run([] + [b], 1)));
    assert [a] + [b] == [a, b] && [] + [b] == [b];
    assert Played(events) == After(Played(events[..1]), events[1]);
    assert Played(events) == Up([a, b], Some(Run([b], 2)));
  }

  // ---- the receiver's table of uploads ----

  /** The declared size and hash, and the request that the metadata translates to, if it does. */
  datatype Info = Info(size: nat, declared: Option<Hash>, incoming: Option<Incoming>)

  datatype RunningHash = RunningHash(h: Hasher, offset: nat)

  datatype FinishError = NotRead | ChecksumMismatch | BadMetadata | NotCommitted(error: CommitError)

  /** The content is in the ledger: it was already, and nothing changed, or it is now. */
  predicate Kept(before: World, after: World, c: Committed, inc: Incoming, bytes: Bytes) {
    if c.deduplicated then after == before && Duplicate(before.files, c.path, inc)
    else HoldsCommit(after, c.path, inc, bytes)
  }

  /** Nothing is in the ledger that was not, but for the traces of a file that could not be moved. */
  predicate LeftAlone(before: World, after: World, e: FinishError, fate: CommitFate) {
    if e != NotCommitted(NotMoved) then after == before
    else fate.renameFails && (fate.rowGone && fate.fileGone ==> after == before.(pairs := after.pairs))
  }

  lemma NothingTouched(w: World, e: FinishError, fate: CommitFate)
    requires !e.NotCommitted?
    ensures LeftAlone(w, w, e, fate)
  {
  }

  /** The receiver was asked, and this is what it said. */
  predicate Answered(r: Result<Committed, FinishError>) { r.Ok? || r.error.NotCommitted? }

  function Answer(r: Result<Committed, FinishError>): Result<Committed, CommitError>
    requires Answered(r)
  {
    if r.Ok? then Ok(r.value) else Err(r.error.error)
  }

  /** The upload as the receiver takes it, or does not. */
  method Submit(receiver: Receiver, inc: Incoming, tmpl: string, policy: Policy, bytes: Bytes, fate: CommitFate)
      returns (r: Result<Committed, FinishError>)
    requires receiver.Valid()
    modifies receiver
    ensures receiver.Valid()
    ensures Answered(r) && ComesTo(receiver.u, old(receiver.now), inc, tmpl, policy, fate, Answer(r))
    ensures r.Ok? ==> Kept(old(receiver.now), receiver.now, r.value, inc, bytes)
    ensures r.Err? ==> LeftAlone(old(receiver.now), receiver.now, r.error, fate)
  {
    hide HoldsCommit, Duplicate, Filed, RowsOk, Enabled, Apply, Runs, Exec, PlaceAt, DiskKey;
    hide Decide, Classify;
    EmptyRun(receiver.u, receiver.now);
    var committed, _ := receiver.Commit(inc, tmpl, policy, bytes, fate);
    r := if committed.Ok? then Ok(committed.value) else Err(NotCommitted(committed.error));
  }

  class UploadStore {
    var bins: map<string, Bytes>
    var infos: map<string, Info>
    var running: map<string, RunningHash>

    /** Every upload has its own hasher, in a state some bytes explain. */
    ghost predicate Valid()
      reads this, Hashers()
    {
      && (forall i, j | i in running && j in running && i != j :: running[i].h != running[j].h)
      && (forall i | i in running :: i in bins && running[i].h.Holds(running[i].h.full))
    }

    ghost function Hashers(): set<Hasher>
      reads this
    {
      set i | i in running :: running[i].h
    }

    /** One upload as the state machine sees it. */
    ghost function Look(id: string): Up
      requires id in bins
      reads this, Hashers()
    {
      Up(bins[id], if id in running then Some(Run(running[id].h.full, running[id].offset)) else None)
    }

    constructor ()
      ensures Valid() && bins == map[] && running == map[]
    {
      bins, infos, running := map[], map[], map[];
    }

    method NewUpload(id: string, info: Info)
      requires Valid() && id !in bins
      modifies this
      ensures Valid() && bins == old(bins)[id := []] && infos == old(infos)[id := info] && running == old(running)
      ensures Look(id) == Played([])
    {
      bins, infos := bins[id := []], infos[id := info];
    }

    method HasherFor(id: string, offset: nat) returns (h: Option<Hasher>)
      requires Valid() && id in bins
      modifies this`running
      ensures Valid() && fresh(Hashers() - old(Hashers()))
      ensures Look(id) == old(Look(id)).(run := HasherAt(old(Look(id)).run, offset))
      ensures forall j | j in bins && j != id :: Look(j) == old(Look(j))
      ensures h.Some? <==> id in running
      ensures h.Some? ==> h.value == running[id].h
    {
      if id in running && running[id].offset == offset {
        return Some(running[id].h);
      }
      if offset != 0 {
        running := running - {id};
        return None;
      }
      var hasher := new Hasher();
      running := running[id := RunningHash(hasher, 0)];
      return Some(hasher);
    }

    method AdvanceHasher(id: string, offset: nat)
      requires Valid() && id in bins
      modifies this`running
      ensures Valid() && Hashers() == old(Hashers())
      ensures running.Keys == old(running).Keys
      ensures Look(id) == if id in running then Up(bins[id], Some(Run(running[id].h.full, offset))) else old(Look(id))
      ensures id in running ==> running[id].h == old(running)[id].h
      ensures forall j | j in bins && j != id :: Look(j) == old(Look(j))
    {
      if id in running {
        running := running[id := running[id].(offset := offset)];
      }
      assert forall i | i in old(running) :: i in running && running[i].h == old(running)[i].h;
    }

    /** The hasher of this upload, if it is believed to cover all of it; forgotten either way. */
    method TakeHasher(id: string, size: nat) returns (h: Option<Hasher>)
      requires Valid()
      modifies this`running
      ensures Valid() && running == old(running) - {id} && Hashers() <= old(Hashers())
      ensures if id in old(running) && old(running)[id].offset == size then h == Some(old(running)[id].h) else h == None
    {
      h := if id in running && running[id].offset == size then Some(running[id].h) else None;
      running := running - {id};
    }

    /** One buffer goes to the file, and to the hasher when the file took all of it. */
    method WriteBuffer(id: string, h: Option<Hasher>, b: Buffer)
      requires Valid() && id in bins && (h.Some? <==> id in running) && (h.Some? ==> h.value == running[id].h)
      modifies this`bins, Hashers()
      ensures Valid() && bins.Keys == old(bins).Keys
      ensures Look(id) == Absorbed(old(Look(id)), b)
      ensures forall j | j in bins && j != id :: Look(j) == old(Look(j))
    {
      bins := bins[id := bins[id] + Landed(b)];
      if Full(b) && h.Some? {
        assert h.value.Holds(h.value.full);
        h.value.Write(b.data);
      }
    }

    method WriteChunk(id: string, offset: nat, buffers: seq<Buffer>) returns (n: Option<nat>)
      requires Valid() && id in bins
      modifies this`bins, this`running, Hashers()
      ensures Valid() && bins.Keys == old(bins).Keys && fresh(Hashers() - old(Hashers()))
      ensures Look(id) == Chunked(old(Look(id)), offset, buffers)
      ensures forall j | j in bins && j != id :: Look(j) == old(Look(j))
      ensures n == if |old(bins)[id]| != offset then None else Some(|bins[id]| - offset)
    {
      hide CopyInto, HasherAt;
      if |bins[id]| != offset {
        return None;
      }
      var h := HasherFor(id, offset);
      CopyAll(id, h, buffers);
      if |bins[id]| > offset {
        AdvanceHasher(id, |bins[id]|);
      }
      n := Some(|bins[id]| - offset);
    }

    /** `io.Copy` over the request's body. */
    method CopyAll(id: string, h: Option<Hasher>, buffers: seq<Buffer>)
      requires Valid() && id in bins && (h.Some? <==> id in running) && (h.Some? ==> h.value == running[id].h)
      modifies this`bins, Hashers()
      ensures Valid() && bins.Keys == old(bins).Keys
      ensures Look(id) == CopyInto(old(Look(id)), buffers)
      ensures |bins[id]| >= |old(bins)[id]|
      ensures forall j | j in bins && j != id :: Look(j) == old(Look(j))
    {
      hide Absorbed;
      var i, whole := 0, true;
      while i < |buffers| && whole
        invariant 0 <= i <= |buffers| && Valid() && bins.Keys == old(bins).Keys
        invariant Look(id) == CopyInto(old(Look(id)), buffers[..i])
        invariant if whole then forall c | c in buffers[..i] :: Full(c) else i > 0 && !Full(buffers[i - 1])
        invariant forall j | j in bins && j != id :: Look(j) == old(Look(j))
      {
        assert buffers[..i + 1][..i] == buffers[..i];
        WriteBuffer(id, h, buffers[i]);
        whole := Full(buffers[i]);
        i := i + 1;
      }
      assert buffers[..|buffers|] == buffers;
      CopyStops(old(Look(id)), buffers, i);
      CopyGrows(old(Look(id)), buffers);
    }

    /** `digest`. The caller has the whole file; the running hasher is given up either way. */
    method DigestFor(id: string, readFails: bool) returns (d: Option<Digest>)
      requires Valid() && id in bins && id in infos
      modifies this`running
      ensures Valid() && running == old(running) - {id}
      ensures d == if readFails && !old(Covered(id)) then None else Some(old(Found(id)))
    {
      var h := TakeHasher(id, infos[id].size);
      if h.Some? {
        var sum := h.value.Sum();
        assert h.value.Holds(h.value.full);
        return Some(sum);
      }
      if readFails {
        return None;
      }
      return Some(DigestOf(bins[id]));
    }

    /** The digest that would be found for this upload now. */
    ghost function Found(id: string): Digest
      requires id in bins && id in infos
      reads this, Hashers()
    {
      Used(Look(id), infos[id].size)
    }

    /** A running hasher covers the whole file. */
    ghost predicate Covered(id: string)
      requires id in infos
      reads this
    {
      id in running && running[id].offset == infos[id].size
    }

    /** What `FinishUpload` checks before anything is stored. */
    method Check(id: string, readFails: bool) returns (r: Result<Incoming, FinishError>)
      requires Valid() && id in bins && id in infos
      modifies this`running, this`bins, this`infos
      ensures Valid() && running == old(running) - {id}
      ensures r == Err(NotRead) <==> readFails && !old(Covered(id))
      ensures r == Err(ChecksumMismatch) <==>
        r != Err(NotRead) && old(infos)[id].declared.Some? && old(infos)[id].declared.value != old(Found(id)).full
      ensures r == Err(BadMetadata) <==>
        r != Err(NotRead) && r != Err(ChecksumMismatch) && old(infos)[id].incoming.None?
      ensures r.Err? ==> !r.error.NotCommitted?
      ensures r.Ok? ==> r.value == old(infos)[id].incoming.value.(digest := old(Found(id)))
      ensures bins == if r == Err(ChecksumMismatch) then old(bins) - {id} else old(bins)
      ensures infos == if r == Err(ChecksumMismatch) then old(infos) - {id} else old(infos)
    {
      hide Used;
      var found := DigestFor(id, readFails);
      if found.None? {
        return Err(NotRead);
      }
      var digest := found.value;
      if infos[id].declared.Some? && infos[id].declared.value != digest.full {
        bins, infos := bins - {id}, infos - {id};
        return Err(ChecksumMismatch);
      }
      if infos[id].incoming.None? {
        return Err(BadMetadata);
      }
      return Ok(infos[id].incoming.value.(digest := digest));
    }

    /**
      `FinishUpload`: what is stored is the file's bytes under the digest that was found for it. A
      declared hash that differs costs the upload; an upload the receiver refuses stays where it is.
    */
    method FinishUpload(id: string, receiver: Receiver, tmpl: string, policy: Policy, readFails: bool, fate: CommitFate)
        returns (r: Result<Committed, FinishError>)
      requires Valid() && id in bins && id in infos && receiver.Valid()
      modifies this`running, this`bins, this`infos, receiver
      ensures Valid() && receiver.Valid() && running == old(running) - {id}
      ensures r == Err(NotRead) <==> readFails && !old(Covered(id))
      ensures r == Err(ChecksumMismatch) <==>
        r != Err(NotRead) && old(infos)[id].declared.Some? && old(infos)[id].declared.value != old(Found(id)).full
      ensures r == Err(BadMetadata) <==>
        r != Err(NotRead) && r != Err(ChecksumMismatch) && old(infos)[id].incoming.None?
      ensures Answered(r) ==>
        var inc := old(infos)[id].incoming.value.(digest := old(Found(id)));
        ComesTo(receiver.u, old(receiver.now), inc, tmpl, policy, fate, Answer(r))
      ensures r.Err? ==> LeftAlone(old(receiver.now), receiver.now, r.error, fate)
      ensures bins == if r.Ok? || r.error == ChecksumMismatch then old(bins) - {id} else old(bins)
      ensures infos == if r.Ok? || r.error == ChecksumMismatch then old(infos) - {id} else old(infos)
      ensures r.Ok? ==>
        var inc := old(infos)[id].incoming.value.(digest := old(Found(id)));
        Kept(old(receiver.now), receiver.now, r.value, inc, old(bins)[id])
    {
      hide Filed, RowsOk, Kept, LeftAlone, Used, ComesTo;
      var bytes := bins[id];
      var asked := Check(id, readFails);
      if asked.Err? {
        assert LeftAlone(old(receiver.now), receiver.now, asked.error, fate) by {
          NothingTouched(receiver.now, asked.error, fate);
        }
        return Err(asked.error);
      }
      r := Submit(receiver, asked.value, tmpl, policy, bytes, fate);
      if r.Ok? {
        bins, infos := bins - {id}, infos - {id};
      }
    }

    /** The process is gone and another one starts over the same directory. */
    method RestartStore()
      modifies this`running
      ensures Valid() && running == map[]
    {
      running := map[];
    }
  }
}
