/**
  Text as the original sees it. A Go string that has been cleaned is a sequence of Unicode scalar
  values, which is what a Dafny `char` is; lengths, however, are counted in UTF-8 bytes
  (RFC 3629, section 3), so both views are here together with what connects them.
*/
module Texts {
  import opened Wrappers

  type Byte = b: int | 0 <= b < 256
  type Bytes = seq<Byte>

  /** One character as bytes: the length is chosen by the code point alone (RFC 3629, section 3). */
  function Encode(c: char): (r: Bytes)
    ensures 1 <= |r| <= 4
    ensures c as int < 0x80 ==> r == [c as int]
    ensures c as int >= 0x80 ==> forall i | 0 <= i < |r| :: r[i] >= 0x80
  {
    var n := c as int;
    if n < 0x80 then [n]
    else if n < 0x800 then [0xC0 + n / 64, 0x80 + n % 64]
    else if n < 0x10000 then [0xE0 + n / 64 / 64, 0x80 + n / 64 % 64, 0x80 + n % 64]
    else [0xF0 + n / 64 / 64 / 64, 0x80 + n / 64 / 64 % 64, 0x80 + n / 64 % 64, 0x80 + n % 64]
  }

  predicate Continues(b: Byte) { 0x80 <= b < 0xC0 }

  /** How many bytes a sequence that starts with this byte has; 0 when none may start with it. */
  function Announced(b: Byte): nat {
    if b < 0x80 then 1 else if b < 0xC0 then 0 else if b < 0xE0 then 2 else if b < 0xF0 then 3 else if b < 0xF8 then 4
    else 0
  }

  predicate Scalar(n: int) { 0 <= n < 0xD800 || 0xE000 <= n < 0x110000 }

  /** The value a well-shaped sequence carries: six bits in each byte after the first. */
  function CodePoint(b: Bytes): int
    requires 1 <= |b| <= 4
  {
    var lead: int := b[0];
    if |b| == 1 then lead
    else
      var low: int := b[1];
      var two := (lead - [0xC0, 0xE0, 0xF0][|b| - 2]) * 64 + (low - 0x80);
      if |b| == 2 then two
      else
        var next: int := b[2];
        var three := two * 64 + (next - 0x80);
        if |b| == 3 then three
        else
          var last: int := b[3];
          three * 64 + (last - 0x80)
  }

  /** The character these bytes encode, when they are exactly one shortest-form sequence. */
  function Decode(b: Bytes): (r: Option<char>) {
    if 1 <= |b| <= 4 && Announced(b[0]) == |b| && (forall i | 1 <= i < |b| :: Continues(b[i])) then
      var n := CodePoint(b);
      if [0, 0x80, 0x800, 0x10000][|b| - 1] <= n && Scalar(n) then Some(n as char) else None
    else None
  }

  lemma EncodeShape(c: char)
    ensures var e := Encode(c);
      Announced(e[0]) == |e| && (forall i | 1 <= i < |e| :: Continues(e[i])) && !Continues(e[0])
  {
  }

  lemma DecodeEncode(c: char)
    ensures Decode(Encode(c)) == Some(c)
  {
    EncodeShape(c);
    var n := c as int;
    assert n == n / 64 * 64 + n % 64;
    assert n / 64 == n / 64 / 64 * 64 + n / 64 % 64;
    assert CodePoint(Encode(c)) == n;
  }

  function Flat(parts: seq<Bytes>): Bytes {
    if parts == [] then [] else Flat(parts[..|parts| - 1]) + parts[|parts| - 1]
  }

  lemma {:induction false} FlatConcat(p: seq<Bytes>, q: seq<Bytes>)
    ensures Flat(p + q) == Flat(p) + Flat(q)
  {
    if q == [] {
      assert p + q == p;
    } else {
      FlatConcat(p, q[..|q| - 1]);
      assert (p + q)[..|p + q| - 1] == p + q[..|q| - 1];
    }
  }

  /** The UTF-8 form of a text. Its length is what Go's `len` reports. */
  function Utf8(s: string): Bytes {
    Flat(seq(|s|, i requires 0 <= i < |s| => Encode(s[i])))
  }

  lemma Utf8Concat(s: string, t: string)
    ensures Utf8(s + t) == Utf8(s) + Utf8(t)
  {
    var p, q := seq(|s|, i requires 0 <= i < |s| => Encode(s[i])), seq(|t|, i requires 0 <= i < |t| => Encode(t[i]));
    FlatConcat(p, q);
    assert seq(|s + t|, i requires 0 <= i < |s + t| => Encode((s + t)[i])) == p + q;
  }

  lemma Utf8One(c: char)
    ensures Utf8([c]) == Encode(c)
  {
    var p := [Encode(c)];
    assert seq(1, i requires 0 <= i < 1 => Encode([c][i])) == p;
    assert p[..0] == [];
    assert Flat(p) == Encode(c);
  }

  lemma Utf8Append(s: string, c: char)
    ensures Utf8(s + [c]) == Utf8(s) + Encode(c)
  {
    Utf8Concat(s, [c]);
    Utf8One(c);
  }

  /** Splitting off the last character. */
  lemma Utf8Last(s: string)
    requires s != []
    ensures Utf8(s) == Utf8(s[..|s| - 1]) + Encode(s[|s| - 1])
  {
    Utf8Append(s[..|s| - 1], s[|s| - 1]);
    assert s == s[..|s| - 1] + [s[|s| - 1]];
  }

  lemma Utf8Empty()
    ensures Utf8([]) == []
  {
  }

  lemma Utf8Prefix(r: string, s: string)
    requires r <= s
    ensures Utf8(r) <= Utf8(s)
  {
    assert s == r + s[|r|..];
    Utf8Concat(r, s[|r|..]);
  }

  lemma {:induction false} Utf8Ascii(s: string)
    requires forall i | 0 <= i < |s| :: s[i] as int < 0x80
    ensures |Utf8(s)| == |s|
  {
    if s == [] {
      Utf8Empty();
    } else {
      Utf8Ascii(s[..|s| - 1]);
      Utf8Last(s);
    }
  }

  /** How many leading characters fit into `n` bytes without splitting one. */
  function WholeChars(s: string, n: nat): (k: nat)
    ensures k <= |s|
  {
    if |Utf8(s)| <= n || s == [] then |s| else WholeChars(s[..|s| - 1], n)
  }

  /** They fit, and one more would not. */
  lemma {:induction false} WholeCharsFit(s: string, n: nat)
    ensures |Utf8(s[..WholeChars(s, n)])| <= n
    ensures WholeChars(s, n) < |s| ==> |Utf8(s[..WholeChars(s, n) + 1])| > n
  {
    if |Utf8(s)| <= n || s == [] {
      Utf8Empty();
      assert s[..|s|] == s;
    } else {
      var short, k := s[..|s| - 1], WholeChars(s, n);
      WholeCharsFit(short, n);
      assert short[..k] == s[..k];
      if k < |short| {
        assert short[..k + 1] == s[..k + 1];
      } else {
        assert s[..k + 1] == s;
      }
    }
  }

  predicate EndTrimmed(c: char) { c == ' ' || c == '.' }

  function TrimEnd(s: string): (r: string)
    ensures r <= s
    ensures r != [] ==> !EndTrimmed(r[|r| - 1])
  {
    if s != [] && EndTrimmed(s[|s| - 1]) then TrimEnd(s[..|s| - 1]) else s
  }

  function TrimStart(s: string, c: char): string {
    if s != [] && s[0] == c then TrimStart(s[1..], c) else s
  }

  lemma {:induction false} TrimStartIsSuffix(s: string, c: char) returns (n: nat)
    ensures n <= |s| && TrimStart(s, c) == s[n..]
    ensures n < |s| ==> s[n] != c
    ensures forall i | 0 <= i < n :: s[i] == c
  {
    if s != [] && s[0] == c {
      n := TrimStartIsSuffix(s[1..], c);
      n := n + 1;
    } else {
      n := 0;
    }
  }

  /** `truncate`: at most `n` bytes, no character split, no trailing dot or space where it was cut. */
  function Truncated(s: string, n: int): (r: string)
    ensures r <= s
    ensures |Utf8(r)| <= if n <= 0 then 0 else n
    ensures r == s || r == [] || !EndTrimmed(r[|r| - 1])
  {
    if n <= 0 then
      Utf8Empty();
      []
    else if |Utf8(s)| <= n then s
    else
      WholeCharsFit(s, n);
      var cut := s[..WholeChars(s, n)];
      Utf8Prefix(TrimEnd(cut), cut);
      TrimEnd(cut)
  }

  lemma {:induction false} TrimEndIsLongest(s: string, p: string)
    requires p <= s && (p == "" || !EndTrimmed(p[|p| - 1]))
    ensures |p| <= |TrimEnd(s)|
  {
    if s != [] && EndTrimmed(s[|s| - 1]) {
      assert p != s;
      assert p <= s[..|s| - 1];
      TrimEndIsLongest(s[..|s| - 1], p);
    }
  }

  /** Text that fits stays; of any other the longest beginning that fits and ends in neither a dot nor a space. */
  lemma TruncatedIsLongest(s: string, n: nat, p: string)
    requires p <= s && |Utf8(p)| <= n && (p == "" || !EndTrimmed(p[|p| - 1]))
    ensures |Utf8(s)| <= n && n > 0 ==> Truncated(s, n) == s
    ensures |p| <= |Truncated(s, n)|
  {
    hide Utf8, TrimEnd, WholeChars;
    if n == 0 {
      NoBytesNoText(p);
    } else if |Utf8(s)| > n {
      WholeCharsFit(s, n);
      var k := WholeChars(s, n);
      if |p| > k {
        Utf8Prefix(s[..k + 1], p);
      }
      TrimEndIsLongest(s[..k], p);
    }
  }

  lemma NoBytesNoText(p: string)
    requires |Utf8(p)| == 0
    ensures p == ""
  {
    hide Utf8;
    if p != "" {
      Utf8Last(p);
    }
  }

  // ---- truncate works on bytes; what follows shows that it computes Truncated ----

  /** utf8.DecodeLastRuneInString finds a character: some suffix is exactly one encoding. */
  predicate EndsInChar(b: Bytes) {
    exists m | 1 <= m <= 4 && m <= |b| :: CharSuffix(b, m)
  }

  predicate CharSuffix(b: Bytes, m: nat)
    requires m <= |b|
  {
    Decode(b[|b| - m..]).Some?
  }

  lemma EndsInCharAfter(b: Bytes, c: char)
    ensures EndsInChar(b + Encode(c))
  {
    DecodeEncode(c);
    var e := Encode(c);
    assert (b + e)[|b + e| - |e|..] == e;
    assert CharSuffix(b + e, |e|);
  }

  /** A character cut short is never read as a character, whatever stands before it. */
  lemma CutCharIsNone(b: Bytes, c: char, j: nat)
    requires 0 < j < |Encode(c)|
    ensures !EndsInChar(b + Encode(c)[..j])
  {
    var e := Encode(c);
    var whole := b + e[..j];
    forall m | 1 <= m <= 4 && m <= |whole|
      ensures !CharSuffix(whole, m)
    {
      var tail := whole[|whole| - m..];
      EncodeShape(c);
      if m < j {
        assert tail[0] == e[j - m] && Continues(e[j - m]);
      } else if m == j {
        assert tail[0] == e[0] && Announced(e[0]) == |e|;
      } else {
        assert tail[m - j] == e[0] && !Continues(e[0]);
      }
    }
  }

  /** Where byte `n` falls: after `k` whole characters, possibly inside the next one. */
  lemma CutAt(s: string, n: nat) returns (k: nat, j: nat)
    requires n < |Utf8(s)|
    ensures k == WholeChars(s, n) < |s|
    ensures j < |Encode(s[k])|
    ensures Utf8(s)[..n] == Utf8(s[..k]) + Encode(s[k])[..j]
  {
    hide Utf8, Encode;
    WholeCharsFit(s, n);
    k := WholeChars(s, n);
    assert s[..|s|] == s;
    j := n - |Utf8(s[..k])|;
    assert s[..k + 1] == s[..k] + [s[k]];
    Utf8Append(s[..k], s[k]);
    Utf8Prefix(s[..k + 1], s);
    TakeOfPrefix(Utf8(s[..k]), Encode(s[k]), Utf8(s), n);
  }

  lemma TakeOfPrefix(a: Bytes, b: Bytes, whole: Bytes, n: nat)
    requires a + b <= whole && |a| <= n <= |a| + |b|
    ensures whole[..n] == a + b[..n - |a|]
  {
    assert whole[..|a + b|] == a + b;
    assert whole[..n] == (a + b)[..n];
  }

  /** One step back over a text in bytes: the last byte goes, and with it nothing but the cut character. */
  method Truncate(b: Bytes, n: int, ghost s: string) returns (cut: Bytes)
    requires b == Utf8(s)
    ensures cut == Utf8(Truncated(s, n))
  {
    if n <= 0 {
      Utf8Empty();
      return [];
    }
    if |b| <= n {
      return b;
    }
    cut := b[..n];
    ghost var k, j := CutAt(s, n);
    ghost var whole, next := Utf8(s[..k]), Encode(s[k]);
    while |cut| > 0
      invariant 0 <= j < |next| && cut == whole + next[..j]
      decreases j
    {
      if EndsInChar(cut) {
        break;
      }
      if j == 0 {
        WholeEndsInChar(s[..k]);
      }
      cut := cut[..|cut| - 1];
      j := j - 1;
    }
    if j > 0 {
      CutCharIsNone(whole, s[k], j);
    }
    assert cut == whole;
    ghost var rest := s[..k];
    while cut != [] && cut[|cut| - 1] in [0x20, 0x2E]
      invariant cut == Utf8(rest) && TrimEnd(rest) == TrimEnd(s[..k])
      decreases |cut|
    {
      if rest == [] {
        Utf8Empty();
      }
      LastByte(rest);
      cut := cut[..|cut| - 1];
      rest := rest[..|rest| - 1];
    }
    if rest != [] {
      Utf8Last(rest);
      LastByte(rest);
    }
  }

  lemma WholeEndsInChar(s: string)
    ensures Utf8(s) == [] || EndsInChar(Utf8(s))
  {
    if s == [] {
      Utf8Empty();
    } else {
      Utf8Last(s);
      EndsInCharAfter(Utf8(s[..|s| - 1]), s[|s| - 1]);
    }
  }

  /** A text ends in a dot or a space exactly when its bytes do. */
  lemma LastByte(s: string)
    requires s != []
    ensures Utf8(s) != []
    ensures Utf8(s)[|Utf8(s)| - 1] in [0x20, 0x2E] <==> EndTrimmed(s[|s| - 1])
    ensures EndTrimmed(s[|s| - 1]) ==> Utf8(s)[..|Utf8(s)| - 1] == Utf8(s[..|s| - 1])
  {
    Utf8Last(s);
    var e := Encode(s[|s| - 1]);
    assert Utf8(s)[|Utf8(s)| - 1] == e[|e| - 1];
  }

  // ---- separators and numbers ----

  function Split(s: string, sep: char): (parts: seq<string>)
    ensures |parts| >= 1
    ensures forall p | p in parts :: sep !in p
  {
    if s == [] then [[]]
    else if s[0] == sep then [[]] + Split(s[1..], sep)
    else
      var rest := Split(s[1..], sep);
      [[s[0]] + rest[0]] + rest[1..]
  }

  function Join(parts: seq<string>, sep: char): string {
    if parts == [] then [] else if |parts| == 1 then parts[0] else parts[0] + [sep] + Join(parts[1..], sep)
  }

  lemma {:induction false} SplitPlain(s: string, sep: char)
    requires sep !in s
    ensures Split(s, sep) == [s]
  {
    if s != [] {
      SplitPlain(s[1..], sep);
      assert [s[0]] + s[1..] == s;
    }
  }

  lemma {:induction false} SplitPrepend(p: string, rest: string, sep: char)
    requires sep !in p
    ensures Split(p + [sep] + rest, sep) == [p] + Split(rest, sep)
  {
    var whole := p + [sep] + rest;
    if p == [] {
      assert whole[1..] == rest;
    } else {
      SplitPrepend(p[1..], rest, sep);
      assert whole[1..] == p[1..] + [sep] + rest;
      assert [p[0]] + p[1..] == p;
    }
  }

  lemma {:induction false} SplitJoin(parts: seq<string>, sep: char)
    requires parts != [] && forall p | p in parts :: sep !in p
    ensures Split(Join(parts, sep), sep) == parts
  {
    if |parts| == 1 {
      SplitPlain(parts[0], sep);
    } else {
      SplitJoin(parts[1..], sep);
      SplitPrepend(parts[0], Join(parts[1..], sep), sep);
    }
  }

  lemma {:induction false} JoinSplit(s: string, sep: char)
    ensures Join(Split(s, sep), sep) == s
  {
    if s != [] {
      JoinSplit(s[1..], sep);
      JoinFront(s[0], Split(s[1..], sep), sep);
      assert [s[0]] + s[1..] == s;
    }
  }

  /** One character more, in front of the first part or as a part's end. */
  lemma JoinFront(c: char, parts: seq<string>, sep: char)
    requires parts != []
    ensures Join([[]] + parts, sep) == [sep] + Join(parts, sep)
    ensures Join([[c] + parts[0]] + parts[1..], sep) == [c] + Join(parts, sep)
  {
    assert ([[]] + parts)[1..] == parts;
    assert ([[c] + parts[0]] + parts[1..])[1..] == parts[1..];
    if |parts| > 1 {
      assert [c] + parts[0] + [sep] + Join(parts[1..], sep) == [c] + (parts[0] + [sep] + Join(parts[1..], sep));
    }
  }

  lemma {:induction false} SplitJoinThen(parts: seq<string>, b: string, sep: char)
    requires parts != [] && forall p | p in parts :: sep !in p
    ensures Split(Join(parts, sep) + [sep] + b, sep) == parts + Split(b, sep)
  {
    hide Split;
    var first, others := parts[0], parts[1..];
    assert sep !in first;
    if others == [] {
      SplitPrepend(first, b, sep);
      assert parts == [first];
    } else {
      hide Join;
      var rest := Join(others, sep) + [sep] + b;
      SplitJoinThen(others, b, sep);
      SplitPrepend(first, rest, sep);
      JoinedFrom(parts, b, sep);
      assert parts + Split(b, sep) == [first] + (others + Split(b, sep));
    }
  }

  lemma JoinedFrom(parts: seq<string>, b: string, sep: char)
    requires |parts| > 1
    ensures Join(parts, sep) + [sep] + b == parts[0] + [sep] + (Join(parts[1..], sep) + [sep] + b)
  {
  }

  lemma SplitConcat(a: string, b: string, sep: char)
    ensures Split(a + [sep] + b, sep) == Split(a, sep) + Split(b, sep)
  {
    JoinSplit(a, sep);
    SplitJoinThen(Split(a, sep), b, sep);
  }

  function Decimal(n: nat): (r: string)
    ensures r != [] && forall c | c in r :: '0' <= c <= '9'
  {
    var digit := [('0' as int + n % 10) as char];
    if n < 10 then digit else Decimal(n / 10) + digit
  }

  /** What a row of digits says, the last one counting least. */
  function Reading(digits: string): int {
    if digits == "" then 0
    else 10 * Reading(digits[..|digits| - 1]) + (digits[|digits| - 1] as int - '0' as int)
  }

  lemma {:induction false} DecimalReads(n: nat)
    ensures Reading(Decimal(n)) == n && (n > 0 ==> Decimal(n)[0] != '0')
  {
    var digit := [('0' as int + n % 10) as char];
    if n < 10 {
      assert digit[..0] == "";
    } else {
      DecimalReads(n / 10);
      assert (Decimal(n / 10) + digit)[..|Decimal(n / 10)|] == Decimal(n / 10);
    }
  }

  lemma DecimalInjective(a: nat, b: nat)
    requires Decimal(a) == Decimal(b)
    ensures a == b
  {
    hide Decimal, Reading;
    DecimalReads(a);
    DecimalReads(b);
  }

  function Pow10(k: nat): nat { if k == 0 then 1 else 10 * Pow10(k - 1) }

  lemma {:induction false} DecimalLength(n: nat, k: nat)
    requires 1 <= k && n < Pow10(k)
    ensures |Decimal(n)| <= k
  {
    if n >= 10 {
      assert k > 1;
      DecimalLength(n / 10, k - 1);
    }
  }
}
