/**
  core/naming: a user's template and a peer's untrusted values become a destination path.
  The functions say what each step computes, the methods are the loops of the original, and the
  lemmas say what every successful rendering is good for: it fits, it stays under the root, and
  the collision counter always changes it.
*/
module Naming {
  import opened Wrappers
  import opened Texts

  /** `maxComponent`, in bytes. */
  const MAX_COMPONENT := 200

  /** The largest value of the counter's type, a signed 64-bit integer. */
  const MAX_COUNTER := 0x7FFF_FFFF_FFFF_FFFF

  /** What the Unicode tables say outside ASCII: format characters (Cf), letters or digits, lower case. */
  datatype Unicode = Unicode(format: char -> bool, alnum: char -> bool, lower: char -> char)

  /** A capture date, already laid out as the six fields a template may mention. */
  datatype Stamp = Stamp(year: string, month: string, day: string, hour: string, minute: string, second: string)

  datatype Vars = Vars(captured: Option<Stamp>, originalName: string, device: string, album: string, hash: string)

  function FileName(base: string, ext: string): string {
    if ext == "" then base else base + "." + ext
  }

  datatype Rendered = Rendered(dir: string, base: string, ext: string) {
    function Path(): string {
      if dir == "" then FileName(base, ext) else dir + "/" + FileName(base, ext)
    }
  }

  datatype NameError = NegativeCounter | EmptyResult

  // ---- one path component ----

  predicate Separator(c: char) { c == '/' || c == '\\' }

  predicate Control(c: char) { c as int < 0x20 || c as int == 0x7F }

  /** Illegal on Windows and on the shares it serves. */
  predicate Refused(c: char) {
    c == '<' || c == '>' || c == ':' || c == '"' || c == '|' || c == '?' || c == '*'
  }

  predicate Forbidden(c: char) {
    Separator(c) || Control(c) || Refused(c)
  }

  function CleanChar(u: Unicode, c: char): (r: char)
    ensures !Forbidden(r)
  {
    if Forbidden(c) || (c as int >= 0x80 && u.format(c)) then '_' else c
  }

  function CleanChars(u: Unicode, s: string): (r: string)
    ensures |r| == |s| && forall i | 0 <= i < |s| :: r[i] == CleanChar(u, s[i])
  {
    seq(|s|, i requires 0 <= i < |s| => CleanChar(u, s[i]))
  }

  function UpperAscii(s: string): string {
    seq(|s|, i requires 0 <= i < |s| => if 'a' <= s[i] <= 'z' then (s[i] as int - 32) as char else s[i])
  }

  /** Device names Windows refuses. No character outside ASCII has one of their letters as its upper case. */
  predicate Reserved(name: string) {
    var up := UpperAscii(name);
    up == "CON" || up == "PRN" || up == "AUX" || up == "NUL" ||
    (|up| == 4 && (up[..3] == "COM" || up[..3] == "LPT") && '1' <= up[3] <= '9')
  }

  predicate Safe(s: string) { forall i | 0 <= i < |s| :: !Forbidden(s[i]) }

  predicate Tidy(s: string) { s != "" ==> !EndTrimmed(s[|s| - 1]) }

  lemma SafePrefix(r: string, s: string)
    requires r <= s && Safe(s)
    ensures Safe(r)
  {
    assert forall i | 0 <= i < |r| :: r[i] == s[i];
  }

  lemma SafeSuffix(r: string, s: string)
    requires |r| <= |s| && r == s[|s| - |r|..] && Safe(s) && Tidy(s)
    ensures Safe(r) && Tidy(r)
  {
    assert forall i | 0 <= i < |r| :: r[i] == s[|s| - |r| + i];
  }

  /** What is left of the special cases once nothing but safe characters remain. */
  function Guarded(out: string): string {
    if out == "." || out == ".." then "" else if Reserved(out) then ['_'] + out else out
  }

  /** `cleanComponent`. */
  function Clean(u: Unicode, s: string): string {
    Guarded(TrimStart(TrimEnd(CleanChars(u, s)), ' '))
  }

  lemma CleanIsSafe(u: Unicode, s: string)
    ensures Safe(Clean(u, s)) && Tidy(Clean(u, s))
  {
    hide Safe, Guarded, Forbidden, CleanChar;
    var chars := CleanChars(u, s);
    var end := TrimEnd(chars);
    var out := TrimStart(end, ' ');
    var _ := TrimStartIsSuffix(end, ' ');
    CleanCharsAreSafe(u, s);
    SafePrefix(end, chars);
    SafeSuffix(out, end);
    GuardedIsSafe(out);
  }

  lemma CleanCharsAreSafe(u: Unicode, s: string)
    ensures Safe(CleanChars(u, s))
  {
  }

  lemma GuardedIsSafe(out: string)
    requires Safe(out) && Tidy(out)
    ensures Safe(Guarded(out)) && Tidy(Guarded(out))
  {
    hide Reserved;
    assert forall i | 1 <= i < |['_'] + out| :: (['_'] + out)[i] == out[i - 1];
  }

  method CleanComponent(u: Unicode, s: string) returns (r: string)
    ensures r == Clean(u, s)
  {
    hide Reserved;
    var b: string := [];
    for i := 0 to |s|
      invariant |b| == i && forall j | 0 <= j < i :: b[j] == CleanChar(u, s[j])
    {
      if Separator(s[i]) {
        b := b + ['_'];
      } else if Control(s[i]) {
        b := b + ['_'];
      } else if Refused(s[i]) {
        b := b + ['_'];
      } else if s[i] as int >= 0x80 && u.format(s[i]) {
        b := b + ['_'];
      } else {
        b := b + [s[i]];
      }
    }
    assert b == CleanChars(u, s);
    var out := TrimStart(TrimEnd(b), ' ');
    if out == "." || out == ".." {
      return "";
    }
    if Reserved(out) {
      out := ['_'] + out;
    }
    return out;
  }

  predicate Alnum(u: Unicode, c: char) {
    if c as int < 0x80 then 'a' <= c <= 'z' || 'A' <= c <= 'Z' || '0' <= c <= '9' else u.alnum(c)
  }

  function KeepAlnum(u: Unicode, s: string): (r: string)
    ensures forall i | 0 <= i < |r| :: r[i] != '.'
    ensures Safe(s) ==> Safe(r)
  {
    if s == [] then []
    else
      var before, c := KeepAlnum(u, s[..|s| - 1]), s[|s| - 1];
      assert Safe(s) ==> Safe(s[..|s| - 1]);
      if Alnum(u, c) then before + [c] else before
  }

  /** `sanitizeExt`: letters and digits, at most sixteen bytes. */
  function CleanExt(u: Unicode, ext: string): string {
    Truncated(KeepAlnum(u, TrimStart(Clean(u, ext), '.')), 16)
  }

  lemma CleanExtIsSafe(u: Unicode, ext: string)
    ensures var r := CleanExt(u, ext); Safe(r) && '.' !in r && |Utf8(r)| <= 16
  {
    hide Clean;
    CleanIsSafe(u, ext);
    var cleaned := Clean(u, ext);
    var t := TrimStart(cleaned, '.');
    var _ := TrimStartIsSuffix(cleaned, '.');
    SafeSuffix(t, cleaned);
    SafePrefix(CleanExt(u, ext), KeepAlnum(u, t));
  }

  method SanitizeExt(u: Unicode, ext: string) returns (r: string)
    ensures r == CleanExt(u, ext)
  {
    hide Clean;
    var cleaned := CleanComponent(u, ext);
    cleaned := TrimStart(cleaned, '.');
    var b: string := [];
    for i := 0 to |cleaned|
      invariant b == KeepAlnum(u, cleaned[..i])
    {
      assert cleaned[..i + 1][..i] == cleaned[..i];
      if Alnum(u, cleaned[i]) {
        b := b + [cleaned[i]];
      }
    }
    assert cleaned[..|cleaned|] == cleaned;
    return Truncated(b, 16);
  }

  /** Where `path.Ext` finds the extension: the last dot after the last slash, or the end. */
  function ExtAt(name: string): (i: nat)
    ensures i <= |name|
    ensures i < |name| ==> name[i] == '.'
    ensures forall j | i < j < |name| :: name[j] != '.' && name[j] != '/'
  {
    if name == "" || name[|name| - 1] == '/' then |name|
    else if name[|name| - 1] == '.' then |name| - 1
    else
      var i := ExtAt(name[..|name| - 1]);
      if i == |name| - 1 then |name| else i
  }

  lemma {:induction false} ExtAtAppended(x: string, e: string)
    requires '.' !in e && '/' !in e
    ensures ExtAt(x + ['.'] + e) == |x|
  {
    var s := x + ['.'] + e;
    if e != "" {
      ExtAtAppended(x, e[..|e| - 1]);
      assert s[..|s| - 1] == x + ['.'] + e[..|e| - 1];
    }
  }

  /** Without a dot after the last slash there is none. */
  lemma {:induction false} ExtAtNowhere(dir: string, base: string)
    requires '.' !in base && '/' !in base && (dir == "" || dir[|dir| - 1] == '/')
    ensures ExtAt(dir + base) == |dir + base|
  {
    var name := dir + base;
    if base == "" {
      assert name == dir;
    } else {
      ExtAtNowhere(dir, base[..|base| - 1]);
      assert name[..|name| - 1] == dir + base[..|base| - 1];
      assert name[|name| - 1] == base[|base| - 1];
    }
  }

  /** `splitExt`: a name that is all extension is all base. */
  function SplitExt(name: string): (string, string) {
    var i := ExtAt(name);
    if i == |name| || i == 0 then (name, "") else (name[..i], name[i + 1..])
  }

  /** `fitBase`: what is left of the base beside an extension and a suffix of `suffix` bytes. */
  function FitBase(base: string, ext: string, suffix: nat): string {
    Truncated(base, MAX_COMPONENT - suffix - if ext == "" then 0 else |Utf8(ext)| + 1)
  }

  // ---- the whole path ----

  function Slashed(s: string): string {
    seq(|s|, i requires 0 <= i < |s| => if s[i] == '\\' then '/' else s[i])
  }

  function CleanParts(u: Unicode, segments: seq<string>): seq<string> {
    if segments == [] then []
    else
      var before, last := CleanParts(u, segments[..|segments| - 1]), Clean(u, segments[|segments| - 1]);
      if last == [] then before else before + [last]
  }

  lemma {:induction false} CleanPartsAreSafe(u: Unicode, segments: seq<string>)
    ensures forall i | 0 <= i < |CleanParts(u, segments)| ::
      var p := CleanParts(u, segments)[i]; p != [] && Safe(p) && Tidy(p)
  {
    hide Clean;
    if segments != [] {
      CleanPartsAreSafe(u, segments[..|segments| - 1]);
      CleanIsSafe(u, segments[|segments| - 1]);
    }
  }

  function ShortDirs(parts: seq<string>): seq<string> {
    seq(|parts|, i requires 0 <= i < |parts| => Truncated(parts[i], MAX_COMPONENT))
  }

  /** `splitRendered`. */
  function SplitPath(u: Unicode, rendered: string): Result<Rendered, NameError> {
    var parts := CleanParts(u, Split(Slashed(rendered), '/'));
    if parts == [] then Err(EmptyResult)
    else
      var (rawBase, rawExt) := SplitExt(parts[|parts| - 1]);
      var ext := CleanExt(u, rawExt);
      var base := FitBase(Clean(u, rawBase), ext, 0);
      if base == "" then Err(EmptyResult)
      else Ok(Rendered(Join(ShortDirs(parts[..|parts| - 1]), '/'), base, ext))
  }

  method SplitRendered(u: Unicode, rendered: string) returns (r: Result<Rendered, NameError>)
    ensures r == SplitPath(u, rendered)
  {
    hide Clean, CleanExt, FitBase, SplitExt, Join;
    var segments := Split(Slashed(rendered), '/');
    var parts: seq<string> := [];
    for i := 0 to |segments|
      invariant parts == CleanParts(u, segments[..i])
    {
      assert segments[..i + 1][..i] == segments[..i];
      var seg := CleanComponent(u, segments[i]);
      if seg == [] {
        continue;
      }
      parts := parts + [seg];
    }
    assert segments[..|segments|] == segments;
    if |parts| == 0 {
      return Err(EmptyResult);
    }
    ghost var cleaned := parts;
    for i := 0 to |parts| - 1
      invariant |parts| == |cleaned|
      invariant forall j | 0 <= j < i :: parts[j] == Truncated(cleaned[j], MAX_COMPONENT)
      invariant forall j | i <= j < |parts| :: parts[j] == cleaned[j]
    {
      parts := parts[i := Truncated(parts[i], MAX_COMPONENT)];
    }
    var name := parts[|parts| - 1];
    assert parts[..|parts| - 1] == ShortDirs(cleaned[..|cleaned| - 1]);
    var dir := Join(parts[..|parts| - 1], '/');
    var (rawBase, rawExt) := SplitExt(name);
    var ext := SanitizeExt(u, rawExt);
    var base := CleanComponent(u, rawBase);
    base := FitBase(base, ext, 0);
    if base == "" {
      return Err(EmptyResult);
    }
    return Ok(Rendered(dir, base, ext));
  }

  // ---- substitution ----

  /** The value of the first listed variable that stands at the start of the text. */
  function FirstKey(t: string, values: seq<(string, string)>): Option<(string, string)> {
    if values == [] then None
    else if values[0].0 <= t && values[0].0 != "" then Some(values[0])
    else FirstKey(t, values[1..])
  }

  /** strings.NewReplacer(...).Replace: left to right, no overlap, nothing replaced twice. */
  function Substitute(t: string, values: seq<(string, string)>): string
    decreases |t|
  {
    if t == "" then ""
    else
      match FirstKey(t, values)
      case Some(kv) =>
        FirstKeyFits(t, values);
        kv.1 + Substitute(t[|kv.0|..], values)
      case None => [t[0]] + Substitute(t[1..], values)
  }

  lemma FirstKeyFits(t: string, values: seq<(string, string)>)
    ensures FirstKey(t, values).Some? ==> 0 < |FirstKey(t, values).value.0| <= |t| && FirstKey(t, values).value.0 <= t
  {
  }

  predicate Contains(t: string, k: string) {
    k <= t || (t != "" && Contains(t[1..], k))
  }

  function CounterText(counter: nat): string {
    if counter > 0 then ['_'] + Decimal(counter) else []
  }

  function ShortHash(hash: string): string {
    if |hash| < 8 then hash else hash[..8]
  }

  const COUNTER_KEY := "{counter}"

  function Values(u: Unicode, vars: Vars, counterText: string): seq<(string, string)> {
    var (origBase, origExt) := SplitExt(vars.originalName);
    var t := if vars.captured.Some? then vars.captured.value else Stamp("", "", "", "", "", "");
    [ ("{yyyy}", t.year), ("{MM}", t.month), ("{dd}", t.day),
      ("{HH}", t.hour), ("{mm}", t.minute), ("{ss}", t.second),
      ("{original_name}", Clean(u, origBase)), ("{device}", Clean(u, vars.device)), ("{album}", Clean(u, vars.album)),
      (COUNTER_KEY, counterText), ("{hash8}", ShortHash(vars.hash)), ("{ext}", CleanExt(u, origExt)) ]
  }

  /** `Render`. */
  function Render(u: Unicode, tmpl: string, vars: Vars, counter: int): Result<Rendered, NameError> {
    if counter < 0 then Err(NegativeCounter)
    else
      var text := CounterText(counter);
      match SplitPath(u, Substitute(tmpl, Values(u, vars, text)))
      case Err(e) => Err(e)
      case Ok(res) =>
        if !Contains(tmpl, COUNTER_KEY) && text != ""
        then Ok(res.(base := FitBase(res.base, res.ext, |Utf8(text)|) + text))
        else Ok(res)
  }

  // ---- what a rendered path is good for ----

  /** A component every host accepts: it fits, holds nothing forbidden, and goes nowhere. */
  predicate Component(s: string) {
    |Utf8(s)| <= MAX_COMPONENT && Safe(s) && s != "." && s != ".."
  }

  lemma FileNameLength(base: string, ext: string)
    ensures |Utf8(FileName(base, ext))| == |Utf8(base)| + if ext == "" then 0 else |Utf8(ext)| + 1
  {
    if ext != "" {
      Utf8Concat(base + ".", ext);
      Utf8Append(base, '.');
    }
  }

  /** A name that fits its budget is a component, with its extension counted. */
  lemma FileNameComponent(base: string, ext: string)
    requires base != "" && Safe(base) && Tidy(base) && Safe(ext) && '.' !in ext
    requires |Utf8(base)| + (if ext == "" then 0 else |Utf8(ext)| + 1) <= MAX_COMPONENT
    ensures Component(FileName(base, ext))
  {
    FileNameLength(base, ext);
    var name := FileName(base, ext);
    assert name[|name| - 1] != '.' by {
      if ext != "" {
        assert name[|name| - 1] == ext[|ext| - 1];
      }
    }
  }

  lemma SplitPathBounds(u: Unicode, rendered: string)
    requires SplitPath(u, rendered).Ok?
    ensures var res := SplitPath(u, rendered).value;
      && (forall p | p in Split(res.dir, '/') :: Component(p))
      && res.base != "" && Safe(res.base) && Tidy(res.base)
      && Safe(res.ext) && '.' !in res.ext && |Utf8(res.ext)| <= 16
      && |Utf8(res.base)| + (if res.ext == "" then 0 else |Utf8(res.ext)| + 1) <= MAX_COMPONENT
  {
    hide Clean, CleanExt, SplitExt, CleanParts, Utf8;
    var res := SplitPath(u, rendered).value;
    var segments := Split(Slashed(rendered), '/');
    var parts := CleanParts(u, segments);
    CleanPartsAreSafe(u, segments);
    var (rawBase, rawExt) := SplitExt(parts[|parts| - 1]);
    CleanIsSafe(u, rawBase);
    CleanExtIsSafe(u, rawExt);
    SafePrefix(res.base, Clean(u, rawBase));
    DirsAreComponents(parts[..|parts| - 1]);
  }

  lemma DirsAreComponents(parts: seq<string>)
    requires forall i | 0 <= i < |parts| :: Safe(parts[i]) && Tidy(parts[i])
    ensures forall p | p in Split(Join(ShortDirs(parts), '/'), '/') :: Component(p)
  {
    hide Utf8;
    var dirs := ShortDirs(parts);
    forall i | 0 <= i < |dirs|
      ensures Component(dirs[i]) && '/' !in dirs[i]
    {
      SafePrefix(dirs[i], parts[i]);
    }
    if dirs == [] {
      Utf8Empty();
      SplitPlain("", '/');
    } else {
      SplitJoin(dirs, '/');
    }
  }

  lemma CounterTextShort(counter: nat)
    requires counter <= MAX_COUNTER
    ensures |Utf8(CounterText(counter))| <= 20
    ensures Safe(CounterText(counter)) && Tidy(CounterText(counter))
  {
    hide Utf8, Pow10;
    var text := CounterText(counter);
    if counter > 0 {
      var d := Decimal(counter);
      Pow10Nineteen();
      DecimalLength(counter, 19);
      assert forall i | 0 <= i < |d| :: d[i] in d;
      assert forall i | 0 <= i < |text| :: text[i] == if i == 0 then '_' else d[i - 1];
    }
    Utf8Ascii(text);
  }

  lemma Pow10Nineteen()
    ensures Pow10(19) == 10_000_000_000_000_000_000
  {
    assert Pow10(2) == 100 && Pow10(4) == 10_000 && Pow10(6) == 1_000_000;
    assert Pow10(8) == 100_000_000 && Pow10(10) == 10_000_000_000 && Pow10(12) == 1_000_000_000_000;
    assert Pow10(14) == 100_000_000_000_000 && Pow10(16) == 10_000_000_000_000_000;
    assert Pow10(18) == 1_000_000_000_000_000_000;
  }

  /** Every component of every successful rendering, the name with its extension and counter included. */
  lemma RenderedBounds(u: Unicode, tmpl: string, vars: Vars, counter: int)
    requires counter <= MAX_COUNTER && Render(u, tmpl, vars, counter).Ok?
    ensures var res := Render(u, tmpl, vars, counter).value;
      && res.base != "" && Tidy(res.base) && '.' !in res.ext
      && (forall p | p in Split(res.dir, '/') :: Component(p))
      && Component(FileName(res.base, res.ext))
  {
    hide Values, Substitute, SplitPath, Contains, Utf8, CounterText;
    var text := CounterText(counter);
    var rendered := Substitute(tmpl, Values(u, vars, text));
    var first := SplitPath(u, rendered).value;
    SplitPathBounds(u, rendered);
    var res := Render(u, tmpl, vars, counter).value;
    if !Contains(tmpl, COUNTER_KEY) && text != [] {
      CounterTextShort(counter);
      var fitted := FitBase(first.base, first.ext, |Utf8(text)|);
      SafePrefix(fitted, first.base);
      Utf8Concat(fitted, text);
      assert forall i | 0 <= i < |res.base| :: res.base[i] == if i < |fitted| then fitted[i] else text[i - |fitted|];
    }
    FileNameComponent(res.base, res.ext);
  }

  /** filepath.Join below an absolute root: empty and "." components vanish, ".." climbs. */
  function Walk(at: seq<string>, parts: seq<string>): seq<string>
    decreases |parts|
  {
    if parts == [] then at
    else if parts[0] == "" || parts[0] == "." then Walk(at, parts[1..])
    else if parts[0] == ".." then Walk(if at == [] then [] else at[..|at| - 1], parts[1..])
    else Walk(at + [parts[0]], parts[1..])
  }

  /** Where a destination-relative path is on disk, below the root. */
  function DiskKey(path: string): seq<string> {
    NonEmpty(Split(path, '/'))
  }

  function NonEmpty(parts: seq<string>): seq<string> {
    if parts == [] then [] else if parts[0] == [] then NonEmpty(parts[1..]) else [parts[0]] + NonEmpty(parts[1..])
  }

  lemma {:induction false} WalkDown(at: seq<string>, parts: seq<string>)
    requires forall p | p in parts :: p != "." && p != ".."
    ensures Walk(at, parts) == at + NonEmpty(parts)
    decreases |parts|
  {
    if parts != [] {
      assert parts[0] in parts;
      forall p | p in parts[1..]
        ensures p in parts
      {
      }
      WalkDown(if parts[0] == "" then at else at + [parts[0]], parts[1..]);
      assert (at + [parts[0]]) + NonEmpty(parts[1..]) == at + ([parts[0]] + NonEmpty(parts[1..]));
    }
  }

  lemma {:induction false} NonEmptyConcat(p: seq<string>, q: seq<string>)
    ensures NonEmpty(p + q) == NonEmpty(p) + NonEmpty(q)
  {
    if p == [] {
      assert p + q == q;
    } else {
      NonEmptyConcat(p[1..], q);
      NonEmptyFront(p, q);
      NonEmptyFront(p, []);
      assert p + [] == p && NonEmpty([]) == [] && p[1..] + [] == p[1..];
    }
  }

  /** The first part, if there is anything to it, and the rest. */
  lemma NonEmptyFront(p: seq<string>, q: seq<string>)
    requires p != []
    ensures NonEmpty(p + q) == (if p[0] == [] then [] else [p[0]]) + NonEmpty(p[1..] + q)
  {
    assert (p + q)[0] == p[0] && (p + q)[1..] == p[1..] + q;
  }

  /** The path on disk of a result: the directory's non-empty components, then the name. */
  lemma KeyOfResult(res: Rendered)
    requires '/' !in FileName(res.base, res.ext) && res.base != ""
    ensures DiskKey(res.Path()) == DiskKey(res.dir) + [FileName(res.base, res.ext)]
    ensures Split(res.Path(), '/') ==
      (if res.dir == "" then [] else Split(res.dir, '/')) + [FileName(res.base, res.ext)]
  {
    var name := FileName(res.base, res.ext);
    SplitPlain(name, '/');
    assert [name][1..] == [] && NonEmpty([name]) == [name];
    if res.dir == "" {
      assert Split("", '/') == [""];
    } else {
      assert res.Path() == res.dir + ['/'] + name;
      SplitConcat(res.dir, name, '/');
      NonEmptyConcat(Split(res.dir, '/'), [name]);
    }
  }

  /** Joined to any absolute root, a rendered path ends strictly below that root. */
  lemma RenderedStaysBelow(u: Unicode, tmpl: string, vars: Vars, counter: int, root: seq<string>)
    requires counter <= MAX_COUNTER && Render(u, tmpl, vars, counter).Ok?
    ensures var path := Render(u, tmpl, vars, counter).value.Path();
      Walk(root, Split(path, '/')) == root + DiskKey(path) && DiskKey(path) != []
  {
    hide Render, Utf8;
    RenderedBounds(u, tmpl, vars, counter);
    var res := Render(u, tmpl, vars, counter).value;
    var name := FileName(res.base, res.ext);
    assert '/' !in name;
    KeyOfResult(res);
    WalkDown(root, Split(res.Path(), '/'));
  }

  // ---- the collision counter ----

  lemma {:induction false} ContainsLater(t: string, n: nat, k: string)
    requires n <= |t| && Contains(t[n..], k)
    ensures Contains(t, k)
  {
    if n > 0 {
      assert t[1..][n - 1..] == t[n..];
      ContainsLater(t[1..], n - 1, k);
    } else {
      assert t[0..] == t;
    }
  }

  lemma {:induction false} FirstKeySame(t: string, a: seq<(string, string)>, b: seq<(string, string)>, k: string)
    requires |a| == |b| && forall i | 0 <= i < |a| :: a[i] == b[i] || a[i].0 == b[i].0 == k
    requires !(k <= t)
    ensures FirstKey(t, a) == FirstKey(t, b)
  {
    if a != [] {
      FirstKeySame(t, a[1..], b[1..], k);
    }
  }

  /** A variable the template does not mention cannot change what it renders to. */
  lemma {:induction false} SubstituteSame(t: string, a: seq<(string, string)>, b: seq<(string, string)>, k: string)
    requires |a| == |b| && forall i | 0 <= i < |a| :: a[i] == b[i] || a[i].0 == b[i].0 == k
    requires !Contains(t, k)
    ensures Substitute(t, a) == Substitute(t, b)
    decreases |t|
  {
    if t != "" {
      FirstKeySame(t, a, b, k);
      FirstKeyFits(t, a);
      var n := if FirstKey(t, a).Some? then |FirstKey(t, a).value.0| else 1;
      if Contains(t[n..], k) {
        ContainsLater(t, n, k);
      }
      SubstituteSame(t[n..], a, b, k);
    }
  }

  predicate LastUnderscore(s: string, at: nat) {
    at < |s| && s[at] == '_' && forall i | at < i < |s| :: s[i] != '_'
  }

  lemma CounterUnderscore(p: string, a: nat)
    requires 0 < a
    ensures var s := p + CounterText(a); LastUnderscore(s, |p|) && s[|p| + 1..] == Decimal(a)
  {
    var s, d := p + CounterText(a), Decimal(a);
    assert forall i | 0 <= i < |d| :: d[i] in d && s[|p| + 1 + i] == d[i];
    forall i | |p| < i < |s|
      ensures s[i] != '_'
    {
      assert s[i] == d[i - |p| - 1];
    }
  }

  /** What is after the last underscore is the counter, whatever the base was. */
  lemma SuffixDecides(p: string, q: string, a: nat, b: nat)
    requires 0 < a && 0 < b && p + CounterText(a) == q + CounterText(b)
    ensures a == b
  {
    hide CounterText, Decimal;
    CounterUnderscore(p, a);
    CounterUnderscore(q, b);
    DecimalInjective(a, b);
  }

  /**
    The collision search never repeats itself. Without {counter} in the template, all renderings
    succeed or fail together, in one directory, with one extension, and no two positive counters
    give the same basename, however much of the base had to be cut off.
  */
  lemma CountersDiffer(u: Unicode, tmpl: string, vars: Vars, a: nat, b: nat)
    requires !Contains(tmpl, COUNTER_KEY)
    ensures var x, y := Render(u, tmpl, vars, a), Render(u, tmpl, vars, b);
      && (x.Ok? <==> y.Ok?)
      && (x.Ok? ==> x.value.dir == y.value.dir && x.value.ext == y.value.ext)
      && (x.Ok? && 0 < a && 0 < b && a != b ==> x.value.base != y.value.base)
  {
    hide Substitute, SplitPath, Contains, FitBase, CounterText, Values, Utf8;
    var v, w := Values(u, vars, CounterText(a)), Values(u, vars, CounterText(b));
    ValuesDiffer(u, vars, CounterText(a), CounterText(b));
    SubstituteSame(tmpl, v, w, COUNTER_KEY);
    var x, y := Render(u, tmpl, vars, a), Render(u, tmpl, vars, b);
    if x.Ok? && 0 < a && 0 < b && a != b && x.value.base == y.value.base {
      var first := SplitPath(u, Substitute(tmpl, v)).value;
      var p := FitBase(first.base, first.ext, |Utf8(CounterText(a))|);
      var q := FitBase(first.base, first.ext, |Utf8(CounterText(b))|);
      CounterTextPositive(a);
      CounterTextPositive(b);
      SuffixDecides(p, q, a, b);
    }
  }

  lemma CounterTextPositive(a: nat)
    ensures a > 0 <==> CounterText(a) != []
  {
  }

  /** Of all the values only the counter's depends on the counter. */
  lemma ValuesDiffer(u: Unicode, vars: Vars, s: string, t: string)
    ensures var v, w := Values(u, vars, s), Values(u, vars, t);
      |v| == |w| && forall i | 0 <= i < |v| :: v[i] == w[i] || v[i].0 == w[i].0 == COUNTER_KEY
  {
    hide Clean, CleanExt, SplitExt;
  }

  // ---- naming as the rest of the receiver sees it ----

  /** What every name handed out keeps of the rendering it came from. */
  predicate NameOk(n: Rendered) {
    n.base != "" && Tidy(n.base) && '/' !in n.base && '/' !in n.ext && '.' !in n.ext && DirOk(n.dir)
  }

  predicate DirOk(dir: string) { forall c | c in Split(dir, '/') :: c != "." && c != ".." }

  lemma RenderNameOk(u: Unicode, tmpl: string, vars: Vars, counter: nat)
    requires counter <= MAX_COUNTER && Render(u, tmpl, vars, counter).Ok?
    ensures NameOk(Render(u, tmpl, vars, counter).value)
  {
    hide Render, Utf8;
    RenderedBounds(u, tmpl, vars, counter);
    var res := Render(u, tmpl, vars, counter).value;
    var name := FileName(res.base, res.ext);
    assert DirOk(res.dir) by {
      assert forall c | c in Split(res.dir, '/') :: Component(c);
    }
    assert forall i | 0 <= i < |res.base| :: name[i] == res.base[i];
    if res.ext != "" {
      assert forall i | 0 <= i < |res.ext| :: name[|res.base| + 1 + i] == res.ext[i];
    }
  }

  /** Any way of turning templates into names, and a lower case. */
  datatype AnyRules = Rules(render: (string, Vars, nat) -> Result<Rendered, NameError>, lower: char -> char)

  /** Every name it gives is one. */
  ghost predicate WellNamed(r: AnyRules) {
    forall t, v, c: nat | c <= MAX_COUNTER && r.render(t, v, c).Ok? :: NameOk(r.render(t, v, c).value)
  }

  type Rules = r: AnyRules | WellNamed(r) witness Rules((t, v, c) => Err(EmptyResult), c => c)

  /** The receiver's own way. What is proved of all rules is proved of these. */
  function RulesOf(u: Unicode): (r: Rules)
    ensures r.lower == u.lower
    ensures forall t, v, c: nat :: r.render(t, v, c) == Render(u, t, v, c)
  {
    var r := Rules((t: string, v: Vars, c: nat) => Render(u, t, v, c), u.lower);
    RendersNames(u, r);
    r
  }

  lemma RendersNames(u: Unicode, r: AnyRules)
    requires forall t, v, c: nat :: r.render(t, v, c) == Render(u, t, v, c)
    ensures WellNamed(r)
  {
    hide Render, NameOk;
    forall t, v, c: nat | c <= MAX_COUNTER && r.render(t, v, c).Ok?
      ensures NameOk(r.render(t, v, c).value)
    {
      RenderNameOk(u, t, v, c);
    }
  }
}
