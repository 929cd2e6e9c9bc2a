/**
  core/naming: what each variable of a template stands for, what is made of a value on the way into a
  path, and what two whole templates come to. Values are told from the asset here, not from the list
  that substitution works through.
*/
module Variables {
  import opened Wrappers
  import opened Texts
  import opened Naming
  import opened Spellings

  // ---- values ----

  /** Characters no destination may have in a name. */
  predicate Swapped(u: Unicode, c: char) {
    c in {'/', '\\', '<', '>', ':', '"', '|', '?', '*'} || c as int < 0x20 || c as int == 0x7F ||
    (c as int >= 0x80 && u.format(c))
  }

  predicate Device(name: string) {
    name in {"CON", "PRN", "AUX", "NUL"} || exists c | '1' <= c <= '9' :: name == "COM" + [c] || name == "LPT" + [c]
  }

  function Swap(u: Unicode, s: string): string {
    seq(|s|, i requires 0 <= i < |s| => if Swapped(u, s[i]) then '_' else s[i])
  }

  lemma DevicesAreReserved(name: string)
    ensures Reserved(name) <==> Device(UpperAscii(name))
  {
    hide UpperAscii;
    var up := UpperAscii(name);
    if |up| == 4 {
      assert up == up[..3] + [up[3]];
    }
    forall c
      ensures ("COM" + [c])[..3] == "COM" && ("LPT" + [c])[..3] == "LPT"
      ensures ("COM" + [c])[3] == ("LPT" + [c])[3] == c
    {
    }
  }

  lemma {:induction false} TrimEndAt(s: string, k: nat)
    requires k <= |s| && forall i | k <= i < |s| :: s[i] == ' ' || s[i] == '.'
    requires k > 0 ==> s[k - 1] != ' ' && s[k - 1] != '.'
    ensures TrimEnd(s) == s[..k]
  {
    if k < |s| {
      TrimEndAt(s[..|s| - 1], k);
      assert s[..|s| - 1][..k] == s[..k];
    } else {
      assert s[..k] == s;
    }
  }

  lemma {:induction false} TrimStartAt(s: string, k: nat)
    requires k <= |s| && (forall i | 0 <= i < k :: s[i] == ' ') && (k < |s| ==> s[k] != ' ')
    ensures TrimStart(s, ' ') == s[k..]
  {
    if k > 0 {
      TrimStartAt(s[1..], k - 1);
      assert s[1..][k - 1..] == s[k..];
    } else {
      assert s[k..] == s;
    }
  }

  /**
    A component cleaned: what may not be in a name becomes an underscore, spaces and dots go from its
    end and spaces from its start, and a device name is hidden behind an underscore. Nothing else changes.
  */
  lemma CleanedExactly(u: Unicode, s: string, from: nat, to: nat)
    requires from <= to <= |s|
    requires var t := Swap(u, s);
      && (forall i | to <= i < |s| :: t[i] == ' ' || t[i] == '.')
      && (forall i | 0 <= i < from :: t[i] == ' ')
      && (from < to ==> t[from] != ' ' && t[to - 1] != ' ' && t[to - 1] != '.')
      && (from == to ==> from == 0)
    ensures var out := Swap(u, s)[from..to];
      Clean(u, s) == if Device(UpperAscii(out)) then "_" + out else out
  {
    hide Device, Reserved, UpperAscii, TrimEnd, TrimStart;
    var t := Swap(u, s);
    assert CleanChars(u, s) == t by {
      hide Device;
      SwapsTheSame(u, s);
    }
    TrimEndAt(t, to);
    TrimStartAt(t[..to], from);
    assert t[..to][from..] == t[from..to];
    var out := t[from..to];
    DevicesAreReserved(out);
    assert out != "." && out != ".." by {
      if from < to {
        assert out[|out| - 1] == t[to - 1];
      }
    }
  }

  lemma SwapsTheSame(u: Unicode, s: string)
    ensures CleanChars(u, s) == Swap(u, s)
  {
    assert forall i | 0 <= i < |s| :: CleanChars(u, s)[i] == CleanChar(u, s[i]);
  }

  /** Of a cleaned extension the letters and digits stay, each where it was, and everything else goes. */
  lemma {:induction false} ExtensionKeeps(u: Unicode, a: string, c: char, b: string)
    ensures var stays := if c as int >= 0x80 then u.alnum(c) else '0' <= c <= '9' || 'A' <= c <= 'Z' || 'a' <= c <= 'z';
      KeepAlnum(u, a + [c] + b) == KeepAlnum(u, a) + (if stays then [c] else []) + KeepAlnum(u, b)
    ensures KeepAlnum(u, "") == ""
  {
    var s := a + [c] + b;
    if b == "" {
      assert s[..|s| - 1] == a && s[|s| - 1] == c;
    } else {
      ExtensionKeeps(u, a, c, b[..|b| - 1]);
      assert s[..|s| - 1] == a + [c] + b[..|b| - 1] && s[|s| - 1] == b[|b| - 1];
    }
  }

  /** The extension is what follows the last dot of the last component, unless that is all there is. */
  lemma SplitsAtTheLastDot(stem: string, ext: string)
    requires '.' !in ext && '/' !in ext
    ensures SplitExt(stem + "." + ext) == if stem == "" then ("." + ext, "") else (stem, ext)
  {
    hide ExtAt;
    ExtAtAppended(stem, ext);
    var name := stem + ['.'] + ext;
    assert stem + "." + ext == name && (stem == "" ==> name == "." + ext);
    assert name[..|stem|] == stem && name[|stem| + 1..] == ext;
  }

  lemma WithoutADot(dir: string, base: string)
    requires '.' !in base && '/' !in base && (dir == "" || dir[|dir| - 1] == '/')
    ensures SplitExt(dir + base) == (dir + base, "")
  {
    hide ExtAt;
    ExtAtNowhere(dir, base);
  }

  // ---- substitution ----

  /** A brace, something without a closing one, and the closing one. */
  predicate Braced(k: string) {
    2 <= |k| && k[0] == '{' && k[|k| - 1] == '}' && forall j | 0 <= j < |k| - 1 :: k[j] != '}'
  }

  predicate Keyed(values: seq<(string, string)>) {
    && (forall i | 0 <= i < |values| :: Braced(values[i].0))
    && forall i, j | 0 <= i < j < |values| :: values[i].0 != values[j].0
  }

  /** Of two such keys at most one can stand at the start of a text. */
  lemma OneKeyFits(k: string, l: string, rest: string)
    requires Braced(k) && Braced(l) && k <= l + rest
    ensures k == l
  {
    var t := l + rest;
    assert forall j | 0 <= j < |k| :: k[j] == t[j];
    assert forall j | 0 <= j < |l| :: l[j] == t[j];
    assert t[|k| - 1] == '}' && t[|l| - 1] == '}';
    assert |k| == |l|;
  }

  lemma {:induction false} KeyFound(values: seq<(string, string)>, i: nat, rest: string)
    requires Keyed(values) && i < |values|
    ensures FirstKey(values[i].0 + rest, values) == Some(values[i])
  {
    hide Braced;
    var t := values[i].0 + rest;
    assert Braced(values[0].0) && Braced(values[i].0);
    if i > 0 {
      if values[0].0 <= t {
        OneKeyFits(values[0].0, values[i].0, rest);
      }
      KeyFound(values[1..], i - 1, rest);
    } else {
      BracedIsSome(values[0].0);
    }
  }

  lemma BracedIsSome(k: string)
    requires Braced(k)
    ensures k != "" && k[0] == '{'
  {
  }

  lemma {:induction false} PlainFirst(pre: string, t: string, values: seq<(string, string)>)
    requires '{' !in pre && Keyed(values)
    ensures Substitute(pre + t, values) == pre + Substitute(t, values)
  {
    hide Keyed;
    if pre == "" {
      assert pre + t == t;
    } else {
      NoKeyHere(pre + t, values);
      PlainFirst(pre[1..], t, values);
      assert (pre + t)[1..] == pre[1..] + t;
      assert [pre[0]] + (pre[1..] + Substitute(t, values)) == pre + Substitute(t, values);
    }
  }

  lemma {:induction false} NoKeyHere(t: string, values: seq<(string, string)>)
    requires t != "" && t[0] != '{' && Keyed(values)
    ensures FirstKey(t, values) == None
  {
    if values != [] {
      BracedIsSome(values[0].0);
      NoKeyHere(t, values[1..]);
    }
  }

  /** Behind text without a brace a variable is replaced by its value, and what follows is read on from there. */
  lemma KeyStands(values: seq<(string, string)>, i: nat, pre: string, rest: string)
    requires Keyed(values) && i < |values| && '{' !in pre
    ensures Substitute(pre + values[i].0 + rest, values) == pre + values[i].1 + Substitute(rest, values)
  {
    hide Keyed;
    var t := values[i].0 + rest;
    assert pre + values[i].0 + rest == pre + t;
    PlainFirst(pre, t, values);
    KeyFound(values, i, rest);
    assert Braced(values[i].0) by {
      KeyIsBraced(values, i);
    }
    assert t[|values[i].0|..] == rest;
    assert Substitute(t, values) == values[i].1 + Substitute(rest, values);
    assert pre + (values[i].1 + Substitute(rest, values)) == pre + values[i].1 + Substitute(rest, values);
  }

  lemma KeyIsBraced(values: seq<(string, string)>, i: nat)
    requires Keyed(values) && i < |values|
    ensures Braced(values[i].0)
  {
  }

  lemma ValuesAreKeyed(u: Unicode, vars: Vars, text: string)
    ensures |Values(u, vars, text)| == 12 && Keyed(Values(u, vars, text))
  {
    hide Clean, CleanExt, SplitExt, ShortHash;
  }

  /** What each of the twelve variables stands for, wherever it is in a template. */
  lemma VariablesMean(u: Unicode, vars: Vars, c: nat, pre: string, rest: string)
    requires '{' !in pre
    ensures var v, d := Values(u, vars, CounterText(c)), vars.captured;
      var tail := Substitute(rest, v);
      && Substitute(pre + "{yyyy}" + rest, v) == pre + (if d.Some? then d.value.year else "") + tail
      && Substitute(pre + "{MM}" + rest, v) == pre + (if d.Some? then d.value.month else "") + tail
      && Substitute(pre + "{dd}" + rest, v) == pre + (if d.Some? then d.value.day else "") + tail
      && Substitute(pre + "{HH}" + rest, v) == pre + (if d.Some? then d.value.hour else "") + tail
      && Substitute(pre + "{mm}" + rest, v) == pre + (if d.Some? then d.value.minute else "") + tail
      && Substitute(pre + "{ss}" + rest, v) == pre + (if d.Some? then d.value.second else "") + tail
      && Substitute(pre + "{original_name}" + rest, v) == pre + Clean(u, SplitExt(vars.originalName).0) + tail
      && Substitute(pre + "{device}" + rest, v) == pre + Clean(u, vars.device) + tail
      && Substitute(pre + "{album}" + rest, v) == pre + Clean(u, vars.album) + tail
      && Substitute(pre + "{counter}" + rest, v) == pre + (if c == 0 then "" else "_" + Decimal(c)) + tail
      && Substitute(pre + "{hash8}" + rest, v) ==
           pre + (if |vars.hash| < 8 then vars.hash else vars.hash[..8]) + tail
      && Substitute(pre + "{ext}" + rest, v) == pre + CleanExt(u, SplitExt(vars.originalName).1) + tail
  {
    hide Clean, CleanExt, SplitExt, Substitute, Decimal, Keyed;
    var v := Values(u, vars, CounterText(c));
    ValuesAreKeyed(u, vars, CounterText(c));
    forall i: nat | i < 12 {
      KeyStands(v, i, pre, rest);
    }
    assert Stood(v, 0, pre, rest) && Stood(v, 1, pre, rest) && Stood(v, 2, pre, rest) && Stood(v, 3, pre, rest);
    assert Stood(v, 4, pre, rest) && Stood(v, 5, pre, rest) && Stood(v, 6, pre, rest) && Stood(v, 7, pre, rest);
    assert Stood(v, 8, pre, rest) && Stood(v, 9, pre, rest) && Stood(v, 10, pre, rest) && Stood(v, 11, pre, rest);
  }

  predicate Stood(v: seq<(string, string)>, i: nat, pre: string, rest: string)
    requires i < |v|
  {
    Substitute(pre + v[i].0 + rest, v) == pre + v[i].1 + Substitute(rest, v)
  }

  const VARIABLES := ["{yyyy}", "{MM}", "{dd}", "{HH}", "{mm}", "{ss}", "{original_name}", "{device}", "{album}",
    "{counter}", "{hash8}", "{ext}"]

  lemma ValuesAreOfVariables(u: Unicode, vars: Vars, text: string)
    ensures |VARIABLES| == |Values(u, vars, text)|
    ensures forall i | 0 <= i < |VARIABLES| :: VARIABLES[i] == Values(u, vars, text)[i].0
  {
    hide Clean, CleanExt, SplitExt, ShortHash;
  }

  predicate BeginsVariable(t: string) { exists i | 0 <= i < |VARIABLES| :: VARIABLES[i] <= t }

  lemma NoKeyBegins(u: Unicode, vars: Vars, text: string, t: string)
    requires !BeginsVariable(t)
    ensures FirstKey(t, Values(u, vars, text)) == None
  {
    hide Values;
    var v := Values(u, vars, text);
    ValuesAreOfVariables(u, vars, text);
    assert forall i | 0 <= i < |v| :: !(v[i].0 <= t);
    NoneFits(t, v);
  }

  /** A brace that begins none of them is text like any other. */
  lemma StrayBraceStays(u: Unicode, vars: Vars, c: nat, pre: string, rest: string)
    requires '{' !in pre && !BeginsVariable("{" + rest)
    ensures var v := Values(u, vars, CounterText(c));
      Substitute(pre + "{" + rest, v) == pre + "{" + Substitute(rest, v)
  {
    hide Values, CounterText, Keyed, BeginsVariable;
    var v := Values(u, vars, CounterText(c));
    ValuesAreKeyed(u, vars, CounterText(c));
    var t := "{" + rest;
    assert pre + "{" + rest == pre + t;
    PlainFirst(pre, t, v);
    NoKeyBegins(u, vars, CounterText(c), t);
    assert t[1..] == rest;
    assert pre + ("{" + Substitute(rest, v)) == pre + "{" + Substitute(rest, v);
  }

  lemma {:induction false} NoneFits(t: string, values: seq<(string, string)>)
    requires forall i | 0 <= i < |values| :: !(values[i].0 <= t)
    ensures FirstKey(t, values) == None
  {
    if values != [] {
      NoneFits(t, values[1..]);
    }
  }

  // ---- separators ----

  /** A backslash separates like a slash. */
  lemma BothSlashesSeparate(u: Unicode, s: string, t: string)
    ensures SplitPath(u, s + "\\" + t) == SplitPath(u, s + "/" + t)
    ensures Slashed(s + "/" + t) == Slashed(s) + ['/'] + Slashed(t)
  {
    assert Slashed(s + "\\" + t) == Slashed(s + "/" + t) == Slashed(s) + ['/'] + Slashed(t);
  }

  lemma {:induction false} PartsConcat(u: Unicode, p: seq<string>, q: seq<string>)
    ensures CleanParts(u, p + q) == CleanParts(u, p) + CleanParts(u, q)
  {
    hide Clean;
    if q == [] {
      assert p + q == p;
    } else {
      PartsConcat(u, p, q[..|q| - 1]);
      assert (p + q)[..|p + q| - 1] == p + q[..|q| - 1];
    }
  }

  lemma EmptyIsDropped(u: Unicode, part: string)
    requires Clean(u, part) == ""
    ensures CleanParts(u, [part]) == []
  {
    hide Clean;
    assert [part][..0] == [];
    assert CleanParts(u, [part][..0]) == [];
  }

  lemma MiddleVanishes(u: Unicode, x: string, part: string, y: string)
    requires '/' !in part && Clean(u, part) == ""
    ensures CleanParts(u, Split(x + ['/'] + (part + ['/'] + y), '/')) == CleanParts(u, Split(x + ['/'] + y, '/'))
  {
    hide Clean, CleanParts, Split;
    var p, q := Split(x, '/'), Split(y, '/');
    SplitConcat(x, part + ['/'] + y, '/');
    SplitConcat(part, y, '/');
    SplitConcat(x, y, '/');
    SplitPlain(part, '/');
    PartsConcat(u, p, [part] + q);
    PartsConcat(u, [part], q);
    PartsConcat(u, p, q);
    EmptyIsDropped(u, part);
  }

  lemma SamePartsSamePath(u: Unicode, s: string, t: string)
    requires CleanParts(u, Split(Slashed(s), '/')) == CleanParts(u, Split(Slashed(t), '/'))
    ensures SplitPath(u, s) == SplitPath(u, t)
  {
    hide Clean, CleanParts, CleanExt, SplitExt, Split, Slashed, FitBase, Join;
  }

  /** A directory of which nothing is left is no directory: the path is as if it had not been there. */
  lemma EmptyPartsVanish(u: Unicode, s: string, part: string, t: string)
    requires '/' !in part && '\\' !in part && Clean(u, part) == ""
    ensures SplitPath(u, s + "/" + (part + "/" + t)) == SplitPath(u, s + "/" + t)
  {
    hide Clean, CleanParts, SplitPath, Split, Slashed;
    NoBackslashStays(part);
    BothSlashesSeparate(u, s, part + "/" + t);
    BothSlashesSeparate(u, part, t);
    BothSlashesSeparate(u, s, t);
    MiddleVanishes(u, Slashed(s), part, Slashed(t));
    SamePartsSamePath(u, s + "/" + (part + "/" + t), s + "/" + t);
  }

  lemma NoBackslashStays(s: string)
    requires '\\' !in s
    ensures Slashed(s) == s
  {
  }

  // ---- two whole templates ----

  const BY_MONTH := "{yyyy}/{MM}/{original_name}.{ext}"

  /** `Default`. */
  const DEFAULT := "{yyyy}-{MM}-{dd}_" + "{HH}{mm}{ss}_{original_name}.{ext}"

  predicate Digits(s: string) { |s| <= 8 && forall i | 0 <= i < |s| :: '0' <= s[i] <= '9' }

  predicate PlainStamp(d: Stamp) {
    Digits(d.year) && Digits(d.month) && Digits(d.day) && Digits(d.hour) && Digits(d.minute) && Digits(d.second)
  }

  /** An ordinary name: a plain stem without a dot, and an extension of letters and digits. */
  predicate PlainName(name: string, base: string, e: string) {
    PlainPart(base) && |base| <= 100 && '.' !in base && PlainExt(e) && e != "" && name == FileName(base, e)
  }

  /** {counter} is spelled with a u, which neither of the two templates has. */
  predicate ContainsU(s: string) { 'u' in s }

  lemma {:induction false} ContainsLetters(t: string, k: string, c: char)
    requires Contains(t, k) && c in k
    ensures c in t
  {
    if !(k <= t) {
      ContainsLetters(t[1..], k, c);
    }
  }

  lemma NoCounterIn(t: string)
    requires !ContainsU(t)
    ensures !Contains(t, COUNTER_KEY)
  {
    assert COUNTER_KEY[3] == 'u';
    if Contains(t, COUNTER_KEY) {
      ContainsLetters(t, COUNTER_KEY, 'u');
    }
  }

  /** The counter goes at the end of a base that has room for it. */
  lemma CounterAtTheEnd(u: Unicode, tmpl: string, vars: Vars, c: nat, dirs: seq<string>, base: string, e: string)
    requires (forall d | d in dirs :: PlainPart(d)) && PlainPart(base) && |base| <= 160 && '.' !in base
    requires PlainPart(FileName(base, e)) && PlainExt(e) && !ContainsU(tmpl) && c <= MAX_COUNTER
    requires Substitute(tmpl, Values(u, vars, CounterText(c))) == Template(dirs, FileName(base, e))
    ensures Render(u, tmpl, vars, c) ==
      Ok(Rendered(Join(ShortDirs(dirs), '/'), base + if c == 0 then "" else "_" + Decimal(c), e))
  {
    hide Values, Substitute, Contains, SplitPath, Template, PlainPart, PlainExt, Join, ShortDirs, Utf8, Decimal;
    PlainSplits(u, dirs, base, e);
    NoCounterIn(tmpl);
    CounterTextShort(c);
    CleanPlain(u, base);
    ExtStays(u, e);
    ShortExt(e);
    assert CounterText(c) == if c == 0 then "" else "_" + Decimal(c);
    assert base + "" == base;
  }

  lemma NameValues(u: Unicode, vars: Vars, base: string, e: string)
    requires PlainName(vars.originalName, base, e)
    ensures Clean(u, SplitExt(vars.originalName).0) == base && CleanExt(u, SplitExt(vars.originalName).1) == e
  {
    hide PlainPart, PlainExt, Clean, CleanExt, SplitExt, FileName;
    Unbroken(base);
    PlainNameSplits(base, e);
    CleanPlain(u, base);
    ExtStays(u, e);
  }

  lemma DigitsArePlain(s: string)
    requires Digits(s) && s != ""
    ensures PlainPart(s)
  {
    hide Reserved;
    assert !Reserved(s) by {
      DigitsAreNoDevice(s);
    }
    forall c | c in s
      ensures c as int < 0x80 && !Forbidden(c) && c != '{'
    {
    }
  }

  lemma DigitsAreNoDevice(s: string)
    requires Digits(s) && s != ""
    ensures !Reserved(s)
  {
    assert UpperAscii(s)[0] == s[0];
    if |s| == 4 {
      assert UpperAscii(s)[..3][0] == s[0];
    }
  }

  /** A template in pieces: text without a brace, and variables with what they stand for. */
  datatype Pieces = End | Words(text: string, rest: Pieces) | Variable(key: string, value: string, rest: Pieces)

  predicate Sensible(ps: Pieces, v: seq<(string, string)>) {
    match ps
    case End => true
    case Words(text, rest) => '{' !in text && Sensible(rest, v)
    case Variable(key, value, rest) => (key, value) in v && Sensible(rest, v)
  }

  function Written(ps: Pieces): string {
    match ps
    case End => ""
    case Words(text, rest) => text + Written(rest)
    case Variable(key, _, rest) => key + Written(rest)
  }

  function Filled(ps: Pieces): string {
    match ps
    case End => ""
    case Words(text, rest) => text + Filled(rest)
    case Variable(_, value, rest) => value + Filled(rest)
  }

  /** Every variable of a template is filled in, once, and everything else stays. */
  lemma {:induction false} AllFilledIn(ps: Pieces, v: seq<(string, string)>)
    requires Keyed(v) && Sensible(ps, v)
    ensures Substitute(Written(ps), v) == Filled(ps)
  {
    hide Keyed, Substitute;
    match ps
    case End => NothingStays(v);
    case Words(text, rest) =>
      AllFilledIn(rest, v);
      PlainFirst(text, Written(rest), v);
    case Variable(key, value, rest) =>
      AllFilledIn(rest, v);
      var i :| 0 <= i < |v| && v[i] == (key, value);
      KeyStands(v, i, "", Written(rest));
      assert "" + key + Written(rest) == Written(ps);
      assert "" + value + Filled(rest) == Filled(ps);
  }

  lemma NothingStays(v: seq<(string, string)>)
    ensures Substitute("", v) == ""
  {
  }

  /** `{original_name}.{ext}`, behind whatever comes first. */
  function OwnName(base: string, e: string): Pieces {
    Variable("{original_name}", base, Words(".", Variable("{ext}", e, End)))
  }

  lemma OwnNameInPieces(base: string, e: string)
    ensures Written(OwnName(base, e)) == "{original_name}" + ("." + ("{ext}" + ""))
    ensures Filled(OwnName(base, e)) == base + ("." + (e + ""))
  {
    var ext := Variable("{ext}", e, End);
    AfterKey("{ext}", e, End);
    AfterText(".", ext);
    AfterKey("{original_name}", base, Words(".", ext));
  }

  lemma AfterText(text: string, rest: Pieces)
    ensures Written(Words(text, rest)) == text + Written(rest) && Filled(Words(text, rest)) == text + Filled(rest)
  {
  }

  lemma AfterKey(key: string, value: string, rest: Pieces)
    ensures Written(Variable(key, value, rest)) == key + Written(rest)
    ensures Filled(Variable(key, value, rest)) == value + Filled(rest)
  {
  }

  function Monthly(d: Stamp, base: string, e: string): Pieces {
    Variable("{yyyy}", d.year, Words("/", Variable("{MM}", d.month, Words("/", OwnName(base, e)))))
  }

  lemma ByMonthInPieces()
    ensures BY_MONTH == "{yyyy}" + ("/" + ("{MM}" + ("/" + ("{original_name}" + ("." + ("{ext}" + ""))))))
  {
  }

  lemma MonthlyIsByMonth(d: Stamp, base: string, e: string)
    ensures Written(Monthly(d, base, e)) == BY_MONTH
    ensures Filled(Monthly(d, base, e)) == d.year + ("/" + (d.month + ("/" + (base + ("." + (e + ""))))))
  {
    hide Written, Filled, OwnName;
    ByMonthInPieces();
    OwnNameInPieces(base, e);
    var name := OwnName(base, e);
    AfterText("/", name);
    AfterKey("{MM}", d.month, Words("/", name));
    AfterText("/", Variable("{MM}", d.month, Words("/", name)));
    AfterKey("{yyyy}", d.year, Words("/", Variable("{MM}", d.month, Words("/", name))));
  }

  lemma MonthText(u: Unicode, vars: Vars, c: nat, base: string, e: string)
    requires vars.captured.Some? && PlainName(vars.originalName, base, e)
    ensures var d := vars.captured.value;
      Substitute(BY_MONTH, Values(u, vars, CounterText(c))) == Template([d.year, d.month], FileName(base, e))
  {
    hide Substitute, Clean, CleanExt, SplitExt, PlainName, Template, Written, Filled, OwnName, Keyed, Values;
    hide CounterText;
    NameValues(u, vars, base, e);
    var d, v := vars.captured.value, Values(u, vars, CounterText(c));
    ValuesAreKeyed(u, vars, CounterText(c));
    assert Sensible(Monthly(d, base, e), v) by {
      MonthlySensible(u, vars, CounterText(c), base, e);
    }
    AllFilledIn(Monthly(d, base, e), v);
    MonthlyIsByMonth(d, base, e);
    NamedParts(vars.originalName, base, e);
    Joined(d.year, d.month, FileName(base, e));
  }

  /** What the asset gives for the variables of names and dates. */
  lemma MonthlySensible(u: Unicode, vars: Vars, text: string, base: string, e: string)
    requires vars.captured.Some? && PlainName(vars.originalName, base, e)
    requires Clean(u, SplitExt(vars.originalName).0) == base && CleanExt(u, SplitExt(vars.originalName).1) == e
    ensures var d, v := vars.captured.value, Values(u, vars, text); Sensible(Monthly(d, base, e), v)
  {
    hide Clean, CleanExt, SplitExt, PlainName;
    var d, v := vars.captured.value, Values(u, vars, text);
    assert v[0] == ("{yyyy}", d.year) && v[1] == ("{MM}", d.month);
    OwnNameSensible(u, vars, text, base, e);
    var month := Variable("{MM}", d.month, Words("/", OwnName(base, e)));
    assert Sensible(month, v);
    assert Sensible(Words("/", month), v);
  }

  lemma OwnNameSensible(u: Unicode, vars: Vars, text: string, base: string, e: string)
    requires Clean(u, SplitExt(vars.originalName).0) == base && CleanExt(u, SplitExt(vars.originalName).1) == e
    ensures Sensible(OwnName(base, e), Values(u, vars, text))
  {
    hide Clean, CleanExt, SplitExt;
    var v := Values(u, vars, text);
    assert v[6] == ("{original_name}", base) && v[11] == ("{ext}", e);
    var ext := Variable("{ext}", e, End);
    assert Sensible(ext, v);
    assert Sensible(Words(".", ext), v);
  }

  lemma NamedParts(name: string, base: string, e: string)
    requires PlainName(name, base, e)
    ensures name == FileName(base, e) == base + ("." + (e + ""))
    ensures PlainPart(base) && |base| <= 100 && '.' !in base && PlainExt(e) && PlainPart(FileName(base, e)) && e != ""
  {
    hide PlainPart;
    NamePlain(base, e);
  }

  lemma Joined(a: string, b: string, name: string)
    ensures Template([a, b], name) == a + ("/" + (b + ("/" + name)))
  {
    var parts := [a, b] + [name];
    assert parts[1..] == [b, name] && parts[1..][1..] == [name];
    assert Join([name], '/') == name;
    assert Join(parts[1..], '/') == b + ['/'] + name;
    assert Join(parts, '/') == a + ['/'] + (b + ['/'] + name);
  }

  /** A photograph of a known date is filed by year and month under its own name, and a counter follows that name. */
  lemma FiledByMonth(u: Unicode, vars: Vars, c: nat, base: string, e: string)
    requires vars.captured.Some? && PlainStamp(vars.captured.value) && c <= MAX_COUNTER
    requires vars.captured.value.year != "" && vars.captured.value.month != ""
    requires PlainName(vars.originalName, base, e)
    ensures var d := vars.captured.value;
      Render(u, "{yyyy}/{MM}/{original_name}.{ext}", vars, c) ==
        Ok(Rendered(d.year + "/" + d.month, base + if c == 0 then "" else "_" + Decimal(c), e))
  {
    hide Values, Substitute, Render, Template, PlainPart, PlainExt, Join, PlainName, CounterText, Decimal, Truncated;
    hide ContainsU;
    var d := vars.captured.value;
    var dirs := [d.year, d.month];
    MonthText(u, vars, c, base, e);
    NamedParts(vars.originalName, base, e);
    DigitsArePlain(d.year);
    DigitsArePlain(d.month);
    NoU();
    var tmpl := BY_MONTH;
    CounterAtTheEnd(u, tmpl, vars, c, dirs, base, e);
    DigitsFit(d.year);
    DigitsFit(d.month);
    assert ShortDirs(dirs) == dirs;
    assert Join(dirs, '/') == d.year + "/" + d.month by {
      TwoJoined(d.year, d.month);
    }
  }

  lemma NoU()
    ensures !ContainsU(BY_MONTH)
  {
  }

  lemma TwoJoined(a: string, b: string)
    ensures Join([a, b], '/') == a + "/" + b
  {
    assert [a, b][1..] == [b];
    assert Join([b], '/') == b;
  }

  lemma DigitsFit(s: string)
    requires Digits(s)
    ensures Truncated(s, MAX_COMPONENT) == s
  {
    hide Utf8;
    Utf8Ascii(s);
  }

  // ---- the template out of the box ----

  function Timed(d: Stamp, base: string, e: string): Pieces {
    Variable("{HH}", d.hour, Variable("{mm}", d.minute, Variable("{ss}", d.second, Words("_", OwnName(base, e)))))
  }

  function Dated(d: Stamp, rest: Pieces): Pieces {
    Variable("{yyyy}", d.year, Words("-", Variable("{MM}", d.month, Words("-",
      Variable("{dd}", d.day, Words("_", rest))))))
  }

  lemma DateInPieces()
    ensures "{yyyy}-{MM}-{dd}_" == "{yyyy}" + ("-" + ("{MM}" + ("-" + ("{dd}" + "_"))))
  {
  }

  lemma TimeInPieces()
    ensures "{HH}{mm}{ss}_{original_name}.{ext}" ==
      "{HH}" + ("{mm}" + ("{ss}" + ("_" + ("{original_name}" + ("." + ("{ext}" + ""))))))
  {
  }

  lemma TimedWritten(d: Stamp, base: string, e: string)
    ensures Written(Timed(d, base, e)) == "{HH}{mm}{ss}_{original_name}.{ext}"
    ensures Filled(Timed(d, base, e)) == d.hour + (d.minute + (d.second + ("_" + (base + ("." + (e + ""))))))
  {
    hide Written, Filled, OwnName;
    TimeInPieces();
    OwnNameInPieces(base, e);
    var name := OwnName(base, e);
    var seconds := Variable("{ss}", d.second, Words("_", name));
    AfterText("_", name);
    AfterKey("{ss}", d.second, Words("_", name));
    AfterKey("{mm}", d.minute, seconds);
    AfterKey("{HH}", d.hour, Variable("{mm}", d.minute, seconds));
  }

  lemma DatedWritten(d: Stamp, rest: Pieces)
    ensures Written(Dated(d, rest)) == "{yyyy}-{MM}-{dd}_" + Written(rest)
    ensures Filled(Dated(d, rest)) == d.year + ("-" + (d.month + ("-" + (d.day + ("_" + Filled(rest))))))
  {
    hide Written, Filled;
    DateInPieces();
    var day := Variable("{dd}", d.day, Words("_", rest));
    var month := Variable("{MM}", d.month, Words("-", day));
    AfterText("_", rest);
    AfterKey("{dd}", d.day, Words("_", rest));
    AfterText("-", day);
    AfterKey("{MM}", d.month, Words("-", day));
    AfterText("-", month);
    AfterKey("{yyyy}", d.year, Words("-", month));
    assert "{yyyy}" + ("-" + ("{MM}" + ("-" + ("{dd}" + ("_" + Written(rest)))))) ==
        ("{yyyy}" + ("-" + ("{MM}" + ("-" + ("{dd}" + "_"))))) + Written(rest);
  }

  /** The date as far as it is known. */
  function StampOf(vars: Vars): Stamp {
    if vars.captured.Some? then vars.captured.value else Stamp("", "", "", "", "", "")
  }

  function DatePart(d: Stamp): string {
    d.year + "-" + d.month + "-" + d.day + "_" + d.hour + d.minute + d.second + "_"
  }

  lemma DatedSensible(u: Unicode, vars: Vars, text: string, base: string, e: string)
    requires Clean(u, SplitExt(vars.originalName).0) == base && CleanExt(u, SplitExt(vars.originalName).1) == e
    ensures Sensible(Dated(StampOf(vars), Timed(StampOf(vars), base, e)), Values(u, vars, text))
  {
    hide Clean, CleanExt, SplitExt, OwnName;
    var d, v := StampOf(vars), Values(u, vars, text);
    assert v[0] == ("{yyyy}", d.year) && v[1] == ("{MM}", d.month) && v[2] == ("{dd}", d.day);
    assert v[3] == ("{HH}", d.hour) && v[4] == ("{mm}", d.minute) && v[5] == ("{ss}", d.second);
    OwnNameSensible(u, vars, text, base, e);
    var name := Words("_", OwnName(base, e));
    assert Sensible(name, v);
    assert Sensible(Variable("{ss}", d.second, name), v);
    assert Sensible(Timed(d, base, e), v);
    var day := Variable("{dd}", d.day, Words("_", Timed(d, base, e)));
    assert Sensible(Words("_", Timed(d, base, e)), v);
    assert Sensible(Words("-", day), v);
    assert Sensible(Words("-", Variable("{MM}", d.month, Words("-", day))), v);
  }

  lemma DefaultText(u: Unicode, vars: Vars, c: nat, base: string, e: string)
    requires PlainName(vars.originalName, base, e)
    ensures Substitute(DEFAULT, Values(u, vars, CounterText(c))) ==
      Template([], FileName(DatePart(StampOf(vars)) + base, e))
  {
    hide Substitute, Clean, CleanExt, SplitExt, PlainName, Written, Filled, OwnName, Keyed, Values, CounterText;
    hide Dated, Timed, StampOf, Sensible, PlainPart, PlainExt;
    NameValues(u, vars, base, e);
    var d, v := StampOf(vars), Values(u, vars, CounterText(c));
    ValuesAreKeyed(u, vars, CounterText(c));
    DatedSensible(u, vars, CounterText(c), base, e);
    var timed := Timed(d, base, e);
    AllFilledIn(Dated(d, timed), v);
    DatedWritten(d, timed);
    TimedWritten(d, base, e);
    NamedParts(vars.originalName, base, e);
    DatePartJoins(d, base, e);
    assert [] + [FileName(DatePart(d) + base, e)] == [FileName(DatePart(d) + base, e)];
  }

  lemma DatePartJoins(d: Stamp, base: string, e: string)
    requires e != ""
    ensures FileName(DatePart(d) + base, e) ==
      d.year + ("-" + (d.month + ("-" + (d.day + ("_" + (d.hour + (d.minute + (d.second + ("_" +
        (base + ("." + (e + ""))))))))))))
  {
    var file := base + ("." + (e + ""));
    var time := d.hour + (d.minute + (d.second + ("_" + file)));
    TimeJoins(d, file);
    DayJoins(d, time);
    assert FileName(DatePart(d) + base, e) == DatePart(d) + file;
  }

  lemma TimeJoins(d: Stamp, file: string)
    ensures d.hour + (d.minute + (d.second + ("_" + file))) == d.hour + d.minute + d.second + "_" + file
  {
  }

  lemma DayJoins(d: Stamp, time: string)
    ensures d.year + ("-" + (d.month + ("-" + (d.day + ("_" + time))))) ==
      d.year + "-" + d.month + "-" + d.day + "_" + time
  {
  }

  predicate DateLike(s: string) {
    forall i | 0 <= i < |s| :: '0' <= s[i] <= '9' || s[i] == '-' || s[i] == '_'
  }

  lemma DatePartIsDateLike(d: Stamp)
    requires PlainStamp(d)
    ensures DateLike(DatePart(d)) && 4 <= |DatePart(d)| <= 52
  {
  }

  lemma DatedBaseIsPlain(front: string, base: string)
    requires DateLike(front) && |front| >= 4 && PlainPart(base) && '.' !in base
    ensures PlainPart(front + base) && '.' !in front + base
  {
    hide Reserved;
    var s := front + base;
    LongIsNoDevice(s);
    assert s[|s| - 1] == base[|base| - 1] && s[0] == front[0];
    forall i | 0 <= i < |s|
      ensures s[i] as int < 0x80 && !Forbidden(s[i]) && s[i] != '{' && s[i] != '.'
    {
      if i >= |front| {
        assert s[i] == base[i - |front|] && base[i - |front|] in base;
      } else {
        assert s[i] == front[i];
      }
    }
  }

  /**
    Out of the box a photograph is stored beside the others, under its date, its time and its own name.
    Without a date only the separators are left before the name.
  */
  lemma NamedByDate(u: Unicode, vars: Vars, c: nat, base: string, e: string)
    requires c <= MAX_COUNTER && PlainName(vars.originalName, base, e)
    requires vars.captured.Some? ==> PlainStamp(vars.captured.value)
    ensures var counter := if c == 0 then "" else "_" + Decimal(c);
      && (vars.captured.Some? ==>
         var d := vars.captured.value;
         Render(u, DEFAULT, vars, c) == Ok(Rendered("", d.year + "-" + d.month + "-" + d.day + "_" +
           d.hour + d.minute + d.second + "_" + base + counter, e)))
      && (vars.captured.None? ==> Render(u, DEFAULT, vars, c) == Ok(Rendered("", "--__" + base + counter, e)))
  {
    hide Values, Substitute, Render, Template, PlainPart, PlainExt, Join, PlainName, CounterText, Decimal, ContainsU;
    var d := StampOf(vars);
    var front := DatePart(d);
    DefaultText(u, vars, c, base, e);
    NamedParts(vars.originalName, base, e);
    assert vars.captured.None? ==> front == "--__";
    DatePartIsDateLike(d);
    DatedBaseIsPlain(front, base);
    ExtIsLetters(e);
    NamePlain(front + base, e);
    NoUInDefault();
    CounterAtTheEnd(u, DEFAULT, vars, c, [], front + base, e);
    assert ShortDirs([]) == [];
    assert Join([], '/') == "" by {
      NothingJoined();
    }
  }

  lemma NothingJoined()
    ensures Join([], '/') == ""
  {
  }

  lemma ExtIsLetters(e: string)
    requires PlainExt(e)
    ensures Letters(e)
  {
  }

  lemma NoUInDefault()
    ensures !ContainsU(DEFAULT)
  {
    assert !ContainsU("{yyyy}-{MM}-{dd}_") && !ContainsU("{HH}{mm}{ss}_{original_name}.{ext}");
  }

  // ---- a template with the counter in it ----

  const NUMBERED := "{original_name}{counter}.{ext}"

  function Numbered(base: string, counter: string, e: string): Pieces {
    Variable("{original_name}", base, Variable("{counter}", counter, Words(".", Variable("{ext}", e, End))))
  }

  lemma NumberedInPieces(base: string, counter: string, e: string)
    ensures Written(Numbered(base, counter, e)) == NUMBERED
    ensures Filled(Numbered(base, counter, e)) == base + (counter + ("." + (e + "")))
  {
    hide Written, Filled;
    var ext := Variable("{ext}", e, End);
    AfterKey("{ext}", e, End);
    assert Written(End) == "" && Filled(End) == "" by {
      NothingWritten();
    }
    AfterText(".", ext);
    AfterKey("{counter}", counter, Words(".", ext));
    AfterKey("{original_name}", base, Variable("{counter}", counter, Words(".", ext)));
    NumberedSpelled();
  }

  lemma NothingWritten()
    ensures Written(End) == "" && Filled(End) == ""
  {
  }

  lemma NumberedSpelled()
    ensures NUMBERED == "{original_name}" + ("{counter}" + ("." + ("{ext}" + "")))
  {
  }

  lemma NumberedCounts()
    ensures Contains(NUMBERED, COUNTER_KEY)
  {
    var n := |"{original_name}"|;
    NumberedSpelled();
    assert NUMBERED[n..] == "{counter}" + ("." + ("{ext}" + ""));
    assert COUNTER_KEY <= NUMBERED[n..];
    ContainsLater(NUMBERED, n, COUNTER_KEY);
  }

  lemma NumberedSensible(u: Unicode, vars: Vars, text: string, base: string, e: string)
    requires Clean(u, SplitExt(vars.originalName).0) == base && CleanExt(u, SplitExt(vars.originalName).1) == e
    ensures Sensible(Numbered(base, text, e), Values(u, vars, text))
  {
    hide Clean, CleanExt, SplitExt;
    var v := Values(u, vars, text);
    assert v[6] == ("{original_name}", base) && v[9] == ("{counter}", text) && v[11] == ("{ext}", e);
    var ext := Variable("{ext}", e, End);
    assert Sensible(ext, v);
    assert Sensible(Words(".", ext), v);
    assert Sensible(Variable("{counter}", text, Words(".", ext)), v);
  }

  /** A plain name with a counter behind it is plain. */
  lemma CountedIsPlain(base: string, c: nat)
    requires PlainPart(base) && '.' !in base && c > 0
    ensures PlainPart(base + CounterText(c)) && '.' !in base + CounterText(c)
  {
    hide Reserved, Decimal;
    var s, d := base + CounterText(c), Decimal(c);
    assert !Reserved(s) by {
      UnderscoreIsNoDevice(s, |base|);
    }
    assert s == base + ['_'] + d && s[|s| - 1] == d[|d| - 1] && d[|d| - 1] in d;
    forall i | 0 <= i < |s|
      ensures s[i] as int < 0x80 && !Forbidden(s[i]) && s[i] != '{' && s[i] != '.'
    {
      if i < |base| {
        assert s[i] == base[i] && base[i] in base;
      } else if i > |base| {
        assert s[i] == d[i - |base| - 1] && d[i - |base| - 1] in d;
      }
    }
  }

  lemma UnderscoreIsNoDevice(s: string, i: nat)
    requires i < |s| && s[i] == '_'
    ensures !Reserved(s)
  {
    assert UpperAscii(s)[i] == '_';
  }

  /** A template that says where the counter goes has it there, once, and nowhere else. */
  lemma CounterWhereAsked(u: Unicode, vars: Vars, c: nat, base: string, e: string)
    requires 0 < c <= MAX_COUNTER && PlainName(vars.originalName, base, e)
    ensures Render(u, "{original_name}{counter}.{ext}", vars, c) == Ok(Rendered("", base + "_" + Decimal(c), e))
  {
    hide Values, Substitute, SplitPath, Template, PlainPart, PlainExt, Join, PlainName, CounterText, Decimal, Contains;
    hide Sensible, Written, Filled, Keyed, Clean, CleanExt, SplitExt;
    var text, v := CounterText(c), Values(u, vars, CounterText(c));
    NameValues(u, vars, base, e);
    NamedParts(vars.originalName, base, e);
    ValuesAreKeyed(u, vars, text);
    NumberedSensible(u, vars, text, base, e);
    AllFilledIn(Numbered(base, text, e), v);
    NumberedInPieces(base, text, e);
    NumberedCounts();
    CountedIsPlain(base, c);
    CounterTextShort(c);
    CounterIsShort(c);
    ExtIsLetters(e);
    NamePlain(base + text, e);
    OnlyName(base, text, e);
    PlainSplits(u, [], base + text, e);
    assert ShortDirs([]) == [] && text == "_" + Decimal(c) by {
      CounterSpelled(c);
    }
    NothingJoined();
    assert base + text == base + "_" + Decimal(c);
  }

  lemma CounterSpelled(c: nat)
    requires c > 0
    ensures CounterText(c) == "_" + Decimal(c)
  {
  }

  lemma CounterIsShort(c: nat)
    requires |Utf8(CounterText(c))| <= 20
    ensures |CounterText(c)| <= 20
  {
    hide Utf8, Decimal;
    var text := CounterText(c);
    forall i | 0 <= i < |text|
      ensures text[i] as int < 0x80
    {
      assert c > 0 ==> text == ['_'] + Decimal(c);
      assert i > 0 ==> text[i] == Decimal(c)[i - 1] && Decimal(c)[i - 1] in Decimal(c);
    }
    Utf8Ascii(text);
  }

  lemma OnlyName(base: string, counter: string, e: string)
    requires e != ""
    ensures Template([], FileName(base + counter, e)) == base + (counter + ("." + (e + "")))
  {
    var name := FileName(base + counter, e);
    assert [] + [name] == [name];
    assert Join([name], '/') == name;
  }
}
