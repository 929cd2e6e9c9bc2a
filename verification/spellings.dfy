/**
  Templates that are, but for what is cut off their directories, their own rendering, and five of them
  whose names the runs of `failing_runs.dfy` need.
*/
module Spellings {
  import opened Wrappers
  import opened Texts
  import opened Naming
  import opened Ledger

  // ---- templates that are their own rendering ----

  /** A component that rendering leaves as it is: plain ASCII, nothing to trim, no device name. */
  predicate PlainPart(s: string) {
    && s != "" && s[0] != ' ' && !EndTrimmed(s[|s| - 1]) && !Reserved(s)
    && forall c | c in s :: c as int < 0x80 && !Forbidden(c) && c != '{'
  }

  predicate PlainExt(e: string) { |e| <= 16 && !Reserved(e) && Letters(e) }

  /** Letters and digits. */
  predicate Letters(e: string) {
    forall i | 0 <= i < |e| :: 'a' <= e[i] <= 'z' || 'A' <= e[i] <= 'Z' || '0' <= e[i] <= '9'
  }

  function Template(dirs: seq<string>, name: string): string { Join(dirs + [name], '/') }

  lemma {:induction false} SubstitutePlain(t: string, values: seq<(string, string)>)
    requires '{' !in t && forall kv | kv in values :: kv.0 != "" && kv.0[0] == '{'
    ensures Substitute(t, values) == t
  {
    if t != "" {
      NoKeyStarts(t, values);
      SubstitutePlain(t[1..], values);
      assert [t[0]] + t[1..] == t;
    }
  }

  lemma {:induction false} NoKeyStarts(t: string, values: seq<(string, string)>)
    requires '{' !in t && forall kv | kv in values :: kv.0 != "" && kv.0[0] == '{'
    ensures FirstKey(t, values) == None
  {
    if values != [] {
      assert values[0] in values;
      StartsWithin(values[0].0, t);
      NoKeyStarts(t, values[1..]);
    }
  }

  lemma StartsWithin(k: string, t: string)
    ensures k <= t && k != "" ==> k[0] in t
  {
  }

  lemma KeysAreBraced(u: Unicode, vars: Vars)
    ensures forall kv | kv in Values(u, vars, "") :: kv.0 != "" && kv.0[0] == '{'
  {
    hide Clean, CleanExt, SplitExt, ShortHash;
    var values := Values(u, vars, "");
    assert |values| == 12;
    assert forall i | 0 <= i < 12 :: values[i].0 != "" && values[i].0[0] == '{';
  }

  lemma CleanPlain(u: Unicode, s: string)
    requires PlainPart(s)
    ensures Clean(u, s) == s && |Utf8(s)| == |s|
  {
    hide Utf8, Reserved;
    forall i | 0 <= i < |s|
      ensures CleanChars(u, s)[i] == s[i]
    {
      assert s[i] in s;
    }
    assert CleanChars(u, s) == s;
    assert TrimEnd(s) == s && TrimStart(s, ' ') == s;
    Utf8Ascii(s);
  }

  lemma {:induction false} PartsStay(u: Unicode, parts: seq<string>)
    requires forall p | p in parts :: PlainPart(p)
    ensures CleanParts(u, parts) == parts
  {
    hide Clean, PlainPart;
    if parts != [] {
      var before, last := parts[..|parts| - 1], parts[|parts| - 1];
      assert forall p | p in before :: p in parts;
      PartsStay(u, before);
      CleanPlain(u, last);
      Unbroken(last);
      assert before + [last] == parts;
    }
  }

  lemma LongIsNoDevice(s: string)
    requires |s| > 4
    ensures !Reserved(s)
  {
    assert |UpperAscii(s)| > 4;
  }

  lemma DottedIsNoDevice(s: string, i: nat)
    requires i < |s| && s[i] == '.'
    ensures !Reserved(s)
  {
    assert UpperAscii(s)[i] == '.';
  }

  lemma Unbroken(s: string)
    requires PlainPart(s)
    ensures s != "" && '/' !in s && '\\' !in s && '{' !in s
  {
    hide Reserved;
  }

  lemma {:induction false} JoinedPlain(parts: seq<string>)
    requires forall p | p in parts :: PlainPart(p)
    ensures '{' !in Join(parts, '/') && Slashed(Join(parts, '/')) == Join(parts, '/')
  {
    hide PlainPart;
    if parts != [] {
      assert forall p | p in parts[1..] :: p in parts;
      JoinedPlain(parts[1..]);
      Unbroken(parts[0]);
      NoBackslash(Join(parts[1..], '/'));
      assert '\\' !in Join(parts, '/');
      assert forall i | 0 <= i < |Join(parts, '/')| :: Join(parts, '/')[i] != '\\';
    }
  }

  lemma NoBackslash(t: string)
    requires Slashed(t) == t
    ensures '\\' !in t
  {
    assert forall i | 0 <= i < |t| :: Slashed(t)[i] != '\\';
  }

  lemma {:induction false} LettersStay(u: Unicode, e: string)
    requires Letters(e)
    ensures KeepAlnum(u, e) == e
  {
    if e != "" {
      LettersStay(u, e[..|e| - 1]);
      assert e[..|e| - 1] + [e[|e| - 1]] == e;
    }
  }

  lemma LettersAreClean(u: Unicode, e: string)
    requires PlainExt(e)
    ensures Clean(u, e) == e
  {
    hide Reserved, UpperAscii, TrimEnd, TrimStart, CleanChars;
    LettersPass(u, e);
    LettersKept(e);
    assert e != "." && e != ".." by {
      assert e != "" ==> e[0] != '.';
    }
  }

  lemma LettersPass(u: Unicode, e: string)
    requires Letters(e)
    ensures CleanChars(u, e) == e
  {
    hide Refused, Separator;
    assert forall i | 0 <= i < |e| :: !Forbidden(e[i]) by {
      AllowedLetters(e);
    }
  }

  lemma AllowedLetters(e: string)
    requires Letters(e)
    ensures forall i | 0 <= i < |e| :: !Forbidden(e[i])
  {
  }

  lemma LettersKept(e: string)
    requires Letters(e)
    ensures TrimEnd(e) == e && TrimStart(e, ' ') == e
  {
  }

  lemma ExtStays(u: Unicode, e: string)
    requires PlainExt(e)
    ensures CleanExt(u, e) == e && |Utf8(e)| == |e|
  {
    hide Utf8, Reserved, Clean, KeepAlnum;
    LettersAreClean(u, e);
    Utf8Ascii(e);
    assert TrimStart(e, '.') == e;
    LettersStay(u, e);
  }

  lemma PlainNameSplits(base: string, e: string)
    requires base != "" && '.' !in base && PlainExt(e)
    ensures SplitExt(FileName(base, e)) == (base, e)
  {
    hide Reserved;
    if e == "" {
      assert forall i | 0 <= i < |base| :: base[i] in base;
    } else {
      var name := base + ['.'] + e;
      assert '.' !in e && '/' !in e;
      ExtAtAppended(base, e);
      assert base + "." + e == name;
      assert name[..|base|] == base && name[|base| + 1..] == e;
    }
  }

  /** A path of plain components is what it is, but for what is cut off its directories. */
  lemma PlainSplits(u: Unicode, dirs: seq<string>, base: string, e: string)
    requires (forall d | d in dirs :: PlainPart(d)) && PlainPart(base) && |base| <= 180 && '.' !in base
    requires PlainPart(FileName(base, e)) && PlainExt(e)
    ensures SplitPath(u, Template(dirs, FileName(base, e))) == Ok(Rendered(Join(ShortDirs(dirs), '/'), base, e))
    ensures '{' !in Template(dirs, FileName(base, e))
  {
    hide Utf8, PlainPart, PlainExt, Join, Clean, CleanExt, SplitExt, FileName, Split, Slashed;
    var parts := dirs + [FileName(base, e)];
    assert forall p | p in parts :: PlainPart(p);
    JoinedPlain(parts);
    forall p | p in parts
      ensures '/' !in p
    {
      Unbroken(p);
    }
    SplitJoin(parts, '/');
    PartsStay(u, parts);
    Unbroken(base);
    PlainNameSplits(base, e);
    ExtStays(u, e);
    CleanPlain(u, base);
    ShortExt(e);
    assert parts[..|parts| - 1] == dirs && parts[|parts| - 1] == FileName(base, e);
  }

  /** A template of plain components renders to itself, but for what is cut off its directories. */
  lemma PlainRenders(u: Unicode, dirs: seq<string>, base: string, e: string, vars: Vars)
    requires (forall d | d in dirs :: PlainPart(d)) && PlainPart(base) && |base| <= 180 && '.' !in base
    requires PlainPart(FileName(base, e)) && PlainExt(e)
    ensures Render(u, Template(dirs, FileName(base, e)), vars, 0) == Ok(Rendered(Join(ShortDirs(dirs), '/'), base, e))
  {
    hide Values, Substitute, Contains, SplitPath, PlainPart, PlainExt, Join, FileName;
    KeysAreBraced(u, vars);
    PlainSplits(u, dirs, base, e);
    SubstitutePlain(Template(dirs, FileName(base, e)), Values(u, vars, ""));
  }

  lemma ShortExt(e: string)
    requires PlainExt(e)
    ensures |e| <= 16
  {
  }

  // ---- the names ----

  /** A directory that is cut down to nothing: its first two hundred bytes are dots. */
  function Dots(): string { seq(200, i => '.') + "x" }

  lemma {:induction false} AllTrimmed(s: string)
    requires forall i | 0 <= i < |s| :: s[i] == '.'
    ensures TrimEnd(s) == ""
  {
    if s != "" {
      AllTrimmed(s[..|s| - 1]);
    }
  }

  lemma DotsAreCut()
    ensures PlainPart(Dots()) && Truncated(Dots(), MAX_COMPONENT) == ""
  {
    hide Utf8, Reserved;
    var s := Dots();
    LongIsNoDevice(s);
    Utf8Ascii(s);
    var k := WholeChars(s, 200);
    WholeCharsFit(s, 200);
    Utf8Ascii(s[..k]);
    if k < |s| {
      Utf8Ascii(s[..k + 1]);
    }
    assert k == 200;
    AllTrimmed(s[..200]);
  }

  /** The same place, named with and without the slash an emptied first directory leaves. */
  function Plain(): Rendered { Rendered("album", "photo", "") }
  function Spelled(): Rendered { Rendered("/album", "photo", "") }

  function AsStill(): Rendered { Rendered("album", "photo_1", "jpg") }
  function Still(): Rendered { Rendered("album", "photo", "heic") }

  function Hidden(): Rendered { Rendered(INCOMING_DIR, "photo", "") }

  lemma PlainWords()
    ensures PlainPart("album") && PlainPart("photo") && '.' !in "photo" && PlainExt("")
    ensures FileName("photo", "") == "photo"
  {
    hide Reserved;
    LongIsNoDevice("album");
    LongIsNoDevice("photo");
    assert !Reserved("") by {
      NothingIsNoDevice();
    }
  }

  lemma NothingIsNoDevice()
    ensures !Reserved("")
  {
    assert |UpperAscii("")| == 0;
  }

  lemma AlbumStays()
    ensures Truncated("album", MAX_COMPONENT) == "album"
  {
    hide Utf8;
    Utf8Ascii("album");
  }

  lemma BothSpellingsRender(u: Unicode, vars: Vars)
    ensures Render(u, Template(["album"], "photo"), vars, 0) == Ok(Plain())
    ensures Render(u, Template([Dots(), "album"], "photo"), vars, 0) == Ok(Spelled())
  {
    hide Render, Dots, PlainPart, PlainExt, Truncated;
    PlainWords();
    DotsAreCut();
    AlbumStays();
    PlainRenders(u, ["album"], "photo", "", vars);
    PlainRenders(u, [Dots(), "album"], "photo", "", vars);
    assert ShortDirs(["album"]) == ["album"] && ShortDirs([Dots(), "album"]) == ["", "album"];
    assert Join(["", "album"], '/') == "/album" && Join(["album"], '/') == "album" by {
      assert ["", "album"][1..] == ["album"];
    }
  }

  lemma NamePlain(base: string, e: string)
    requires PlainPart(base) && '.' !in base && |e| > 0 && Letters(e)
    ensures PlainPart(FileName(base, e))
  {
    hide Reserved;
    var name := FileName(base, e);
    DottedIsNoDevice(name, |base|);
    assert name[|name| - 1] == e[|e| - 1];
    forall i | 0 <= i < |name|
      ensures name[i] as int < 0x80 && !Forbidden(name[i]) && name[i] != '{'
    {
      if i < |base| {
        assert name[i] == base[i] && base[i] in base;
      } else if i > |base| {
        assert name[i] == e[i - |base| - 1];
      }
    }
  }

  lemma NoDevice()
    ensures PlainExt("jpg") && PlainExt("heic")
  {
    assert UpperAscii("jpg")[0] == 'J' && UpperAscii("heic")[..3][0] == 'H';
  }

  lemma BothNamesRender(u: Unicode, vars: Vars)
    ensures Render(u, Template(["album"], "photo_1.jpg"), vars, 0) == Ok(AsStill())
    ensures Render(u, Template(["album"], "photo.heic"), vars, 0) == Ok(Still())
  {
    hide Render, PlainPart, PlainExt, Truncated;
    NoDevice();
    PlainBases();
    PlainWords();
    AlbumStays();
    NamePlain("photo_1", "jpg");
    NamePlain("photo", "heic");
    assert FileName("photo_1", "jpg") == "photo_1.jpg" && FileName("photo", "heic") == "photo.heic";
    PlainRenders(u, ["album"], "photo_1", "jpg", vars);
    PlainRenders(u, ["album"], "photo", "heic", vars);
    assert ShortDirs(["album"]) == ["album"] && Join(["album"], '/') == "album";
  }

  lemma PlainBases()
    ensures PlainPart("photo_1") && '.' !in "photo_1"
  {
    hide Reserved;
    LongIsNoDevice("photo_1");
  }

  lemma HiddenRenders(u: Unicode, vars: Vars)
    ensures Render(u, Template([INCOMING_DIR], "photo"), vars, 0) == Ok(Hidden())
  {
    hide Render, PlainPart, PlainExt, Truncated, Utf8;
    PlainWords();
    assert PlainPart(INCOMING_DIR) by {
      HiddenIsPlain();
    }
    Utf8Ascii(INCOMING_DIR);
    TruncatedShort(INCOMING_DIR);
    PlainRenders(u, [INCOMING_DIR], "photo", "", vars);
    assert ShortDirs([INCOMING_DIR]) == [INCOMING_DIR] && Join([INCOMING_DIR], '/') == INCOMING_DIR;
  }

  lemma HiddenIsPlain()
    ensures PlainPart(INCOMING_DIR)
  {
    hide Reserved;
    LongIsNoDevice(INCOMING_DIR);
  }

  lemma TruncatedShort(s: string)
    requires |Utf8(s)| <= MAX_COMPONENT
    ensures Truncated(s, MAX_COMPONENT) == s
  {
    hide Utf8;
  }

  /** These templates have these names, whatever the values are. */
  ghost predicate AsWritten(u: Rules) { forall v: Vars :: WrittenFor(u, v) }

  predicate WrittenFor(u: Rules, v: Vars) {
    && u.render(Template(["album"], "photo"), v, 0) == Ok(Plain())
    && u.render(Template([Dots(), "album"], "photo"), v, 0) == Ok(Spelled())
    && u.render(Template(["album"], "photo_1.jpg"), v, 0) == Ok(AsStill())
    && u.render(Template(["album"], "photo.heic"), v, 0) == Ok(Still())
    && u.render(Template([INCOMING_DIR], "photo"), v, 0) == Ok(Hidden())
  }

  /** In the receiver's own rules they have. */
  lemma CodeRendersAsWritten(code: Unicode)
    ensures AsWritten(RulesOf(code))
  {
    hide Render, Template, Dots;
    forall v: Vars
      ensures WrittenFor(RulesOf(code), v)
    {
      BothSpellingsRender(code, v);
      BothNamesRender(code, v);
      HiddenRenders(code, v);
    }
  }
}
