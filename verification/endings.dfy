/**
  What the ending of a file's name decides: core/formats/formats.go on the receiver, which keeps what
  isRaw of mobile/src/core/selection.ts calls a raw negative on the phone. The classes are given here by
  their extensions, letter for letter, and not by the tables of `output_policy.dfy`.
*/
module Endings {
  import opened Wrappers
  import opened Texts
  import opened Naming
  import opened OutputPolicy
  import opened Ledger
  import opened ReceiverRuns
  import opened Guarantees
  import opened Limits
  import Selection

  predicate Ascii(s: string) { forall i | 0 <= i < |s| :: s[i] as int < 0x80 }

  /** Text without dots and slashes: what can be an extension. */
  predicate Undivided(s: string) { '.' !in s && '/' !in s }

  // ---- where the extension is ----

  lemma ExtOfAppended(stem: string, ext: string)
    requires Undivided(ext)
    ensures ExtOf(stem + "." + ext) == ext
  {
    ExtAtAppended(stem, ext);
    assert stem + "." + ext == stem + ['.'] + ext;
    assert (stem + ['.'] + ext)[|stem| + 1..] == ext;
  }

  // ---- classes ----

  /** The extension in lower case, whatever the name's own case is. */
  lemma LowersAscii(lower: char -> char, s: string)
    requires Ascii(s)
    ensures Lower(lower, s) == Selection.LowerAscii(s)
  {
  }

  /** An ending decides the class, in any case of its letters and behind any stem, unless the sender says "file". */
  lemma EndingDecides(lower: char -> char, kind: Kind, stem: string, ext: string)
    requires Undivided(ext)
    ensures var c, e := Classify(lower, kind, stem + "." + ext), Lower(lower, ext);
      && (kind == File ==> c == Other)
      && (kind != File ==>
         && (c == Heic <==> e in {"heic", "heif", "hif", "avci"})
         && (c == Raw <==> e in {"dng", "arw", "srf", "sr2", "cr2", "cr3", "crw", "nef", "nrw", "orf", "raf", "rw2",
                "pef", "srw", "3fr", "iiq", "erf", "mef", "mos", "x3f", "raw"})
         && (c == VideoClass <==>
            e in {"mov", "mp4", "m4v", "hevc", "avi", "mkv", "mpg", "mpeg", "3gp", "webm"} ||
            (kind == Video && c != Heic && c != Raw))
         && (c == Heic || c == Raw || c == VideoClass || c == Other))
    ensures Ascii(ext) ==> Lower(lower, ext) == Selection.LowerAscii(ext)
  {
    hide Lower, ExtOf;
    ExtOfAppended(stem, ext);
    if Ascii(ext) {
      LowersAscii(lower, ext);
    }
  }

  /** Names that differ in the case of their letters alone have one class. */
  lemma CaseIsIgnored(lower: char -> char, kind: Kind, stem: string, ext: string, other: string)
    requires Undivided(ext) && Undivided(other) && UpperAscii(ext) == UpperAscii(other)
    ensures Classify(lower, kind, stem + "." + ext) == Classify(lower, kind, stem + "." + other)
    ensures (forall c | c in ext :: 'a' <= c <= 'z' || '0' <= c <= '9') ==> Lower(lower, ext) == ext
  {
    hide HeicExt, RawExt, VideoExt, ExtOf;
    ExtOfAppended(stem, ext);
    ExtOfAppended(stem, other);
    assert |UpperAscii(ext)| == |ext| && |UpperAscii(other)| == |other|;
    forall i | 0 <= i < |ext|
      ensures Lower(lower, ext)[i] == Lower(lower, other)[i]
    {
      assert UpperAscii(ext)[i] == UpperAscii(other)[i];
    }
    assert Lower(lower, ext) == Lower(lower, other);
    if forall c | c in ext :: 'a' <= c <= 'z' || '0' <= c <= '9' {
      forall i | 0 <= i < |ext|
        ensures Lower(lower, ext)[i] == ext[i]
      {
        assert ext[i] in ext;
      }
      assert Lower(lower, ext) == ext;
    }
  }

  /** A name without an ending is what the sender says it is. */
  lemma NoEndingIsByKind(lower: char -> char, kind: Kind, dir: string, base: string)
    requires Undivided(base) && (dir == "" || dir[|dir| - 1] == '/')
    ensures Classify(lower, kind, dir + base) == if kind == Video then VideoClass else Other
  {
    ExtAtNowhere(dir, base);
    assert ExtOf(dir + base) == "";
    assert |Lower(lower, "")| == 0;
  }

  // ---- conversions ----

  /** What is converted, and to what: a HEIC to a JPEG, a video to an MP4 unless it is called one, and nothing else. */
  lemma ConvertedTo(family: Class, stem: string, ext: string)
    requires Undivided(ext)
    ensures var t := Target(family, stem + "." + ext);
      && (t == Some("jpg") <==> family == Heic)
      && (t == Some("mp4") <==> family == VideoClass && Selection.LowerAscii(ext) != "mp4")
      && (t == None || t == Some("jpg") || t == Some("mp4"))
    ensures Stem(stem + "." + ext) == stem
  {
    hide ExtOf;
    ExtOfAppended(stem, ext);
    ExtAtAppended(stem, ext);
    assert stem + "." + ext == stem + ['.'] + ext;
    IsCalledMp4(ext);
  }

  lemma IsCalledMp4(ext: string)
    ensures UpperAscii(ext) == "MP4" <==> Selection.LowerAscii(ext) == "mp4"
  {
    var up, low := UpperAscii(ext), Selection.LowerAscii(ext);
    assert |up| == |ext| && |low| == |ext|;
    if |ext| == 3 {
      assert forall i | 0 <= i < 3 :: up[i] == "MP4"[i] <==> low[i] == "mp4"[i];
      assert up == "MP4" <==> up[0] == 'M' && up[1] == 'P' && up[2] == '4';
      assert low == "mp4" <==> low[0] == 'm' && low[1] == 'p' && low[2] == '4';
    }
  }

  // ---- raw negatives ----

  /** What the phone takes for a raw negative by its name. */
  predicate NegativeName(name: string) {
    |name| >= 4 && Selection.RawEnding(Selection.LowerAscii(name[|name| - 4..]))
  }

  /** The last four characters are a dot and an extension. */
  lemma NegativeEnding(name: string)
    requires NegativeName(name)
    ensures var ext := name[|name| - 3..];
      && name == name[..|name| - 4] + "." + ext && Undivided(ext) && Ascii(ext)
      && Selection.RawEnding("." + Selection.LowerAscii(ext))
  {
    var end, ext := name[|name| - 4..], name[|name| - 3..];
    var low := Selection.LowerAscii(end);
    assert forall i | 0 <= i < 4 :: low[i] == Selection.LowerAscii([end[i]])[0];
    assert end == [end[0]] + ext && low[0] == '.';
    assert low == "." + Selection.LowerAscii(ext);
    RawEndingsArePlain(low);
    forall i | 0 <= i < 3
      ensures ext[i] as int < 0x80 && ext[i] != '.' && ext[i] != '/'
    {
      assert low[i + 1] == Selection.LowerAscii(ext)[i];
    }
  }

  lemma RawEndingsArePlain(e: string)
    requires Selection.RawEnding(e)
    ensures |e| == 4 && e[0] == '.' && forall i | 1 <= i < 4 :: 'a' <= e[i] <= 'z' || '0' <= e[i] <= '9'
  {
  }

  /** What the phone takes for a raw negative: three type identifiers, and ten endings in any case of their letters. */
  lemma RawOnThePhone(r: Selection.Resource, stem: string, ext: string)
    requires '.' !in ext && r.filename == stem + "." + ext
    ensures Selection.IsRaw(r) <==>
      r.uti in {"com.adobe.raw-image", "public.camera-raw-image", "com.adobe.dng"} ||
      Selection.LowerAscii(ext) in {"dng", "arw", "cr2", "cr3", "nef", "orf", "raf", "rw2", "pef", "srw"}
  {
    hide Selection.RawUti, Selection.RawEnding, Selection.LowerAscii;
    var name, low := r.filename, Selection.LowerAscii(ext);
    UtisAreThese(r.uti);
    if NegativeName(name) {
      NegativeEnding(name);
      assert ext == name[|name| - 3..] by {
        LastDotIsOne(stem, ext, name[..|name| - 4], name[|name| - 3..]);
      }
      EndingsAreThese(low);
    } else if |ext| == 3 {
      assert name[|name| - 4..] == "." + ext;
      LowerDot(ext);
      EndingsAreThese(low);
    } else {
      LowerSame(ext);
    }
  }

  lemma LastDotIsOne(a: string, b: string, c: string, d: string)
    requires a + "." + b == c + "." + d && '.' !in b && '.' !in d
    ensures b == d
  {
    var s := a + "." + b;
    assert s[|a|] == '.' && s[|c|] == '.';
    assert forall i | |a| < i < |s| :: s[i] == b[i - |a| - 1];
    assert forall i | |c| < i < |s| :: s[i] == d[i - |c| - 1];
    assert b == s[|a| + 1..] && d == s[|c| + 1..];
  }

  lemma LowerSame(s: string)
    ensures |Selection.LowerAscii(s)| == |s|
  {
  }

  lemma LowerDot(ext: string)
    ensures Selection.LowerAscii("." + ext) == "." + Selection.LowerAscii(ext)
  {
    var low := Selection.LowerAscii("." + ext);
    assert forall i | 0 <= i < |ext| :: low[i + 1] == Selection.LowerAscii(ext)[i];
  }

  lemma UtisAreThese(uti: string)
    ensures Selection.RawUti(uti) <==> uti in {"com.adobe.raw-image", "public.camera-raw-image", "com.adobe.dng"}
  {
  }

  lemma EndingsAreThese(e: string)
    ensures Selection.RawEnding("." + e) <==>
      e in {"dng", "arw", "cr2", "cr3", "nef", "orf", "raf", "rw2", "pef", "srw"}
  {
    assert ("." + e)[1..] == e;
    assert ".dng" == "." + "dng" && ".arw" == "." + "arw" && ".cr2" == "." + "cr2" && ".cr3" == "." + "cr3";
    assert ".nef" == "." + "nef" && ".orf" == "." + "orf" && ".raf" == "." + "raf" && ".rw2" == "." + "rw2";
    assert ".pef" == "." + "pef" && ".srw" == "." + "srw";
  }

  /**
    Whatever the phone takes for a raw negative by its name, the receiver takes for one too, and keeps
    it under every policy, unless it was sent as kind "file".
  */
  lemma NegativesAreKept(lower: char -> char, p: Policy, kind: Kind, name: string, paired: bool)
    requires NegativeName(name) && kind != File
    ensures Decide(lower, p, kind, name, paired) == Decision(Raw, Keep, false)
  {
    hide Lower, ExtOf;
    NegativeEnding(name);
    var ext := name[|name| - 3..];
    ExtOfAppended(name[..|name| - 4], ext);
    LowersAscii(lower, ext);
    RawTablesAgree(Selection.LowerAscii(ext));
  }

  lemma RawTablesAgree(e: string)
    requires Selection.RawEnding("." + e)
    ensures RawExt(e) && !HeicExt(e)
  {
    assert ("." + e)[1..] == e;
  }

  /** So in no run at all is a negative marked as removed, or a worker about to delete it, whatever it was sent as. */
  lemma NegativesNeverMarked(u: Rules, disk: map<Key, Bytes>, steps: seq<Step>, p: string, a: nat)
    requires Runs(u, Init(disk), steps) && NegativeName(p) && p in Exec(u, Init(disk), steps).files
    ensures var w := Exec(u, Init(disk), steps);
      !w.files[p].removed && !(a in w.workers && w.workers[a].path == p && w.workers[a].phase.Marked?)
  {
    hide Enabled, Apply, Runs, Exec, Classify, NegativeName;
    NegativeIsIrrevocable(u, Exec(u, Init(disk), steps).files[p], p);
    IrrevocableNeverMarked(u, disk, steps, p, a);
  }

  /** And in the runs that keep custody its bytes are where they were put. */
  lemma NegativesStay(u: Rules, disk: map<Key, Bytes>, steps: seq<Step>, p: string)
    requires Runs(u, Init(disk), steps) && ApartThroughout(u, Init(disk), steps) && NegativeName(p)
    requires var w := Exec(u, Init(disk), steps); p in w.placed && p in w.files
    ensures var w := Exec(u, Init(disk), steps);
      !w.files[p].removed && DiskKey(p) in w.disk && w.disk[DiskKey(p)] == w.placed[p]
  {
    hide Enabled, Apply, Runs, Exec, Classify, NegativeName, ApartThroughout, DiskKey;
    NegativeIsIrrevocable(u, Exec(u, Init(disk), steps).files[p], p);
    IrrevocableOriginalsStay(u, disk, steps, p);
  }

  lemma NegativeIsIrrevocable(u: Rules, r: Row, p: string)
    requires NegativeName(p)
    ensures Irrevocable(u, r, p)
  {
    hide Classify, ActionFor, NegativeName;
    if r.kind != File {
      NegativesAreKept(u.lower, DEFAULT, r.kind, p, false);
    }
  }
}
