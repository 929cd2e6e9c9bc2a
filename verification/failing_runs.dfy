/**
  Runs that the code allows and should not. In three of them a committed file is lost, one for each
  thing `PlacedApart` asks: each breaks that one alone and keeps the other two, so none of the
  three can be spared. In the fourth a failed rename lets strangers share a pair's basename.
*/
module FailingRuns {
  import opened Wrappers
  import opened Texts
  import opened Naming
  import opened OutputPolicy
  import opened Ledger
  import opened Spellings
  import opened Allocator
  import opened ReceiverRuns
  import opened Guarantees
  import opened Conversions

  // ---- runs, piece by piece ----

  lemma Written(u: Rules, v: Vars)
    requires AsWritten(u)
    ensures WrittenFor(u, v)
  {
  }

  /** These steps are possible from here and end there. */
  ghost predicate Leads(u: Rules, w: World, steps: seq<Step>, v: World) {
    Runs(u, w, steps) && Exec(u, w, steps) == v
  }

  lemma Onward(u: Rules, w: World, steps: seq<Step>, v: World, more: seq<Step>, x: World)
    requires Leads(u, w, steps, v) && Leads(u, v, more, x)
    ensures Leads(u, w, steps + more, x)
  {
    hide Runs, Exec;
    RunsOn(u, w, steps, more);
  }

  lemma OneMore(u: Rules, w: World, steps: seq<Step>, v: World, s: Step)
    requires Leads(u, w, steps, v) && Enabled(u, v, s)
    ensures Leads(u, w, steps + [s], Apply(u, v, s))
  {
    hide Runs, Exec, Enabled, Apply;
    Extend(u, w, steps, s);
  }

  /** What a whole commit leaves: a row, and its bytes. */
  function Arrived(w: World, inc: Incoming, name: Rendered, bytes: Bytes): World {
    var path := name.Path();
    w.(files := w.files[path := RowOf(inc, name)],
       disk := w.disk[DiskKey(path) := bytes],
       placed := w.placed[path := bytes])
  }

  lemma Arrives(u: Rules, w: World, inc: Incoming, tmpl: string, name: Rendered, bytes: Bytes)
    requires inc.pair == "" && u.render(tmpl, inc.vars, 0) == Ok(name) && name.Path() !in w.placed
    requires name.Path() !in w.stuck
    requires !Taken(w.files, name.dir, name.base) && Free(w.files, w.disk, name)
    ensures Leads(u, w, [Place(inc, tmpl), MoveIn(name.Path(), bytes)], Arrived(w, inc, name, bytes))
  {
    hide DiskKey, Runs, Exec, Rendered.Path, Taken, Free;
    var place, move := Place(inc, tmpl), MoveIn(name.Path(), bytes);
    assert PlaceAt(u, w, inc, tmpl) == At(name);
    var v := Claimed(w, inc, name);
    OneStep(u, v, move);
    StepThen(u, w, place, [move]);
    assert [place] + [move] == [place, move];
    assert Apply(u, v, move) == Arrived(w, inc, name, bytes);
  }

  /** The row is queued to be replaced, because the user saves space. */
  function Queued(w: World, path: string, family: Class): World {
    w.(convs := w.convs[path := Conv(family, Replace, Pending)])
  }

  const SAVING := Policy(SpaceSaving, map[])

  lemma Queues(u: Rules, w: World, path: string, family: Class)
    requires path in w.files && path in w.placed && path !in w.convs && w.files[path].pair == ""
    requires Classify(u.lower, w.files[path].kind, path) == family && family in {Heic, VideoClass}
    ensures Leads(u, w, [Enqueue(path, SAVING)], Queued(w, path, family))
  {
    hide DiskKey, Runs, Exec, Classify;
    OneStep(u, w, Enqueue(path, SAVING));
  }

  /** A worker took the row and its copy stands beside the original. */
  function CopyMade(w: World, a: nat, path: string, copy: Bytes): World
    requires path in w.convs && Landing(w, path).Some?
  {
    w.(disk := w.disk[Landing(w, path).value := copy],
       convs := w.convs[path := w.convs[path].(state := Running)],
       workers := w.workers[a := Worker(path, Copied)])
  }

  predicate Claimable(w: World, a: nat, path: string) {
    && w.up && a !in w.workers && path in w.files && path in w.convs && w.convs[path].state == Pending
    && DiskKey(path) in w.disk && Landing(w, path).Some?
  }

  lemma MakesCopy(u: Rules, w: World, a: nat, path: string, copy: Bytes)
    requires Claimable(w, a, path) && copy != []
    ensures Leads(u, w, [Claim(a, path), Probe(a), Produce(a, copy)], CopyMade(w, a, path, copy))
  {
    hide DiskKey, Runs, Exec, Target, SlotFrom;
    var v := ClaimedBy(w, a, path);
    ClaimIsAStep(u, w, a, path);
    var x := To(v, a, Probed);
    OneStep(u, x, Produce(a, copy));
    StepThen(u, v, Probe(a), [Produce(a, copy)]);
    StepThen(u, w, Claim(a, path), [Probe(a)] + [Produce(a, copy)]);
    assert [Claim(a, path)] + ([Probe(a)] + [Produce(a, copy)]) == [Claim(a, path), Probe(a), Produce(a, copy)];
    assert Apply(u, x, Produce(a, copy)) == CopyMade(w, a, path, copy);
  }

  /** And then it marked the row, and is about to delete the original. */
  function MarkMade(w: World, a: nat, path: string, copy: Bytes): World
    requires path in w.files && path in w.convs && Landing(w, path).Some?
  {
    SetRemoved(To(CopyMade(w, a, path, copy), a, Marked), path, true)
  }

  /** What that comes to, field by field. */
  lemma MarkMadeIs(w: World, a: nat, path: string, copy: Bytes)
    requires path in w.files && path in w.convs && Landing(w, path).Some?
    ensures MarkMade(w, a, path, copy) == w.(
      files := w.files[path := w.files[path].(removed := true)],
      disk := w.disk[Landing(w, path).value := copy],
      convs := w.convs[path := w.convs[path].(state := Running)],
      workers := w.workers[a := Worker(path, Marked)])
  {
    hide Landing;
    assert w.workers[a := Worker(path, Copied)][a := Worker(path, Marked)] == w.workers[a := Worker(path, Marked)];
  }

  lemma MakesMark(u: Rules, w: World, a: nat, path: string, copy: Bytes)
    requires Claimable(w, a, path) && copy != [] && w.convs[path].action == Replace
    ensures Leads(u, w, [Claim(a, path), Probe(a), Produce(a, copy), Mark(a)], MarkMade(w, a, path, copy))
  {
    hide DiskKey, Runs, Exec, Landing;
    MakesCopy(u, w, a, path, copy);
    OneMore(u, w, [Claim(a, path), Probe(a), Produce(a, copy)], CopyMade(w, a, path, copy), Mark(a));
    assert [Claim(a, path), Probe(a), Produce(a, copy)] + [Mark(a)] ==
        [Claim(a, path), Probe(a), Produce(a, copy), Mark(a)];
  }

  /** A whole replacement, but for the last word of it in the ledger: the process dies and is restarted. */
  function Cut(w: World, path: string, copy: Bytes): World
    requires path in w.files && path in w.convs && Landing(w, path).Some?
  {
    w.(files := w.files[path := w.files[path].(removed := true)],
       disk := w.disk[Landing(w, path).value := copy] - {DiskKey(path)},
       convs := Requeued(w.convs[path := w.convs[path].(state := Running)]),
       workers := map[],
       gone := w.gone + {path})
  }

  function CutSteps(a: nat, path: string, copy: Bytes): seq<Step> {
    [Claim(a, path), Probe(a), Produce(a, copy), Mark(a), Remove(a), Crash, Recover(true)]
  }

  lemma IsCut(u: Rules, w: World, a: nat, path: string, copy: Bytes)
    requires Claimable(w, a, path) && copy != [] && w.convs[path].action == Replace
    ensures Leads(u, w, CutSteps(a, path, copy), Cut(w, path, copy))
  {
    hide DiskKey, Runs, Exec, Landing, Requeued;
    var steps := [Claim(a, path), Probe(a), Produce(a, copy), Mark(a)];
    MakesMark(u, w, a, path, copy);
    var v := MarkMade(w, a, path, copy);
    OneMore(u, w, steps, v, Remove(a));
    var x := Apply(u, v, Remove(a));
    RestartRuns(u, x);
    Onward(u, w, steps + [Remove(a)], x, [Crash, Recover(true)], Restarted(x));
    assert (steps + [Remove(a)]) + [Crash, Recover(true)] == CutSteps(a, path, copy);
  }

  /** The ledger a fresh receiver starts working with. */
  function Fresh(disk: map<Key, Bytes>): World { Init(disk).(up := true) }

  lemma Starts(u: Rules, disk: map<Key, Bytes>)
    ensures Leads(u, Init(disk), [Recover(true)], Fresh(disk))
  {
    hide DiskKey, Runs, Exec;
    OneStep(u, Init(disk), Recover(true));
    assert Requeued(map[]) == map[];
  }

  // ---- where the copies land ----

  /** Candidate names number 0 and 1, of a name that has this stem. */
  lemma FirstTwoSlots(key: Key, ext: string)
    requires key != []
    ensures var stem := Stem(key[|key| - 1]);
      && Slot(key, ext, 0) == key[..|key| - 1] + [stem + "." + ext]
      && Slot(key, ext, 1) == key[..|key| - 1] + [stem + "_1" + "." + ext]
      && Slot(key, ext, 0) != Slot(key, ext, 1)
  {
    hide Stem;
    assert Decimal(1) == "1";
    assert CounterText(0) == "" && CounterText(1) == "_1";
    var stem := Stem(key[|key| - 1]);
    assert stem + "" == stem;
    assert |stem + "." + ext| < |stem + "_1" + "." + ext|;
    assert Slot(key, ext, 0)[|key| - 1] == stem + "." + ext && Slot(key, ext, 1)[|key| - 1] == stem + "_1" + "." + ext;
  }

  /** The first candidate if it is free, or else the second. */
  lemma LandsEarly(disk: map<Key, Bytes>, key: Key, ext: string)
    requires key != []
    ensures Slot(key, ext, 0) !in disk ==> SlotFrom(disk, key, ext, 0) == Some(Slot(key, ext, 0))
    ensures Slot(key, ext, 0) in disk && Slot(key, ext, 1) !in disk ==>
      SlotFrom(disk, key, ext, 0) == Some(Slot(key, ext, 1))
  {
    hide Slot;
    if Slot(key, ext, 0) in disk && Slot(key, ext, 1) !in disk {
      assert SlotFrom(disk, key, ext, 1) == Some(Slot(key, ext, 1));
    }
  }

  // ---- two spellings of one place ----

  lemma KeyOfTwo(a: string, b: string)
    requires a != "" && b != "" && '/' !in a && '/' !in b
    ensures DiskKey(a + ['/'] + b) == [a, b] && DiskKey("" + ['/'] + (a + ['/'] + b)) == [a, b]
  {
    hide Split;
    SplitPlain(b, '/');
    SplitPrepend(a, b, '/');
    SplitPrepend("", a + ['/'] + b, '/');
    assert [a] + [b] == [a, b] && [""] + [a, b] == ["", a, b];
    assert ["", a, b][1..] == [a, b] && [a, b][1..] == [b] && [b][1..] == [];
    assert NonEmpty([b]) == [b] && NonEmpty([a, b]) == [a] + [b] && NonEmpty(["", a, b]) == [a, b];
  }

  lemma OnePlace()
    ensures Plain().Path() == "album/photo" && Spelled().Path() == "/album/photo"
    ensures DiskKey("album/photo") == ["album", "photo"] && DiskKey("/album/photo") == ["album", "photo"]
  {
    hide DiskKey;
    KeyOfTwo("album", "photo");
    assert "album" + ['/'] + "photo" == "album/photo" && "" + ['/'] + "album/photo" == "/album/photo";
  }

  const KEY: Key := ["album", "photo"]
  const FIRST_COPY: Key := ["album", "photo.mp4"]
  const SECOND_COPY: Key := ["album", "photo_1.mp4"]

  predicate Clip(inc: Incoming) { inc.kind == Video && inc.pair == "" }

  lemma ClipsAreVideos(u: Rules)
    ensures Classify(u.lower, Video, "album/photo") == VideoClass && Target(VideoClass, "album/photo") == Some("mp4")
    ensures ExtOf("album/photo") == ExtOf("/album/photo") == ""
  {
    assert '.' !in "album/photo" && '.' !in "/album/photo";
    assert ExtAt("album/photo") == |"album/photo"| && ExtAt("/album/photo") == |"/album/photo"|;
    assert UpperAscii("") == "" && Lower(u.lower, "") == "";
  }

  lemma CopiesOfPhoto(disk: map<Key, Bytes>)
    ensures FIRST_COPY !in disk ==> SlotFrom(disk, KEY, "mp4", 0) == Some(FIRST_COPY)
    ensures FIRST_COPY in disk && SECOND_COPY !in disk ==> SlotFrom(disk, KEY, "mp4", 0) == Some(SECOND_COPY)
  {
    hide SlotFrom, Slot;
    FirstTwoSlots(KEY, "mp4");
    LandsEarly(disk, KEY, "mp4");
    assert Stem("photo") == "photo" by {
      assert '.' !in "photo";
    }
    assert "photo" + "." + "mp4" == "photo.mp4" && "photo" + "_1" + "." + "mp4" == "photo_1.mp4";
    assert KEY[..1] + ["photo.mp4"] == FIRST_COPY && KEY[..1] + ["photo_1.mp4"] == SECOND_COPY;
  }

  /** The first video is in and queued. */
  function OneIn(first: Incoming, b: Bytes): World {
    World(map["album/photo" := RowOf(first, Plain())], map[], map[KEY := b],
          map["album/photo" := Conv(VideoClass, Replace, Pending)], map[], map["album/photo" := b], {}, {}, true)
  }

  /** It was replaced, but the ledger was not told that the work is done. */
  function OneReplaced(first: Incoming, b: Bytes, copy: Bytes): World {
    World(map["album/photo" := RowOf(first, Plain()).(removed := true)], map[], map[FIRST_COPY := copy],
          map["album/photo" := Conv(VideoClass, Replace, Pending)], map[],
          map["album/photo" := b], {}, {"album/photo"}, true)
  }

  /** The second video took the place that fell free. */
  function TwoIn(first: Incoming, b: Bytes, copy: Bytes, second: Incoming, c: Bytes): World {
    var w := OneReplaced(first, b, copy);
    w.(files := w.files["/album/photo" := RowOf(second, Spelled())], disk := map[FIRST_COPY := copy, KEY := c],
       placed := w.placed["/album/photo" := c])
  }

  /** The first one's work is done over again, on the second one's file. */
  function TwoMarked(first: Incoming, b: Bytes, copy: Bytes, second: Incoming, c: Bytes): World {
    TwoIn(first, b, copy, second, c).(
      disk := map[FIRST_COPY := copy, SECOND_COPY := copy, KEY := c],
      convs := map["album/photo" := Conv(VideoClass, Replace, Running)],
      workers := map[0 := Worker("album/photo", Marked)])
  }

  function StartSteps(first: Incoming, b: Bytes): seq<Step> {
    [Recover(true)] + [Place(first, Template(["album"], "photo")), MoveIn("album/photo", b)] +
        [Enqueue("album/photo", SAVING)]
  }

  lemma OneGetsIn(u: Rules, first: Incoming, b: Bytes)
    requires AsWritten(u) && Clip(first)
    ensures Leads(u, Init(map[]), StartSteps(first, b), OneIn(first, b))
  {
    hide Leads, DiskKey, Template, Rendered.Path, Classify, ExtOf, Target;
    Written(u, first.vars);
    OnePlace();
    ClipsAreVideos(u);
    Starts(u, map[]);
    Arrives(u, Fresh(map[]), first, Template(["album"], "photo"), Plain(), b);
    var w := Arrived(Fresh(map[]), first, Plain(), b);
    Queues(u, w, "album/photo", VideoClass);
    assert Queued(w, "album/photo", VideoClass) == OneIn(first, b);
    Onward(u, Init(map[]), [Recover(true)], Fresh(map[]),
        [Place(first, Template(["album"], "photo")), MoveIn("album/photo", b)], w);
    Onward(u, Init(map[]), [Recover(true)] + [Place(first, Template(["album"], "photo")), MoveIn("album/photo", b)], w,
           [Enqueue("album/photo", SAVING)], OneIn(first, b));
  }

  lemma OneIsReplaced(u: Rules, first: Incoming, b: Bytes, copy: Bytes)
    requires copy != []
    ensures Leads(u, OneIn(first, b), CutSteps(0, "album/photo", copy), OneReplaced(first, b, copy))
  {
    hide Leads, DiskKey, SlotFrom, ExtOf, Target, CutSteps;
    var w := OneIn(first, b);
    OnePlace();
    ClipsAreVideos(u);
    CopiesOfPhoto(w.disk);
    assert FIRST_COPY[1] != KEY[1];
    IsCut(u, w, 0, "album/photo", copy);
    assert Cut(w, "album/photo", copy) == OneReplaced(first, b, copy);
  }

  lemma TwoGetsIn(u: Rules, first: Incoming, b: Bytes, copy: Bytes, second: Incoming, c: Bytes)
    requires AsWritten(u) && Clip(second)
    ensures Leads(u, OneReplaced(first, b, copy),
      [Place(second, Template([Dots(), "album"], "photo")), MoveIn("/album/photo", c)],
                  TwoIn(first, b, copy, second, c))
  {
    hide Leads, DiskKey, Template, Rendered.Path, Dots;
    var w := OneReplaced(first, b, copy);
    Written(u, second.vars);
    OnePlace();
    assert "album/photo" != "/album/photo" && "album" != "/album" by {
      assert "album"[0] != "/album"[0];
    }
    assert FIRST_COPY[1] != KEY[1];
    Arrives(u, w, second, Template([Dots(), "album"], "photo"), Spelled(), c);
    assert Arrived(w, second, Spelled(), c) == TwoIn(first, b, copy, second, c);
  }

  lemma OneIsMarkedAgain(u: Rules, first: Incoming, b: Bytes, copy: Bytes, second: Incoming, c: Bytes)
    requires copy != []
    ensures Leads(u, TwoIn(first, b, copy, second, c), [Claim(0, "album/photo"), Probe(0), Produce(0, copy), Mark(0)],
                  TwoMarked(first, b, copy, second, c))
  {
    hide Leads, DiskKey, SlotFrom, ExtOf, Target, MarkMade, Rendered.Path;
    var w := TwoIn(first, b, copy, second, c);
    OnePlace();
    ClipsAreVideos(u);
    CopiesOfPhoto(w.disk);
    assert FIRST_COPY[1] != KEY[1] && SECOND_COPY[1] != KEY[1] && FIRST_COPY[1] != SECOND_COPY[1];
    MakesMark(u, w, 0, "album/photo", copy);
    MarkMadeIs(w, 0, "album/photo", copy);
    assert MarkMade(w, 0, "album/photo", copy) == TwoMarked(first, b, copy, second, c);
  }

  /** Everything up to the deletion. */
  function SpelledTwice(first: Incoming, b: Bytes, copy: Bytes, second: Incoming, c: Bytes): seq<Step> {
    StartSteps(first, b) + CutSteps(0, "album/photo", copy) +
    [Place(second, Template([Dots(), "album"], "photo")), MoveIn("/album/photo", c)] +
    [Claim(0, "album/photo"), Probe(0), Produce(0, copy), Mark(0)]
  }

  lemma TwoIsNext(u: Rules, first: Incoming, b: Bytes, copy: Bytes, second: Incoming, c: Bytes)
    requires AsWritten(u) && Clip(first) && Clip(second) && copy != []
    ensures Leads(u, Init(map[]), SpelledTwice(first, b, copy, second, c), TwoMarked(first, b, copy, second, c))
  {
    hide Leads, StartSteps, CutSteps, Template, Dots, OneIn, OneReplaced, TwoIn, TwoMarked;
    OneGetsIn(u, first, b);
    OneIsReplaced(u, first, b, copy);
    TwoGetsIn(u, first, b, copy, second, c);
    OneIsMarkedAgain(u, first, b, copy, second, c);
    var start, cut := StartSteps(first, b), CutSteps(0, "album/photo", copy);
    var next := [Place(second, Template([Dots(), "album"], "photo")), MoveIn("/album/photo", c)];
    Onward(u, Init(map[]), start, OneIn(first, b), cut, OneReplaced(first, b, copy));
    Onward(u, Init(map[]), start + cut, OneReplaced(first, b, copy), next, TwoIn(first, b, copy, second, c));
    Onward(u, Init(map[]), start + cut + next, TwoIn(first, b, copy, second, c),
           [Claim(0, "album/photo"), Probe(0), Produce(0, copy), Mark(0)], TwoMarked(first, b, copy, second, c));
  }

  lemma TwoIsLost(u: Rules, first: Incoming, b: Bytes, copy: Bytes, second: Incoming, c: Bytes)
    requires copy != []
    ensures var w := TwoMarked(first, b, copy, second, c);
      && Custody(w) && Enabled(u, w, Remove(0)) && !Custody(Apply(u, w, Remove(0)))
      && NoneSweepable(w) && NoStillReplaced(w) && !OnePlaceEach(w)
  {
    hide DiskKey, ExtOf, SlotFrom, Target, PlaceAt, Decide;
    OnePlace();
    ClipsAreVideos(u);
    var w := TwoMarked(first, b, copy, second, c);
    assert "album/photo"[0] != "/album/photo"[0];
    assert KEY[0] != INCOMING_DIR && FIRST_COPY[1] != KEY[1] && SECOND_COPY[1] != KEY[1];
    var v := Apply(u, w, Remove(0));
    assert Live(v, "/album/photo") && !HasBytes(v, "/album/photo");
  }

  /**
    Two videos are committed under two spellings of one place, the second after the first one's
    original was deleted but before the ledger knew that the work was done. After the restart
    the first one's row is worked off again, and the file deleted is the second one's.
  */
  lemma SecondSpellingIsDeleted(u: Rules, first: Incoming, b: Bytes, copy: Bytes, second: Incoming, c: Bytes)
    requires AsWritten(u) && Clip(first) && Clip(second) && copy != []
    ensures var steps := SpelledTwice(first, b, copy, second, c);
      && Runs(u, Init(map[]), steps + [Remove(0)])
      && Runs(u, Init(map[]), steps) && Custody(Exec(u, Init(map[]), steps)) &&
         !Custody(Exec(u, Init(map[]), steps + [Remove(0)]))
      && var w := Exec(u, Init(map[]), steps); NoneSweepable(w) && NoStillReplaced(w) && !OnePlaceEach(w)
  {
    hide Runs, Exec, Enabled, Apply, SpelledTwice, TwoMarked, Custody, NoneSweepable, NoStillReplaced, OnePlaceEach;
    TwoIsNext(u, first, b, copy, second, c);
    TwoIsLost(u, first, b, copy, second, c);
    Extend(u, Init(map[]), SpelledTwice(first, b, copy, second, c), Remove(0));
  }

  // ---- a copy in the place of a deleted original ----

  const CLIP := "album/photo_1.jpg"
  const STILL := "album/photo.heic"
  const CLIP_KEY: Key := ["album", "photo_1.jpg"]
  const STILL_KEY: Key := ["album", "photo.heic"]
  const TAKEN_KEY: Key := ["album", "photo.jpg"]
  const CLIP_COPY: Key := ["album", "photo_1.mp4"]
  const NEXT_COPY: Key := ["album", "photo_1_1.mp4"]

  lemma TwoPlaces()
    ensures AsStill().Path() == CLIP && Still().Path() == STILL && DiskKey(CLIP) == CLIP_KEY
    ensures DiskKey(STILL) == STILL_KEY
    ensures CLIP != STILL && CLIP_KEY[1] != STILL_KEY[1] && TAKEN_KEY[1] !in [CLIP_KEY[1], STILL_KEY[1]]
    ensures CLIP_COPY[1] !in [CLIP_KEY[1], STILL_KEY[1], TAKEN_KEY[1]]
    ensures NEXT_COPY[1] !in [CLIP_KEY[1], STILL_KEY[1], TAKEN_KEY[1], CLIP_COPY[1]]
  {
    hide DiskKey;
    KeysOfBoth();
    NamesApart();
  }

  lemma KeysOfBoth()
    ensures AsStill().Path() == CLIP && Still().Path() == STILL && DiskKey(CLIP) == CLIP_KEY
    ensures DiskKey(STILL) == STILL_KEY
  {
    hide DiskKey, Rendered.Path;
    KeyOfClip();
    KeyOfStill();
  }

  lemma KeyOfClip()
    ensures AsStill().Path() == CLIP && DiskKey(CLIP) == CLIP_KEY
  {
    hide DiskKey;
    KeyOfTwo("album", "photo_1.jpg");
    assert "album" + ['/'] + "photo_1.jpg" == CLIP;
  }

  lemma KeyOfStill()
    ensures Still().Path() == STILL && DiskKey(STILL) == STILL_KEY
  {
    hide DiskKey;
    KeyOfTwo("album", "photo.heic");
    assert "album" + ['/'] + "photo.heic" == STILL;
  }

  lemma NamesApart()
    ensures CLIP != STILL && CLIP_KEY[1] != STILL_KEY[1] && TAKEN_KEY[1] !in [CLIP_KEY[1], STILL_KEY[1]]
    ensures CLIP_COPY[1] !in [CLIP_KEY[1], STILL_KEY[1], TAKEN_KEY[1]]
    ensures NEXT_COPY[1] !in [CLIP_KEY[1], STILL_KEY[1], TAKEN_KEY[1], CLIP_COPY[1]]
  {
    assert |CLIP_KEY[1]| == 11 && |STILL_KEY[1]| == 10 && |TAKEN_KEY[1]| == 9 && |NEXT_COPY[1]| == 13;
    assert CLIP_KEY[1][8] == 'j' && CLIP_COPY[1][8] == 'm';
  }

  lemma ExtensionsOfBoth()
    ensures ExtOf(CLIP) == "jpg" && ExtOf(STILL) == "heic"
  {
    ExtAtAppended("album/photo_1", "jpg");
    ExtAtAppended("album/photo", "heic");
    assert "album/photo_1" + ['.'] + "jpg" == CLIP && "album/photo" + ['.'] + "heic" == STILL;
  }

  lemma ClassesOfBoth(u: Rules)
    ensures Classify(u.lower, Video, CLIP) == VideoClass && Classify(u.lower, Photo, STILL) == Heic
    ensures Target(VideoClass, CLIP) == Some("mp4") && Target(Heic, STILL) == Some("jpg")
  {
    hide ExtOf;
    ExtensionsOfBoth();
    assert Lower(u.lower, "jpg") == "jpg" && Lower(u.lower, "heic") == "heic";
    assert UpperAscii("jpg")[0] == 'J';
  }

  /** The second candidate for the still's copy is the clip's own place. */
  lemma CopiesOfBoth(disk: map<Key, Bytes>)
    ensures TAKEN_KEY in disk && CLIP_KEY !in disk ==> SlotFrom(disk, STILL_KEY, "jpg", 0) == Some(CLIP_KEY)
    ensures CLIP_COPY !in disk ==> SlotFrom(disk, CLIP_KEY, "mp4", 0) == Some(CLIP_COPY)
    ensures CLIP_COPY in disk && NEXT_COPY !in disk ==> SlotFrom(disk, CLIP_KEY, "mp4", 0) == Some(NEXT_COPY)
  {
    hide SlotFrom, Slot;
    FirstTwoSlots(STILL_KEY, "jpg");
    FirstTwoSlots(CLIP_KEY, "mp4");
    LandsEarly(disk, STILL_KEY, "jpg");
    LandsEarly(disk, CLIP_KEY, "mp4");
    StemsOfBoth();
    assert "photo" + "." + "jpg" == "photo.jpg" && "photo" + "_1" + "." + "jpg" == "photo_1.jpg";
    assert "photo_1" + "." + "mp4" == "photo_1.mp4" && "photo_1" + "_1" + "." + "mp4" == "photo_1_1.mp4";
    assert STILL_KEY[..1] + ["photo.jpg"] == TAKEN_KEY && STILL_KEY[..1] + ["photo_1.jpg"] == CLIP_KEY;
    assert CLIP_KEY[..1] + ["photo_1.mp4"] == CLIP_COPY && CLIP_KEY[..1] + ["photo_1_1.mp4"] == NEXT_COPY;
  }

  lemma StemsOfBoth()
    ensures Stem("photo.heic") == "photo" && Stem("photo_1.jpg") == "photo_1"
  {
    ExtAtAppended("photo", "heic");
    ExtAtAppended("photo_1", "jpg");
    assert "photo" + ['.'] + "heic" == "photo.heic" && "photo_1" + ['.'] + "jpg" == "photo_1.jpg";
  }

  const CLIP_WORK := Conv(VideoClass, Replace, Pending)
  const STILL_WORK := Conv(Heic, Replace, Pending)

  /** Both are in and queued, beside a file that was there before. */
  function BothIn(clip: Incoming, b: Bytes, still: Incoming, c: Bytes, f: Bytes): World {
    World(map[CLIP := RowOf(clip, AsStill()), STILL := RowOf(still, Still())], map[],
          map[TAKEN_KEY := f, CLIP_KEY := b, STILL_KEY := c],
          map[CLIP := CLIP_WORK, STILL := STILL_WORK], map[], map[CLIP := b, STILL := c], {}, {}, true)
  }

  /** The clip was replaced, but the ledger was not told that the work is done. */
  function ClipReplaced(clip: Incoming, b: Bytes, still: Incoming, c: Bytes, f: Bytes, copy: Bytes): World {
    var w := BothIn(clip, b, still, c, f);
    w.(files := w.files[CLIP := RowOf(clip, AsStill()).(removed := true)],
       disk := map[TAKEN_KEY := f, STILL_KEY := c, CLIP_COPY := copy], gone := {CLIP})
  }

  /** The still's copy took the clip's place. */
  function StillCopied(clip: Incoming, b: Bytes, still: Incoming, c: Bytes, f: Bytes, copy: Bytes): World {
    var w := ClipReplaced(clip, b, still, c, f, copy);
    w.(disk := w.disk[CLIP_KEY := copy], convs := map[CLIP := CLIP_WORK, STILL := STILL_WORK.(state := Running)],
       workers := map[0 := Worker(STILL, Copied)])
  }

  /** The clip's work is done over again on that copy, which cannot be deleted. */
  function ClipUndone(clip: Incoming, b: Bytes, still: Incoming, c: Bytes, f: Bytes, copy: Bytes, phase: Phase): World {
    var w := StillCopied(clip, b, still, c, f, copy);
    w.(disk := w.disk[NEXT_COPY := copy],
       convs := map[CLIP := CLIP_WORK.(state := Running), STILL := STILL_WORK.(state := Running)],
       workers := map[0 := Worker(STILL, Copied), 1 := Worker(CLIP, phase)])
  }

  function ClipSteps(clip: Incoming, b: Bytes): seq<Step> {
    [Recover(true)] + [Place(clip, Template(["album"], "photo_1.jpg")), MoveIn(CLIP, b)] + [Enqueue(CLIP, SAVING)]
  }

  function StillSteps(still: Incoming, c: Bytes): seq<Step> {
    [Place(still, Template(["album"], "photo.heic")), MoveIn(STILL, c)] + [Enqueue(STILL, SAVING)]
  }

  predicate ClipAndStill(clip: Incoming, still: Incoming) { Clip(clip) && still.kind == Photo && still.pair == "" }

  lemma ClipGetsIn(u: Rules, clip: Incoming, b: Bytes, f: Bytes)
    requires AsWritten(u) && Clip(clip)
    ensures Leads(u, Init(map[TAKEN_KEY := f]), ClipSteps(clip, b),
                  Queued(Arrived(Fresh(map[TAKEN_KEY := f]), clip, AsStill(), b), CLIP, VideoClass))
  {
    hide Leads, DiskKey, Template, Rendered.Path, Classify, ExtOf, Target;
    var disk, commit := map[TAKEN_KEY := f], [Place(clip, Template(["album"], "photo_1.jpg")), MoveIn(CLIP, b)];
    Written(u, clip.vars);
    TwoPlaces();
    ClassesOfBoth(u);
    Starts(u, disk);
    Arrives(u, Fresh(disk), clip, Template(["album"], "photo_1.jpg"), AsStill(), b);
    var w := Arrived(Fresh(disk), clip, AsStill(), b);
    Queues(u, w, CLIP, VideoClass);
    Onward(u, Init(disk), [Recover(true)], Fresh(disk), commit, w);
    Onward(u, Init(disk), [Recover(true)] + commit, w, [Enqueue(CLIP, SAVING)], Queued(w, CLIP, VideoClass));
  }

  lemma StillGetsIn(u: Rules, clip: Incoming, b: Bytes, still: Incoming, c: Bytes, f: Bytes)
    requires AsWritten(u) && ClipAndStill(clip, still)
    ensures Leads(u, Queued(Arrived(Fresh(map[TAKEN_KEY := f]), clip, AsStill(), b), CLIP, VideoClass),
      StillSteps(still, c),
                  BothIn(clip, b, still, c, f))
  {
    hide Leads, DiskKey, Template, Rendered.Path, Classify, ExtOf, Target;
    var w := Queued(Arrived(Fresh(map[TAKEN_KEY := f]), clip, AsStill(), b), CLIP, VideoClass);
    Written(u, still.vars);
    TwoPlaces();
    ClassesOfBoth(u);
    assert |"photo"| != |"photo_1"|;
    Arrives(u, w, still, Template(["album"], "photo.heic"), Still(), c);
    var v := Arrived(w, still, Still(), c);
    Queues(u, v, STILL, Heic);
    assert Queued(v, STILL, Heic) == BothIn(clip, b, still, c, f);
    Onward(u, w, [Place(still, Template(["album"], "photo.heic")), MoveIn(STILL, c)], v, [Enqueue(STILL, SAVING)],
        BothIn(clip, b, still, c, f));
  }

  lemma ClipCanBeClaimed(u: Rules, w: World, a: nat)
    requires w.up && a !in w.workers && CLIP in w.files && CLIP in w.convs && w.convs[CLIP] == CLIP_WORK
    requires CLIP_KEY in w.disk
    requires NEXT_COPY !in w.disk
    ensures Claimable(w, a, CLIP) && Landing(w, CLIP) == Some(if CLIP_COPY in w.disk then NEXT_COPY else CLIP_COPY)
  {
    hide DiskKey, SlotFrom, ExtOf, Target;
    TwoPlaces();
    ClassesOfBoth(u);
    CopiesOfBoth(w.disk);
  }

  lemma CutOffClip(u: Rules, clip: Incoming, b: Bytes, still: Incoming, c: Bytes, f: Bytes, copy: Bytes)
    ensures var w := BothIn(clip, b, still, c, f);
      Claimable(w, 0, CLIP) && Cut(w, CLIP, copy) == ClipReplaced(clip, b, still, c, f, copy)
  {
    hide DiskKey, Landing, Rendered.Path, Claimable;
    var w := BothIn(clip, b, still, c, f);
    TwoPlaces();
    ClipCanBeClaimed(u, w, 0);
    assert w.disk[CLIP_COPY := copy] - {CLIP_KEY} == ClipReplaced(clip, b, still, c, f, copy).disk;
  }

  lemma ClipIsReplaced(u: Rules, clip: Incoming, b: Bytes, still: Incoming, c: Bytes, f: Bytes, copy: Bytes)
    requires copy != []
    ensures Leads(u, BothIn(clip, b, still, c, f), CutSteps(0, CLIP, copy), ClipReplaced(clip, b, still, c, f, copy))
  {
    hide Leads, DiskKey, Landing, Rendered.Path, CutSteps, Claimable, Cut, ClipReplaced;
    CutOffClip(u, clip, b, still, c, f, copy);
    IsCut(u, BothIn(clip, b, still, c, f), 0, CLIP, copy);
  }

  lemma StillIsCopied(u: Rules, clip: Incoming, b: Bytes, still: Incoming, c: Bytes, f: Bytes, copy: Bytes)
    requires copy != []
    ensures Leads(u, ClipReplaced(clip, b, still, c, f, copy), [Claim(0, STILL), Probe(0), Produce(0, copy)],
                  StillCopied(clip, b, still, c, f, copy))
  {
    hide Leads, DiskKey, SlotFrom, ExtOf, Target, Rendered.Path;
    var w := ClipReplaced(clip, b, still, c, f, copy);
    TwoPlaces();
    ClassesOfBoth(u);
    CopiesOfBoth(w.disk);
    MakesCopy(u, w, 0, STILL, copy);
    assert CopyMade(w, 0, STILL, copy) == StillCopied(clip, b, still, c, f, copy);
  }

  lemma MarksClip(u: Rules, clip: Incoming, b: Bytes, still: Incoming, c: Bytes, f: Bytes, copy: Bytes)
    ensures var w := StillCopied(clip, b, still, c, f, copy);
      Claimable(w, 1, CLIP) && MarkMade(w, 1, CLIP, copy) == ClipUndone(clip, b, still, c, f, copy, Marked)
  {
    hide DiskKey, Landing, Rendered.Path, Claimable, MarkMade;
    var w := StillCopied(clip, b, still, c, f, copy);
    TwoPlaces();
    ClipCanBeClaimed(u, w, 1);
    MarkMadeIs(w, 1, CLIP, copy);
  }

  lemma ClipIsMarkedAgain(u: Rules, clip: Incoming, b: Bytes, still: Incoming, c: Bytes, f: Bytes, copy: Bytes)
    requires copy != []
    ensures Leads(u, StillCopied(clip, b, still, c, f, copy), [Claim(1, CLIP), Probe(1), Produce(1, copy), Mark(1)],
                  ClipUndone(clip, b, still, c, f, copy, Marked))
  {
    hide Leads, DiskKey, Landing, Rendered.Path, Claimable, MarkMade, ClipUndone;
    MarksClip(u, clip, b, still, c, f, copy);
    MakesMark(u, StillCopied(clip, b, still, c, f, copy), 1, CLIP, copy);
  }

  lemma DeletionFails(u: Rules, clip: Incoming, b: Bytes, still: Incoming, c: Bytes, f: Bytes, copy: Bytes)
    ensures Leads(u, ClipUndone(clip, b, still, c, f, copy, Marked), [RemoveFails(1)],
      ClipUndone(clip, b, still, c, f, copy, Undoing))
  {
    hide DiskKey, ExtOf, Target, Rendered.Path, Runs, Exec;
    var w := ClipUndone(clip, b, still, c, f, copy, Marked);
    OneStep(u, w, RemoveFails(1));
    assert Apply(u, w, RemoveFails(1)) == ClipUndone(clip, b, still, c, f, copy, Undoing);
  }

  /** Everything up to taking the mark back. */
  function CopiedOver(clip: Incoming, b: Bytes, still: Incoming, c: Bytes, copy: Bytes): seq<Step> {
    ClipSteps(clip, b) + StillSteps(still, c) + CutSteps(0, CLIP, copy) +
    [Claim(0, STILL), Probe(0), Produce(0, copy)] + [Claim(1, CLIP), Probe(1), Produce(1, copy), Mark(1)] +
        [RemoveFails(1)]
  }

  lemma UndoIsNext(u: Rules, clip: Incoming, b: Bytes, still: Incoming, c: Bytes, f: Bytes, copy: Bytes)
    requires AsWritten(u) && ClipAndStill(clip, still) && copy != []
    ensures Leads(u, Init(map[TAKEN_KEY := f]), CopiedOver(clip, b, still, c, copy),
      ClipUndone(clip, b, still, c, f, copy, Undoing))
  {
    hide Leads, ClipSteps, StillSteps, CutSteps, BothIn, ClipReplaced, StillCopied, ClipUndone, Queued;
    hide Arrived, Rendered.Path;
    ClipGetsIn(u, clip, b, f);
    StillGetsIn(u, clip, b, still, c, f);
    ClipIsReplaced(u, clip, b, still, c, f, copy);
    StillIsCopied(u, clip, b, still, c, f, copy);
    ClipIsMarkedAgain(u, clip, b, still, c, f, copy);
    DeletionFails(u, clip, b, still, c, f, copy);
    var w0, w2, w3 := Init(map[TAKEN_KEY := f]), BothIn(clip, b, still, c, f), ClipReplaced(clip, b, still, c, f, copy);
    var w1 := Queued(Arrived(Fresh(map[TAKEN_KEY := f]), clip, AsStill(), b), CLIP, VideoClass);
    var w4, w5 := StillCopied(clip, b, still, c, f, copy), ClipUndone(clip, b, still, c, f, copy, Marked);
    var s1, s2, s3 := ClipSteps(clip, b), StillSteps(still, c), CutSteps(0, CLIP, copy);
    var s4, s5 := [Claim(0, STILL), Probe(0), Produce(0, copy)], [Claim(1, CLIP), Probe(1), Produce(1, copy), Mark(1)];
    Onward(u, w0, s1, w1, s2, w2);
    Onward(u, w0, s1 + s2, w2, s3, w3);
    Onward(u, w0, s1 + s2 + s3, w3, s4, w4);
    Onward(u, w0, s1 + s2 + s3 + s4, w4, s5, w5);
    Onward(u, w0, s1 + s2 + s3 + s4 + s5, w5, [RemoveFails(1)], ClipUndone(clip, b, still, c, f, copy, Undoing));
  }

  lemma UndoLoses(u: Rules, clip: Incoming, b: Bytes, still: Incoming, c: Bytes, f: Bytes, copy: Bytes)
    requires ClipAndStill(clip, still) && copy != b
    ensures var w := ClipUndone(clip, b, still, c, f, copy, Undoing);
      && Custody(w) && Enabled(u, w, Undo(1)) && !Custody(Apply(u, w, Undo(1)))
      && OnePlaceEach(w) && NoneSweepable(w) && !NoStillReplaced(w)
  {
    hide DiskKey, ExtOf, SlotFrom, Target, PlaceAt, Decide, Rendered.Path;
    TwoPlaces();
    ExtensionsOfBoth();
    var w := ClipUndone(clip, b, still, c, f, copy, Undoing);
    assert CLIP_KEY[0] != INCOMING_DIR;
    assert VideoAsStill(w.files[CLIP], CLIP);
    var v := Apply(u, w, Undo(1));
    assert Live(v, CLIP) && !HasBytes(v, CLIP);
  }

  /**
    A video is committed under a still's extension and replaced, and before the ledger knows, the
    process dies. The converted copy of a still then takes the name that fell free; the video's row
    is worked off again, the deletion fails this time, and the mark is taken back: the row now
    says that its original is there, and what is there is the copy of the still.
  */
  lemma UndoTakesACopyForTheOriginal(
    u: Rules, clip: Incoming, b: Bytes, still: Incoming, c: Bytes, f: Bytes, copy: Bytes)
    requires AsWritten(u) && ClipAndStill(clip, still) && copy != [] && copy != b
    ensures var start, steps := Init(map[TAKEN_KEY := f]), CopiedOver(clip, b, still, c, copy);
      && Runs(u, start, steps + [Undo(1)])
      && Runs(u, start, steps) && Custody(Exec(u, start, steps)) && !Custody(Exec(u, start, steps + [Undo(1)]))
      && var w := Exec(u, start, steps); OnePlaceEach(w) && NoneSweepable(w) && !NoStillReplaced(w)
  {
    hide Runs, Exec, Enabled, Apply, CopiedOver, ClipUndone, Custody, NoneSweepable, NoStillReplaced, OnePlaceEach;
    UndoIsNext(u, clip, b, still, c, f, copy);
    UndoLoses(u, clip, b, still, c, f, copy);
    Extend(u, Init(map[TAKEN_KEY := f]), CopiedOver(clip, b, still, c, copy), Undo(1));
  }

  // ---- a commit into the directory of partial uploads ----

  lemma HiddenKey()
    ensures Hidden().Path() == ".incoming/photo" && DiskKey(".incoming/photo") == [INCOMING_DIR, "photo"]
  {
    hide DiskKey;
    KeyOfTwo(INCOMING_DIR, "photo");
    assert INCOMING_DIR + ['/'] + "photo" == ".incoming/photo";
  }

  /**
    A template may name the directory of partial uploads. What is committed there is in custody like
    anything else, and then the next sweep of old uploads deletes it, though no mark says so.
  */
  lemma SweepLosesACommit(u: Rules, inc: Incoming, bytes: Bytes)
    requires AsWritten(u) && inc.pair == ""
    ensures var steps := [Place(inc, Template([INCOMING_DIR], "photo")), MoveIn(".incoming/photo", bytes)];
      var sweep := Sweep({[INCOMING_DIR, "photo"]});
      && Runs(u, Init(map[]), steps + [sweep])
      && Runs(u, Init(map[]), steps) && Custody(Exec(u, Init(map[]), steps)) &&
         !Custody(Exec(u, Init(map[]), steps + [sweep]))
      && var w := Exec(u, Init(map[]), steps); OnePlaceEach(w) && NoStillReplaced(w) && !NoneSweepable(w)
  {
    hide Runs, Exec, DiskKey, Template, Rendered.Path, Enabled, Apply;
    var steps := [Place(inc, Template([INCOMING_DIR], "photo")), MoveIn(".incoming/photo", bytes)];
    Written(u, inc.vars);
    HiddenKey();
    Arrives(u, Init(map[]), inc, Template([INCOMING_DIR], "photo"), Hidden(), bytes);
    var w := Arrived(Init(map[]), inc, Hidden(), bytes);
    SweptAway(u, w, ".incoming/photo");
    Extend(u, Init(map[]), steps, Sweep({[INCOMING_DIR, "photo"]}));
  }

  lemma SweptAway(u: Rules, w: World, p: string)
    requires Live(w, p) && Sweepable(DiskKey(p))
    ensures Enabled(u, w, Sweep({DiskKey(p)})) && !Custody(Apply(u, w, Sweep({DiskKey(p)})))
  {
    hide DiskKey;
    assert Live(Apply(u, w, Sweep({DiskKey(p)})), p) && !HasBytes(Apply(u, w, Sweep({DiskKey(p)})), p);
  }

  // ---- a reservation left behind ----

  lemma FirstChoice(u: Rules, w: World, inc: Incoming, tmpl: string, name: Rendered)
    requires inc.pair == "" || (inc.device, inc.pair) !in w.pairs
    requires u.render(tmpl, inc.vars, 0) == Ok(name) && !Taken(w.files, name.dir, name.base)
    requires Free(w.files, w.disk, name)
    ensures PlaceAt(u, w, inc, tmpl) == At(name)
  {
    hide Taken, Free;
  }

  /** The first member of a pair is placed, cannot be moved in, and is taken back: its reservation stays. */
  function OnlyReserved(first: Incoming): World {
    Init(map[]).(pairs := map[(first.device, first.pair) := ("album", "photo")])
  }

  function ReserveSteps(first: Incoming): seq<Step> {
    [Place(first, Template(["album"], "photo")), Unplace("album/photo", true, true)]
  }

  lemma IsOnlyReserved(u: Rules, first: Incoming)
    requires AsWritten(u) && first.pair != ""
    ensures Leads(u, Init(map[]), ReserveSteps(first), OnlyReserved(first))
    ensures Runs(u, Init(map[]), [Place(first, Template(["album"], "photo"))])
    ensures Empties(Exec(u, Init(map[]), [Place(first, Template(["album"], "photo"))]),
      Unplace("album/photo", true, true))
  {
    hide DiskKey, Template, Rendered.Path, Runs, Exec, PlaceAt;
    var place, back := Place(first, Template(["album"], "photo")), Unplace("album/photo", true, true);
    Written(u, first.vars);
    OnePlace();
    FirstChoice(u, Init(map[]), first, Template(["album"], "photo"), Plain());
    var v := Claimed(Init(map[]), first, Plain());
    OneStep(u, Init(map[]), place);
    OneStep(u, v, back);
    StepThen(u, Init(map[]), place, [back]);
    assert [place] + [back] == [place, back];
    assert Apply(u, v, back) == OnlyReserved(first);
  }

  /** A file of no pair has the basename, which nothing in the ledger holds. */
  function StrangerIn(first: Incoming, other: Incoming, b: Bytes): World {
    OnlyReserved(first).(
      files := map["album/photo" := RowOf(other, Plain())], disk := map[KEY := b], placed := map["album/photo" := b])
  }

  lemma StrangerGetsIn(u: Rules, first: Incoming, other: Incoming, b: Bytes)
    requires AsWritten(u) && other.pair == ""
    ensures Leads(u, OnlyReserved(first), [Place(other, Template(["album"], "photo")), MoveIn("album/photo", b)],
      StrangerIn(first, other, b))
  {
    hide Leads, DiskKey, Template, Rendered.Path;
    Written(u, other.vars);
    OnePlace();
    Arrives(u, OnlyReserved(first), other, Template(["album"], "photo"), Plain(), b);
    assert Arrived(OnlyReserved(first), other, Plain(), b) == StrangerIn(first, other, b);
  }

  /** The pair's second member still goes where the first was to be. */
  lemma PartnerJoins(u: Rules, first: Incoming, other: Incoming, b: Bytes, second: Incoming)
    requires AsWritten(u) && first.pair != "" && other.pair == "" && second.device == first.device
    requires second.pair == first.pair
    ensures var w, place := StrangerIn(first, other, b), Place(second, Template(["album"], "photo.heic"));
      Enabled(u, w, place) && !SharedByPairs(Apply(u, w, place))
      && STILL in Apply(u, w, place).files && Apply(u, w, place).files[STILL].name == Still()
  {
    hide DiskKey, Template, Rendered.Path, Search;
    var w, tmpl := StrangerIn(first, other, b), Template(["album"], "photo.heic");
    Written(u, second.vars);
    OnePlace();
    TwoPlaces();
    assert |KEY[1]| != |STILL_KEY[1]| && |"album/photo"| != |STILL|;
    assert PlaceAt(u, w, second, tmpl) == At(Still());
    var v := Claimed(w, second, Still());
    assert Named(v.files["album/photo"], "album", "photo") && Named(v.files[STILL], "album", "photo");
    assert !Partners(v.files["album/photo"], v.files[STILL]);
  }

  /**
    The rename that would end the commit of a pair's first member fails, and its row is taken back
    but not its reservation. A file of no pair at all is then given the reserved basename, and when
    the second member comes it joins it there: two strangers share a basename.
  */
  lemma StrangersShareABasename(u: Rules, first: Incoming, other: Incoming, b: Bytes, second: Incoming)
    requires AsWritten(u) && first.pair != "" && other.pair == "" && second.device == first.device
    requires second.pair == first.pair
    ensures var steps := ReserveSteps(first) + [Place(other, Template(["album"], "photo")), MoveIn("album/photo", b)];
      var place := Place(second, Template(["album"], "photo.heic"));
      && Runs(u, Init(map[]), steps + [place]) && !SharedByPairs(Exec(u, Init(map[]), steps + [place]))
  {
    hide Runs, Exec, Enabled, Apply, Template, StrangerIn, OnlyReserved, SharedByPairs, ReserveSteps, Empties;
    IsOnlyReserved(u, first);
    StrangerGetsIn(u, first, other, b);
    PartnerJoins(u, first, other, b, second);
    var more := [Place(other, Template(["album"], "photo")), MoveIn("album/photo", b)];
    Onward(u, Init(map[]), ReserveSteps(first), OnlyReserved(first), more, StrangerIn(first, other, b));
    Extend(u, Init(map[]), ReserveSteps(first) + more, Place(second, Template(["album"], "photo.heic")));
  }
}
