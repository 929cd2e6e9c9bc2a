/**
  What every run of the receiver keeps, with a crash allowed between any two effects: the bytes of
  every row it has not given up, and the one-worker-per-row discipline of the conversion queue.
*/
module ReceiverRuns {
  import opened Wrappers
  import opened Texts
  import opened Naming
  import opened OutputPolicy
  import opened Hashing
  import opened Ledger
  import opened Allocator

  // ---- rows the receiver can answer for ----

  /** A file sent as video under the extension of a converted still. */
  predicate VideoAsStill(r: Row, path: string) { r.kind == Video && ExtOf(path) == "jpg" }

  /** No two rows are one place on disk under two spellings. */
  predicate OnePlaceEach(w: World) { forall p, q | p in w.files && q in w.files && DiskKey(p) == DiskKey(q) :: p == q }

  /** No row lies directly in the directory of partial uploads. */
  predicate NoneSweepable(w: World) { forall p | p in w.files :: !Sweepable(DiskKey(p)) }

  /** No video stored under the extension of a converted still is to be replaced. */
  predicate NoStillReplaced(w: World) {
    forall p | p in w.files && p in w.convs && w.convs[p].action == Replace :: !VideoAsStill(w.files[p], p)
  }

  /** Three things about where commits land that the code does not check. */
  predicate PlacedApart(w: World) { OnePlaceEach(w) && NoneSweepable(w) && NoStillReplaced(w) }

  // ---- keys on disk ----

  lemma {:induction false} NonEmptySame(parts: seq<string>)
    requires forall p | p in parts :: p != ""
    ensures NonEmpty(parts) == parts
  {
    if parts != [] {
      assert parts[0] in parts && forall p | p in parts[1..] :: p in parts;
      NonEmptySame(parts[1..]);
    }
  }

  lemma NameHasNoSlash(n: Rendered)
    requires NameOk(n)
    ensures '/' !in FileName(n.base, n.ext) && FileName(n.base, n.ext) != ""
  {
    FileNameIsPlain(n);
  }

  /** The last component of a row's place is its file name. */
  lemma KeyEndsInName(n: Rendered)
    requires NameOk(n)
    ensures var key := DiskKey(n.Path()); key != [] && key[|key| - 1] == FileName(n.base, n.ext)
  {
    NameHasNoSlash(n);
    KeyOfResult(n);
  }

  // ---- names that are apart by themselves ----

  predicate DirClean(dir: string) {
    dir == "" || forall c | c in Split(dir, '/') :: c != ""
  }

  /** What can be seen of one commit's name, and makes it apart from every other of its kind. */
  predicate Ordinary(r: Row) {
    DirClean(r.name.dir) && r.name.dir != INCOMING_DIR && !VideoAsStill(r, r.name.Path())
  }

  /** A path with no empty component can be read back from its key. */
  lemma KeyGivesPath(n: Rendered)
    requires NameOk(n) && DirClean(n.dir)
    ensures DiskKey(n.Path()) == Split(n.Path(), '/') && Join(DiskKey(n.Path()), '/') == n.Path()
  {
    NameHasNoSlash(n);
    KeyOfResult(n);
    var parts := Split(n.Path(), '/');
    NonEmptySame(parts);
    JoinSplit(n.Path(), '/');
  }

  lemma OrdinaryNotSwept(n: Rendered)
    requires NameOk(n) && DirClean(n.dir) && n.dir != INCOMING_DIR
    ensures !Sweepable(DiskKey(n.Path()))
  {
    hide FileName;
    KeyGivesPath(n);
    NameHasNoSlash(n);
    KeyOfResult(n);
    var key := DiskKey(n.Path());
    if Sweepable(key) && n.dir != "" {
      var dirs := Split(n.dir, '/');
      assert key == dirs + [key[1]];
      assert |dirs| == 1 && dirs[0] == key[0];
      JoinSplit(n.dir, '/');
    }
  }

  /** Commits whose names are clean, one by one, are placed apart. */
  lemma OrdinaryIsPlacedApart(w: World)
    requires Filed(w) && forall p | p in w.files :: Ordinary(w.files[p])
    ensures PlacedApart(w)
  {
    hide Rendered.Path, DiskKey, Split, DirClean, Join, ExtOf, Sweepable;
    forall p | p in w.files
      ensures Join(DiskKey(p), '/') == p && !Sweepable(DiskKey(p))
    {
      KeyGivesPath(w.files[p].name);
      OrdinaryNotSwept(w.files[p].name);
    }
  }

  // ---- extensions ----

  lemma {:induction false} ExtAtTail(x: string, n: string)
    requires x != "" && x[|x| - 1] == '/' && '/' !in n
    ensures ExtAt(x + n) == |x| + ExtAt(n)
  {
    if n == "" {
      assert x + n == x;
    } else {
      ExtAtTail(x, n[..|n| - 1]);
      assert (x + n)[..|x + n| - 1] == x + n[..|n| - 1];
    }
  }

  lemma PathExt(n: Rendered)
    requires NameOk(n)
    ensures ExtOf(n.Path()) == ExtOf(FileName(n.base, n.ext))
  {
    NameHasNoSlash(n);
    if n.dir != "" {
      var file := FileName(n.base, n.ext);
      var x := n.dir + ['/'];
      assert n.Path() == x + file;
      ExtAtTail(x, file);
      if ExtAt(file) < |file| {
        assert (x + file)[|x| + ExtAt(file) + 1..] == file[ExtAt(file) + 1..];
      }
    }
  }

  lemma SlotExt(key: Key, ext: string, c: nat)
    requires key != [] && ext in {"jpg", "mp4"}
    ensures Slot(key, ext, c) != [] && ExtOf(Slot(key, ext, c)[|key| - 1]) == ext && |Slot(key, ext, c)| == |key|
  {
    var x := Stem(key[|key| - 1]) + CounterText(c);
    var last := Slot(key, ext, c)[|key| - 1];
    assert last == x + ['.'] + ext;
    ExtAtAppended(x, ext);
    assert last[|x| + 1..] == ext;
  }

  /** A file that a conversion may replace never carries the extension of a conversion. */
  lemma ReplacedExt(u: Rules, r: Row, path: string)
    requires !VideoAsStill(r, path)
    requires Target(Classify(u.lower, r.kind, path), path).Some?
    ensures ExtOf(path) != "jpg" && ExtOf(path) != "mp4"
  {
    hide ExtOf, HeicExt, RawExt, VideoExt, Lower, UpperAscii;
    ConversionExts(u);
  }

  /** What the policy makes of the two extensions a conversion gives. */
  lemma ConversionExts(u: Rules)
    ensures Lower(u.lower, "jpg") == "jpg" && !HeicExt("jpg") && !RawExt("jpg") && !VideoExt("jpg")
    ensures Lower(u.lower, "mp4") == "mp4" && !HeicExt("mp4") && UpperAscii("mp4") == "MP4"
  {
    hide RawExt;
    NoRawExt();
  }

  lemma NoRawExt()
    ensures !RawExt("jpg")
  {
    assert "jpg"[0] == 'j';
  }

  /** So no converted copy can land where a deleted original was. */
  lemma SlotMissesReplaced(u: Rules, w: World, p: string, key: Key, ext: string, c: nat)
    requires Filed(w) && p in w.files && !VideoAsStill(w.files[p], p) && key != [] && ext in {"jpg", "mp4"}
    requires Target(Classify(u.lower, w.files[p].kind, p), p).Some?
    ensures DiskKey(p) != Slot(key, ext, c)
  {
    hide Rendered.Path, DiskKey, Split, Slot, FileName, Classify, Target, ExtOf;
    var n := w.files[p].name;
    SlotExt(key, ext, c);
    ReplacedExt(u, w.files[p], p);
    PathExt(n);
    KeyEndsInName(n);
  }

  // ---- the invariants ----

  /** The bytes: none yet, gone for good, or exactly those that were committed. */
  predicate HeldAt(w: World, p: string)
    requires p in w.files
  {
    var k := DiskKey(p);
    if p !in w.placed then p in w.stuck || (k in w.disk && w.disk[k] == [])
    else if p in w.gone then k !in w.disk
    else k in w.disk && w.disk[k] == w.placed[p]
  }

  predicate BytesHeld(w: World) { forall p | p in w.files :: HeldAt(w, p) }

  predicate Replaced(c: Conv, path: string) { c.action == Replace && Target(c.family, path).Some? }

  predicate ConvOk(u: Rules, r: Row, path: string, c: Conv) {
    c.family == Classify(u.lower, r.kind, path) && (c.action == Replace ==> r.pair == "")
  }

  /** What a worker's progress says about the row it holds. */
  predicate HoldOk(w: World, a: nat)
    requires a in w.workers
  {
    var p, phase := w.workers[a].path, w.workers[a].phase;
    && p in w.convs && p in w.files && w.convs[p].state == Running
    && (phase.Probed? || phase.Copied? || phase.Marked? || phase.Undoing? ==> p !in w.gone)
    && (phase.Copied? || phase.Marked? || phase.Undoing? ==> Target(w.convs[p].family, p).Some?)
    && (phase.Marked? || phase.Undoing? ==> w.convs[p].action == Replace && w.files[p].removed)
  }

  /** A mark or a deletion has a replacing conversion of that very row behind it. */
  predicate RowsOk(u: Rules, w: World) {
    && w.placed.Keys <= w.files.Keys && w.convs.Keys <= w.placed.Keys
    && w.gone <= w.convs.Keys && w.stuck <= w.files.Keys
    && (forall p | p in w.convs :: ConvOk(u, w.files[p], p, w.convs[p]))
    && (forall p | p in w.files && w.files[p].removed :: p in w.convs && Replaced(w.convs[p], p))
    && (forall p | p in w.gone :: w.files[p].removed)
  }

  /** No two workers hold one row, and nobody works before the interrupted rows were dealt with. */
  predicate WorkersOk(w: World) {
    && (forall a | a in w.workers :: HoldOk(w, a))
    && (forall a, b | a in w.workers && b in w.workers && a != b :: w.workers[a].path != w.workers[b].path)
    && (w.up || w.workers == map[])
  }

  predicate QueueOk(u: Rules, w: World) { RowsOk(u, w) && WorkersOk(w) }

  predicate Sound(u: Rules, w: World) {
    Filed(w) && BytesHeld(w) && QueueOk(u, w)
  }

  // ---- the bytes, step by step ----

  /** A step that leaves every row's key alone leaves every row's bytes alone. */
  lemma BytesUntouched(w: World, v: World)
    requires BytesHeld(w) && v.files.Keys == w.files.Keys && v.placed == w.placed && v.gone == w.gone
    requires v.stuck == w.stuck
    requires forall p | p in w.files :: DiskKey(p) in v.disk <==> DiskKey(p) in w.disk
    requires forall p | p in w.files && DiskKey(p) in w.disk :: v.disk[DiskKey(p)] == w.disk[DiskKey(p)]
    ensures BytesHeld(v)
  {
    hide DiskKey, DigestOf;
    forall p | p in v.files
      ensures HeldAt(v, p)
    {
      assert HeldAt(w, p);
    }
  }

  lemma PlaceKeepsBytes(u: Rules, w: World, inc: Incoming, tmpl: string)
    requires Sound(u, w) && PlaceAt(u, w, inc, tmpl).At?
    requires PlacedApart(Claimed(w, inc, PlaceAt(u, w, inc, tmpl).name))
    ensures BytesHeld(Claimed(w, inc, PlaceAt(u, w, inc, tmpl).name))
  {
    hide PlaceAt, DiskKey, Rendered.Path, DigestOf;
    PlacedNameIsFree(u, w, inc, tmpl);
    var n := PlaceAt(u, w, inc, tmpl).name;
    var v, path := Claimed(w, inc, n), n.Path();
    forall p | p in v.files
      ensures HeldAt(v, p)
    {
      if p != path {
        assert HeldAt(w, p);
        assert DiskKey(p) != DiskKey(path);
      }
    }
  }

  lemma MoveInKeepsBytes(u: Rules, w: World, path: string, bytes: Bytes)
    requires Sound(u, w) && PlacedApart(w) && Enabled(u, w, MoveIn(path, bytes))
    ensures BytesHeld(Apply(u, w, MoveIn(path, bytes)))
  {
    hide DiskKey, Classify, Target;
    var v := Apply(u, w, MoveIn(path, bytes));
    forall p | p in v.files
      ensures HeldAt(v, p)
    {
      assert HeldAt(w, p);
      assert DiskKey(p) == DiskKey(path) ==> p == path;
    }
  }

  /** A copy cannot land where a deleted original was. */
  lemma SlotMissesGone(u: Rules, w: World, p: string, key: Key, ext: string, c: nat)
    requires Filed(w) && RowsOk(u, w) && PlacedApart(w) && p in w.gone && key != [] && ext in {"jpg", "mp4"}
    ensures DiskKey(p) != Slot(key, ext, c)
  {
    hide DiskKey, Classify, Slot, Rendered.Path, NameOk, ExtOf;
    assert ConvOk(u, w.files[p], p, w.convs[p]) && Replaced(w.convs[p], p);
    SlotMissesReplaced(u, w, p, key, ext, c);
  }

  /** A copy lands on no row's place, unless that row has nothing there to keep. */
  lemma SlotMissesRows(u: Rules, w: World, key: Key, ext: string, slot: Key, p: string)
    requires Filed(w) && BytesHeld(w) && RowsOk(u, w) && PlacedApart(w) && p in w.files
    requires key != [] && ext in {"jpg", "mp4"} && SlotFrom(w.disk, key, ext, 0) == Some(slot)
    ensures DiskKey(p) != slot || (p !in w.placed && p in w.stuck)
  {
    hide DiskKey, SlotFrom, Slot, PlacedApart, RowsOk, Filed;
    SlotFound(w.disk, key, ext, 0);
    var c: nat :| c < 100 && slot == Slot(key, ext, c);
    assert HeldAt(w, p);
    if p in w.gone {
      SlotMissesGone(u, w, p, key, ext, c);
    }
  }

  lemma ProduceKeepsBytes(u: Rules, w: World, a: nat, copy: Bytes)
    requires Sound(u, w) && PlacedApart(w) && Enabled(u, w, Produce(a, copy))
    ensures BytesHeld(Apply(u, w, Produce(a, copy)))
  {
    hide DiskKey, DigestOf, Classify, SlotFrom, PlacedApart, RowsOk, WorkersOk, Filed;
    var v, path := Apply(u, w, Produce(a, copy)), w.workers[a].path;
    forall p | p in v.files
      ensures HeldAt(v, p)
    {
      SlotMissesRows(u, w, DiskKey(path), Target(w.convs[path].family, path).value, SlotOf(w, a).value, p);
      assert HeldAt(w, p);
    }
  }

  lemma OnlyRowThere(w: World, path: string)
    requires PlacedApart(w) && path in w.files
    ensures forall p | p in w.files && DiskKey(p) == DiskKey(path) :: p == path
  {
    hide DiskKey, VideoAsStill, Sweepable;
  }

  lemma RemoveKeepsBytes(u: Rules, w: World, a: nat)
    requires Sound(u, w) && PlacedApart(w) && Enabled(u, w, Remove(a))
    ensures BytesHeld(Apply(u, w, Remove(a)))
  {
    hide DiskKey, DigestOf, HoldOk, ConvOk, Replaced, SharedByPairs, ReservedForPair, Filed, PlacedApart, Target;
    var v, path := Apply(u, w, Remove(a)), w.workers[a].path;
    OnlyRowThere(w, path);
    forall p | p in v.files
      ensures HeldAt(v, p)
    {
      assert HeldAt(w, p);
      assert DiskKey(p) == DiskKey(path) ==> p == path;
    }
  }

  lemma SweepKeepsBytes(u: Rules, w: World, victims: set<Key>)
    requires Sound(u, w) && PlacedApart(w) && Enabled(u, w, Sweep(victims))
    ensures BytesHeld(Apply(u, w, Sweep(victims)))
  {
    hide DiskKey, DigestOf, QueueOk;
    assert forall p | p in w.files :: DiskKey(p) !in victims;
    BytesUntouched(w, Apply(u, w, Sweep(victims)));
  }

  predicate OnDisk(s: Step) { s.Place? || s.MoveIn? || s.Unplace? || s.Produce? || s.Remove? || s.Sweep? || s.Outside? }

  lemma OffDisk(u: Rules, w: World, s: Step)
    requires Enabled(u, w, s) && !OnDisk(s)
    ensures var v := Apply(u, w, s); v.disk == w.disk && v.placed == w.placed && v.gone == w.gone && v.stuck == w.stuck
  {
    hide DiskKey, SlotFrom, Target, PlaceAt, ToDo;
  }

  lemma RowsAreThere(u: Rules, w: World, s: Step)
    requires Enabled(u, w, s) && !s.Place? && !s.Unplace?
    ensures Apply(u, w, s).files.Keys == w.files.Keys
  {
    hide Enabled, Apply;
    OtherStepsKeepNames(u, w, s);
  }

  lemma UnplaceKeepsBytes(u: Rules, w: World, path: string, rowGone: bool, fileGone: bool)
    requires Sound(u, w) && PlacedApart(w) && Enabled(u, w, Unplace(path, rowGone, fileGone))
    ensures BytesHeld(Apply(u, w, Unplace(path, rowGone, fileGone)))
  {
    hide DiskKey, QueueOk, Filed, PlacedApart;
    OnlyRowThere(w, path);
    var v := Apply(u, w, Unplace(path, rowGone, fileGone));
    forall p | p in v.files
      ensures HeldAt(v, p)
    {
      assert HeldAt(w, p);
      assert DiskKey(p) == DiskKey(path) ==> p == path;
    }
  }

  lemma StepKeepsBytes(u: Rules, w: World, s: Step)
    requires Sound(u, w) && Enabled(u, w, s) && PlacedApart(w) && PlacedApart(Apply(u, w, s))
    ensures BytesHeld(Apply(u, w, s))
  {
    hide PlaceAt, DiskKey, DigestOf, Target, PlacedApart, SlotOf, Claimed, Apply, Enabled;
    if !OnDisk(s) {
      RowsAreThere(u, w, s);
      OffDisk(u, w, s);
      BytesUntouched(w, Apply(u, w, s));
    } else {
      match s
      case Place(inc, tmpl) => PlaceKeepsBytesToo(u, w, inc, tmpl);
      case MoveIn(path, bytes) => MoveInKeepsBytes(u, w, path, bytes);
      case Unplace(path, rowGone, fileGone) => UnplaceKeepsBytes(u, w, path, rowGone, fileGone);
      case Produce(a, copy) => ProduceKeepsBytes(u, w, a, copy);
      case Remove(a) => RemoveKeepsBytes(u, w, a);
      case Sweep(victims) => SweepKeepsBytes(u, w, victims);
      case Outside(key, content) => OutsideKeepsBytes(u, w, key, content);
    }
  }

  lemma PlaceKeepsBytesToo(u: Rules, w: World, inc: Incoming, tmpl: string)
    requires Sound(u, w) && Enabled(u, w, Place(inc, tmpl)) && PlacedApart(Apply(u, w, Place(inc, tmpl)))
    ensures BytesHeld(Apply(u, w, Place(inc, tmpl)))
  {
    hide PlaceAt, Claimed, PlacedApart, BytesHeld, Filed, QueueOk;
    PlaceKeepsBytes(u, w, inc, tmpl);
  }

  lemma OutsideKeepsBytes(u: Rules, w: World, key: Key, content: Option<Bytes>)
    requires Sound(u, w) && Enabled(u, w, Outside(key, content))
    ensures BytesHeld(Apply(u, w, Outside(key, content)))
  {
    hide DiskKey, DigestOf, Filed, QueueOk;
    BytesUntouched(w, Apply(u, w, Outside(key, content)));
  }

  // ---- the queue, step by step ----

  /** Steps that change neither what a row says of its original nor what a conversion is for. */
  lemma RowsKept(u: Rules, w: World, v: World)
    requires RowsOk(u, w) && v.files.Keys == w.files.Keys && v.convs.Keys == w.convs.Keys && v.gone == w.gone
    requires v.stuck == w.stuck
    requires w.placed.Keys <= v.placed.Keys <= v.files.Keys
    requires forall p | p in w.files :: v.files[p].(attested := false) == w.files[p].(attested := false)
    requires forall p | p in w.convs :: v.convs[p].(state := Pending) == w.convs[p].(state := Pending)
    ensures RowsOk(u, v)
  {
    hide Classify, Target;
    forall p | p in w.files
      ensures v.files[p].kind == w.files[p].kind && v.files[p].pair == w.files[p].pair
      ensures v.files[p].removed == w.files[p].removed
    {
      assert v.files[p].(attested := false) == w.files[p].(attested := false);
    }
    forall p | p in w.convs
      ensures ConvOk(u, w.files[p], p, w.convs[p]) == ConvOk(u, v.files[p], p, v.convs[p])
      ensures Replaced(w.convs[p], p) == Replaced(v.convs[p], p)
    {
      assert v.convs[p].(state := Pending) == w.convs[p].(state := Pending);
    }
  }

  /** The steps that do change one of them. */
  predicate Decisive(s: Step) { s.Place? || s.Unplace? || s.Enqueue? || s.Mark? || s.Remove? || s.Undo? }

  lemma ForwardKeepsRows(u: Rules, w: World, s: Step)
    requires RowsOk(u, w) && Enabled(u, w, s) && Moves(s)
    ensures RowsOk(u, Apply(u, w, s))
  {
    hide Enabled, Apply, ConvOk, Replaced;
    MovesFrame(u, w, s);
  }

  predicate OfQueue(s: Step) { s.Claim? || s.Settle? || s.Crash? || s.Recover? }

  lemma QueueKeepsRows(u: Rules, w: World, s: Step)
    requires RowsOk(u, w) && Enabled(u, w, s) && OfQueue(s)
    ensures RowsOk(u, Apply(u, w, s))
  {
    hide DiskKey, Classify, Target, PlaceAt, ToDo, ConvOk, Replaced, Requeued, RowsOk;
    RequeuedSame(w.convs);
    ConvsAreRows(u, w);
    RowsKept(u, w, Apply(u, w, s));
  }

  lemma ConvsAreRows(u: Rules, w: World)
    requires RowsOk(u, w)
    ensures w.placed.Keys <= w.files.Keys
  {
  }

  lemma RequeuedSame(convs: map<string, Conv>)
    ensures Requeued(convs).Keys == convs.Keys
    ensures forall p | p in convs :: Requeued(convs)[p].(state := Pending) == convs[p].(state := Pending)
  {
  }

  lemma OtherStepsKeepRows(u: Rules, w: World, s: Step)
    requires RowsOk(u, w) && Enabled(u, w, s) && !Decisive(s) && !Moves(s) && !OfQueue(s)
    ensures RowsOk(u, Apply(u, w, s))
  {
    hide DiskKey, Classify, Target, PlaceAt, ToDo, ConvOk, Replaced;
    RowsKept(u, w, Apply(u, w, s));
  }

  lemma PlaceKeepsRows(u: Rules, w: World, inc: Incoming, tmpl: string)
    requires Filed(w) && RowsOk(u, w) && Enabled(u, w, Place(inc, tmpl))
    ensures RowsOk(u, Apply(u, w, Place(inc, tmpl)))
  {
    hide DiskKey, Classify, Target, PlaceAt, Rendered.Path, SharedByPairs, ReservedForPair;
    PlacedNameIsFree(u, w, inc, tmpl);
  }

  lemma UnplaceKeepsRows(u: Rules, w: World, path: string, rowGone: bool, fileGone: bool)
    requires RowsOk(u, w) && Enabled(u, w, Unplace(path, rowGone, fileGone))
    ensures RowsOk(u, Apply(u, w, Unplace(path, rowGone, fileGone)))
  {
    hide DiskKey, Classify, Target, ConvOk, Replaced;
  }

  lemma EnqueueKeepsRows(u: Rules, w: World, path: string, policy: Policy)
    requires RowsOk(u, w) && Enabled(u, w, Enqueue(path, policy))
    ensures RowsOk(u, Apply(u, w, Enqueue(path, policy)))
  {
    hide Classify, Target, ActionFor;
  }

  lemma MarkKeepsRows(u: Rules, w: World, a: nat)
    requires RowsOk(u, w) && WorkersOk(w) && Enabled(u, w, Mark(a))
    ensures RowsOk(u, Apply(u, w, Mark(a)))
  {
    hide Classify, Target;
    assert HoldOk(w, a);
  }

  lemma RemoveKeepsRows(u: Rules, w: World, a: nat)
    requires RowsOk(u, w) && WorkersOk(w) && Enabled(u, w, Remove(a))
    ensures RowsOk(u, Apply(u, w, Remove(a)))
  {
    hide Classify, Target, DiskKey;
    assert HoldOk(w, a);
  }

  lemma UndoKeepsRows(u: Rules, w: World, a: nat)
    requires RowsOk(u, w) && WorkersOk(w) && Enabled(u, w, Undo(a))
    ensures RowsOk(u, Apply(u, w, Undo(a)))
  {
    hide Classify, Target;
    assert HoldOk(w, a);
  }

  lemma StepKeepsRows(u: Rules, w: World, s: Step)
    requires Sound(u, w) && Enabled(u, w, s)
    ensures RowsOk(u, Apply(u, w, s))
  {
    hide Enabled, Apply, Filed, BytesHeld, RowsOk, WorkersOk, Moves, OfQueue;
    match s
    case Place(inc, tmpl) => PlaceKeepsRows(u, w, inc, tmpl);
    case Unplace(path, rowGone, fileGone) => UnplaceKeepsRows(u, w, path, rowGone, fileGone);
    case Enqueue(path, policy) => EnqueueKeepsRows(u, w, path, policy);
    case Mark(a) => MarkKeepsRows(u, w, a);
    case Remove(a) => RemoveKeepsRows(u, w, a);
    case Undo(a) => UndoKeepsRows(u, w, a);
    case _ =>
      if Moves(s) {
        ForwardKeepsRows(u, w, s);
      } else if OfQueue(s) {
        QueueKeepsRows(u, w, s);
      } else {
        OtherStepsKeepRows(u, w, s);
      }
  }

  /** A step of one worker leaves everybody else's claim on their row as good as it was. */
  lemma OthersHold(w: World, v: World, a: nat, path: string)
    requires WorkersOk(w) && v.up == w.up && w.files.Keys == v.files.Keys && w.convs.Keys == v.convs.Keys
    requires w.gone - {path} == v.gone - {path}
    requires forall b | b != a ::
      (b in v.workers <==> b in w.workers) && (b in w.workers ==> v.workers[b] == w.workers[b])
    requires forall p | p in w.convs && p != path ::
      v.convs[p] == w.convs[p] && (p in w.files ==> v.files[p].removed == w.files[p].removed)
    requires if a in w.workers then w.workers[a].path == path
      else w.up && path in w.convs && w.convs[path].state != Running
    requires a in v.workers ==> v.workers[a].path == path && HoldOk(v, a)
    ensures WorkersOk(v)
  {
    hide Target, DiskKey;
    forall b | b in v.workers && b != a
      ensures HoldOk(v, b) && v.workers[b].path != path
    {
      assert HoldOk(w, b);
      assert w.workers[b].path in v.gone - {path} <==> w.workers[b].path in w.gone - {path};
    }
  }

  lemma ClaimKeepsWorkers(u: Rules, w: World, a: nat, path: string)
    requires WorkersOk(w) && Enabled(u, w, Claim(a, path))
    ensures WorkersOk(Apply(u, w, Claim(a, path)))
  {
    hide Target;
    OthersHold(w, Apply(u, w, Claim(a, path)), a, path);
  }

  lemma ProbeKeepsWorkers(u: Rules, w: World, a: nat)
    requires Sound(u, w) && Enabled(u, w, Probe(a))
    ensures WorkersOk(Apply(u, w, Probe(a)))
  {
    hide Target, DiskKey, DigestOf, Filed, ConvOk, Replaced;
    assert HoldOk(w, a) && HeldAt(w, w.workers[a].path);
    OthersHold(w, Apply(u, w, Probe(a)), a, w.workers[a].path);
  }

  lemma ForwardKeepsWorkers(u: Rules, w: World, s: Step)
    requires WorkersOk(w) && Enabled(u, w, s) && Forward(s)
    ensures WorkersOk(Apply(u, w, s))
  {
    hide Target, DiskKey, SlotFrom, PlaceAt, ToDo, DigestOf;
    var a := s.worker;
    assert HoldOk(w, a);
    OthersHold(w, Apply(u, w, s), a, w.workers[a].path);
  }

  lemma WritingKeepsWorkers(u: Rules, w: World, s: Step)
    requires WorkersOk(w) && Enabled(u, w, s) && Writing(s)
    ensures WorkersOk(Apply(u, w, s))
  {
    hide Target, DiskKey, SlotFrom, PlaceAt, ToDo, DigestOf;
    var a := s.worker;
    assert HoldOk(w, a);
    OthersHold(w, Apply(u, w, s), a, w.workers[a].path);
  }

  lemma PlaceKeepsWorkers(u: Rules, w: World, inc: Incoming, tmpl: string)
    requires WorkersOk(w) && Enabled(u, w, Place(inc, tmpl))
    ensures WorkersOk(Apply(u, w, Place(inc, tmpl)))
  {
    hide Target, DiskKey, PlaceAt, Rendered.Path;
    PlacedIsFree(u, w, inc, tmpl);
    var v := Apply(u, w, Place(inc, tmpl));
    forall a | a in v.workers
      ensures HoldOk(v, a)
    {
      assert HoldOk(w, a);
    }
  }

  /** Steps of nobody in particular: every worker holds on to what it has, or there are none. */
  lemma OtherStepsKeepWorkers(u: Rules, w: World, s: Step)
    requires RowsOk(u, w) && WorkersOk(w) && Enabled(u, w, s)
    requires !Forward(s) && !Writing(s) && !s.Claim? && !s.Probe? && !s.Place?
    ensures WorkersOk(Apply(u, w, s))
  {
    hide Target, DiskKey, PlaceAt, Decide, Rendered.Path, ConvOk, Replaced, Requeued;
    var v := Apply(u, w, s);
    forall a | a in v.workers
      ensures HoldOk(v, a)
    {
      assert HoldOk(w, a);
    }
  }

  lemma StepKeepsWorkers(u: Rules, w: World, s: Step)
    requires Sound(u, w) && Enabled(u, w, s)
    ensures WorkersOk(Apply(u, w, s))
  {
    hide Enabled, Apply, Filed, BytesHeld, RowsOk, WorkersOk;
    if Forward(s) {
      ForwardKeepsWorkers(u, w, s);
    } else if Writing(s) {
      WritingKeepsWorkers(u, w, s);
    } else if s.Claim? {
      ClaimKeepsWorkers(u, w, s.worker, s.path);
    } else if s.Probe? {
      ProbeKeepsWorkers(u, w, s.worker);
    } else if s.Place? {
      PlaceKeepsWorkers(u, w, s.incoming, s.tmpl);
    } else {
      OtherStepsKeepWorkers(u, w, s);
    }
  }

  // ---- every run ----

  lemma InitSound(u: Rules, disk: map<Key, Bytes>)
    ensures Sound(u, Init(disk))
  {
  }

  lemma StepKeepsSound(u: Rules, w: World, s: Step)
    requires Sound(u, w) && Enabled(u, w, s) && PlacedApart(w) && PlacedApart(Apply(u, w, s))
    ensures Sound(u, Apply(u, w, s))
  {
    hide Enabled, Apply, Filed, BytesHeld, RowsOk, WorkersOk, PlacedApart;
    StepKeepsFiled(u, w, s);
    StepKeepsBytes(u, w, s);
    StepKeepsRows(u, w, s);
    StepKeepsWorkers(u, w, s);
  }

  /** At every point of the run no place was disputed. */
  predicate ApartThroughout(u: Rules, w: World, steps: seq<Step>)
    requires Runs(u, w, steps)
    decreases |steps|
  {
    PlacedApart(Exec(u, w, steps)) && (steps == [] || ApartThroughout(u, w, steps[..|steps| - 1]))
  }

  lemma ApartInTheEnd(u: Rules, w: World, steps: seq<Step>)
    requires Runs(u, w, steps) && ApartThroughout(u, w, steps)
    ensures PlacedApart(Exec(u, w, steps))
  {
    hide Runs, Exec, PlacedApart;
  }

  /** Any run, however it interleaves and wherever it crashes, in which no commit's place was disputed. */
  lemma {:induction false} SoundInEveryRun(u: Rules, disk: map<Key, Bytes>, steps: seq<Step>)
    requires Runs(u, Init(disk), steps) && ApartThroughout(u, Init(disk), steps)
    ensures Sound(u, Exec(u, Init(disk), steps))
  {
    hide Enabled, Apply, Sound, PlacedApart;
    if steps == [] {
      InitSound(u, disk);
    } else {
      var before, s := steps[..|steps| - 1], steps[|steps| - 1];
      SoundInEveryRun(u, disk, before);
      ApartInTheEnd(u, Init(disk), before);
      StepKeepsSound(u, Exec(u, Init(disk), before), s);
    }
  }

  // ---- where looking at the end is enough ----

  /** Only rows whose bytes were moved in are queued for conversion. */
  lemma {:induction false} QueuedArePlaced(u: Rules, disk: map<Key, Bytes>, steps: seq<Step>)
    requires Runs(u, Init(disk), steps)
    ensures Exec(u, Init(disk), steps).convs.Keys <= Exec(u, Init(disk), steps).placed.Keys
  {
    hide Enabled, Apply;
    if steps != [] {
      QueuedArePlaced(u, disk, steps[..|steps| - 1]);
      StepKeepsQueuedPlaced(u, Exec(u, Init(disk), steps[..|steps| - 1]), steps[|steps| - 1]);
    }
  }

  lemma StepKeepsQueuedPlaced(u: Rules, w: World, s: Step)
    requires w.convs.Keys <= w.placed.Keys && Enabled(u, w, s)
    ensures Apply(u, w, s).convs.Keys <= Apply(u, w, s).placed.Keys
  {
    hide Apply, ToDo, DiskKey, Target, PlaceAt, SlotOf;
    ConvsNext(u, w, s);
    PlacedNext(u, w, s);
  }

  /** A conversion is for one purpose as long as its row is there, which is for good. */
  lemma ConversionsStay(u: Rules, w: World, s: Step)
    requires w.convs.Keys <= w.placed.Keys && Enabled(u, w, s)
    ensures forall p | p in w.convs :: p in Apply(u, w, s).convs && Apply(u, w, s).convs[p].action == w.convs[p].action
  {
    hide Apply, ToDo, DiskKey, Target, PlaceAt, SlotOf;
    ConvsNext(u, w, s);
  }

  lemma KindsStay(u: Rules, w: World, s: Step, p: string)
    requires Enabled(u, w, s) && p in w.files && !(s.Unplace? && s.rowGone)
    ensures p in Apply(u, w, s).files && Apply(u, w, s).files[p].kind == w.files[p].kind
  {
    hide Enabled, Apply;
    RowsStay(u, w, s, p);
    var v := Apply(u, w, s);
    assert v.files[p].(removed := false, attested := false).kind ==
        w.files[p].(removed := false, attested := false).kind;
  }

  lemma ApartBefore(u: Rules, w: World, s: Step)
    requires w.convs.Keys <= w.placed.Keys && Enabled(u, w, s) && PlacedApart(Apply(u, w, s))
    requires !(s.Unplace? && s.rowGone)
    ensures PlacedApart(w)
  {
    hide Enabled, Apply, ExtOf, Rendered.Path, DiskKey;
    ConversionsStay(u, w, s);
    forall p | p in w.files
      ensures p in Apply(u, w, s).files && Apply(u, w, s).files[p].kind == w.files[p].kind
    {
      KindsStay(u, w, s, p);
    }
  }

  /** Where no row was taken back, rows that end up apart were apart all along. */
  lemma {:induction false} ApartAllAlong(u: Rules, disk: map<Key, Bytes>, steps: seq<Step>)
    requires Runs(u, Init(disk), steps) && PlacedApart(Exec(u, Init(disk), steps))
    requires forall s | s in steps :: !(s.Unplace? && s.rowGone)
    ensures ApartThroughout(u, Init(disk), steps)
  {
    hide Enabled, Apply, PlacedApart;
    if steps != [] {
      var before, s := steps[..|steps| - 1], steps[|steps| - 1];
      assert s in steps && forall t | t in before :: t in steps;
      QueuedArePlaced(u, disk, before);
      ApartBefore(u, Exec(u, Init(disk), before), s);
      ApartAllAlong(u, disk, before);
    }
  }
}
