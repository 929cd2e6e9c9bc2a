/**
  Exactly where custody ends: which steps keep it and which do not, without any assumption about the
  commits, and a run that the code allows in which a committed file is lost.
*/
module Limits {
  import opened Texts
  import opened Naming
  import opened OutputPolicy
  import opened Hashing
  import opened Ledger
  import opened Allocator
  import opened ReceiverRuns
  import opened Guarantees

  /**
    What a step must not do to the rows that count: sweep one away, delete one under another
    spelling of its path, move other bytes over one, or take back the mark of a file that is gone.
  */
  ghost predicate Harmless(w: World, s: Step)
  {
    match s
    case MoveIn(path, bytes) => forall p | Live(w, p) && DiskKey(p) == DiskKey(path) :: w.placed[p] == bytes
    case Unplace(path, rowGone, fileGone) => fileGone ==> forall p | Live(w, p) :: DiskKey(p) != DiskKey(path)
    case Remove(a) => a in w.workers ==> forall p | Live(w, p) :: DiskKey(p) != DiskKey(w.workers[a].path)
    case Undo(a) => a in w.workers && w.workers[a].path in w.files && w.workers[a].path in w.placed ==>
      HasBytes(w, w.workers[a].path)
    case Sweep(victims) => forall p | Live(w, p) :: DiskKey(p) !in victims
    case _ => true
  }

  /** Steps that leave the bytes of every live row where they are, and make no row live. */
  lemma QuietStepsKeepCustody(u: Rules, w: World, s: Step)
    requires Custody(w) && Enabled(u, w, s)
    requires !s.Place? && !s.MoveIn? && !s.Unplace? && !s.Remove? && !s.Undo? && !s.Sweep? && !s.Produce?
    ensures Custody(Apply(u, w, s)) && Apply(u, w, s).placed == w.placed && Apply(u, w, s).files.Keys == w.files.Keys
  {
    hide DiskKey, DigestOf, PlaceAt, Target, SlotFrom, ToDo;
    var v := Apply(u, w, s);
    forall p | Live(v, p)
      ensures HasBytes(v, p)
    {
      assert Live(w, p) && HasBytes(w, p);
    }
  }

  lemma PlaceKeepsCustody(u: Rules, w: World, inc: Incoming, tmpl: string)
    requires Custody(w) && w.placed.Keys <= w.files.Keys && Enabled(u, w, Place(inc, tmpl))
    ensures Custody(Apply(u, w, Place(inc, tmpl))) && w.placed.Keys <= Apply(u, w, Place(inc, tmpl)).files.Keys
  {
    hide DiskKey, DigestOf, PlaceAt, Rendered.Path;
    var v, n := Apply(u, w, Place(inc, tmpl)), PlaceAt(u, w, inc, tmpl).name;
    PlacedIsFree(u, w, inc, tmpl);
    forall p | Live(v, p)
      ensures HasBytes(v, p)
    {
      assert Live(w, p) && HasBytes(w, p);
    }
  }

  lemma ProduceKeepsCustody(u: Rules, w: World, a: nat, copy: Bytes)
    requires Custody(w) && Enabled(u, w, Produce(a, copy))
    ensures Custody(Apply(u, w, Produce(a, copy)))
  {
    hide DiskKey, DigestOf, Target, SlotFrom, SlotOf;
    ProducedSlotIsFree(u, w, a, copy);
    var v := Apply(u, w, Produce(a, copy));
    forall p | Live(v, p)
      ensures HasBytes(v, p)
    {
      assert Live(w, p) && HasBytes(w, p);
    }
  }

  lemma MoveInExactly(u: Rules, w: World, path: string, bytes: Bytes)
    requires Custody(w) && Enabled(u, w, MoveIn(path, bytes))
    ensures Custody(Apply(u, w, MoveIn(path, bytes))) <==> Harmless(w, MoveIn(path, bytes))
  {
    hide DiskKey, DigestOf;
    var v := Apply(u, w, MoveIn(path, bytes));
    if Harmless(w, MoveIn(path, bytes)) {
      forall p | Live(v, p)
        ensures HasBytes(v, p)
      {
        assert p != path ==> Live(w, p) && HasBytes(w, p);
      }
    } else {
      var p :| Live(w, p) && DiskKey(p) == DiskKey(path) && w.placed[p] != bytes;
      assert Live(v, p) && !HasBytes(v, p);
    }
  }

  lemma UnplaceExactly(u: Rules, w: World, path: string, rowGone: bool, fileGone: bool)
    requires Custody(w) && Enabled(u, w, Unplace(path, rowGone, fileGone))
    ensures Custody(Apply(u, w, Unplace(path, rowGone, fileGone))) <==> Harmless(w, Unplace(path, rowGone, fileGone))
  {
    hide DiskKey, DigestOf;
    var v := Apply(u, w, Unplace(path, rowGone, fileGone));
    if Harmless(w, Unplace(path, rowGone, fileGone)) {
      forall p | Live(v, p)
        ensures HasBytes(v, p)
      {
        assert Live(w, p) && HasBytes(w, p);
      }
    } else {
      var p :| Live(w, p) && DiskKey(p) == DiskKey(path);
      assert Live(v, p) && !HasBytes(v, p);
    }
  }

  lemma UndoExactly(u: Rules, w: World, a: nat)
    requires Custody(w) && Enabled(u, w, Undo(a))
    ensures Custody(Apply(u, w, Undo(a))) <==> Harmless(w, Undo(a))
  {
    hide DiskKey, DigestOf;
    var v, path := Apply(u, w, Undo(a)), w.workers[a].path;
    if Harmless(w, Undo(a)) {
      forall p | Live(v, p)
        ensures HasBytes(v, p)
      {
        assert p != path ==> Live(w, p) && HasBytes(w, p);
      }
    } else {
      assert Live(v, path) && !HasBytes(v, path);
    }
  }

  lemma SweepExactly(u: Rules, w: World, victims: set<Key>)
    requires Custody(w) && Enabled(u, w, Sweep(victims))
    ensures Custody(Apply(u, w, Sweep(victims))) <==> Harmless(w, Sweep(victims))
  {
    hide DiskKey, DigestOf;
    var v := Apply(u, w, Sweep(victims));
    if Harmless(w, Sweep(victims)) {
      forall p | Live(v, p)
        ensures HasBytes(v, p)
      {
        assert Live(w, p) && HasBytes(w, p);
      }
    } else {
      var p :| Live(w, p) && DiskKey(p) in victims;
      assert Live(v, p) && !HasBytes(v, p);
    }
  }

  lemma RemoveExactly(u: Rules, w: World, a: nat)
    requires Custody(w) && Enabled(u, w, Remove(a))
    ensures Custody(Apply(u, w, Remove(a))) <==> Harmless(w, Remove(a))
  {
    hide Enabled, Apply, DiskKey, DigestOf, HasBytes;
    RemoveKeepsCustodyExactly(u, w, a);
    MarkedIsWorking(u, w, a);
  }

  lemma MarkedIsWorking(u: Rules, w: World, a: nat)
    requires Enabled(u, w, Remove(a))
    ensures a in w.workers
  {
  }

  /** Whatever the commits were like: a step keeps custody exactly when it is harmless. */
  lemma CustodyKeptExactly(u: Rules, w: World, s: Step)
    requires Custody(w) && w.placed.Keys <= w.files.Keys && Enabled(u, w, s)
    ensures Custody(Apply(u, w, s)) <==> Harmless(w, s)
    ensures Apply(u, w, s).placed.Keys <= Apply(u, w, s).files.Keys
  {
    hide Enabled, Apply, Custody, HasBytes, Live;
    if s.Place? || s.MoveIn? || s.Unplace? || s.Remove? || s.Undo? || s.Sweep? || s.Produce? {
      PlacedAreRows(u, w, s);
    }
    match s
    case Place(inc, tmpl) => PlaceKeepsCustody(u, w, inc, tmpl);
    case MoveIn(path, bytes) => MoveInExactly(u, w, path, bytes);
    case Unplace(path, rowGone, fileGone) => UnplaceExactly(u, w, path, rowGone, fileGone);
    case Remove(a) => RemoveExactly(u, w, a);
    case Undo(a) => UndoExactly(u, w, a);
    case Sweep(victims) => SweepExactly(u, w, victims);
    case Produce(a, copy) => ProduceKeepsCustody(u, w, a, copy);
    case _ => QuietStepsKeepCustody(u, w, s);
  }

  lemma PlacedAreRows(u: Rules, w: World, s: Step)
    requires w.placed.Keys <= w.files.Keys && Enabled(u, w, s)
    ensures Apply(u, w, s).placed.Keys <= Apply(u, w, s).files.Keys
  {
    if s.Place? || s.Unplace? {
      hide DiskKey, PlaceAt, Rendered.Path;
    } else {
      hide Apply, DiskKey, PlaceAt, ToDo, SlotOf;
      OtherStepsKeepNames(u, w, s);
      PlacedNext(u, w, s);
    }
  }

  ghost predicate CustodyThroughout(u: Rules, w: World, steps: seq<Step>)
    requires Runs(u, w, steps)
    decreases |steps|
  {
    Custody(Exec(u, w, steps)) && (steps == [] || CustodyThroughout(u, w, steps[..|steps| - 1]))
  }

  ghost predicate HarmlessThroughout(u: Rules, w: World, steps: seq<Step>)
    requires Runs(u, w, steps)
  {
    steps == [] ||
    (HarmlessThroughout(u, w, steps[..|steps| - 1]) && Harmless(Exec(u, w, steps[..|steps| - 1]), steps[|steps| - 1]))
  }

  /**
    Every run from a fresh ledger, crashes, sweeps and all: custody holds at every point of it if
    and only if each of its steps was harmless when it was taken.
  */
  lemma {:induction false} CustodyExactlyThroughout(u: Rules, disk: map<Key, Bytes>, steps: seq<Step>)
    requires Runs(u, Init(disk), steps)
    ensures CustodyThroughout(u, Init(disk), steps) <==> HarmlessThroughout(u, Init(disk), steps)
    ensures Exec(u, Init(disk), steps).placed.Keys <= Exec(u, Init(disk), steps).files.Keys
  {
    hide Enabled, Apply, Custody, Harmless;
    if steps == [] {
      FreshHasCustody(disk);
    } else {
      var before, s := steps[..|steps| - 1], steps[|steps| - 1];
      CustodyExactlyThroughout(u, disk, before);
      var w := Exec(u, Init(disk), before);
      PlacedAreRows(u, w, s);
      if CustodyThroughout(u, Init(disk), before) {
        CustodyOfAll(u, Init(disk), before);
        CustodyKeptExactly(u, w, s);
      }
    }
  }

  lemma CustodyOfAll(u: Rules, w: World, steps: seq<Step>)
    requires Runs(u, w, steps) && CustodyThroughout(u, w, steps)
    ensures Custody(Exec(u, w, steps))
  {
    hide Custody, Runs, Exec;
  }

  lemma FreshHasCustody(disk: map<Key, Bytes>)
    ensures Custody(Init(disk))
  {
  }

  // ---- the same, in terms anybody can check ----

  /** A row whose bytes the receiver has: they were moved in and no worker deleted them. */
  predicate Owed(w: World, p: string) { p in w.placed && p !in w.gone }

  /** Every row owed has its bytes, marked or not, and every row whose original is gone says so. */
  ghost predicate Kept(w: World) {
    && (forall p | Owed(w, p) :: HasBytes(w, p))
    && (forall p | p in w.gone :: p in w.files && w.files[p].removed)
  }

  lemma KeptIsCustody(w: World)
    requires Kept(w)
    ensures Custody(w)
  {
    hide HasBytes;
    assert forall p | Live(w, p) :: Owed(w, p);
  }

  /**
    What a step has to respect, told from places on disk and from what was deleted before: no other
    row that is owed may be moved over, deleted, taken back or swept under any spelling of its path, and a
    mark may be taken back only from a file that was never deleted.
  */
  ghost predicate Gentle(w: World, s: Step) {
    match s
    case MoveIn(path, bytes) => forall p | Owed(w, p) && DiskKey(p) == DiskKey(path) :: w.placed[p] == bytes
    case Unplace(path, rowGone, fileGone) => fileGone ==> forall p | Owed(w, p) :: DiskKey(p) != DiskKey(path)
    case Remove(a) => a in w.workers ==>
      forall p | Owed(w, p) && p != w.workers[a].path :: DiskKey(p) != DiskKey(w.workers[a].path)
    case Undo(a) => a in w.workers ==> w.workers[a].path !in w.gone
    case Sweep(victims) => forall p | Owed(w, p) :: DiskKey(p) !in victims
    case _ => true
  }

  /** The history is of rows, and a worker past the mark has a marked row. */
  predicate Books(w: World) {
    && w.placed.Keys <= w.files.Keys && w.convs.Keys <= w.placed.Keys && w.gone <= w.placed.Keys
    && (forall a | a in w.workers && (w.workers[a].phase.Marked? || w.workers[a].phase.Undoing?) ::
          w.workers[a].path in w.files && w.files[w.workers[a].path].removed)
  }

  lemma PlaceKeepsBooks(u: Rules, w: World, inc: Incoming, tmpl: string)
    requires Books(w) && Enabled(u, w, Place(inc, tmpl))
    ensures Books(Apply(u, w, Place(inc, tmpl)))
    ensures Kept(w) ==> Kept(Apply(u, w, Place(inc, tmpl)))
  {
    hide DiskKey, DigestOf, PlaceAt, Rendered.Path;
    PlacedIsFree(u, w, inc, tmpl);
    var v := Apply(u, w, Place(inc, tmpl));
    if Kept(w) {
      forall p | Owed(v, p)
        ensures HasBytes(v, p)
      {
        assert Owed(w, p) && HasBytes(w, p);
      }
    }
  }

  lemma ForwardKeepsBooks(u: Rules, w: World, s: Step)
    requires Books(w) && Enabled(u, w, s) && Moves(s)
    ensures Books(Apply(u, w, s))
  {
    hide DiskKey, Target, PlaceAt, SlotFrom, SlotOf, ToDo;
  }

  lemma OtherStepsKeepBooks(u: Rules, w: World, s: Step)
    requires Books(w) && Exclusive(w) && Enabled(u, w, s) && !s.Place? && !Moves(s)
    ensures Books(Apply(u, w, s))
  {
    hide DiskKey, DigestOf, Target, PlaceAt, SlotFrom, SlotOf, ToDo;
  }

  /** Steps that move, delete and unmark nothing. */
  lemma QuietStepsKeep(u: Rules, w: World, s: Step)
    requires Books(w) && Kept(w) && Enabled(u, w, s)
    requires !s.Place? && !s.MoveIn? && !s.Unplace? && !s.Remove? && !s.Undo? && !s.Sweep? && !s.Produce?
    ensures Kept(Apply(u, w, s))
  {
    hide DiskKey, DigestOf, PlaceAt, Target, SlotFrom, ToDo;
    var v := Apply(u, w, s);
    forall p | Owed(v, p)
      ensures HasBytes(v, p)
    {
      assert Owed(w, p) && HasBytes(w, p);
    }
  }

  lemma ProduceKeeps(u: Rules, w: World, a: nat, copy: Bytes)
    requires Kept(w) && Enabled(u, w, Produce(a, copy))
    ensures Kept(Apply(u, w, Produce(a, copy)))
  {
    hide DiskKey, DigestOf, Target, SlotFrom, SlotOf;
    ProducedSlotIsFree(u, w, a, copy);
    var v := Apply(u, w, Produce(a, copy));
    forall p | Owed(v, p)
      ensures HasBytes(v, p)
    {
      assert Owed(w, p) && HasBytes(w, p);
    }
  }

  lemma MoveInKeepsExactly(u: Rules, w: World, path: string, bytes: Bytes)
    requires Books(w) && Kept(w) && Enabled(u, w, MoveIn(path, bytes))
    ensures Kept(Apply(u, w, MoveIn(path, bytes))) <==> Gentle(w, MoveIn(path, bytes))
  {
    hide DiskKey, DigestOf;
    var v := Apply(u, w, MoveIn(path, bytes));
    if Gentle(w, MoveIn(path, bytes)) {
      forall p | Owed(v, p)
        ensures HasBytes(v, p)
      {
        assert p != path ==> Owed(w, p) && HasBytes(w, p);
      }
    } else {
      var p :| Owed(w, p) && DiskKey(p) == DiskKey(path) && w.placed[p] != bytes;
      assert Owed(v, p) && !HasBytes(v, p);
    }
  }

  lemma RemoveKeepsExactly(u: Rules, w: World, a: nat)
    requires Books(w) && Kept(w) && Enabled(u, w, Remove(a))
    ensures Kept(Apply(u, w, Remove(a))) <==> Gentle(w, Remove(a))
  {
    hide DiskKey, DigestOf;
    var v, path := Apply(u, w, Remove(a)), w.workers[a].path;
    if Gentle(w, Remove(a)) {
      forall p | Owed(v, p)
        ensures HasBytes(v, p)
      {
        assert Owed(w, p) && HasBytes(w, p);
      }
    } else {
      var p :| Owed(w, p) && p != path && DiskKey(p) == DiskKey(path);
      assert Owed(v, p) && !HasBytes(v, p);
    }
  }

  lemma UnplaceKeepsExactly(u: Rules, w: World, path: string, rowGone: bool, fileGone: bool)
    requires Books(w) && Kept(w) && Enabled(u, w, Unplace(path, rowGone, fileGone))
    ensures Kept(Apply(u, w, Unplace(path, rowGone, fileGone))) <==> Gentle(w, Unplace(path, rowGone, fileGone))
  {
    hide DiskKey, DigestOf;
    var v := Apply(u, w, Unplace(path, rowGone, fileGone));
    if Gentle(w, Unplace(path, rowGone, fileGone)) {
      forall p | Owed(v, p)
        ensures HasBytes(v, p)
      {
        assert Owed(w, p) && HasBytes(w, p);
      }
    } else {
      var p :| Owed(w, p) && DiskKey(p) == DiskKey(path);
      assert Owed(v, p) && !HasBytes(v, p);
    }
  }

  lemma UndoKeepsExactly(u: Rules, w: World, a: nat)
    requires Books(w) && Kept(w) && Enabled(u, w, Undo(a))
    ensures Kept(Apply(u, w, Undo(a))) <==> Gentle(w, Undo(a))
  {
    hide DiskKey, DigestOf;
    var v := Apply(u, w, Undo(a));
    if Gentle(w, Undo(a)) {
      forall p | Owed(v, p)
        ensures HasBytes(v, p)
      {
        assert Owed(w, p) && HasBytes(w, p);
      }
    } else {
      assert w.workers[a].path in v.gone && !v.files[w.workers[a].path].removed;
    }
  }

  lemma SweepKeepsExactly(u: Rules, w: World, victims: set<Key>)
    requires Books(w) && Kept(w) && Enabled(u, w, Sweep(victims))
    ensures Kept(Apply(u, w, Sweep(victims))) <==> Gentle(w, Sweep(victims))
  {
    hide DiskKey, DigestOf;
    var v := Apply(u, w, Sweep(victims));
    if Gentle(w, Sweep(victims)) {
      forall p | Owed(v, p)
        ensures HasBytes(v, p)
      {
        assert Owed(w, p) && HasBytes(w, p);
      }
    } else {
      var p :| Owed(w, p) && DiskKey(p) in victims;
      assert Owed(v, p) && !HasBytes(v, p);
    }
  }

  lemma KeptExactly(u: Rules, w: World, s: Step)
    requires Books(w) && Kept(w) && Enabled(u, w, s)
    ensures Kept(Apply(u, w, s)) <==> Gentle(w, s)
  {
    hide Enabled, Apply, Kept, HasBytes, Owed, Books;
    match s
    case Place(inc, tmpl) => PlaceKeepsBooks(u, w, inc, tmpl);
    case MoveIn(path, bytes) => MoveInKeepsExactly(u, w, path, bytes);
    case Unplace(path, rowGone, fileGone) => UnplaceKeepsExactly(u, w, path, rowGone, fileGone);
    case Remove(a) => RemoveKeepsExactly(u, w, a);
    case Undo(a) => UndoKeepsExactly(u, w, a);
    case Sweep(victims) => SweepKeepsExactly(u, w, victims);
    case Produce(a, copy) => ProduceKeeps(u, w, a, copy);
    case _ => QuietStepsKeep(u, w, s);
  }

  ghost predicate KeptThroughout(u: Rules, w: World, steps: seq<Step>)
    requires Runs(u, w, steps)
    decreases |steps|
  {
    Kept(Exec(u, w, steps)) && (steps == [] || KeptThroughout(u, w, steps[..|steps| - 1]))
  }

  ghost predicate GentleThroughout(u: Rules, w: World, steps: seq<Step>)
    requires Runs(u, w, steps)
  {
    steps == [] ||
    (GentleThroughout(u, w, steps[..|steps| - 1]) && Gentle(Exec(u, w, steps[..|steps| - 1]), steps[|steps| - 1]))
  }

  lemma {:induction false} BooksInEveryRun(u: Rules, disk: map<Key, Bytes>, steps: seq<Step>)
    requires Runs(u, Init(disk), steps)
    ensures Books(Exec(u, Init(disk), steps))
  {
    hide Enabled, Apply, Books, Exclusive, Moves;
    if steps == [] {
      NoBooksYet(disk);
    } else {
      var before, s := steps[..|steps| - 1], steps[|steps| - 1];
      BooksInEveryRun(u, disk, before);
      ExclusiveInEveryRun(u, disk, before);
      if s.Place? {
        PlaceKeepsBooks(u, Exec(u, Init(disk), before), s.incoming, s.tmpl);
      } else if Moves(s) {
        ForwardKeepsBooks(u, Exec(u, Init(disk), before), s);
      } else {
        OtherStepsKeepBooks(u, Exec(u, Init(disk), before), s);
      }
    }
  }

  lemma NoBooksYet(disk: map<Key, Bytes>)
    ensures Books(Init(disk)) && Kept(Init(disk))
  {
  }

  /**
    Every run from a fresh ledger, whatever its commits: at every point of it each row that is owed
    has its bytes and each deleted one says so, if and only if every step was gentle when it was
    taken. And then there is custody at every point.
  */
  lemma {:induction false} KeptExactlyThroughout(u: Rules, disk: map<Key, Bytes>, steps: seq<Step>)
    requires Runs(u, Init(disk), steps)
    ensures KeptThroughout(u, Init(disk), steps) <==> GentleThroughout(u, Init(disk), steps)
    ensures GentleThroughout(u, Init(disk), steps) ==> CustodyThroughout(u, Init(disk), steps)
  {
    hide Enabled, Apply, Kept, Gentle, Books, Custody;
    if steps == [] {
      NoBooksYet(disk);
      FreshHasCustody(disk);
    } else {
      var before := steps[..|steps| - 1];
      KeptExactlyThroughout(u, disk, before);
      BooksInEveryRun(u, disk, before);
      if KeptThroughout(u, Init(disk), before) {
        KeptOfAll(u, Init(disk), before);
        KeptExactly(u, Exec(u, Init(disk), before), steps[|steps| - 1]);
        if Kept(Exec(u, Init(disk), steps)) {
          KeptIsCustody(Exec(u, Init(disk), steps));
        }
      }
    }
  }

  lemma KeptOfAll(u: Rules, w: World, steps: seq<Step>)
    requires Runs(u, w, steps) && KeptThroughout(u, w, steps)
    ensures Kept(Exec(u, w, steps))
  {
    hide Kept, Runs, Exec;
  }

  // ---- what is never even marked ----

  /** A mark, and a worker that may set one, has a replacing conversion of that very row behind it. */
  predicate MarksOk(u: Rules, w: World) {
    && w.placed.Keys <= w.files.Keys && w.convs.Keys <= w.placed.Keys
    && (forall p | p in w.convs :: ConvOk(u, w.files[p], p, w.convs[p]))
    && (forall p | p in w.files && w.files[p].removed :: p in w.convs && Replaced(w.convs[p], p))
    && (forall a | a in w.workers :: MayMark(w, w.workers[a]))
  }

  predicate MayMark(w: World, k: Worker) {
    && k.path in w.convs
    && (PastCopy(k.phase) ==> Target(w.convs[k.path].family, k.path).Some?)
    && (k.phase.Marked? || k.phase.Undoing? ==> w.convs[k.path].action == Replace)
  }

  lemma PlaceKeepsMarks(u: Rules, w: World, inc: Incoming, tmpl: string)
    requires Filed(w) && MarksOk(u, w) && Enabled(u, w, Place(inc, tmpl))
    ensures MarksOk(u, Apply(u, w, Place(inc, tmpl)))
  {
    hide DiskKey, ConvOk, Replaced, MayMark, PlaceAt, Rendered.Path, Filed;
    PlacedNameIsFree(u, w, inc, tmpl);
    var v := Apply(u, w, Place(inc, tmpl));
    forall a | a in v.workers
      ensures MayMark(v, v.workers[a])
    {
      SameConvsMayMark(w, v, w.workers[a]);
    }
  }

  lemma SameConvsMayMark(w: World, v: World, k: Worker)
    requires v.convs == w.convs && MayMark(w, k)
    ensures MayMark(v, k)
  {
    hide Target;
  }

  lemma EnqueueKeepsMarks(u: Rules, w: World, path: string, policy: Policy)
    requires MarksOk(u, w) && Enabled(u, w, Enqueue(path, policy))
    ensures MarksOk(u, Apply(u, w, Enqueue(path, policy)))
  {
    hide Classify, Target, ActionFor;
  }

  lemma UnplaceKeepsMarks(u: Rules, w: World, path: string, rowGone: bool, fileGone: bool)
    requires MarksOk(u, w) && Enabled(u, w, Unplace(path, rowGone, fileGone))
    ensures MarksOk(u, Apply(u, w, Unplace(path, rowGone, fileGone)))
  {
    hide DiskKey, Classify, Target, ConvOk, Replaced, ExtOf;
    var v := Apply(u, w, Unplace(path, rowGone, fileGone));
    assert forall a | a in w.workers :: MayMark(w, w.workers[a]);
  }

  /** Neither table gains or loses a row, and a conversion keeps what it is for. */
  predicate SameWork(w: World, v: World) {
    && v.convs.Keys == w.convs.Keys && v.files.Keys == w.files.Keys && w.placed.Keys <= v.placed.Keys <= v.files.Keys
    && (forall p | p in w.convs :: v.convs[p].(state := Pending) == w.convs[p].(state := Pending))
    && (forall p | p in w.files ::
       v.files[p].(removed := false, attested := false) == w.files[p].(removed := false, attested := false))
  }

  lemma OtherStepsKeepWork(u: Rules, w: World, s: Step)
    requires w.placed.Keys <= w.files.Keys && w.convs.Keys <= w.placed.Keys && Enabled(u, w, s) && !s.Place?
    requires !s.Unplace? && !s.Enqueue?
    ensures SameWork(w, Apply(u, w, s))
  {
    hide Apply, Enabled;
    OtherStepsKeepNames(u, w, s);
    ConvsKeepWork(u, w, s);
    PlacedNext(u, w, s);
    PlacedAreRows(u, w, s);
  }

  lemma ConvsKeepWork(u: Rules, w: World, s: Step)
    requires Enabled(u, w, s) && !s.Enqueue?
    ensures var v := Apply(u, w, s);
      && v.convs.Keys == w.convs.Keys
      && forall p | p in w.convs :: v.convs[p].(state := Pending) == w.convs[p].(state := Pending)
  {
    hide Apply, ToDo, DiskKey, Target, PlaceAt, SlotOf, Requeued;
    ConvsNext(u, w, s);
    RequeuedSame(w.convs);
  }

  lemma OtherStepsMarkRightly(u: Rules, w: World, s: Step)
    requires MarksOk(u, w) && Enabled(u, w, s) && !s.Place? && !s.Unplace? && !s.Enqueue? && !Moves(s)
    ensures var v := Apply(u, w, s);
      forall p | p in v.files && v.files[p].removed :: p in v.convs && Replaced(v.convs[p], p)
  {
    hide DiskKey, DigestOf, Classify, Target, PlaceAt, SlotFrom, SlotOf, ToDo, ConvOk, Claimed, Unplaced;
    assert s.Mark? ==> MayMark(w, w.workers[s.worker]);
  }

  lemma SameFor(w: World, v: World)
    requires SameWork(w, v)
    ensures forall p | p in w.convs :: v.convs[p].family == w.convs[p].family && v.convs[p].action == w.convs[p].action
  {
    assert forall p | p in w.convs :: v.convs[p].(state := Pending).family == w.convs[p].(state := Pending).family;
    assert forall p | p in w.convs :: v.convs[p].(state := Pending).action == w.convs[p].(state := Pending).action;
  }

  /** A worker is no nearer to a mark than it was, or has just started. */
  predicate NoNearer(w: World, a: nat, k: Worker) {
    (a in w.workers && w.workers[a].path == k.path && (PastCopy(k.phase) ==> PastCopy(w.workers[a].phase))
      && (k.phase.Marked? || k.phase.Undoing? ==> w.workers[a].phase.Marked? || w.workers[a].phase.Undoing?))
    || (k.phase == Holding && k.path in w.convs)
  }

  lemma GetsNoNearer(u: Rules, w: World, s: Step, a: nat)
    requires Enabled(u, w, s) && !s.Place? && !s.Unplace? && !s.Enqueue? && !s.Produce? && !s.Mark?
    requires a in Apply(u, w, s).workers
    ensures NoNearer(w, a, Apply(u, w, s).workers[a])
  {
    hide DiskKey, DigestOf, Target, PlaceAt, SlotFrom, SlotOf, ToDo;
  }

  lemma NoNearerMarksRightly(w: World, v: World, a: nat)
    requires SameWork(w, v) && a in v.workers && NoNearer(w, a, v.workers[a])
    requires a in w.workers ==> MayMark(w, w.workers[a])
    ensures MayMark(v, v.workers[a])
  {
    hide Target;
    SameFor(w, v);
  }

  lemma ProduceWorksRightly(u: Rules, w: World, a: nat, copy: Bytes)
    requires MarksOk(u, w) && Enabled(u, w, Produce(a, copy))
    ensures var v := Apply(u, w, Produce(a, copy)); forall b | b in v.workers :: MayMark(v, v.workers[b])
  {
    hide DiskKey, DigestOf, Classify, Target, SlotFrom, ConvOk, Replaced;
    assert forall b | b in w.workers :: MayMark(w, w.workers[b]);
  }

  lemma MarkWorksRightly(u: Rules, w: World, a: nat)
    requires MarksOk(u, w) && Enabled(u, w, Mark(a))
    ensures var v := Apply(u, w, Mark(a)); forall b | b in v.workers :: MayMark(v, v.workers[b])
  {
    hide DiskKey, DigestOf, Classify, Target, SlotFrom, ConvOk, Replaced;
    assert forall b | b in w.workers :: MayMark(w, w.workers[b]);
  }

  lemma OtherStepsWorkRightly(u: Rules, w: World, s: Step)
    requires MarksOk(u, w) && Enabled(u, w, s) && !s.Place? && !s.Unplace? && !s.Enqueue?
    ensures var v := Apply(u, w, s); forall a | a in v.workers :: MayMark(v, v.workers[a])
  {
    hide Enabled, Apply, ConvOk, Replaced, MayMark, NoNearer, SameWork;
    if s.Produce? {
      ProduceWorksRightly(u, w, s.worker, s.copy);
    } else if s.Mark? {
      MarkWorksRightly(u, w, s.worker);
    } else {
      OtherStepsKeepWork(u, w, s);
      var v := Apply(u, w, s);
      forall a | a in v.workers
        ensures MayMark(v, v.workers[a])
      {
        GetsNoNearer(u, w, s, a);
        NoNearerMarksRightly(w, v, a);
      }
    }
  }

  lemma OtherStepsKeepMarks(u: Rules, w: World, s: Step)
    requires MarksOk(u, w) && Enabled(u, w, s) && !s.Place? && !s.Unplace? && !s.Enqueue?
    ensures MarksOk(u, Apply(u, w, s))
  {
    hide Enabled, Apply, ConvOk, Replaced, MayMark;
    OtherStepsKeepWork(u, w, s);
    if Moves(s) {
      MovesFrame(u, w, s);
    } else {
      OtherStepsMarkRightly(u, w, s);
    }
    OtherStepsWorkRightly(u, w, s);
    SameConversions(u, w, Apply(u, w, s));
  }

  lemma SameConversions(u: Rules, w: World, v: World)
    requires w.convs.Keys <= w.files.Keys && SameWork(w, v)
    ensures forall p | p in w.convs :: ConvOk(u, w.files[p], p, w.convs[p]) == ConvOk(u, v.files[p], p, v.convs[p])
  {
    hide Classify;
    assert forall p | p in w.files :: v.files[p].kind == w.files[p].kind && v.files[p].pair == w.files[p].pair;
    assert forall p | p in w.convs :: v.convs[p].family == w.convs[p].family && v.convs[p].action == w.convs[p].action;
  }

  lemma {:induction false} MarksOkInEveryRun(u: Rules, disk: map<Key, Bytes>, steps: seq<Step>)
    requires Runs(u, Init(disk), steps)
    ensures MarksOk(u, Exec(u, Init(disk), steps))
  {
    hide Enabled, Apply, MarksOk, Filed;
    if steps == [] {
      NoMarksYet(u, disk);
    } else {
      var before, s := steps[..|steps| - 1], steps[|steps| - 1];
      MarksOkInEveryRun(u, disk, before);
      FiledInEveryRun(u, disk, before);
      var w := Exec(u, Init(disk), before);
      match s
      case Place(inc, tmpl) => PlaceKeepsMarks(u, w, inc, tmpl);
      case Unplace(path, rowGone, fileGone) => UnplaceKeepsMarks(u, w, path, rowGone, fileGone);
      case Enqueue(path, policy) => EnqueueKeepsMarks(u, w, path, policy);
      case _ => OtherStepsKeepMarks(u, w, s);
    }
  }

  lemma NoMarksYet(u: Rules, disk: map<Key, Bytes>)
    ensures MarksOk(u, Init(disk))
  {
  }

  /**
    In every run at all, whatever commits and settings it has: a pair member, a file sent as kind
    "file" and a raw negative never carries a mark, and no worker is ever about to delete it.
  */
  lemma IrrevocableNeverMarked(u: Rules, disk: map<Key, Bytes>, steps: seq<Step>, p: string, a: nat)
    requires Runs(u, Init(disk), steps)
    requires var w := Exec(u, Init(disk), steps); p in w.files && Irrevocable(u, w.files[p], p)
    ensures var w := Exec(u, Init(disk), steps);
      !w.files[p].removed && !(a in w.workers && w.workers[a].path == p && w.workers[a].phase.Marked?)
  {
    hide Enabled, Apply, Runs, Exec, ExtOf;
    MarksOkInEveryRun(u, disk, steps);
    MarkedIsChosen(u, Exec(u, Init(disk), steps), p, a);
  }

  lemma MarkedIsChosen(u: Rules, w: World, p: string, a: nat)
    requires MarksOk(u, w) && p in w.files && Irrevocable(u, w.files[p], p)
    ensures !w.files[p].removed && !(a in w.workers && w.workers[a].path == p && w.workers[a].phase.Marked?)
  {
    hide ExtOf;
    assert p in w.convs ==> ConvOk(u, w.files[p], p, w.convs[p]) && !Replaced(w.convs[p], p);
    assert a in w.workers ==> MayMark(w, w.workers[a]);
  }
}
