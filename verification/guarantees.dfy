/** What the receiver guarantees in every run, and exactly where the guarantees end. */
module Guarantees {
  import opened Texts
  import opened Naming
  import opened OutputPolicy
  import opened Hashing
  import opened Ledger
  import opened Allocator
  import opened ReceiverRuns

  /** The bytes this row was committed with are on disk at its path. */
  predicate HasBytes(w: World, p: string)
    requires p in w.placed
  {
    DiskKey(p) in w.disk && w.disk[DiskKey(p)] == w.placed[p]
  }

  /** The rows whose commit was finished and whose original is not marked as removed. */
  predicate Live(w: World, p: string) { p in w.files && p in w.placed && !w.files[p].removed }

  ghost predicate Custody(w: World) { forall p | Live(w, p) :: HasBytes(w, p) }

  /** Every run, crashes anywhere: a row that does not say its original was removed still has it. */
  lemma CustodyInEveryRun(u: Rules, disk: map<Key, Bytes>, steps: seq<Step>)
    requires Runs(u, Init(disk), steps) && ApartThroughout(u, Init(disk), steps)
    ensures Custody(Exec(u, Init(disk), steps))
  {
    hide Enabled, Apply, Runs, Exec, DiskKey, DigestOf, ApartThroughout;
    SoundInEveryRun(u, disk, steps);
    var w := Exec(u, Init(disk), steps);
    forall p | Live(w, p)
      ensures HasBytes(w, p)
    {
      assert HeldAt(w, p);
    }
  }

  /** Files no conversion may ever take away: pair members, arbitrary files, raw negatives. */
  predicate Irrevocable(u: Rules, r: Row, p: string) {
    r.pair != "" || r.kind == File || Classify(u.lower, r.kind, p) == Raw
  }

  /** Whatever the settings held at each commit, an irrevocable original is neither marked nor gone. */
  lemma IrrevocableOriginalsStay(u: Rules, disk: map<Key, Bytes>, steps: seq<Step>, p: string)
    requires Runs(u, Init(disk), steps) && ApartThroughout(u, Init(disk), steps)
    requires var w := Exec(u, Init(disk), steps); p in w.placed && p in w.files && Irrevocable(u, w.files[p], p)
    ensures var w := Exec(u, Init(disk), steps); !w.files[p].removed && HasBytes(w, p)
  {
    hide Enabled, Apply, Runs, Exec, DiskKey, DigestOf, ApartThroughout, ExtOf;
    SoundInEveryRun(u, disk, steps);
    var w := Exec(u, Init(disk), steps);
    assert HeldAt(w, p);
    MarkedIsRevocable(u, w, p);
  }

  /** A mark has a replacing conversion behind it, and those are for nothing irrevocable. */
  lemma MarkedIsRevocable(u: Rules, w: World, p: string)
    requires RowsOk(u, w)
    ensures p in w.files && w.files[p].removed ==> !Irrevocable(u, w.files[p], p)
  {
    hide ExtOf;
    if p in w.files && w.files[p].removed {
      assert ConvOk(u, w.files[p], p, w.convs[p]) && Replaced(w.convs[p], p);
    }
  }

  /**
    No step takes or changes a file that is on disk, but for the deletion of a marked original, the
    sweep of partial uploads, the world outside, and the rename that ends a commit or its undoing.
  */
  lemma NothingIsOverwritten(u: Rules, w: World, s: Step, k: Key)
    requires Enabled(u, w, s) && !s.Remove? && !s.Sweep? && !s.Outside? && !s.MoveIn? && !s.Unplace? && k in w.disk
    ensures k in Apply(u, w, s).disk && Apply(u, w, s).disk[k] == w.disk[k]
  {
    hide Enabled, Apply, DiskKey;
    match s
    case Place(inc, tmpl) => PlaceOverwritesNothing(u, w, inc, tmpl, k);
    case Produce(a, copy) => ProduceOverwritesNothing(u, w, a, copy, k);
    case _ => OffDisk(u, w, s);
  }

  lemma PlaceOverwritesNothing(u: Rules, w: World, inc: Incoming, tmpl: string, k: Key)
    requires Enabled(u, w, Place(inc, tmpl)) && k in w.disk
    ensures var v := Apply(u, w, Place(inc, tmpl)); k in v.disk && v.disk[k] == w.disk[k]
  {
    hide DiskKey, DigestOf, PlaceAt;
    PlacedIsFree(u, w, inc, tmpl);
  }

  /** And the rename only ever covers the commit's own empty placeholder, whatever came between. */
  lemma MoveInCoversItsPlaceholder(u: Rules, w: World, path: string, bytes: Bytes, k: Key)
    requires Sound(u, w) && Enabled(u, w, MoveIn(path, bytes)) && k in w.disk
    ensures var v := Apply(u, w, MoveIn(path, bytes));
      k in v.disk && (v.disk[k] == w.disk[k] || (k == DiskKey(path) && w.disk[k] == []))
  {
    hide DiskKey, DigestOf, RowsOk, WorkersOk, Filed;
    assert HeldAt(w, path);
  }

  /** Nor does a commit that could not be finished take back anything else. */
  lemma UnplaceTakesItsPlaceholder(u: Rules, w: World, path: string, rowGone: bool, fileGone: bool, k: Key)
    requires Sound(u, w) && Enabled(u, w, Unplace(path, rowGone, fileGone)) && k in w.disk
    ensures var v := Apply(u, w, Unplace(path, rowGone, fileGone));
      if k in v.disk then v.disk[k] == w.disk[k] else k == DiskKey(path) && w.disk[k] == []
  {
    hide DiskKey, DigestOf, RowsOk, WorkersOk, Filed;
    assert HeldAt(w, path);
  }

  lemma ProduceOverwritesNothing(u: Rules, w: World, a: nat, copy: Bytes, k: Key)
    requires Enabled(u, w, Produce(a, copy)) && k in w.disk
    ensures var v := Apply(u, w, Produce(a, copy)); k in v.disk && v.disk[k] == w.disk[k]
  {
    hide DiskKey, DigestOf, Target, SlotFrom, SlotOf;
    ProducedSlotIsFree(u, w, a, copy);
  }

  lemma ProducedSlotIsFree(u: Rules, w: World, a: nat, copy: Bytes)
    requires Enabled(u, w, Produce(a, copy))
    ensures SlotOf(w, a).value !in w.disk
  {
    hide DiskKey, Target, Slot, SlotFrom;
    var path := w.workers[a].path;
    SlotFound(w.disk, DiskKey(path), Target(w.convs[path].family, path).value, 0);
  }

  // ---- the conversion queue, without any assumption about commits ----

  predicate Exclusive(w: World) {
    && (forall a | a in w.workers :: w.workers[a].path in w.convs && w.convs[w.workers[a].path].state == Running)
    && (forall a, b | a in w.workers && b in w.workers && a != b :: w.workers[a].path != w.workers[b].path)
    && (w.up || w.workers == map[])
  }

  /** Whoever still works holds the row it held, and nobody touched that row's state. */
  lemma ExclusiveKept(w: World, v: World)
    requires Exclusive(w) && v.workers.Keys <= w.workers.Keys && (v.up == w.up || v.workers == map[])
    requires forall a | a in v.workers :: v.workers[a].path == w.workers[a].path
    requires forall a | a in v.workers ::
      w.workers[a].path in v.convs && v.convs[w.workers[a].path] == w.convs[w.workers[a].path]
    ensures Exclusive(v)
  {
  }

  lemma ForwardKeepsExclusive(u: Rules, w: World, s: Step)
    requires Exclusive(w) && Enabled(u, w, s) && Moves(s)
    ensures Exclusive(Apply(u, w, s))
  {
    hide Enabled, Apply;
    MovesFrame(u, w, s);
  }

  lemma WritingKeepsExclusive(u: Rules, w: World, s: Step)
    requires Exclusive(w) && Enabled(u, w, s) && Writing(s)
    ensures Exclusive(Apply(u, w, s))
  {
    hide DiskKey, Target, SlotFrom, SlotOf, PlaceAt, ToDo;
    ExclusiveKept(w, Apply(u, w, s));
  }

  lemma OtherStepKeepsExclusive(u: Rules, w: World, s: Step)
    requires Exclusive(w) && Enabled(u, w, s) && !Moves(s) && !Writing(s)
    ensures Exclusive(Apply(u, w, s))
  {
    hide DiskKey, Target, SlotFrom, PlaceAt, Decide, DigestOf;
    if !s.Claim? {
      ExclusiveKept(w, Apply(u, w, s));
    }
  }

  lemma StepKeepsExclusive(u: Rules, w: World, s: Step)
    requires Exclusive(w) && Enabled(u, w, s)
    ensures Exclusive(Apply(u, w, s))
  {
    hide Enabled, Apply, Exclusive;
    if Moves(s) {
      ForwardKeepsExclusive(u, w, s);
    } else if Writing(s) {
      WritingKeepsExclusive(u, w, s);
    } else {
      OtherStepKeepsExclusive(u, w, s);
    }
  }

  /** No two workers ever hold one row, under any interleaving and any crash. */
  lemma {:induction false} ExclusiveInEveryRun(u: Rules, disk: map<Key, Bytes>, steps: seq<Step>)
    requires Runs(u, Init(disk), steps)
    ensures Exclusive(Exec(u, Init(disk), steps))
  {
    hide Enabled, Apply;
    if steps != [] {
      var before := steps[..|steps| - 1];
      ExclusiveInEveryRun(u, disk, before);
      StepKeepsExclusive(u, Exec(u, Init(disk), before), steps[|steps| - 1]);
    }
  }

  predicate Final(s: ConvState) { s.Done? || s.Skipped? || s.Failed? }

  /** A conversion that reached a final state never leaves it. */
  lemma FinalStatesStay(u: Rules, w: World, s: Step, p: string)
    requires Exclusive(w) && Enabled(u, w, s) && p in w.convs && Final(w.convs[p].state)
    ensures p in Apply(u, w, s).convs && Apply(u, w, s).convs[p] == w.convs[p]
  {
    hide Apply, ToDo, DiskKey, Target, PlaceAt, SlotOf;
    ConvsNext(u, w, s);
  }

  /** At step i this worker put a copy of this row at a name nothing had, and it was not empty. */
  predicate CopiedAt(u: Rules, disk: map<Key, Bytes>, steps: seq<Step>, i: nat, a: nat, path: string)
    requires Runs(u, Init(disk), steps)
  {
    i < |steps| && steps[i].Produce? && steps[i].worker == a && steps[i].copy != [] &&
    Runs(u, Init(disk), steps[..i]) && Runs(u, Init(disk), steps[..i + 1]) &&
    var w, v := Exec(u, Init(disk), steps[..i]), Exec(u, Init(disk), steps[..i + 1]);
    a in w.workers && w.workers[a].path == path &&
    exists slot | slot in v.disk :: slot !in w.disk && v.disk[slot] == steps[i].copy
  }

  predicate PastCopy(phase: Phase) { phase.Copied? || phase.Marked? || phase.Undoing? }

  lemma PastCopyBefore(u: Rules, w: World, s: Step, a: nat)
    requires Enabled(u, w, s)
    requires var v := Apply(u, w, s); a in v.workers && PastCopy(v.workers[a].phase) && !(s.Produce? && s.worker == a)
    ensures a in w.workers && PastCopy(w.workers[a].phase) && w.workers[a].path == Apply(u, w, s).workers[a].path
  {
    hide Apply, DiskKey, Target, SlotOf, PlaceAt, ToDo;
    WorkersNext(u, w, s);
  }

  lemma ProduceCopies(u: Rules, w: World, a: nat, copy: Bytes)
    requires Enabled(u, w, Produce(a, copy))
    ensures var v := Apply(u, w, Produce(a, copy));
      a in w.workers && v.workers.Keys == w.workers.Keys && v.workers[a].path == w.workers[a].path && copy != [] &&
      exists slot | slot in v.disk :: slot !in w.disk && v.disk[slot] == copy
  {
    hide DiskKey, Target, SlotFrom, PlaceAt, Decide, DigestOf;
    ProducedSlotIsFree(u, w, a, copy);
    assert SlotOf(w, a).value in Apply(u, w, Produce(a, copy)).disk;
  }

  /**
    A deletion is only ever attempted after a non-empty copy was put at a name that was free: the
    state a worker must be in to delete is reached through such a step, in every run.
  */
  lemma {:induction false} CopyBeforeDeletion(u: Rules, disk: map<Key, Bytes>, steps: seq<Step>, a: nat)
    requires Runs(u, Init(disk), steps)
    requires var w := Exec(u, Init(disk), steps); a in w.workers && PastCopy(w.workers[a].phase)
    ensures exists i: nat :: CopiedAt(u, disk, steps, i, a, Exec(u, Init(disk), steps).workers[a].path)
  {
    hide Enabled, Apply;
    if steps != [] {
      var n := |steps| - 1;
      var before, s := steps[..n], steps[n];
      var w := Exec(u, Init(disk), before);
      assert steps[..n + 1] == steps;
      if s.Produce? && s.worker == a {
        ProduceCopies(u, w, a, s.copy);
        assert CopiedAt(u, disk, steps, n, a, Exec(u, Init(disk), steps).workers[a].path);
      } else {
        PastCopyBefore(u, w, s, a);
        CopyBeforeDeletion(u, disk, before, a);
        var i: nat :| CopiedAt(u, disk, before, i, a, w.workers[a].path);
        assert before[..i] == steps[..i] && before[..i + 1] == steps[..i + 1];
        assert CopiedAt(u, disk, steps, i, a, w.workers[a].path);
      }
    }
  }

  // ---- where the guarantees end ----

  /**
    The sweep of partial uploads deletes whatever is old in its directory. It keeps custody for
    every choice of old files if and only if no live row lies directly in that directory.
  */
  lemma SweepKeepsCustodyExactly(u: Rules, w: World)
    requires Custody(w)
    ensures (forall victims | Enabled(u, w, Sweep(victims)) :: Custody(Apply(u, w, Sweep(victims))))
      <==> (forall p | Live(w, p) :: !(|DiskKey(p)| == 2 && DiskKey(p)[0] == INCOMING_DIR))
  {
    hide DiskKey, DigestOf;
    if p :| Live(w, p) && |DiskKey(p)| == 2 && DiskKey(p)[0] == INCOMING_DIR {
      var s := Sweep({DiskKey(p)});
      assert Enabled(u, w, s);
      assert Live(Apply(u, w, s), p) && !HasBytes(Apply(u, w, s), p);
    } else {
      forall victims | Enabled(u, w, Sweep(victims))
        ensures Custody(Apply(u, w, Sweep(victims)))
      {
        var v := Apply(u, w, Sweep(victims));
        forall p | Live(v, p)
          ensures HasBytes(v, p)
        {
          assert Live(w, p) && HasBytes(w, p);
        }
      }
    }
  }

  /**
    Deleting a marked original keeps custody if and only if no live row has the same place on disk
    under another spelling of the path.
  */
  lemma RemoveKeepsCustodyExactly(u: Rules, w: World, a: nat)
    requires Custody(w) && Enabled(u, w, Remove(a))
    ensures Custody(Apply(u, w, Remove(a))) <==> forall p | Live(w, p) :: DiskKey(p) != DiskKey(w.workers[a].path)
  {
    hide DiskKey, DigestOf;
    var v, path := Apply(u, w, Remove(a)), w.workers[a].path;
    if p :| Live(w, p) && DiskKey(p) == DiskKey(path) {
      assert Live(v, p) && !HasBytes(v, p);
    } else {
      forall p | Live(v, p)
        ensures HasBytes(v, p)
      {
        assert Live(w, p) && HasBytes(w, p);
      }
    }
  }

  /**
    A commit that finds the same content already in the ledger discards what it was given. What it
    discards is on disk at the row it points to if and only if that row's own commit finished, with
    those bytes, and its original was not deleted; or nothing was discarded, as the placeholder is.
  */
  lemma DeduplicatedBytesExactly(u: Rules, w: World, p: string, bytes: Bytes)
    requires Sound(u, w) && p in w.files && p !in w.stuck
    ensures (DiskKey(p) in w.disk && w.disk[DiskKey(p)] == bytes) <==>
      if p in w.placed then w.placed[p] == bytes && p !in w.gone else bytes == []
  {
    hide DiskKey, Filed, QueueOk;
    assert HeldAt(w, p);
  }
}
