/**
  core/formats/queue.go and convert.go, one row at a time: what a conversion does to the ledger and
  the disk as a whole, the atomic steps it is made of, and how the queue is worked empty.
*/
module Conversions {
  import opened Wrappers
  import opened Texts
  import opened Naming
  import opened OutputPolicy
  import opened Hashing
  import opened Ledger
  import opened Guarantees

  /** What the tools, the file system and the ledger do to one conversion. */
  datatype Fate = Fate(statFails: bool, tool: Tool, markFails: bool, removeFails: bool, undoFails: bool)

  /** A tool that reports success but wrote nothing made the empty copy. */
  datatype Tool = NotNeeded | NoTool | Refuses | Makes(copy: Bytes)

  /** Where the copy of this row's file would land, when its class is one that can be converted. */
  function Landing(w: World, path: string): Option<Key>
    requires path in w.convs
  {
    var ext := Target(w.convs[path].family, path);
    if ext.None? || DiskKey(path) == [] then None else SlotFrom(w.disk, DiskKey(path), ext.value, 0)
  }

  predicate Reached(w: World, path: string, fate: Fate) { !fate.statFails && DiskKey(path) in w.disk }

  predicate Copies(w: World, path: string, fate: Fate)
    requires path in w.convs
  {
    Reached(w, path, fate) && fate.tool.Makes? && fate.tool.copy != [] && Landing(w, path).Some?
  }

  /** The state one conversion ends in. */
  function EndOf(w: World, path: string, fate: Fate): (end: ConvState)
    requires path in w.convs
    ensures Final(end)
  {
    if !Reached(w, path, fate) then Failed
    else if Target(w.convs[path].family, path).None? || fate.tool.NotNeeded? || fate.tool.NoTool? then Skipped
    else if Copies(w, path, fate) then Done
    else Failed
  }

  // ---- a conversion, effect by effect ----

  /** The row is this worker's. */
  function ClaimedBy(w: World, a: nat, path: string): World
    requires path in w.convs
  {
    w.(convs := w.convs[path := w.convs[path].(state := Running)], workers := w.workers[a := Worker(path, Holding)])
  }

  lemma ClaimIsAStep(u: Rules, w: World, a: nat, path: string)
    requires w.up && a !in w.workers && path in w.files && path in w.convs && w.convs[path].state == Pending
    ensures Enabled(u, w, Claim(a, path)) && Apply(u, w, Claim(a, path)) == ClaimedBy(w, a, path)
    ensures AtPhase(ClaimedBy(w, a, path), a, Holding) && ClaimedBy(w, a, path).workers[a].path == path
  {
    hide PlaceAt, DiskKey, DigestOf, Target;
  }

  /** What `removeOriginal` leaves. */
  function Cleared(w: World, path: string, fate: Fate): World
    requires path in w.files
  {
    if fate.markFails then w
    else if fate.removeFails then SetRemoved(w, path, fate.undoFails)
    else SetRemoved(w, path, true).(disk := w.disk - {DiskKey(path)}, gone := w.gone + {path})
  }

  function Finished(w: World, a: nat, path: string, end: ConvState): World
    requires path in w.convs
  {
    w.(convs := w.convs[path := w.convs[path].(state := end)], workers := w.workers - {a})
  }

  /** The whole effect of one conversion. */
  function Converted(w: World, a: nat, path: string, fate: Fate): World
    requires path in w.files && path in w.convs
  {
    if !Copies(w, path, fate) then Finished(w, a, path, EndOf(w, path, fate))
    else
      var v := w.(disk := w.disk[Landing(w, path).value := fate.tool.copy]);
      Finished(if w.convs[path].action == Replace then Cleared(v, path, fate) else v, a, path, Done)
  }

  lemma ClearedOnlyThisRow(w: World, path: string, fate: Fate)
    requires path in w.files
    ensures var v := Cleared(w, path, fate);
      && v.(files := w.files, disk := w.disk, gone := w.gone) == w && v.files.Keys == w.files.Keys
      && (v.gone == w.gone || v.gone == w.gone + {path})
      && (forall p | p in w.files && p != path :: v.files[p] == w.files[p])
      && v.files[path].(removed := false) == w.files[path].(removed := false)
  {
    hide DiskKey;
  }

  lemma CopiesEndDone(w: World, path: string, fate: Fate)
    requires path in w.convs && Copies(w, path, fate)
    ensures EndOf(w, path, fate) == Done
  {
    hide DiskKey, SlotFrom, Target;
  }

  /** Only this row's conversion, file and original are touched, and the file only in its mark. */
  lemma ConvertedOnlyThisRow(w: World, a: nat, path: string, fate: Fate)
    requires path in w.files && path in w.convs
    ensures var v := Converted(w, a, path, fate);
      && v.convs == w.convs[path := w.convs[path].(state := EndOf(w, path, fate))] && v.workers == w.workers - {a}
      && v.files.Keys == w.files.Keys && (v.gone == w.gone || v.gone == w.gone + {path})
      && (forall p | p in w.files && p != path :: v.files[p] == w.files[p])
      && v.files[path].(removed := false) == w.files[path].(removed := false)
      && v.pairs == w.pairs && v.placed == w.placed && v.up == w.up
  {
    hide DiskKey, Landing, Target, Cleared, EndOf;
    if Copies(w, path, fate) {
      CopiesEndDone(w, path, fate);
      ClearedOnlyThisRow(w.(disk := w.disk[Landing(w, path).value := fate.tool.copy]), path, fate);
    }
  }

  /**
    Of an original and its copy at least one is always left, and nobody else's file is touched: the
    original goes only when the row asked for a replacement, the mark and the deletion both went
    through, and a copy that is not empty stands where nothing stood before. The mark outlives a
    deletion that failed only if undoing it failed as well.
  */
  lemma ConversionLosesNothing(w: World, a: nat, path: string, fate: Fate)
    requires path in w.files && path in w.convs && path !in w.gone
    ensures var v := Converted(w, a, path, fate);
      && (forall k | k in w.disk && k != DiskKey(path) :: k in v.disk && v.disk[k] == w.disk[k])
      && (path in v.gone <==>
         Copies(w, path, fate) && w.convs[path].action == Replace && !fate.markFails && !fate.removeFails)
      && (path in v.gone ==> v.files[path].removed && DiskKey(path) !in v.disk)
      && (v.files[path].removed <==>
         if Copies(w, path, fate) && w.convs[path].action == Replace && !fate.markFails
         then !fate.removeFails || fate.undoFails else w.files[path].removed)
      && (path !in v.gone && DiskKey(path) in w.disk ==>
         DiskKey(path) in v.disk && v.disk[DiskKey(path)] == w.disk[DiskKey(path)])
      && (v.convs[path].state == Done <==> Copies(w, path, fate))
      && (Copies(w, path, fate) ==>
         exists slot :: slot !in w.disk && slot in v.disk && v.disk[slot] == fate.tool.copy != [])
  {
    hide DiskKey, Target, SlotFrom, EndOf;
    if Copies(w, path, fate) {
      CopiesEndDone(w, path, fate);
      LandingIsFree(w, path);
      var slot := Landing(w, path).value;
      var v := Converted(w, a, path, fate);
      assert slot !in w.disk && slot != DiskKey(path);
      assert slot in v.disk && v.disk[slot] == fate.tool.copy;
    } else {
      NoCopyNotDone(w, path, fate);
    }
  }

  lemma LandingIsFree(w: World, path: string)
    requires path in w.convs && Landing(w, path).Some?
    ensures Landing(w, path).value !in w.disk
  {
    hide DiskKey, Target, Slot, SlotFrom;
    SlotFound(w.disk, DiskKey(path), Target(w.convs[path].family, path).value, 0);
  }

  lemma NoCopyNotDone(w: World, path: string, fate: Fate)
    requires path in w.convs && !Copies(w, path, fate)
    ensures EndOf(w, path, fate) != Done
  {
    hide DiskKey, SlotFrom, Target;
  }

  function ClearSteps(w: World, a: nat, path: string, fate: Fate): seq<Step>
    requires path in w.convs
  {
    if w.convs[path].action != Replace || fate.markFails then [KeepOriginal(a)]
    else if !fate.removeFails then [Mark(a), Remove(a)]
    else [Mark(a), RemoveFails(a), if fate.undoFails then UndoFails(a) else Undo(a)]
  }

  /** The steps a worker takes for one row, between which anything else may happen. */
  function ConvertSteps(w: World, a: nat, path: string, fate: Fate): seq<Step>
    requires path in w.convs
  {
    var end := EndOf(w, path, fate);
    if !Reached(w, path, fate) then [Refuse(a, end), Settle(a)]
    else if !Copies(w, path, fate) then [Probe(a), Refuse(a, end), Settle(a)]
    else [Probe(a), Produce(a, fate.tool.copy)] + ClearSteps(w, a, path, fate) + [Settle(a)]
  }

  // ---- runs, put together ----

  /** One more step at the end of a run. */
  lemma Extend(u: Rules, w: World, steps: seq<Step>, s: Step)
    requires Runs(u, w, steps) && Enabled(u, Exec(u, w, steps), s)
    ensures Runs(u, w, steps + [s]) && Exec(u, w, steps + [s]) == Apply(u, Exec(u, w, steps), s)
  {
    hide Enabled, Apply;
    assert (steps + [s])[..|steps + [s]| - 1] == steps;
  }

  lemma EmptyRun(u: Rules, w: World)
    ensures Runs(u, w, []) && Exec(u, w, []) == w
  {
  }

  /** Runs follow one another. */
  lemma {:induction false} RunsOn(u: Rules, w: World, steps: seq<Step>, more: seq<Step>)
    requires Runs(u, w, steps) && Runs(u, Exec(u, w, steps), more)
    ensures Runs(u, w, steps + more) && Exec(u, w, steps + more) == Exec(u, Exec(u, w, steps), more)
  {
    hide Enabled, Apply;
    if more == [] {
      assert steps + more == steps;
    } else {
      RunsOn(u, w, steps, more[..|more| - 1]);
      assert (steps + more)[..|steps + more| - 1] == steps + more[..|more| - 1];
    }
  }

  lemma OneStep(u: Rules, w: World, s: Step)
    requires Enabled(u, w, s)
    ensures Runs(u, w, [s]) && Exec(u, w, [s]) == Apply(u, w, s)
  {
    hide Enabled, Apply;
    EmptyRun(u, w);
    Extend(u, w, [], s);
    assert [] + [s] == [s];
  }

  /** One step, then a run. */
  lemma StepThen(u: Rules, w: World, s: Step, more: seq<Step>)
    requires Enabled(u, w, s) && Runs(u, Apply(u, w, s), more)
    ensures Runs(u, w, [s] + more) && Exec(u, w, [s] + more) == Exec(u, Apply(u, w, s), more)
  {
    hide Enabled, Apply;
    OneStep(u, w, s);
    RunsOn(u, w, [s], more);
  }

  lemma SettleRuns(u: Rules, w: World, a: nat, path: string, end: ConvState)
    requires a in w.workers && w.workers[a] == Worker(path, Settling(end)) && path in w.convs
    ensures Runs(u, w, [Settle(a)]) && Exec(u, w, [Settle(a)]) == Finished(w, a, path, end)
  {
    hide DiskKey, PlaceAt, ToDo, Runs, Exec;
    OneStep(u, w, Settle(a));
  }

  lemma RefuseRuns(u: Rules, w: World, a: nat, path: string, end: ConvState)
    requires AtPhase(w, a, Holding) || AtPhase(w, a, Probed)
    requires w.workers[a].path == path && end in {Skipped, Failed}
    ensures Runs(u, w, [Refuse(a, end), Settle(a)])
    ensures Exec(u, w, [Refuse(a, end), Settle(a)]) == Finished(w, a, path, end)
  {
    hide DiskKey, PlaceAt, ToDo, SlotOf, DigestOf, Claimed, Requeued, Runs, Exec;
    var v := To(w, a, Settling(end));
    SettleRuns(u, v, a, path, end);
    StepThen(u, w, Refuse(a, end), [Settle(a)]);
    assert v.workers - {a} == w.workers - {a};
    assert [Refuse(a, end)] + [Settle(a)] == [Refuse(a, end), Settle(a)];
  }

  lemma KeepRuns(u: Rules, w: World, a: nat, path: string)
    requires AtPhase(w, a, Copied) && w.workers[a].path == path
    ensures Runs(u, w, [KeepOriginal(a), Settle(a)])
    ensures Exec(u, w, [KeepOriginal(a), Settle(a)]) == Finished(w, a, path, Done)
  {
    hide DiskKey, PlaceAt, ToDo, SlotOf, DigestOf, Claimed, Requeued, Runs, Exec;
    var v := To(w, a, Settling(Done));
    SettleRuns(u, v, a, path, Done);
    StepThen(u, w, KeepOriginal(a), [Settle(a)]);
    assert v.workers - {a} == w.workers - {a};
    assert [KeepOriginal(a)] + [Settle(a)] == [KeepOriginal(a), Settle(a)];
  }

  /** The mark, and then the deletion. */
  lemma DeleteRuns(u: Rules, w: World, a: nat, path: string)
    requires AtPhase(w, a, Copied) && w.workers[a].path == path && w.convs[path].action == Replace
    ensures var steps := [Mark(a), Remove(a), Settle(a)];
      Runs(u, w, steps) &&
      Exec(u, w, steps) ==
          Finished(SetRemoved(w, path, true).(disk := w.disk - {DiskKey(path)}, gone := w.gone + {path}), a, path, Done)
  {
    hide DiskKey, PlaceAt, ToDo, SlotOf, DigestOf, Claimed, Requeued, Runs, Exec;
    var v1 := Apply(u, w, Mark(a));
    var v2 := Apply(u, v1, Remove(a));
    SettleRuns(u, v2, a, path, Done);
    StepThen(u, v1, Remove(a), [Settle(a)]);
    StepThen(u, w, Mark(a), [Remove(a)] + [Settle(a)]);
    assert v2.workers - {a} == w.workers - {a};
    assert [Mark(a)] + ([Remove(a)] + [Settle(a)]) == [Mark(a), Remove(a), Settle(a)];
  }

  lemma UndoTail(u: Rules, w: World, a: nat, path: string, undoFails: bool)
    requires AtPhase(w, a, Undoing) && w.workers[a].path == path
    ensures var steps := [if undoFails then UndoFails(a) else Undo(a), Settle(a)];
      Runs(u, w, steps) &&
          Exec(u, w, steps) == Finished(if undoFails then w else SetRemoved(w, path, false), a, path, Done)
  {
    hide DiskKey, PlaceAt, ToDo, SlotOf, DigestOf, Claimed, Requeued, Runs, Exec;
    var last := if undoFails then UndoFails(a) else Undo(a);
    var v := Apply(u, w, last);
    SettleRuns(u, v, a, path, Done);
    StepThen(u, w, last, [Settle(a)]);
    assert v.workers - {a} == w.workers - {a};
    assert [last] + [Settle(a)] == [last, Settle(a)];
  }

  /** The mark, a deletion that fails, and the mark undone unless that fails as well. */
  lemma UndoRuns(u: Rules, w: World, a: nat, path: string, undoFails: bool)
    requires AtPhase(w, a, Copied) && w.workers[a].path == path && w.convs[path].action == Replace
    ensures var steps := [Mark(a), RemoveFails(a), if undoFails then UndoFails(a) else Undo(a), Settle(a)];
      Runs(u, w, steps) && Exec(u, w, steps) == Finished(SetRemoved(w, path, undoFails), a, path, Done)
  {
    hide DiskKey, PlaceAt, ToDo, SlotOf, Runs, Exec, Finished;
    var tail := [if undoFails then UndoFails(a) else Undo(a), Settle(a)];
    var v1 := To(SetRemoved(w, path, true), a, Marked);
    var v2 := To(v1, a, Undoing);
    UndoTail(u, v2, a, path, undoFails);
    assert Apply(u, w, Mark(a)) == v1 && Apply(u, v1, RemoveFails(a)) == v2;
    StepThen(u, v1, RemoveFails(a), tail);
    StepThen(u, w, Mark(a), [RemoveFails(a)] + tail);
    assert [Mark(a)] + ([RemoveFails(a)] + tail) == [Mark(a), RemoveFails(a), tail[0], Settle(a)];
    FinishedAlike(w, a, path, undoFails);
  }

  /** Whether the mark was set and undone, or never undone, the worker leaves the same way. */
  lemma FinishedAlike(w: World, a: nat, path: string, undoFails: bool)
    requires AtPhase(w, a, Copied) && w.workers[a].path == path
    ensures var v := To(To(SetRemoved(w, path, true), a, Marked), a, Undoing);
      Finished(if undoFails then v else SetRemoved(v, path, false), a, path, Done) ==
        Finished(SetRemoved(w, path, undoFails), a, path, Done)
  {
    var v := To(To(SetRemoved(w, path, true), a, Marked), a, Undoing);
    assert v.workers - {a} == w.workers - {a};
    assert SetRemoved(v, path, false).files == SetRemoved(w, path, false).files;
  }

  lemma ClearRuns(u: Rules, w: World, a: nat, path: string, fate: Fate)
    requires AtPhase(w, a, Copied) && w.workers[a].path == path
    ensures var steps := ClearSteps(w, a, path, fate) + [Settle(a)];
      Runs(u, w, steps) &&
      Exec(u, w, steps) ==
          Finished(if w.convs[path].action == Replace then Cleared(w, path, fate) else w, a, path, Done)
  {
    hide DiskKey, Runs, Exec, SetRemoved, Finished;
    var steps := ClearSteps(w, a, path, fate) + [Settle(a)];
    if w.convs[path].action != Replace || fate.markFails {
      KeepRuns(u, w, a, path);
      assert steps == [KeepOriginal(a), Settle(a)];
    } else if !fate.removeFails {
      DeleteRuns(u, w, a, path);
      assert steps == [Mark(a), Remove(a), Settle(a)];
    } else {
      UndoRuns(u, w, a, path, fate.undoFails);
      assert steps == [Mark(a), RemoveFails(a), if fate.undoFails then UndoFails(a) else Undo(a), Settle(a)];
    }
  }

  /** The copy, and what follows it. */
  lemma CopyRuns(u: Rules, w: World, a: nat, path: string, fate: Fate)
    requires AtPhase(w, a, Probed) && w.workers[a].path == path && Copies(w, path, fate)
    ensures var steps := [Produce(a, fate.tool.copy)] + (ClearSteps(w, a, path, fate) + [Settle(a)]);
      Runs(u, w, steps) && Exec(u, w, steps) == Converted(w, a, path, fate)
  {
    hide DiskKey, PlaceAt, ToDo, DigestOf, Runs, Exec, SlotFrom, Target;
    var v := Apply(u, w, Produce(a, fate.tool.copy));
    ClearRuns(u, v, a, path, fate);
    StepThen(u, w, Produce(a, fate.tool.copy), ClearSteps(v, a, path, fate) + [Settle(a)]);
    assert v.workers - {a} == w.workers - {a};
  }

  /** How far the worker got before the copy is not seen in the outcome. */
  lemma ProbeLeavesNoTrace(w: World, a: nat, path: string, fate: Fate)
    requires AtPhase(w, a, Holding) && w.workers[a].path == path && Copies(w, path, fate)
    ensures Copies(To(w, a, Probed), path, fate)
    ensures Converted(To(w, a, Probed), a, path, fate) == Converted(w, a, path, fate)
  {
    hide DiskKey, SlotFrom, Target;
    assert To(w, a, Probed).workers - {a} == w.workers - {a};
  }

  /** A conversion is a run of the ledger: what holds in every run holds between its effects. */
  lemma ConversionIsARun(u: Rules, w: World, a: nat, path: string, fate: Fate)
    requires AtPhase(w, a, Holding) && w.workers[a].path == path
    ensures var steps := ConvertSteps(w, a, path, fate);
      Runs(u, w, steps) && Exec(u, w, steps) == Converted(w, a, path, fate)
  {
    hide DiskKey, PlaceAt, ToDo, DigestOf, Runs, Exec, SlotFrom, Target, Cleared;
    var end := EndOf(w, path, fate);
    if !Reached(w, path, fate) {
      RefuseRuns(u, w, a, path, end);
    } else {
      var v := To(w, a, Probed);
      assert Enabled(u, w, Probe(a)) && Apply(u, w, Probe(a)) == v && v.workers - {a} == w.workers - {a};
      if !Copies(w, path, fate) {
        RefuseRuns(u, v, a, path, end);
        StepThen(u, w, Probe(a), [Refuse(a, end), Settle(a)]);
        assert [Probe(a)] + [Refuse(a, end), Settle(a)] == [Probe(a), Refuse(a, end), Settle(a)];
        assert Finished(v, a, path, end) == Finished(w, a, path, end);
      } else {
        ProbeLeavesNoTrace(w, a, path, fate);
        CopyRuns(u, v, a, path, fate);
        var clear := ClearSteps(w, a, path, fate);
        StepThen(u, w, Probe(a), [Produce(a, fate.tool.copy)] + (clear + [Settle(a)]));
        assert [Probe(a)] + ([Produce(a, fate.tool.copy)] + (clear + [Settle(a)])) == ConvertSteps(w, a, path, fate);
      }
    }
  }

  // ---- how a conversion ends, and where its copy lands ----

  /** A HEIC, or a video that is not called .mp4 already. */
  predicate Convertible(family: Class, path: string) {
    family == Heic || (family == VideoClass && UpperAscii(ExtOf(path)) != "MP4")
  }

  /** The original's directory and stem, a counter from the second on, and the extension of the new format. */
  function Candidate(path: string, family: Class, n: nat): Key
    requires DiskKey(path) != []
  {
    var key := DiskKey(path);
    var name := key[|key| - 1];
    key[..|key| - 1] +
    [name[..ExtAt(name)] + (if n == 0 then "" else "_" + Decimal(n)) + if family == Heic then ".jpg" else ".mp4"]
  }

  /** The first of the hundred candidates that is not on disk. */
  predicate FirstFreeAt(w: World, path: string, family: Class, n: nat)
    requires DiskKey(path) != []
  {
    n < 100 && Candidate(path, family, n) !in w.disk &&
    forall m: nat | m < n :: Candidate(path, family, m) in w.disk
  }

  lemma CandidatesAreSlots(path: string, family: Class, n: nat)
    requires DiskKey(path) != [] && Convertible(family, path)
    ensures Target(family, path).Some?
    ensures Slot(DiskKey(path), Target(family, path).value, n) == Candidate(path, family, n)
  {
    hide DiskKey, ExtOf, ExtAt, Decimal;
    var key := DiskKey(path);
    var stem := Stem(key[|key| - 1]);
    var ext, dot := Target(family, path).value, if family == Heic then ".jpg" else ".mp4";
    assert CounterText(n) == if n == 0 then "" else "_" + Decimal(n);
    assert dot == "." + ext;
    assert stem + CounterText(n) + "." + ext == stem + CounterText(n) + dot;
  }

  lemma {:induction false} FirstSlotExactly(disk: map<Key, Bytes>, key: Key, ext: string, from: nat)
    requires key != [] && from <= 100
    ensures var r := SlotFrom(disk, key, ext, from);
      && (r.None? <==> forall c: nat | from <= c < 100 :: Slot(key, ext, c) in disk)
      && (r.Some? ==> exists n: nat | from <= n < 100 ::
           r.value == Slot(key, ext, n) && Slot(key, ext, n) !in disk &&
           forall m: nat | from <= m < n :: Slot(key, ext, m) in disk)
    decreases 100 - from
  {
    hide Slot;
    if from < 100 && Slot(key, ext, from) in disk {
      FirstSlotExactly(disk, key, ext, from + 1);
    } else if from < 100 {
      assert SlotFrom(disk, key, ext, from).value == Slot(key, ext, from);
    }
  }

  lemma LandsFirstFree(w: World, path: string)
    requires path in w.convs && DiskKey(path) != [] && Convertible(w.convs[path].family, path)
    ensures var family := w.convs[path].family;
      && (Landing(w, path).None? <==> forall n: nat | n < 100 :: Candidate(path, family, n) in w.disk)
      && (Landing(w, path).Some? ==> exists n: nat ::
           FirstFreeAt(w, path, family, n) && Landing(w, path).value == Candidate(path, family, n))
  {
    hide DiskKey, ExtOf, Slot, SlotFrom, Candidate, Target, Convertible;
    var family := w.convs[path].family;
    forall n: nat {
      CandidatesAreSlots(path, family, n);
    }
    CandidatesAreSlots(path, family, 0);
    var ext := Target(family, path).value;
    FirstSlotExactly(w.disk, DiskKey(path), ext, 0);
    if Landing(w, path).Some? {
      var n: nat :| n < 100 && Landing(w, path).value == Slot(DiskKey(path), ext, n) &&
          Slot(DiskKey(path), ext, n) !in w.disk && forall m: nat | m < n :: Slot(DiskKey(path), ext, m) in w.disk;
      assert FirstFreeAt(w, path, family, n);
    }
  }

  lemma NotConvertible(family: Class, path: string)
    ensures Target(family, path).None? <==> !Convertible(family, path)
  {
    hide ExtOf, UpperAscii;
  }

  /**
    How a conversion ends, told from the row's class, the file's name, the tool and the disk; and the
    copy is at the first free one of a hundred names beside the original.
  */
  lemma ConversionEndsExactly(w: World, a: nat, path: string, fate: Fate)
    requires path in w.files && path in w.convs && DiskKey(path) != []
    ensures var v, family := Converted(w, a, path, fate), w.convs[path].family;
      var there := !fate.statFails && DiskKey(path) in w.disk;
      var made := fate.tool.Makes? && fate.tool.copy != [] && exists n: nat :: FirstFreeAt(w, path, family, n);
      && (v.convs[path].state == Skipped <==>
         there && (!Convertible(family, path) || fate.tool.NotNeeded? || fate.tool.NoTool?))
      && (v.convs[path].state == Done <==> there && Convertible(family, path) && made)
      && (v.convs[path].state == Failed <==>
         !there || (Convertible(family, path) && !fate.tool.NotNeeded? && !fate.tool.NoTool? && !made))
      && (v.convs[path].state == Done ==> exists n: nat ::
           FirstFreeAt(w, path, family, n) && Candidate(path, family, n) in v.disk &&
               v.disk[Candidate(path, family, n)] == fate.tool.copy)
  {
    hide DiskKey, Target, SlotFrom, Candidate, Convertible, Landing, Cleared;
    NotConvertible(w.convs[path].family, path);
    ConvertedOnlyThisRow(w, a, path, fate);
    if Convertible(w.convs[path].family, path) {
      LandsFirstFree(w, path);
      if Copies(w, path, fate) {
        CopyStays(w, a, path, fate);
      }
    }
  }

  /** Deleting the original does not touch the copy. */
  lemma CopyStays(w: World, a: nat, path: string, fate: Fate)
    requires path in w.files && path in w.convs && Copies(w, path, fate)
    ensures var v := Converted(w, a, path, fate);
      Landing(w, path).value in v.disk && v.disk[Landing(w, path).value] == fate.tool.copy
  {
    hide DiskKey, Landing, Target;
    LandingIsFree(w, path);
  }

  // ---- working the queue empty ----

  function PendingIn(convs: map<string, Conv>): set<string> {
    set p | p in convs && convs[p].state == Pending
  }

  /** A row that was pending has ended, and any other is as it was. */
  predicate WorkedOff(before: Conv, after: Conv) {
    after == before || (before.state == Pending && Final(after.state) && after == before.(state := after.state))
  }

  lemma OnePendingLess(before: map<string, Conv>, after: map<string, Conv>, path: string)
    requires path in before && before[path].state == Pending && after.Keys == before.Keys
    requires after[path].state != Pending
    requires forall p | p in before && p != path :: after[p] == before[p]
    ensures |PendingIn(after)| == |PendingIn(before)| - 1
  {
    assert PendingIn(after) == PendingIn(before) - {path};
  }

  /** One worker at most for each row, and nobody about to record anything but an end. */
  predicate Working(w: World) {
    Exclusive(w) && forall a | a in w.workers && w.workers[a].phase.Settling? :: Final(w.workers[a].phase.end)
  }

  lemma StepKeepsWorking(u: Rules, w: World, s: Step)
    requires Working(w) && Enabled(u, w, s)
    ensures Working(Apply(u, w, s))
  {
    hide DiskKey, Target, SlotFrom, PlaceAt, ToDo, DigestOf, Exclusive;
    StepKeepsExclusive(u, w, s);
  }

  lemma {:induction false} WorkingInEveryRun(u: Rules, disk: map<Key, Bytes>, steps: seq<Step>)
    requires Runs(u, Init(disk), steps)
    ensures Working(Exec(u, Init(disk), steps))
  {
    hide Enabled, Apply;
    if steps != [] {
      WorkingInEveryRun(u, disk, steps[..|steps| - 1]);
      StepKeepsWorking(u, Exec(u, Init(disk), steps[..|steps| - 1]), steps[|steps| - 1]);
    }
  }

  // ---- what a restart finds interrupted ----

  /** What a list of steps says by itself: the rows still in hand, and the last row each worker claimed. */
  datatype Book = Book(inHand: set<string>, last: map<nat, string>)

  /** A claim takes a row in hand; its worker's settling it, and a restart's requeueing, put it back. */
  function Noted(b: Book, s: Step): Book {
    match s
    case Claim(a, path) => Book(b.inHand + {path}, b.last[a := path])
    case Settle(a) => if a in b.last then b.(inHand := b.inHand - {b.last[a]}) else b
    case Recover(ok) => if ok then b.(inHand := {}) else b
    case _ => b
  }

  function BookOf(steps: seq<Step>): Book {
    if steps == [] then Book({}, map[]) else Noted(BookOf(steps[..|steps| - 1]), steps[|steps| - 1])
  }

  /** The rows claimed at some step and neither settled nor requeued at any later one. */
  function Interrupted(steps: seq<Step>): set<string> { BookOf(steps).inHand }

  predicate BookAgrees(w: World, b: Book) {
    && (forall p | p in b.inHand :: p in w.convs && w.convs[p].state == Running)
    && (forall p | p in w.convs && w.convs[p].state == Running :: p in b.inHand)
    && (forall a | a in w.workers :: a in b.last && b.last[a] == w.workers[a].path)
  }

  lemma ForwardKeepsBook(u: Rules, w: World, b: Book, s: Step)
    requires BookAgrees(w, b) && Enabled(u, w, s) && Moves(s)
    ensures BookAgrees(Apply(u, w, s), b)
  {
    hide Enabled, Apply;
    MovesFrame(u, w, s);
  }

  /** Steps that start, settle or requeue nothing leave the rows in hand alone. */
  lemma OtherStepsKeepBook(u: Rules, w: World, b: Book, s: Step)
    requires Working(w) && BookAgrees(w, b) && Enabled(u, w, s) && !s.Claim? && !s.Settle? && !s.Recover?
    ensures BookAgrees(Apply(u, w, s), b)
  {
    if Moves(s) {
      hide Enabled, Apply, Working, BookAgrees;
      ForwardKeepsBook(u, w, b, s);
    } else {
      hide DiskKey, Target, SlotFrom, SlotOf, PlaceAt, DigestOf, Decide, Requeued;
    }
  }

  lemma StepKeepsBook(u: Rules, w: World, b: Book, s: Step)
    requires Working(w) && BookAgrees(w, b) && Enabled(u, w, s)
    ensures BookAgrees(Apply(u, w, s), Noted(b, s))
  {
    hide DiskKey, Target, SlotFrom, SlotOf, PlaceAt, DigestOf, Decide, Claimed, SetRemoved;
    match s
    case Claim(a, path) =>
    case Settle(a) => SettleKeepsBook(u, w, b, a);
    case Recover(ok) =>
    case _ => OtherStepsKeepBook(u, w, b, s);
  }

  lemma SettleKeepsBook(u: Rules, w: World, b: Book, a: nat)
    requires Working(w) && BookAgrees(w, b) && Enabled(u, w, Settle(a))
    ensures BookAgrees(Apply(u, w, Settle(a)), Noted(b, Settle(a)))
  {
    hide DiskKey;
    var v, path := Apply(u, w, Settle(a)), w.workers[a].path;
    assert b.last[a] == path && Final(w.workers[a].phase.end);
    assert v.convs[path].state != Running;
    assert forall p | p in w.convs && p != path :: v.convs[p] == w.convs[p];
  }

  /** In every run the rows in state running are those its steps left claimed and unsettled. */
  lemma {:induction false} RunningIsInterrupted(u: Rules, disk: map<Key, Bytes>, steps: seq<Step>)
    requires Runs(u, Init(disk), steps)
    ensures BookAgrees(Exec(u, Init(disk), steps), BookOf(steps))
  {
    hide Enabled, Apply, BookAgrees, Noted, Working;
    if steps == [] {
      EmptyBook(disk);
    } else {
      var before := steps[..|steps| - 1];
      RunningIsInterrupted(u, disk, before);
      WorkingInEveryRun(u, disk, before);
      StepKeepsBook(u, Exec(u, Init(disk), before), BookOf(before), steps[|steps| - 1]);
    }
  }

  lemma EmptyBook(disk: map<Key, Bytes>)
    ensures BookAgrees(Init(disk), Book({}, map[]))
  {
  }

  /** What a crash and the restart after it leave. */
  function Restarted(w: World): World {
    w.(convs := Requeued(w.convs), workers := map[], up := true)
  }

  lemma RestartRuns(u: Rules, w: World)
    ensures Runs(u, w, [Crash, Recover(true)]) && Exec(u, w, [Crash, Recover(true)]) == Restarted(w)
  {
    hide DiskKey, PlaceAt, ToDo, SlotOf, DigestOf, Claimed, Requeued, Runs, Exec;
    var v := w.(workers := map[], up := false);
    OneStep(u, v, Recover(true));
    StepThen(u, w, Crash, [Recover(true)]);
    assert [Crash] + [Recover(true)] == [Crash, Recover(true)];
  }

  /**
    A crash after any run, and the restart after it, requeue exactly the rows the run had left
    interrupted, and change nothing else in either table or on disk.
  */
  lemma RestartRequeuesInterrupted(u: Rules, disk: map<Key, Bytes>, steps: seq<Step>)
    requires Runs(u, Init(disk), steps)
    ensures var w, more := Exec(u, Init(disk), steps), steps + [Crash, Recover(true)];
      Runs(u, Init(disk), more) &&
      var v := Exec(u, Init(disk), more);
      && v.files == w.files && v.pairs == w.pairs && v.disk == w.disk && v.convs.Keys == w.convs.Keys
      && forall p | p in w.convs ::
           v.convs[p] == if p in Interrupted(steps) then w.convs[p].(state := Pending) else w.convs[p]
  {
    hide Enabled, Apply, Runs, Exec, BookOf;
    var w := Exec(u, Init(disk), steps);
    RunningIsInterrupted(u, disk, steps);
    RestartRuns(u, w);
    RunsOn(u, Init(disk), steps, [Crash, Recover(true)]);
  }

  /** No restart requeues what was claimed. */
  predicate NothingRequeued(steps: seq<Step>) { forall s | s in steps :: !s.Recover? }

  /** How many commits queue a conversion. */
  function Enqueued(steps: seq<Step>): nat {
    if steps == [] then 0 else Enqueued(steps[..|steps| - 1]) + if steps[|steps| - 1].Enqueue? then 1 else 0
  }

  function Claims(steps: seq<Step>): nat {
    if steps == [] then 0 else Claims(steps[..|steps| - 1]) + if steps[|steps| - 1].Claim? then 1 else 0
  }

  lemma StepCountsPending(u: Rules, w: World, s: Step)
    requires Working(w) && Enabled(u, w, s) && !s.Recover?
    ensures |PendingIn(Apply(u, w, s).convs)| + (if s.Claim? then 1 else 0) ==
      |PendingIn(w.convs)| + if s.Enqueue? then 1 else 0
  {
    hide Apply, ToDo, DiskKey, Target, PlaceAt, SlotOf;
    ConvsNext(u, w, s);
    var v := Apply(u, w, s);
    if s.Claim? {
      OnePendingLess(w.convs, v.convs, s.path);
    } else if s.Enqueue? {
      OnePendingLess(v.convs, w.convs[s.path := v.convs[s.path].(state := Running)], s.path);
      assert PendingIn(w.convs[s.path := v.convs[s.path].(state := Running)]) == PendingIn(w.convs);
    } else {
      assert PendingIn(v.convs) == PendingIn(w.convs);
    }
  }

  /**
    However many workers there are and however they interleave, with commits as well, each claim uses
    up one pending row, nothing else does, and a commit adds at most one. So the pending rows measure
    what is left to do, and `ConvertPending` can never claim more often than there were rows.
  */
  lemma {:induction false} ClaimsUseUpPending(u: Rules, w: World, steps: seq<Step>)
    requires Working(w) && Runs(u, w, steps) && NothingRequeued(steps)
    ensures Working(Exec(u, w, steps))
    ensures Claims(steps) + |PendingIn(Exec(u, w, steps).convs)| == |PendingIn(w.convs)| + Enqueued(steps)
  {
    hide Enabled, Apply, Working;
    if steps != [] {
      var before, s := steps[..|steps| - 1], steps[|steps| - 1];
      assert forall t | t in before :: t in steps;
      ClaimsUseUpPending(u, w, before);
      StepKeepsWorking(u, Exec(u, w, before), s);
      StepCountsPending(u, Exec(u, w, before), s);
    }
  }

  // ---- any number of workers ----

  /** Nothing is requeued or dropped; anything else may happen, and commits may queue more work. */
  predicate OnlyWork(steps: seq<Step>) { forall s | s in steps :: WorkGoesOn(s) }

  predicate WorkGoesOn(s: Step) { !s.Recover? && !s.Crash? && !s.Abandon? }

  function Settled(steps: seq<Step>): nat {
    if steps == [] then 0 else Settled(steps[..|steps| - 1]) + if steps[|steps| - 1].Settle? then 1 else 0
  }

  /** Some worker has this row in hand. */
  predicate InHand(w: World, p: string) { exists a | a in w.workers :: w.workers[a].path == p }

  /** The row as it was at the start, or when it was queued since. */
  function AtFirst(start: World, w: World, p: string): Conv
    requires p in w.convs
  {
    if p in start.convs then start.convs[p] else w.convs[p].(state := Pending)
  }

  /** Since then it was taken in hand, or worked off, or not touched. */
  predicate Advanced(start: World, w: World, p: string)
    requires p in w.convs
  {
    var first := AtFirst(start, w, p);
    if InHand(w, p) then first.state == Pending && w.convs[p] == first.(state := Running)
    else WorkedOff(first, w.convs[p])
  }

  predicate AllAdvanced(start: World, w: World) {
    start.convs.Keys <= w.convs.Keys && forall p | p in w.convs :: Advanced(start, w, p)
  }

  lemma StepAdvances(u: Rules, start: World, w: World, s: Step)
    requires Working(w) && AllAdvanced(start, w) && Enabled(u, w, s) && WorkGoesOn(s)
    ensures AllAdvanced(start, Apply(u, w, s))
  {
    hide Enabled, Apply, Working, Advanced;
    var v := Apply(u, w, s);
    SameQueue(u, w, s);
    forall p | p in v.convs
      ensures Advanced(start, v, p)
    {
      if p in w.convs {
        assert Advanced(start, w, p);
        RowAdvances(u, start, w, s, p);
      } else {
        NewRowWaits(u, start, w, s, p);
      }
    }
  }

  lemma SameQueue(u: Rules, w: World, s: Step)
    requires Working(w) && Enabled(u, w, s) && WorkGoesOn(s)
    ensures Apply(u, w, s).convs.Keys == w.convs.Keys + if s.Enqueue? then {s.path} else {}
    ensures s.Enqueue? ==> s.path !in w.convs && Apply(u, w, s).convs[s.path].state == Pending
  {
    hide Apply, ToDo, DiskKey, Target, PlaceAt, SlotOf;
    ConvsNext(u, w, s);
  }

  lemma NewRowWaits(u: Rules, start: World, w: World, s: Step, p: string)
    requires Working(w) && start.convs.Keys <= w.convs.Keys && Enabled(u, w, s) && WorkGoesOn(s)
    requires p !in w.convs && p in Apply(u, w, s).convs
    ensures Advanced(start, Apply(u, w, s), p)
  {
    hide Enabled, Apply, Working, InHand;
    SameQueue(u, w, s);
    HandsChange(u, w, s, p);
    OnlyRowsInHand(w, p);
  }

  lemma OnlyRowsInHand(w: World, p: string)
    requires Working(w) && p !in w.convs
    ensures !InHand(w, p)
  {
  }

  /** A row is in hand from the step that claims it to the one that settles it. */
  lemma HandsChange(u: Rules, w: World, s: Step, p: string)
    requires Working(w) && Enabled(u, w, s) && WorkGoesOn(s)
    ensures InHand(Apply(u, w, s), p) <==>
      (s.Claim? && s.path == p) || (InHand(w, p) && !(s.Settle? && w.workers[s.worker].path == p))
  {
    hide Enabled, Apply, Working;
    StepMovesWorkers(u, w, s);
    WorkersKeepRows(u, w, s);
    OneWorkerEach(w);
    var v := Apply(u, w, s);
    if s.Claim? && s.path == p {
      assert v.workers[s.worker].path == p;
    } else if InHand(w, p) {
      var a :| a in w.workers && w.workers[a].path == p;
      assert !(s.Settle? && s.worker == a) ==> a in v.workers && v.workers[a].path == p;
    }
  }

  /** Whoever works before and after a step works on the same row. */
  lemma WorkersKeepRows(u: Rules, w: World, s: Step)
    requires Enabled(u, w, s) && WorkGoesOn(s) && (s.Claim? ==> s.worker !in w.workers)
    ensures var v := Apply(u, w, s);
      && (s.Claim? ==> s.worker in v.workers && v.workers[s.worker].path == s.path)
      && (forall a | a in v.workers && a in w.workers :: v.workers[a].path == w.workers[a].path)
  {
    hide Apply, Enabled;
    WorkersNext(u, w, s);
  }

  lemma OneWorkerEach(w: World)
    requires Working(w)
    ensures forall a, b | a in w.workers && b in w.workers && a != b :: w.workers[a].path != w.workers[b].path
  {
  }

  lemma RowChanges(u: Rules, w: World, s: Step, p: string)
    requires Working(w) && Enabled(u, w, s) && WorkGoesOn(s) && p in w.convs
    ensures p in Apply(u, w, s).convs
    ensures var c := Apply(u, w, s).convs[p];
      if s.Claim? && s.path == p then w.convs[p].state == Pending && c == w.convs[p].(state := Running)
      else if s.Settle? && w.workers[s.worker].path == p
      then Final(c.state) && c == w.convs[p].(state := c.state) && InHand(w, p)
      else c == w.convs[p]
  {
    hide Apply, ToDo, DiskKey, Target, PlaceAt, SlotOf;
    ConvsNext(u, w, s);
  }

  lemma RowAdvances(u: Rules, start: World, w: World, s: Step, p: string)
    requires Working(w) && p in w.convs && Advanced(start, w, p) && Enabled(u, w, s) && WorkGoesOn(s)
    requires start.convs.Keys <= w.convs.Keys && p in Apply(u, w, s).convs
    ensures Advanced(start, Apply(u, w, s), p)
  {
    hide Enabled, Apply, Working, InHand;
    HandsChange(u, w, s, p);
    RowChanges(u, w, s, p);
    if w.convs[p].state == Pending {
      PendingIsFree(w, p);
    }
  }

  lemma PendingIsFree(w: World, p: string)
    requires Working(w) && p in w.convs && w.convs[p].state == Pending
    ensures !InHand(w, p)
  {
  }

  /** A worker is one more from its claim until it settles. */
  lemma StepMovesWorkers(u: Rules, w: World, s: Step)
    requires Working(w) && Enabled(u, w, s) && WorkGoesOn(s)
    ensures Apply(u, w, s).workers.Keys ==
      if s.Claim? then w.workers.Keys + {s.worker}
      else if s.Settle? then w.workers.Keys - {s.worker} else w.workers.Keys
    ensures s.Claim? ==> s.worker !in w.workers
    ensures s.Settle? ==> s.worker in w.workers
  {
    hide Apply, DiskKey, Target, SlotOf, PlaceAt, ToDo, Working;
    WorkersNext(u, w, s);
  }

  lemma StepSettles(u: Rules, w: World, s: Step)
    requires Working(w) && Enabled(u, w, s) && WorkGoesOn(s)
    ensures var v := Apply(u, w, s);
      |PendingIn(v.convs)| + |v.workers| + (if s.Settle? then 1 else 0) ==
        |PendingIn(w.convs)| + |w.workers| + if s.Enqueue? then 1 else 0
  {
    hide Enabled, Apply, Working, PendingIn;
    StepCountsPending(u, w, s);
    StepMovesWorkers(u, w, s);
    SizeByKeys(w.workers);
    SizeByKeys(Apply(u, w, s).workers);
  }

  lemma SizeByKeys(m: map<nat, Worker>)
    ensures |m| == |m.Keys|
  {
  }

  lemma {:induction false} WorkAdvances(u: Rules, w: World, steps: seq<Step>)
    requires Working(w) && w.workers == map[] && Runs(u, w, steps) && OnlyWork(steps)
    ensures var x := Exec(u, w, steps);
      && Working(x) && AllAdvanced(w, x)
      && Settled(steps) + |PendingIn(x.convs)| + |x.workers| == |PendingIn(w.convs)| + Enqueued(steps)
  {
    hide Enabled, Apply, Working, AllAdvanced;
    if steps == [] {
      NothingAdvancedYet(w);
    } else {
      var before, s := steps[..|steps| - 1], steps[|steps| - 1];
      assert s in steps && forall t | t in before :: t in steps;
      WorkAdvances(u, w, before);
      var x := Exec(u, w, before);
      StepKeepsWorking(u, x, s);
      StepAdvances(u, w, x, s);
      StepSettles(u, x, s);
    }
  }

  lemma NothingAdvancedYet(w: World)
    requires w.workers == map[]
    ensures AllAdvanced(w, w)
  {
  }

  /**
    `ConvertPending` with any number of workers, however they interleave with one another and with
    commits, sweeps and confirmations: when the last of them stops because nothing is pending, each
    row that was pending, or was queued meanwhile, has been settled once, in a final state, and no
    other row was touched.
  */
  lemma AnyWorkersFinish(u: Rules, w: World, steps: seq<Step>)
    requires Working(w) && w.workers == map[] && Runs(u, w, steps) && OnlyWork(steps)
    requires Exec(u, w, steps).workers == map[] && PendingIn(Exec(u, w, steps).convs) == {}
    ensures var x := Exec(u, w, steps);
      && Settled(steps) == |PendingIn(w.convs)| + Enqueued(steps) && w.convs.Keys <= x.convs.Keys
      && forall p | p in x.convs :: if p in w.convs then WorkedOff(w.convs[p], x.convs[p]) else Final(x.convs[p].state)
  {
    hide Enabled, Apply, Runs, Exec, Working;
    WorkAdvances(u, w, steps);
    var x := Exec(u, w, steps);
    forall p | p in x.convs
      ensures if p in w.convs then WorkedOff(w.convs[p], x.convs[p]) else Final(x.convs[p].state)
    {
      assert Advanced(w, x, p) && !InHand(x, p);
      assert p !in PendingIn(x.convs);
    }
  }

  /** How far `ConvertPending` has come: so many rows worked off, and nothing else changed in the queue. */
  predicate Progress(start: World, w: World, done: nat) {
    && w.up && w.workers == start.workers && w.files.Keys == start.files.Keys && w.convs.Keys == start.convs.Keys
    && (forall p | p in w.convs :: WorkedOff(start.convs[p], w.convs[p]))
    && done + |PendingIn(w.convs)| == |PendingIn(start.convs)|
  }

  lemma NoProgressYet(w: World)
    requires w.up
    ensures Progress(w, w, 0)
  {
  }

  lemma OneMoreTurn(start: World, w: World, a: nat, path: string, fate: Fate, done: nat)
    requires Progress(start, w, done) && path in PendingIn(w.convs) && path in w.files && a !in w.workers
    ensures var v := Converted(ClaimedBy(w, a, path), a, path, fate);
      Progress(start, v, done + 1) && |PendingIn(v.convs)| < |PendingIn(w.convs)|
  {
    hide Converted, EndOf, DiskKey, Progress;
    var c := ClaimedBy(w, a, path);
    var v := Converted(c, a, path, fate);
    ConvertedOnlyThisRow(c, a, path, fate);
    var end := EndOf(c, path, fate);
    assert c.workers - {a} == w.workers;
    assert v.convs == w.convs[path := w.convs[path].(state := end)];
    OneRowWorkedOff(start, w, v, path, end, done);
  }

  lemma OneRowWorkedOff(start: World, w: World, v: World, path: string, end: ConvState, done: nat)
    requires Progress(start, w, done) && path in PendingIn(w.convs) && Final(end)
    requires v.up == w.up && v.workers == w.workers && v.files.Keys == w.files.Keys
    requires v.convs == w.convs[path := w.convs[path].(state := end)]
    ensures Progress(start, v, done + 1) && |PendingIn(v.convs)| < |PendingIn(w.convs)|
  {
    OnePendingLess(w.convs, v.convs, path);
  }

  lemma WorkedEmpty(start: World, w: World, done: nat)
    requires Progress(start, w, done) && PendingIn(w.convs) == {}
    ensures w.convs.Keys == start.convs.Keys && w.workers == start.workers && done == |PendingIn(start.convs)|
    ensures forall p | p in w.convs :: WorkedOff(start.convs[p], w.convs[p])
  {
  }
}
