/**
  The receiver's objects: storage.Store and formats.Queue over one ledger and one directory. Each
  method is the original's sequence of effects, and its contract names the steps it took, so what is
  proved of every run holds between any two of its effects as well as after it.
*/
module Receiver {
  import opened Wrappers
  import opened Texts
  import opened Naming
  import opened OutputPolicy
  import opened Hashing
  import opened Ledger
  import opened Allocator
  import opened ReceiverRuns
  import opened Conversions
  import opened Custody

  datatype CommitError = NoDevice | BadKind | BadName(error: NameError) | NoFreeName | NotDiscarded | NotMoved

  /** What the file system and the ledger do to one commit. */
  datatype CommitFate = CommitFate(discardFails: bool, renameFails: bool, rowGone: bool, fileGone: bool,
      queueFails: bool)

  datatype Committed = Committed(path: string, deduplicated: bool, decision: Decision)

  /** The steps of a commit that placed a new file. */
  function CommitSteps(
      inc: Incoming, tmpl: string, bytes: Bytes, path: string, policy: Policy, queued: bool): seq<Step> {
    if queued then [Place(inc, tmpl), MoveIn(path, bytes), Enqueue(path, policy)]
    else [Place(inc, tmpl), MoveIn(path, bytes)]
  }

  /** The steps of a commit whose file could not be moved to the name it was given. */
  function FailedSteps(inc: Incoming, tmpl: string, path: string, fate: CommitFate): seq<Step> {
    [Place(inc, tmpl), Unplace(path, fate.rowGone, fate.fileGone)]
  }

  /** A pending conversion of that class and action for this file, when there is one to do. */
  function WithWork(convs: map<string, Conv>, path: string, d: Decision): map<string, Conv> {
    if d.action in {Sidecar, Replace} then convs[path := Conv(d.family, d.action, Pending)] else convs
  }

  /** A row that a commit of this content by this device would be a duplicate of. */
  predicate Duplicate(files: map<string, Row>, p: string, inc: Incoming) {
    p in files && files[p].device == inc.device && files[p].digest.full == inc.digest.full
  }

  /** The row is this commit's, field by field, and its bytes are in place. */
  predicate HoldsCommit(w: World, path: string, inc: Incoming, bytes: Bytes) {
    && path in w.files && path in w.placed && w.files[path].name.Path() == path
    && w.files[path] ==
        Row(inc.device, inc.digest, w.files[path].name, inc.pair, inc.kind, false, false)
    && w.placed[path] == bytes && DiskKey(path) in w.disk && w.disk[DiskKey(path)] == bytes
  }

  /**
    What a commit comes to, told from the ledger before it, the name its file is given and what fails:
    which refusal, which older row it duplicates, or the new file's path and what is to be done with it.
  */
  predicate ComesTo(u: Rules, w: World, inc: Incoming, tmpl: string, policy: Policy, fate: CommitFate,
      r: Result<Committed, CommitError>)
  {
    if inc.device == "" then r == Err(NoDevice)
    else if inc.kind.UnknownKind? then r == Err(BadKind)
    else if exists p | p in w.files :: Duplicate(w.files, p, inc) then
      if fate.discardFails then r == Err(NotDiscarded)
      else
        && r.Ok? && r.value.deduplicated && Duplicate(w.files, r.value.path, inc)
        && r.value.decision == Decision(Classify(u.lower, inc.kind, r.value.path), Keep, false)
    else
      match PlaceAt(u, w, inc, tmpl)
      case Unusable(e) => r == Err(BadName(e))
      case NoSpace => r == Err(NoFreeName)
      case At(n) =>
        if fate.renameFails then r == Err(NotMoved)
        else
          var d := Decide(u.lower, policy, inc.kind, n.Path(), inc.pair != "");
          r == Ok(Committed(n.Path(), false,
            if d.action in {Sidecar, Replace} && fate.queueFails then Decision(d.family, Keep, true) else d))
  }

  /** One ledger and one destination directory, and the objects that share them. */
  class Receiver {
    const u: Rules
    const root: Key
    var now: World

    constructor (u: Rules, root: Key, disk: map<Key, Bytes>)
      ensures this.u == u && this.root == root && now == Init(disk)
    {
      this.u, this.root, now := u, root, Init(disk);
    }

    /** What naming and the queue keep of the ledger in every run. */
    ghost predicate Valid()
      reads this
    {
      Filed(now) && RowsOk(u, now)
    }

    // ---- storage.Store ----

    /** `existingPath`: some row of this device with this content. */
    method ExistingPath(device: string, full: Hash) returns (found: Option<string>)
      ensures found.Some? ==>
        && found.value in now.files
        && now.files[found.value].device == device && now.files[found.value].digest.full == full
      ensures found.None? ==>
        forall p | p in now.files :: !(now.files[p].device == device && now.files[p].digest.full == full)
    {
      if p :| p in now.files && now.files[p].device == device && now.files[p].digest.full == full {
        found := Some(p);
      } else {
        found := None;
      }
    }

    /** `claim` with `record`: false when either of them finds the name taken. */
    method ClaimName(inc: Incoming, name: Rendered) returns (won: bool)
      modifies this
      ensures won <==> Free(old(now).files, old(now).disk, name)
      ensures now == if won then Claimed(old(now), inc, name) else old(now)
    {
      var rel := name.Path();
      var key := DiskKey(rel);
      if key in now.disk {
        return false;
      }
      now := now.(disk := now.disk[key := []]);
      if rel in now.files {
        now := now.(disk := now.disk - {key});
        assert now.disk == old(now).disk;
        return false;
      }
      now := now.(files := now.files[rel := RowOf(inc, name)]);
      if inc.pair != "" && (inc.device, inc.pair) !in now.pairs {
        now := now.(pairs := now.pairs[(inc.device, inc.pair) := (name.dir, name.base)]);
      }
      return true;
    }

    /** `place`: the pair's reserved name first, then the counter search. */
    method PlaceFile(inc: Incoming, tmpl: string) returns (r: Result<string, CommitError>)
      modifies this
      ensures match PlaceAt(u, old(now), inc, tmpl)
        case At(name) => r == Ok(name.Path()) && now == Claimed(old(now), inc, name)
        case Unusable(e) => r == Err(BadName(e)) && now == old(now)
        case NoSpace => r == Err(NoFreeName) && now == old(now)
    {
      hide Free, Taken, Claimed, DiskKey;
      if inc.pair != "" && (inc.device, inc.pair) in now.pairs {
        var (dir, base) := now.pairs[(inc.device, inc.pair)];
        var res := u.render(tmpl, inc.vars, 0);
        if res.Err? {
          return Err(BadName(res.error));
        }
        var name := Rendered(dir, base, res.value.ext);
        var won := ClaimName(inc, name);
        if won {
          return Ok(name.Path());
        }
      }
      var counter := 0;
      while counter < MAX_ATTEMPTS
        invariant 0 <= counter <= MAX_ATTEMPTS && now == old(now)
        invariant PlaceAt(u, old(now), inc, tmpl) == Search(u, now.files, now.disk, tmpl, inc.vars, counter)
      {
        var res := u.render(tmpl, inc.vars, counter);
        if res.Err? {
          return Err(BadName(res.error));
        }
        if !Taken(now.files, res.value.dir, res.value.base) {
          var won := ClaimName(inc, res.value);
          if won {
            return Ok(res.value.Path());
          }
        }
        counter := counter + 1;
      }
      return Err(NoFreeName);
    }

    /**
      `Commit`, of these bytes under the digest the caller found for them. The file is placed, moved
      in, and queued for whatever the policy asks, and on disk it is the only thing that changed,
      where nothing was before. Or it could not be moved in, and what was placed is taken back,
      all of it if the deletions go through, but for a reservation. Or nothing changes at all.
    */
    method Commit(inc: Incoming, tmpl: string, policy: Policy, bytes: Bytes, fate: CommitFate)
        returns (r: Result<Committed, CommitError>, ghost steps: seq<Step>)
      requires Valid()
      modifies this
      ensures Valid() && Runs(u, old(now), steps) && now == Exec(u, old(now), steps)
      ensures ComesTo(u, old(now), inc, tmpl, policy, fate, r)
      ensures r.Err? && r.error != NotMoved ==> steps == []
      ensures r.Err? && r.error == NotMoved ==>
        && PlaceAt(u, old(now), inc, tmpl).At?
        && steps == FailedSteps(inc, tmpl, PlaceAt(u, old(now), inc, tmpl).name.Path(), fate)
        && (fate.rowGone && fate.fileGone ==> now == old(now).(pairs := now.pairs))
      ensures r.Ok? && r.value.deduplicated ==> steps == []
      ensures r.Ok? && !r.value.deduplicated ==>
        var c := r.value;
        && c.path !in old(now).files && HoldsCommit(now, c.path, inc, bytes)
        && DiskKey(c.path) !in old(now).disk && now.disk == old(now).disk[DiskKey(c.path) := bytes]
        && now.convs == WithWork(old(now).convs, c.path, c.decision)
        && steps == CommitSteps(inc, tmpl, bytes, c.path, policy, c.decision.action in {Sidecar, Replace})
    {
      hide DiskKey, Classify, Decide, Rendered.Path, Filed, RowsOk, PlaceAt, Claimed, Unplaced, WithWork, HoldsCommit;
      hide Runs, Exec, Enabled, Apply;
      EmptyRun(u, now);
      if inc.device == "" {
        return Err(NoDevice), [];
      }
      if inc.kind.UnknownKind? {
        return Err(BadKind), [];
      }
      var existing := ExistingPath(inc.device, inc.digest.full);
      if existing.Some? {
        if fate.discardFails {
          assert Duplicate(now.files, existing.value, inc);
          return Err(NotDiscarded), [];
        }
        var kept := Decision(Classify(u.lower, inc.kind, existing.value), Keep, false);
        return Ok(Committed(existing.value, true, kept)), [];
      }
      var placing := PlaceFile(inc, tmpl);
      if placing.Err? {
        return Err(placing.error), [];
      }
      var path := placing.value;
      if fate.renameFails {
        Unplace(path, fate.rowGone, fate.fileGone);
        steps := FailedSteps(inc, tmpl, path, fate);
        FailedCommitRuns(u, old(now), inc, tmpl, fate);
        CommitKeepsBooks(u, old(now), steps);
        return Err(NotMoved), steps;
      }
      now := now.(disk := now.disk[DiskKey(path) := bytes], placed := now.placed[path := bytes]);
      steps := CommitSteps(inc, tmpl, bytes, path, policy, false);
      CommitRuns(u, old(now), inc, tmpl, bytes);
      ghost var stored := now;
      var decision := QueueConversion(inc, path, policy, fate);
      StillHolds(stored, now, path, inc, bytes);
      if decision.action in {Sidecar, Replace} {
        Extend(u, old(now), steps, Enqueue(path, policy));
        assert steps + [Enqueue(path, policy)] == CommitSteps(inc, tmpl, bytes, path, policy, true);
        steps := CommitSteps(inc, tmpl, bytes, path, policy, true);
      }
      CommitKeepsBooks(u, old(now), steps);
      return Ok(Committed(path, false, decision)), steps;
    }

    /** `queueConversion`: what the policy asks of this file, and a pending conversion if that is work. */
    method QueueConversion(inc: Incoming, path: string, policy: Policy, fate: CommitFate) returns (d: Decision)
      requires path in now.files && path in now.placed && path !in now.convs
      requires now.files[path].kind == inc.kind && now.files[path].pair == inc.pair
      modifies this
      ensures var asked := Decide(u.lower, policy, inc.kind, path, inc.pair != "");
        d == if asked.action in {Sidecar, Replace} && fate.queueFails then Decision(asked.family, Keep, true) else asked
      ensures if d.action in {Sidecar, Replace}
        then Enabled(u, old(now), Enqueue(path, policy)) && now == Apply(u, old(now), Enqueue(path, policy))
        else now == old(now)
      ensures now == old(now).(convs := WithWork(old(now).convs, path, d))
    {
      hide Decide, Apply, Enabled;
      d := Decide(u.lower, policy, inc.kind, path, inc.pair != "");
      if d.action in {Sidecar, Replace} {
        if fate.queueFails {
          d := d.(action := Keep, downgraded := true);
        } else {
          QueueRuns(u, now, path, policy);
          now := now.(convs := now.convs[path := Conv(d.family, d.action, Pending)]);
        }
      }
    }

    /** `unplace`: the row, then the placeholder, whether or not the row would go. */
    method Unplace(path: string, rowGone: bool, fileGone: bool)
      modifies this
      ensures now == Unplaced(old(now), path, rowGone, fileGone)
    {
      if rowGone {
        now := now.(files := now.files - {path});
      } else {
        now := now.(stuck := now.stuck + {path});
      }
      if fileGone {
        now := now.(disk := now.disk - {DiskKey(path)});
      }
    }

    // ---- formats.Queue ----

    /** `claim`: some pending row, now this worker's; none when there is none. */
    method ClaimConversion(a: nat) returns (path: Option<string>)
      modifies this
      ensures path.None? ==> now == old(now) && PendingIn(now.convs) == {}
      ensures path.Some? ==> path.value in PendingIn(old(now).convs) && now == ClaimedBy(old(now), a, path.value)
    {
      if p :| p in now.convs && now.convs[p].state == Pending {
        now := now.(convs := now.convs[p := now.convs[p].(state := Running)],
                    workers := now.workers[a := Worker(p, Holding)]);
        path := Some(p);
      } else {
        path := None;
      }
    }

    /** `removeOriginal`: the mark, the deletion, and the mark undone when the deletion failed. */
    method RemoveOriginal(path: string, fate: Fate)
      requires path in now.files && path in now.convs && now.convs[path].action == Replace
      modifies this
      ensures now == Cleared(old(now), path, fate)
    {
      if fate.markFails {
        return;
      }
      now := SetRemoved(now, path, true);
      if !fate.removeFails {
        now := now.(disk := now.disk - {DiskKey(path)}, gone := now.gone + {path});
        return;
      }
      if !fate.undoFails {
        now := SetRemoved(now, path, false);
      }
    }

    /** `convert`: one row's work, from the claim to the state it ends in. */
    method Convert(a: nat, path: string, fate: Fate)
      requires path in now.files && path in now.convs
      modifies this
      ensures now == Converted(old(now), a, path, fate)
    {
      hide DiskKey, Target, SlotFrom;
      if fate.statFails || DiskKey(path) !in now.disk {
        Finish(a, path, Failed);
        return;
      }
      var ext := Target(now.convs[path].family, path);
      if ext.None? || fate.tool.NotNeeded? || fate.tool.NoTool? {
        Finish(a, path, Skipped);
        return;
      }
      var slot := if DiskKey(path) == [] then None else SlotFrom(now.disk, DiskKey(path), ext.value, 0);
      if fate.tool.Refuses? || fate.tool.copy == [] || slot.None? {
        Finish(a, path, Failed);
        return;
      }
      now := now.(disk := now.disk[slot.value := fate.tool.copy]);
      if now.convs[path].action == Replace {
        RemoveOriginal(path, fate);
      }
      Finish(a, path, Done);
    }

    /** `finish`. */
    method Finish(a: nat, path: string, end: ConvState)
      requires path in now.convs
      modifies this
      ensures now == Finished(old(now), a, path, end)
    {
      now := now.(convs := now.convs[path := now.convs[path].(state := end)], workers := now.workers - {a});
    }

    /** One turn of a worker: a claim and the conversion of what it claimed. */
    method ConvertNext(a: nat, fates: string -> Fate) returns (path: Option<string>, ghost steps: seq<Step>)
      requires now.up && a !in now.workers && now.convs.Keys <= now.files.Keys
      modifies this
      ensures path.None? ==> PendingIn(now.convs) == {} && steps == [] && now == old(now)
      ensures path.Some? ==> path.value in PendingIn(old(now).convs)
      ensures path.Some? ==> now == Converted(ClaimedBy(old(now), a, path.value), a, path.value, fates(path.value))
      ensures Runs(u, old(now), steps) && now == Exec(u, old(now), steps)
    {
      hide Enabled, Apply, Converted, ConvertSteps, Runs, Exec;
      path := ClaimConversion(a);
      if path.None? {
        EmptyRun(u, now);
        return path, [];
      }
      ghost var claimed := now;
      ClaimIsAStep(u, old(now), a, path.value);
      Convert(a, path.value, fates(path.value));
      ConversionIsARun(u, claimed, a, path.value, fates(path.value));
      steps := ConvertSteps(claimed, a, path.value, fates(path.value));
      StepThen(u, old(now), Claim(a, path.value), steps);
      steps := [Claim(a, path.value)] + steps;
    }

    /**
      `ConvertPending`, as one worker sees it: it works the queue empty. Every row that was pending
      has reached a final state, no other row was touched, and the count is exact.
    */
    method ConvertPending(a: nat, fates: string -> Fate) returns (done: nat, ghost steps: seq<Step>)
      requires now.up && a !in now.workers && now.convs.Keys <= now.files.Keys
      modifies this
      ensures Runs(u, old(now), steps) && now == Exec(u, old(now), steps)
      ensures now.convs.Keys == old(now).convs.Keys && now.workers == old(now).workers
      ensures PendingIn(now.convs) == {} && done == |PendingIn(old(now).convs)|
      ensures forall p | p in now.convs :: WorkedOff(old(now).convs[p], now.convs[p])
    {
      hide Enabled, Apply, Converted, ConvertSteps, ClaimedBy, Runs, Exec;
      done, steps := 0, [];
      EmptyRun(u, now);
      NoProgressYet(now);
      while true
        invariant Runs(u, old(now), steps) && now == Exec(u, old(now), steps)
        invariant Progress(old(now), now, done)
        decreases |PendingIn(now.convs)|
      {
        ghost var before := now;
        var path, taken := ConvertNext(a, fates);
        RunsOn(u, old(now), steps, taken);
        if path.None? {
          WorkedEmpty(old(now), now, done);
          return;
        }
        steps := steps + taken;
        OneMoreTurn(old(now), before, a, path.value, fates(path.value), done);
        done := done + 1;
      }
    }

    /** `recover`. */
    method Requeue() returns (n: nat)
      requires !now.up
      modifies this
      ensures now == Apply(u, old(now), Recover(true))
      ensures n == |set p | p in old(now).convs && old(now).convs[p].state == Running|
    {
      hide PlaceAt, DiskKey, DigestOf, Target;
      n := |set p | p in now.convs && now.convs[p].state == Running|;
      now := now.(convs := Requeued(now.convs), up := true);
    }

    // ---- custody ----

    /**
      `Confirm`: one answer for every request, in order, each from what the disk showed it. The ledger
      notes which rows were vouched for, and nothing else changes.
    */
    method Confirm(device: string, reqs: seq<Request>, views: seq<View>) returns (answers: seq<Answer>)
      requires device != "" && |views| == |reqs|
      modifies this
      ensures |answers| == |reqs|
      ensures forall i | 0 <= i < |reqs| :: answers[i] == ConfirmOne(old(now).files, root, views[i], device, reqs[i])
      ensures now == old(now).(files := Attested(old(now).files, reqs, answers))
    {
      hide ConfirmOne, Attested;
      answers := [];
      NothingAttested(now.files, reqs);
      for i := 0 to |reqs|
        invariant |answers| == i && now == old(now).(files := Attested(old(now).files, reqs, answers))
        invariant forall j | 0 <= j < i :: answers[j] == ConfirmOne(old(now).files, root, views[j], device, reqs[j])
      {
        var answer := ConfirmOne(now.files, root, views[i], device, reqs[i]);
        AttestedAnswers(old(now).files, reqs, answers, root, views[i], device, reqs[i]);
        OneMoreAttested(old(now).files, reqs, answers, answer);
        if answer.confirmed {
          ConfirmedHasRow(now.files, root, views[i], device, reqs[i]);
          now := now.(files := now.files[reqs[i].path := now.files[reqs[i].path].(attested := true)]);
        }
        answers := answers + [answer];
      }
    }
  }

  /** One of the answers so far is a yes about this path. */
  predicate SaidYes(reqs: seq<Request>, answers: seq<Answer>, p: string) {
    exists i | 0 <= i < |answers| && i < |reqs| :: answers[i].confirmed && reqs[i].path == p
  }

  /** The rows that were vouched for say so. */
  function Attested(files: map<string, Row>, reqs: seq<Request>, answers: seq<Answer>): map<string, Row> {
    map p | p in files :: files[p].(attested := files[p].attested || SaidYes(reqs, answers, p))
  }

  lemma NothingAttested(files: map<string, Row>, reqs: seq<Request>)
    ensures Attested(files, reqs, []) == files
  {
  }

  lemma OneMoreAttested(files: map<string, Row>, reqs: seq<Request>, answers: seq<Answer>, a: Answer)
    requires |answers| < |reqs|
    ensures var path, before := reqs[|answers|].path, Attested(files, reqs, answers);
      Attested(files, reqs, answers + [a]) ==
        if a.confirmed && path in files then before[path := before[path].(attested := true)] else before
  {
    hide SaidYes;
    forall p {
      OneMoreSaid(reqs, answers, a, p);
    }
  }

  lemma OneMoreSaid(reqs: seq<Request>, answers: seq<Answer>, a: Answer, p: string)
    requires |answers| < |reqs|
    ensures SaidYes(reqs, answers + [a], p) <==> SaidYes(reqs, answers, p) || (a.confirmed && reqs[|answers|].path == p)
  {
    var longer := answers + [a];
    assert longer[|answers|] == a;
    if SaidYes(reqs, answers, p) {
      var i :| 0 <= i < |answers| && answers[i].confirmed && reqs[i].path == p;
      assert longer[i] == answers[i];
    }
  }

  /** The note that was taken plays no part in any later answer. */
  lemma AttestedAnswers(
      files: map<string, Row>, reqs: seq<Request>, answers: seq<Answer>, root: Key, view: View, device: string,
      req: Request)
    ensures ConfirmOne(Attested(files, reqs, answers), root, view, device, req) ==
      ConfirmOne(files, root, view, device, req)
    ensures Attested(files, reqs, answers).Keys == files.Keys
  {
    hide SaidYes, Resolve;
  }

  lemma ConfirmedHasRow(files: map<string, Row>, root: Key, view: View, device: string, req: Request)
    requires ConfirmOne(files, root, view, device, req).confirmed
    ensures req.path in files
  {
  }

  /** A file placed and moved in. */
  lemma CommitRuns(u: Rules, w: World, inc: Incoming, tmpl: string, bytes: Bytes)
    requires RowsOk(u, w) && PlaceAt(u, w, inc, tmpl).At?
    ensures var name := PlaceAt(u, w, inc, tmpl).name;
      var path, v := name.Path(), Claimed(w, inc, name);
      var x := v.(disk := v.disk[DiskKey(path) := bytes], placed := v.placed[path := bytes]);
      var steps := [Place(inc, tmpl), MoveIn(path, bytes)];
      && path !in w.files && path !in w.convs && DiskKey(path) !in w.disk && x.disk == w.disk[DiskKey(path) := bytes]
      && x.files[path] == RowOf(inc, name) && x.convs == w.convs
      && Runs(u, w, steps) && Exec(u, w, steps) == x && path in x.files && HoldsCommit(x, path, inc, bytes)
  {
    hide PlaceAt, Rendered.Path, DiskKey, RowsOk, Runs, Exec;
    PlacedPathIsNew(u, w, inc, tmpl);
    var name := PlaceAt(u, w, inc, tmpl).name;
    OneStep(u, Claimed(w, inc, name), MoveIn(name.Path(), bytes));
    StepThen(u, w, Place(inc, tmpl), [MoveIn(name.Path(), bytes)]);
    assert [Place(inc, tmpl)] + [MoveIn(name.Path(), bytes)] == [Place(inc, tmpl), MoveIn(name.Path(), bytes)];
  }

  /** A file placed, and taken back. */
  lemma FailedCommitRuns(u: Rules, w: World, inc: Incoming, tmpl: string, fate: CommitFate)
    requires RowsOk(u, w) && PlaceAt(u, w, inc, tmpl).At?
    ensures var name := PlaceAt(u, w, inc, tmpl).name;
      var steps, v := FailedSteps(inc, tmpl, name.Path(), fate),
          Unplaced(Claimed(w, inc, name), name.Path(), fate.rowGone, fate.fileGone);
      && Runs(u, w, steps) && Exec(u, w, steps) == v
      && (fate.rowGone && fate.fileGone ==> v == w.(pairs := v.pairs))
  {
    hide PlaceAt, Rendered.Path, DiskKey, RowsOk, Runs, Exec;
    PlacedPathIsNew(u, w, inc, tmpl);
    var name := PlaceAt(u, w, inc, tmpl).name;
    var s := Unplace(name.Path(), fate.rowGone, fate.fileGone);
    var v := Claimed(w, inc, name);
    OneStep(u, v, s);
    StepThen(u, w, Place(inc, tmpl), [s]);
    assert [Place(inc, tmpl)] + [s] == FailedSteps(inc, tmpl, name.Path(), fate);
    assert v.files - {name.Path()} == w.files && v.disk - {DiskKey(name.Path())} == w.disk;
  }

  /** Queueing its conversion does nothing to the file. */
  lemma StillHolds(w: World, v: World, path: string, inc: Incoming, bytes: Bytes)
    requires HoldsCommit(w, path, inc, bytes) && v == w.(convs := v.convs)
    ensures HoldsCommit(v, path, inc, bytes)
  {
    hide DiskKey, Rendered.Path;
  }

  lemma QueueRuns(u: Rules, w: World, path: string, policy: Policy)
    requires path in w.files && path in w.placed && path !in w.convs
    requires Decide(u.lower, policy, w.files[path].kind, path, w.files[path].pair != "").action in {Sidecar, Replace}
    ensures var d := Decide(u.lower, policy, w.files[path].kind, path, w.files[path].pair != "");
      Enabled(u, w, Enqueue(path, policy)) &&
      Apply(u, w, Enqueue(path, policy)) == w.(convs := w.convs[path := Conv(d.family, d.action, Pending)])
  {
    hide DiskKey, Decide;
  }

  predicate OfCommits(s: Step) { s.Place? || s.MoveIn? || s.Unplace? || s.Enqueue? }

  /** The steps of commits keep the books, whatever else is or is not known of the disk. */
  lemma {:induction false} CommitKeepsBooks(u: Rules, w: World, steps: seq<Step>)
    requires Filed(w) && RowsOk(u, w) && Runs(u, w, steps) && forall s | s in steps :: OfCommits(s)
    ensures Filed(Exec(u, w, steps)) && RowsOk(u, Exec(u, w, steps))
  {
    hide Enabled, Apply, Filed, RowsOk;
    if steps != [] {
      var before, s := steps[..|steps| - 1], steps[|steps| - 1];
      assert OfCommits(s) && forall t | t in before :: t in steps;
      CommitKeepsBooks(u, w, before);
      var v := Exec(u, w, before);
      StepKeepsFiled(u, v, s);
      match s
      case Place(inc, tmpl) => PlaceKeepsRows(u, v, inc, tmpl);
      case Unplace(path, rowGone, fileGone) => UnplaceKeepsRows(u, v, path, rowGone, fileGone);
      case Enqueue(path, policy) => EnqueueKeepsRows(u, v, path, policy);
      case MoveIn(path, bytes) => OtherStepsKeepRows(u, v, s);
    }
  }

  lemma PlacedPathIsNew(u: Rules, w: World, inc: Incoming, tmpl: string)
    requires RowsOk(u, w) && PlaceAt(u, w, inc, tmpl).At?
    ensures PlaceAt(u, w, inc, tmpl).name.Path() !in w.files
    ensures DiskKey(PlaceAt(u, w, inc, tmpl).name.Path()) !in w.disk
    ensures PlaceAt(u, w, inc, tmpl).name.Path() !in w.placed && PlaceAt(u, w, inc, tmpl).name.Path() !in w.convs
    ensures PlaceAt(u, w, inc, tmpl).name.Path() !in w.stuck
  {
    hide PlaceAt, Rendered.Path, DiskKey;
    PlacedIsFree(u, w, inc, tmpl);
  }
}
