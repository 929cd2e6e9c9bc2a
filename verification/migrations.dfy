/**
  core/store: several processes bring one database up to date at once. A step is one statement of one
  process; whatever a transaction did is seen by nobody until it commits, and a rollback, an error
  or the death of a process may come at any point.
*/
module Migrations {
  import opened Wrappers

  datatype Migration = Migration(version: int, name: string)

  // ---- the embedded list ----

  /** A file name, and the version its prefix parses to. */
  datatype Entry = Entry(file: string, version: Option<int>)

  datatype LoadError = BadName(file: string) | SharedVersion(file: string, other: string)

  predicate Ascending(list: seq<Migration>) {
    forall i, j | 0 <= i < j < |list| :: list[i].version < list[j].version
  }

  function Insert(list: seq<Migration>, m: Migration): seq<Migration> {
    if list == [] || list[|list| - 1].version < m.version then list + [m]
    else Insert(list[..|list| - 1], m) + [list[|list| - 1]]
  }

  lemma {:induction false} InsertAscends(list: seq<Migration>, m: Migration)
    requires Ascending(list) && forall x | x in list :: x.version != m.version
    ensures Ascending(Insert(list, m)) && |Insert(list, m)| == |list| + 1
    ensures forall x :: x in Insert(list, m) <==> x in list || x == m
  {
    if list == [] || list[|list| - 1].version < m.version {
      AppendAscends(list, m);
    } else {
      var before, last := list[..|list| - 1], list[|list| - 1];
      assert list == before + [last] && last in list;
      LastIsHighest(list);
      InsertAscends(before, m);
      AppendAscends(Insert(before, m), last);
    }
  }

  lemma AppendAscends(list: seq<Migration>, m: Migration)
    requires Ascending(list) && forall x | x in list :: x.version < m.version || (list != [] && x == list[|list| - 1])
    requires list != [] ==> list[|list| - 1].version < m.version
    ensures Ascending(list + [m]) && forall x :: x in list + [m] <==> x in list || x == m
  {
    assert forall i | 0 <= i < |list| :: list[i].version <= list[|list| - 1].version;
  }

  lemma LastIsHighest(list: seq<Migration>)
    requires Ascending(list) && list != []
    ensures Ascending(list[..|list| - 1])
    ensures forall x | x in list[..|list| - 1] :: x.version < list[|list| - 1].version
  {
    var before := list[..|list| - 1];
    assert forall i | 0 <= i < |before| :: before[i] == list[i];
  }

  /**
    `loadMigrations`: in version order, and every file in it once; or the name that could not be
    read, or the one whose version another file has.
  */
  method LoadMigrations(entries: seq<Entry>) returns (r: Result<seq<Migration>, LoadError>)
    ensures r.Ok? <==>
      && (forall e | e in entries :: e.version.Some?)
      && forall i, j | 0 <= i < j < |entries| :: entries[i].version != entries[j].version
    ensures r.Ok? ==> Ascending(r.value) && |r.value| == |entries|
    ensures r.Ok? ==> forall m :: m in r.value <==> Entry(m.name, Some(m.version)) in entries
  {
    hide Ascending, Insert;
    var out: seq<Migration> := [];
    NoneAscend();
    var seen: map<int, string> := map[];
    for i := 0 to |entries|
      invariant forall e | e in entries[..i] :: e.version.Some?
      invariant forall a, b | 0 <= a < b < i :: entries[a].version != entries[b].version
      invariant forall v :: v in seen <==> exists a | 0 <= a < i :: entries[a].version == Some(v)
      invariant Ascending(out) && |out| == i
      invariant forall m :: m in out <==> Entry(m.name, Some(m.version)) in entries[..i]
    {
      var e := entries[i];
      assert e in entries;
      assert entries[..i + 1] == entries[..i] + [e];
      if e.version.None? {
        return Err(BadName(e.file));
      }
      var v := e.version.value;
      if v in seen {
        return Err(SharedVersion(seen[v], e.file));
      }
      seen := seen[v := e.file];
      var m := Migration(v, e.file);
      forall x | x in out
        ensures x.version != v
      {
        var a :| 0 <= a < i && entries[..i][a] == Entry(x.name, Some(x.version));
      }
      InsertAscends(out, m);
      out := Insert(out, m);
    }
    assert entries[..|entries|] == entries;
    return Ok(out);
  }

  lemma NoneAscend()
    ensures Ascending([])
  {
  }

  // ---- the processes ----

  /** How far one `applyMigration` is. */
  datatype Stage = Waiting | Open | NotApplied | Ran | Inserted

  datatype Process = Migrating(next: nat, stage: Stage) | Succeeded | GaveUp

  /**
    `log` is the schema itself: the migrations committed to it, in the order they were. `table` is
    schema_migrations, and `lock` the process whose BEGIN IMMEDIATE went through.
  */
  datatype World = World(log: seq<int>, table: set<int>, lock: Option<nat>, processes: map<nat, Process>)

  datatype Step =
    | Start(p: nat)
    | Begin(p: nat)
    | Check(p: nat)
    | RunSql(p: nat)
    | InsertRow(p: nat)
    | Commit(p: nat)
    | Return(p: nat)
    | Fail(p: nat)

  function Versions(list: seq<Migration>): seq<int> {
    seq(|list|, i requires 0 <= i < |list| => list[i].version)
  }

  /** A database on which the first k migrations have been applied. */
  function Init(list: seq<Migration>, k: nat): World
    requires k <= |list|
  {
    World(Versions(list)[..k], (set v | v in Versions(list)[..k]), None, map[])
  }

  predicate AtStage(w: World, p: nat, stage: Stage) {
    p in w.processes && w.processes[p].Migrating? && w.processes[p].stage == stage
  }

  predicate Enabled(list: seq<Migration>, w: World, s: Step) {
    match s
    case Start(p) => p !in w.processes
    case Begin(p) => AtStage(w, p, Waiting) && w.processes[p].next < |list| && w.lock.None?
    case Check(p) => AtStage(w, p, Open) && w.processes[p].next < |list|
    case RunSql(p) => AtStage(w, p, NotApplied)
    case InsertRow(p) => AtStage(w, p, Ran)
    case Commit(p) => AtStage(w, p, Inserted) && w.processes[p].next < |list|
    case Return(p) => AtStage(w, p, Waiting) && w.processes[p].next == |list|
    case Fail(p) => p in w.processes && w.processes[p].Migrating?
  }

  function Becomes(w: World, p: nat, q: Process): World { w.(processes := w.processes[p := q]) }

  function Apply(list: seq<Migration>, w: World, s: Step): World
    requires Enabled(list, w, s)
  {
    match s
    case Start(p) => Becomes(w, p, Migrating(0, Waiting))
    case Begin(p) => Becomes(w.(lock := Some(p)), p, Migrating(w.processes[p].next, Open))
    case Check(p) =>
      var i := w.processes[p].next;
      if list[i].version in w.table then Becomes(w.(lock := None), p, Migrating(i + 1, Waiting))
      else Becomes(w, p, Migrating(i, NotApplied))
    case RunSql(p) => Becomes(w, p, Migrating(w.processes[p].next, Ran))
    case InsertRow(p) => Becomes(w, p, Migrating(w.processes[p].next, Inserted))
    case Commit(p) =>
      var v := list[w.processes[p].next].version;
      Becomes(w.(lock := None, log := w.log + [v], table := w.table + {v}), p,
          Migrating(w.processes[p].next + 1, Waiting))
    case Return(p) => Becomes(w, p, Succeeded)
    case Fail(p) => Becomes(w.(lock := if w.lock == Some(p) then None else w.lock), p, GaveUp)
  }

  predicate Runs(list: seq<Migration>, w: World, steps: seq<Step>)
    decreases |steps|, 0
  {
    steps == [] ||
        (Runs(list, w, steps[..|steps| - 1]) && Enabled(list, Exec(list, w, steps[..|steps| - 1]), steps[|steps| - 1]))
  }

  function Exec(list: seq<Migration>, w: World, steps: seq<Step>): World
    requires Runs(list, w, steps)
    decreases |steps|, 1
  {
    if steps == [] then w else Apply(list, Exec(list, w, steps[..|steps| - 1]), steps[|steps| - 1])
  }

  // ---- the invariant ----

  /** The schema is a prefix of the list, and the table says exactly which. */
  predicate InOrder(list: seq<Migration>, w: World) {
    w.log <= Versions(list) && w.table == set v | v in w.log
  }

  /** A process has seen everything before where it is, and whoever is about to apply is next in line. */
  predicate ProcessOk(list: seq<Migration>, w: World, p: nat)
    requires p in w.processes
  {
    match w.processes[p]
    case Migrating(i, stage) =>
      && i <= |w.log| && i <= |list|
      && (stage != Waiting <==> w.lock == Some(p))
      && (stage != Waiting ==> i < |list|)
      && (stage.NotApplied? || stage.Ran? || stage.Inserted? ==> i == |w.log|)
    case Succeeded => |w.log| == |list| && w.lock != Some(p)
    case GaveUp => w.lock != Some(p)
  }

  predicate Inv(list: seq<Migration>, w: World) {
    && InOrder(list, w)
    && (forall p | p in w.processes :: ProcessOk(list, w, p))
    && (w.lock.Some? ==> w.lock.value in w.processes)
  }

  /** A version that is not in the table, with everything before it applied, is the next one. */
  lemma NotAppliedIsNext(list: seq<Migration>, w: World, i: nat)
    requires InOrder(list, w) && i < |list| && i <= |w.log| && list[i].version !in w.table
    ensures i == |w.log|
  {
    assert forall j | 0 <= j < |w.log| :: w.log[j] == Versions(list)[j] == list[j].version && w.log[j] in w.table;
  }

  /** A version in the table is one the schema already went past. */
  lemma AppliedIsBehind(list: seq<Migration>, w: World, i: nat)
    requires Ascending(list) && InOrder(list, w) && i < |list| && list[i].version in w.table
    ensures i < |w.log|
  {
    var j :| 0 <= j < |w.log| && w.log[j] == list[i].version;
    assert w.log[j] == Versions(list)[j] == list[j].version;
  }

  lemma StepKeepsInv(list: seq<Migration>, w: World, s: Step)
    requires Ascending(list) && Inv(list, w) && Enabled(list, w, s)
    ensures Inv(list, Apply(list, w, s))
  {
    var v := Apply(list, w, s);
    assert s.p in w.processes ==> ProcessOk(list, w, s.p);
    if s.Check? {
      var i := w.processes[s.p].next;
      if list[i].version in w.table {
        AppliedIsBehind(list, w, i);
      } else {
        NotAppliedIsNext(list, w, i);
      }
    } else if s.Commit? {
      CommitKeepsOrder(list, w, w.processes[s.p].next);
    }
    forall p | p in v.processes
      ensures ProcessOk(list, v, p)
    {
      assert p in w.processes ==> ProcessOk(list, w, p);
    }
  }

  lemma CommitKeepsOrder(list: seq<Migration>, w: World, i: nat)
    requires InOrder(list, w) && i == |w.log| < |list|
    ensures w.log + [list[i].version] <= Versions(list)
    ensures w.table + {list[i].version} == set v | v in w.log + [list[i].version]
  {
    var longer := w.log + [list[i].version];
    assert forall j | 0 <= j < |longer| :: longer[j] == Versions(list)[j];
  }

  lemma {:induction false} RunKeepsInv(list: seq<Migration>, w: World, steps: seq<Step>)
    requires Ascending(list) && Inv(list, w) && Runs(list, w, steps)
    ensures Inv(list, Exec(list, w, steps))
  {
    hide Enabled, Apply, Inv;
    if steps != [] {
      RunKeepsInv(list, w, steps[..|steps| - 1]);
      StepKeepsInv(list, Exec(list, w, steps[..|steps| - 1]), steps[|steps| - 1]);
    }
  }

  lemma InitInv(list: seq<Migration>, k: nat)
    requires k <= |list|
    ensures Inv(list, Init(list, k))
  {
  }

  /**
    Whatever the interleaving, and wherever anybody fails: what has been applied is a prefix of the
    list in version order, nothing twice; and a process that returns success saw all of it applied.
  */
  lemma AppliedIsAPrefix(list: seq<Migration>, k: nat, steps: seq<Step>, p: nat)
    requires Ascending(list) && k <= |list| && Runs(list, Init(list, k), steps)
    ensures var w := Exec(list, Init(list, k), steps);
      && w.log <= Versions(list)
      && (forall i, j | 0 <= i < j < |w.log| :: w.log[i] < w.log[j])
      && w.table == (set v | v in w.log)
      && (p in w.processes && w.processes[p] == Succeeded ==> w.log == Versions(list))
  {
    hide Enabled, Apply, Runs, Exec;
    InitInv(list, k);
    RunKeepsInv(list, Init(list, k), steps);
    var w := Exec(list, Init(list, k), steps);
    assert p in w.processes ==> ProcessOk(list, w, p);
    assert |Versions(list)| == |list|;
  }

  /** Only the process whose BEGIN IMMEDIATE went through can be between its check and its commit. */
  lemma OneAtATime(list: seq<Migration>, w: World, p: nat, q: nat)
    requires Inv(list, w) && p in w.processes && q in w.processes
    requires w.processes[p].Migrating? && w.processes[p].stage != Waiting && w.processes[q].Migrating?
    requires w.processes[q].stage != Waiting
    ensures p == q
  {
    assert ProcessOk(list, w, p) && ProcessOk(list, w, q);
  }

  // ---- one process, from its first statement to its last ----

  /** The statement of a transaction that goes wrong, if any. */
  datatype Trouble = NoTrouble | AtBegin | AtCheck | AtSql | AtInsert | AtCommit

  lemma Extend(list: seq<Migration>, w: World, steps: seq<Step>, s: Step)
    requires Runs(list, w, steps) && Enabled(list, Exec(list, w, steps), s)
    ensures Runs(list, w, steps + [s]) && Exec(list, w, steps + [s]) == Apply(list, Exec(list, w, steps), s)
  {
    hide Enabled, Apply;
    assert (steps + [s])[..|steps + [s]| - 1] == steps;
  }

  /** Whether an `applyMigration` that runs into this comes back without an error. */
  predicate Gets(applied: bool, t: Trouble) {
    t == NoTrouble || (applied && t != AtBegin && t != AtCheck)
  }

  /** When others get their turn: before each statement of a transaction. */
  datatype Moment = BeforeBegin | BeforeCheck | BeforeSql | BeforeInsert | BeforeCommit

  /** The steps that were this process's own. */
  function Own(steps: seq<Step>, p: nat): seq<Step> {
    if steps == [] then []
    else
      var before, last := Own(steps[..|steps| - 1], p), steps[|steps| - 1];
      if last.p == p then before + [last] else before
  }

  lemma OwnAppend(steps: seq<Step>, s: Step, p: nat)
    ensures Own(steps + [s], p) == if s.p == p then Own(steps, p) + [s] else Own(steps, p)
  {
    assert (steps + [s])[..|steps + [s]| - 1] == steps;
  }

  /** What is left to do of a transaction whose check found nothing. */
  function Writes(p: nat, t: Trouble): seq<Step> {
    if t == AtSql then [Fail(p)]
    else if t == AtInsert then [RunSql(p), Fail(p)]
    else if t == AtCommit then [RunSql(p), InsertRow(p), Fail(p)]
    else [RunSql(p), InsertRow(p), Commit(p)]
  }

  /** One `applyMigration`, statement by statement. */
  function Statements(p: nat, t: Trouble, busy: bool, found: bool): seq<Step> {
    if busy || t == AtBegin then [Fail(p)]
    else if t == AtCheck then [Begin(p), Fail(p)]
    else [Begin(p), Check(p)] + if found then [] else Writes(p, t)
  }

  /** This process is where it was, with the lock if it had it, and nothing applied was taken back. */
  predicate StillThere(w: World, v: World, p: nat) {
    && p in w.processes && p in v.processes && v.processes[p] == w.processes[p] && w.log <= v.log
    && (w.lock == Some(p) <==> v.lock == Some(p))
    && (w.lock == Some(p) ==> v.log == w.log && v.table == w.table)
  }

  /** Nobody else can move a process, or write while it holds the lock. */
  lemma OthersLeaveItThere(list: seq<Migration>, w: World, s: Step, p: nat)
    requires Inv(list, w) && Enabled(list, w, s) && s.p != p && p in w.processes
    ensures StillThere(w, Apply(list, w, s), p)
  {
    assert ProcessOk(list, w, p) && (s.p in w.processes ==> ProcessOk(list, w, s.p));
  }

  class Database {
    const list: seq<Migration>
    var now: World

    constructor (list: seq<Migration>, w: World)
      ensures this.list == list && now == w
    {
      this.list, now := list, w;
    }

    /** These steps, taken from there, led here, where everything is in order. */
    ghost predicate Reached(w: World, steps: seq<Step>)
      reads this
    {
      Ascending(list) && Runs(list, w, steps) && now == Exec(list, w, steps) && Inv(list, now)
    }

    ghost method Advance(was: World, w: World, steps: seq<Step>, s: Step) returns (longer: seq<Step>)
      requires Ascending(list) && Runs(list, w, steps) && was == Exec(list, w, steps) && Inv(list, was)
      requires Enabled(list, was, s) && now == Apply(list, was, s)
      ensures longer == steps + [s] && Reached(w, longer)
      ensures forall p :: Own(longer, p) == if s.p == p then Own(steps, p) + [s] else Own(steps, p)
    {
      hide Enabled, Apply, Inv, Own, Ascending;
      Extend(list, w, steps, s);
      StepKeepsInv(list, was, s);
      longer := steps + [s];
      forall p {
        OwnAppend(steps, s, p);
      }
    }

    /** What other processes do in the meantime, as far as they can. */
    method Meanwhile(p: nat, others: seq<Step>, ghost w: World, ghost steps: seq<Step>)
        returns (ghost longer: seq<Step>)
      requires Reached(w, steps) && p in now.processes
      modifies this
      ensures Reached(w, longer) && StillThere(old(now), now, p) && Own(longer, p) == Own(steps, p)
    {
      hide Runs, Exec, Inv, Own, Ascending, Enabled, Apply;
      longer := steps;
      for i := 0 to |others|
        invariant Reached(w, longer) && StillThere(old(now), now, p) && Own(longer, p) == Own(steps, p)
      {
        if others[i].p != p && Enabled(list, now, others[i]) {
          ghost var was := now;
          OthersLeaveItThere(list, was, others[i], p);
          now := Apply(list, now, others[i]);
          longer := Advance(was, w, longer, others[i]);
        }
      }
    }

    /** The deferred rollback of a transaction that did not commit, and the error that is returned. */
    method GiveUp(p: nat, ghost w: World, ghost steps: seq<Step>) returns (ghost longer: seq<Step>)
      requires Reached(w, steps) && p in now.processes && now.processes[p].Migrating?
      modifies this
      ensures Reached(w, longer) && Own(longer, p) == Own(steps, p) + [Fail(p)]
      ensures p in now.processes && now.processes[p] == GaveUp && now.lock != Some(p) && now.log == old(now).log
    {
      hide Runs, Exec, Inv, Own, Ascending;
      ghost var was := now;
      now := Becomes(now.(lock := if now.lock == Some(p) then None else now.lock), p, GaveUp);
      longer := Advance(was, w, steps, Fail(p));
    }

    /** One of the two writes inside a transaction, or the rollback when it goes wrong. */
    method Write(p: nat, i: nat, insert: bool, fails: bool, others: seq<Step>, ghost w: World, ghost steps: seq<Step>)
        returns (ghost longer: seq<Step>)
      requires Reached(w, steps) && p in now.processes && now.lock == Some(p)
      requires now.processes[p] == Migrating(i, if insert then Ran else NotApplied)
      modifies this
      ensures Reached(w, longer) && p in now.processes && now.log == old(now).log
      ensures fails ==> now.processes[p] == GaveUp && now.lock != Some(p) && Own(longer, p) == Own(steps, p) + [Fail(p)]
      ensures !fails ==> now.processes[p] == Migrating(i, if insert then Inserted else Ran) && now.lock == Some(p)
      ensures !fails ==> Own(longer, p) == Own(steps, p) + [if insert then InsertRow(p) else RunSql(p)]
    {
      hide Runs, Exec, Inv, Own, Ascending;
      longer := Meanwhile(p, others, w, steps);
      if fails {
        longer := GiveUp(p, w, longer);
        return;
      }
      ghost var was := now;
      now := Becomes(now, p, Migrating(i, if insert then Inserted else Ran));
      longer := Advance(was, w, longer, if insert then InsertRow(p) else RunSql(p));
    }

    /** The rest of a transaction that found its migration missing. */
    method RunMigration(
        p: nat, i: nat, t: Trouble, meanwhile: Moment -> seq<Step>, ghost w: World, ghost steps: seq<Step>)
        returns (ok: bool, ghost longer: seq<Step>)
      requires Reached(w, steps)
      requires i < |list| && now.lock == Some(p) && p in now.processes && now.processes[p] == Migrating(i, NotApplied)
      modifies this
      ensures Reached(w, longer) && Own(longer, p) == Own(steps, p) + Writes(p, t)
      ensures ok <==> t != AtSql && t != AtInsert && t != AtCommit
      ensures p in now.processes && now.processes[p] == (if ok then Migrating(i + 1, Waiting) else GaveUp)
      ensures now.lock != Some(p)
      ensures now.log == if ok then old(now).log + [list[i].version] else old(now).log
    {
      hide Runs, Exec, Inv, Own, Ascending, Reached;
      longer := Write(p, i, false, t == AtSql, meanwhile(BeforeSql), w, steps);
      if t == AtSql {
        return false, longer;
      }
      longer := Write(p, i, true, t == AtInsert, meanwhile(BeforeInsert), w, longer);
      if t == AtInsert {
        return false, longer;
      }
      longer := Meanwhile(p, meanwhile(BeforeCommit), w, longer);
      if t == AtCommit {
        longer := GiveUp(p, w, longer);
        return false, longer;
      }
      longer := CommitVersion(p, i, w, longer);
      return true, longer;
    }

    method CommitVersion(p: nat, i: nat, ghost w: World, ghost steps: seq<Step>) returns (ghost longer: seq<Step>)
      requires Reached(w, steps) && i < |list| && p in now.processes && now.processes[p] == Migrating(i, Inserted)
      modifies this
      ensures Reached(w, longer) && Own(longer, p) == Own(steps, p) + [Commit(p)]
      ensures p in now.processes && now.processes[p] == Migrating(i + 1, Waiting) && now.lock.None?
      ensures now.log == old(now).log + [list[i].version]
    {
      hide Runs, Exec, Inv, Own, Ascending;
      ghost var was := now;
      var v := list[i].version;
      now := Becomes(now.(lock := None, log := now.log + [v], table := now.table + {v}), p, Migrating(i + 1, Waiting));
      longer := Advance(was, w, steps, Commit(p));
    }

    /** The lock, unless somebody else has it for too long. */
    method BeginImmediate(p: nat, i: nat, fails: bool, others: seq<Step>, ghost w: World, ghost steps: seq<Step>)
        returns (busy: bool, ghost longer: seq<Step>)
      requires Reached(w, steps) && i < |list| && p in now.processes && now.processes[p] == Migrating(i, Waiting)
      modifies this
      ensures Reached(w, longer) && p in now.processes && old(now).log <= now.log
      ensures busy || fails ==>
        now.processes[p] == GaveUp && now.lock != Some(p) && Own(longer, p) == Own(steps, p) + [Fail(p)]
      ensures !(busy || fails) ==>
        now.processes[p] == Migrating(i, Open) && now.lock == Some(p) && Own(longer, p) == Own(steps, p) + [Begin(p)]
    {
      hide Runs, Exec, Inv, Own, Ascending;
      longer := Meanwhile(p, others, w, steps);
      busy := now.lock.Some?;
      if busy || fails {
        longer := GiveUp(p, w, longer);
        return busy, longer;
      }
      ghost var was := now;
      now := Becomes(now.(lock := Some(p)), p, Migrating(i, Open));
      longer := Advance(was, w, longer, Begin(p));
    }

    /**
      `applyMigration`, with other processes at work before each of its statements: exactly these
      statements, and applied once or not at all. It is `busy` when BEGIN IMMEDIATE waited in vain
      for somebody else, and it has `found` the version when somebody else was first.
    */
    method ApplyMigration(
        p: nat, i: nat, t: Trouble, meanwhile: Moment -> seq<Step>, ghost w: World, ghost steps: seq<Step>)
        returns (ok: bool, busy: bool, found: bool, ghost longer: seq<Step>)
      requires Reached(w, steps) && i < |list| && p in now.processes && now.processes[p] == Migrating(i, Waiting)
      modifies this
      ensures Reached(w, longer) && Own(longer, p) == Own(steps, p) + Statements(p, t, busy, found)
      ensures ok <==> !busy && Gets(found, t)
      ensures p in now.processes && now.processes[p] == (if ok then Migrating(i + 1, Waiting) else GaveUp)
      ensures now.lock != Some(p)
      ensures old(now).log <= now.log && (ok ==> list[i].version in now.log)
    {
      hide Runs, Exec, Inv, Own, Ascending;
      found := false;
      busy, longer := BeginImmediate(p, i, t == AtBegin, meanwhile(BeforeBegin), w, steps);
      if busy || t == AtBegin {
        return false, busy, found, longer;
      }
      longer := Meanwhile(p, meanwhile(BeforeCheck), w, longer);
      if t == AtCheck {
        longer := GiveUp(p, w, longer);
        return false, busy, found, longer;
      }
      TableIsLog(list, now);
      found := list[i].version in now.table;
      ghost var was := now;
      if found {
        now := Becomes(now.(lock := None), p, Migrating(i + 1, Waiting));
        longer := Advance(was, w, longer, Check(p));
        return true, busy, found, longer;
      }
      now := Becomes(now, p, Migrating(i, NotApplied));
      longer := Advance(was, w, longer, Check(p));
      ok, longer := RunMigration(p, i, t, meanwhile, w, longer);
    }

    /**
      `migrate`, with any number of other processes migrating at the same time: when it returns
      success the whole list is applied, and when nothing went wrong and it never waited in vain
      it does. Whatever it does, what is applied is a prefix of the list and only grows.
    */
    method Migrate(p: nat, troubles: nat -> Trouble, meanwhile: (nat, Moment) -> seq<Step>)
        returns (ok: bool, waited: bool, ghost steps: seq<Step>)
      requires Ascending(list) && Inv(list, now) && p !in now.processes
      modifies this
      ensures Runs(list, old(now), steps) && now == Exec(list, old(now), steps)
      ensures Inv(list, now) && old(now).log <= now.log <= Versions(list)
      ensures ok ==> now.log == Versions(list)
      ensures p in now.processes && now.processes[p] == (if ok then Succeeded else GaveUp) && now.lock != Some(p)
      ensures (forall i | 0 <= i < |list| :: troubles(i) == NoTrouble) && !waited ==> ok
    {
      hide Runs, Exec, Inv, Gets, Own, Ascending, Statements;
      NoSteps(list, now);
      steps, waited := [], false;
      ghost var was := now;
      now := Becomes(now, p, Migrating(0, Waiting));
      LocksOnlyIfThere(list, was, p);
      steps := Advance(was, old(now), steps, Start(p));
      var i := 0;
      while i < |list|
        invariant 0 <= i <= |list| && Reached(old(now), steps) && old(now).log <= now.log && !waited
        invariant p in now.processes && now.processes[p] == Migrating(i, Waiting) && now.lock != Some(p)
      {
        var busy, found;
        ok, busy, found, steps := ApplyMigration(p, i, troubles(i), m => meanwhile(i, m), old(now), steps);
        NoTroubleGets(troubles(i));
        InvMeansPrefix(list, now);
        if !ok {
          waited := busy;
          return;
        }
        i := i + 1;
      }
      AllSeen(list, now, p);
      was := now;
      now := Becomes(now, p, Succeeded);
      steps := Advance(was, old(now), steps, Return(p));
      ok := true;
    }
  }

  lemma NoTroubleGets(t: Trouble)
    ensures t == NoTrouble ==> Gets(true, t) && Gets(false, t)
  {
  }

  lemma NoSteps(list: seq<Migration>, w: World)
    ensures Runs(list, w, []) && Exec(list, w, []) == w
  {
  }

  lemma TableIsLog(list: seq<Migration>, w: World)
    requires Inv(list, w)
    ensures forall v :: v in w.table <==> v in w.log
  {
  }

  lemma LocksOnlyIfThere(list: seq<Migration>, w: World, p: nat)
    requires Inv(list, w) && p !in w.processes
    ensures w.lock != Some(p)
  {
  }

  lemma InvMeansPrefix(list: seq<Migration>, w: World)
    requires Inv(list, w)
    ensures w.log <= Versions(list)
  {
  }

  lemma AllSeen(list: seq<Migration>, w: World, p: nat)
    requires Inv(list, w) && p in w.processes && w.processes[p] == Migrating(|list|, Waiting)
    ensures w.log == Versions(list)
  {
    assert ProcessOk(list, w, p);
  }
}
