/**
  The receiver as a transition system: the ledger's tables, the destination directory, and the
  conversion workers. SQL statements, renames and unlinks are steps of their own, so a crash may fall
  between any two. Three steps join effects: `Place` is the exclusive create and the ledger
  transaction that follows it, `Unplace` the two deletions that take them back, and `Produce` the
  exclusive create of the copy's name and the rename over it.
*/
module Ledger {
  import opened Wrappers
  import opened Texts
  import opened Naming
  import opened OutputPolicy
  import opened Hashing

  /** Where a file is below the destination directory. */
  type Key = seq<string>

  /** `maxCollisionAttempts`. */
  const MAX_ATTEMPTS := 10_000

  const INCOMING_DIR := ".incoming"

  datatype Incoming = Incoming(device: string, vars: Vars, pair: string, kind: Kind, digest: Digest)

  /** A row of `files`. `removed` and `attested` are original_removed_at and custody_confirmed_at being set. */
  datatype Row = Row(device: string, digest: Digest, name: Rendered, pair: string, kind: Kind, removed: bool,
      attested: bool)

  datatype ConvState = Pending | Running | Done | Skipped | Failed

  /** A row of `conversions`. */
  datatype Conv = Conv(family: Class, action: Action, state: ConvState)

  /** How far one worker is with the row it holds. */
  datatype Phase = Holding | Probed | Copied | Marked | Undoing | Settling(end: ConvState)

  datatype Worker = Worker(path: string, phase: Phase)

  /**
    `files` is keyed by its UNIQUE stored_path and `conversions` by the file it belongs to, also
    UNIQUE. `placed`, `stuck` and `gone` are history: what was moved in for each row whose commit got
    that far, the rows that stayed although their file could not be moved in, and the rows whose
    original a worker deleted. `up` says that the interrupted rows of the last crash were dealt with.
  */
  datatype World = World(
    files: map<string, Row>,
    pairs: map<(string, string), (string, string)>,
    disk: map<Key, Bytes>,
    convs: map<string, Conv>,
    workers: map<nat, Worker>,
    placed: map<string, Bytes>,
    stuck: set<string>,
    gone: set<string>,
    up: bool)

  /** A fresh ledger over a directory that may already hold anything. */
  function Init(disk: map<Key, Bytes>): World {
    World(map[], map[], disk, map[], map[], map[], {}, {}, false)
  }

  // ---- choosing a name ----

  datatype Placement = At(name: Rendered) | Unusable(error: NameError) | NoSpace

  predicate Named(r: Row, dir: string, base: string) { r.name.dir == dir && r.name.base == base }

  /** `basenameTaken`: whatever the extension. */
  predicate Taken(files: map<string, Row>, dir: string, base: string) {
    exists p | p in files :: Named(files[p], dir, base)
  }

  /** `claim` would win this name, on disk and in the ledger. */
  predicate Free(files: map<string, Row>, disk: map<Key, Bytes>, name: Rendered) {
    DiskKey(name.Path()) !in disk && name.Path() !in files
  }

  function Search(
      u: Rules, files: map<string, Row>, disk: map<Key, Bytes>, tmpl: string, vars: Vars, counter: nat): Placement
    requires counter <= MAX_ATTEMPTS
    decreases MAX_ATTEMPTS - counter
  {
    if counter == MAX_ATTEMPTS then NoSpace
    else
      match u.render(tmpl, vars, counter)
      case Err(e) => Unusable(e)
      case Ok(name) =>
        if Taken(files, name.dir, name.base) || !Free(files, disk, name)
        then Search(u, files, disk, tmpl, vars, counter + 1)
        else At(name)
  }

  function PlaceAt(u: Rules, w: World, inc: Incoming, tmpl: string): Placement {
    if inc.pair != "" && (inc.device, inc.pair) in w.pairs then
      match u.render(tmpl, inc.vars, 0)
      case Err(e) => Unusable(e)
      case Ok(res) =>
        var (dir, base) := w.pairs[(inc.device, inc.pair)];
        var name := Rendered(dir, base, res.ext);
        if Free(w.files, w.disk, name) then At(name) else Search(u, w.files, w.disk, tmpl, inc.vars, 0)
    else Search(u, w.files, w.disk, tmpl, inc.vars, 0)
  }

  function RowOf(inc: Incoming, name: Rendered): Row {
    Row(inc.device, inc.digest, name, inc.pair, inc.kind, false, false)
  }

  /** `claim` and `record`: an empty file, a row, and for a pair's first member the reservation. */
  function Claimed(w: World, inc: Incoming, name: Rendered): World {
    var path := name.Path();
    var reserved := if inc.pair != "" && (inc.device, inc.pair) !in w.pairs
      then w.pairs[(inc.device, inc.pair) := (name.dir, name.base)] else w.pairs;
    w.(files := w.files[path := RowOf(inc, name)], pairs := reserved, disk := w.disk[DiskKey(path) := []])
  }

  // ---- where a converted copy lands ----

  /** The extension a conversion of this class produces, when there is one to do. */
  function Target(family: Class, path: string): Option<string> {
    match family
    case Heic => Some("jpg")
    case VideoClass => if UpperAscii(ExtOf(path)) == "MP4" then None else Some("mp4")
    case _ => None
  }

  function Stem(name: string): string { name[..ExtAt(name)] }

  function Slot(key: Key, ext: string, counter: nat): Key
    requires key != []
  {
    key[..|key| - 1] + [Stem(key[|key| - 1]) + CounterText(counter) + "." + ext]
  }

  /** The first of a hundred candidate names that nothing on disk has. */
  function SlotFrom(disk: map<Key, Bytes>, key: Key, ext: string, counter: nat): Option<Key>
    requires key != [] && counter <= 100
    decreases 100 - counter
  {
    if counter == 100 then None
    else if Slot(key, ext, counter) in disk then SlotFrom(disk, key, ext, counter + 1)
    else Some(Slot(key, ext, counter))
  }

  lemma {:induction false} SlotFound(disk: map<Key, Bytes>, key: Key, ext: string, counter: nat)
    requires key != [] && counter <= 100 && SlotFrom(disk, key, ext, counter).Some?
    ensures SlotFrom(disk, key, ext, counter).value !in disk
    ensures exists c: nat | c < 100 :: SlotFrom(disk, key, ext, counter).value == Slot(key, ext, c)
    decreases 100 - counter
  {
    if Slot(key, ext, counter) in disk {
      SlotFound(disk, key, ext, counter + 1);
    }
  }

  // ---- the steps ----

  /** A file directly in the directory of partial uploads. */
  predicate Sweepable(k: Key) { |k| == 2 && k[0] == INCOMING_DIR }

  datatype Step =
    | Place(incoming: Incoming, tmpl: string)
    | MoveIn(path: string, bytes: Bytes)
    | Unplace(path: string, rowGone: bool, fileGone: bool)
    | Enqueue(path: string, policy: Policy)
    | Claim(worker: nat, path: string)
    | Probe(worker: nat)
    | Refuse(worker: nat, end: ConvState)
    | Produce(worker: nat, copy: Bytes)
    | KeepOriginal(worker: nat)
    | Mark(worker: nat)
    | Remove(worker: nat)
    | RemoveFails(worker: nat)
    | Undo(worker: nat)
    | UndoFails(worker: nat)
    | Settle(worker: nat)
    | Abandon(worker: nat)
    | Crash
    | Recover(ok: bool)
    | Attest(path: string)
    | Sweep(victims: set<Key>)
    | Outside(key: Key, content: Option<Bytes>)

  predicate AtPhase(w: World, a: nat, phase: Phase) {
    a in w.workers && w.workers[a].phase == phase && w.workers[a].path in w.files && w.workers[a].path in w.convs
  }

  function SlotOf(w: World, a: nat): Option<Key>
    requires a in w.workers && w.workers[a].path in w.convs
  {
    var path := w.workers[a].path;
    var ext := Target(w.convs[path].family, path);
    if ext.None? || DiskKey(path) == [] then None else SlotFrom(w.disk, DiskKey(path), ext.value, 0)
  }

  predicate Enabled(u: Rules, w: World, s: Step) {
    match s
    case Place(inc, tmpl) => PlaceAt(u, w, inc, tmpl).At?
    case MoveIn(path, bytes) => path in w.files && path !in w.placed && path !in w.stuck
    case Unplace(path, rowGone, fileGone) => path in w.files && path !in w.placed && path !in w.stuck
    case Enqueue(path, policy) => path in w.files && path in w.placed && path !in w.convs &&
      ToDo(u, w, path, policy).action in {Sidecar, Replace}
    case Claim(a, path) => w.up && a !in w.workers && path in w.files && path in w.convs &&
      w.convs[path].state == Pending
    case Probe(a) => AtPhase(w, a, Holding) && DiskKey(w.workers[a].path) in w.disk
    case Refuse(a, end) => (AtPhase(w, a, Holding) || AtPhase(w, a, Probed)) && end in {Skipped, Failed}
    case Produce(a, copy) => AtPhase(w, a, Probed) && copy != [] && SlotOf(w, a).Some?
    case KeepOriginal(a) => AtPhase(w, a, Copied)
    case Mark(a) => AtPhase(w, a, Copied) && w.convs[w.workers[a].path].action == Replace
    case Remove(a) => AtPhase(w, a, Marked)
    case RemoveFails(a) => AtPhase(w, a, Marked)
    case Undo(a) => AtPhase(w, a, Undoing)
    case UndoFails(a) => AtPhase(w, a, Undoing)
    case Settle(a) => a in w.workers && w.workers[a].phase.Settling? && w.workers[a].path in w.convs
    case Abandon(a) => a in w.workers
    case Crash => true
    case Recover(ok) => !w.up
    case Attest(path) => path in w.files
    case Sweep(victims) => forall k | k in victims :: Sweepable(k)
    case Outside(key, content) => forall p | p in w.files :: DiskKey(p) != key
  }

  function ToDo(u: Rules, w: World, path: string, policy: Policy): Decision
    requires path in w.files
  {
    Decide(u.lower, policy, w.files[path].kind, path, w.files[path].pair != "")
  }

  function To(w: World, a: nat, phase: Phase): World
    requires a in w.workers
  {
    w.(workers := w.workers[a := w.workers[a].(phase := phase)])
  }

  function SetRemoved(w: World, path: string, removed: bool): World
    requires path in w.files
  {
    w.(files := w.files[path := w.files[path].(removed := removed)])
  }

  /** `recover`: rows a previous process was working on go back to the queue. */
  function Requeued(convs: map<string, Conv>): map<string, Conv> {
    map p | p in convs :: if convs[p].state == Running then convs[p].(state := Pending) else convs[p]
  }

  /** `unplace`: the file could not be moved in, and either deletion may fail unnoticed. */
  function Unplaced(w: World, path: string, rowGone: bool, fileGone: bool): World {
    w.(files := if rowGone then w.files - {path} else w.files,
       stuck := if rowGone then w.stuck else w.stuck + {path},
       disk := if fileGone then w.disk - {DiskKey(path)} else w.disk)
  }

  function Apply(u: Rules, w: World, s: Step): World
    requires Enabled(u, w, s)
  {
    match s
    case Place(inc, tmpl) => Claimed(w, inc, PlaceAt(u, w, inc, tmpl).name)
    case MoveIn(path, bytes) => w.(disk := w.disk[DiskKey(path) := bytes], placed := w.placed[path := bytes])
    case Unplace(path, rowGone, fileGone) => Unplaced(w, path, rowGone, fileGone)
    case Enqueue(path, policy) =>
      var d := ToDo(u, w, path, policy);
      w.(convs := w.convs[path := Conv(d.family, d.action, Pending)])
    case Claim(a, path) =>
      w.(convs := w.convs[path := w.convs[path].(state := Running)], workers := w.workers[a := Worker(path, Holding)])
    case Probe(a) => To(w, a, Probed)
    case Refuse(a, end) => To(w, a, Settling(end))
    case Produce(a, copy) => To(w.(disk := w.disk[SlotOf(w, a).value := copy]), a, Copied)
    case KeepOriginal(a) => To(w, a, Settling(Done))
    case Mark(a) => To(SetRemoved(w, w.workers[a].path, true), a, Marked)
    case Remove(a) =>
      var path := w.workers[a].path;
      To(w.(disk := w.disk - {DiskKey(path)}, gone := w.gone + {path}), a, Settling(Done))
    case RemoveFails(a) => To(w, a, Undoing)
    case Undo(a) => To(SetRemoved(w, w.workers[a].path, false), a, Settling(Done))
    case UndoFails(a) => To(w, a, Settling(Done))
    case Settle(a) =>
      var path := w.workers[a].path;
      w.(convs := w.convs[path := w.convs[path].(state := w.workers[a].phase.end)], workers := w.workers - {a})
    case Abandon(a) => w.(workers := w.workers - {a})
    case Crash => w.(workers := map[], up := false)
    case Recover(ok) => w.(convs := if ok then Requeued(w.convs) else w.convs, up := true)
    case Attest(path) => w.(files := w.files[path := w.files[path].(attested := true)])
    case Sweep(victims) => w.(disk := w.disk - victims)
    case Outside(key, content) =>
      w.(disk := match content case Some(b) => w.disk[key := b] case None => w.disk - {key})
  }

  /** A run: each step was possible where it was taken. */
  predicate Runs(u: Rules, w: World, steps: seq<Step>)
    decreases |steps|, 0
  {
    steps == [] ||
        (Runs(u, w, steps[..|steps| - 1]) && Enabled(u, Exec(u, w, steps[..|steps| - 1]), steps[|steps| - 1]))
  }

  function Exec(u: Rules, w: World, steps: seq<Step>): World
    requires Runs(u, w, steps)
    decreases |steps|, 1
  {
    if steps == [] then w else Apply(u, Exec(u, w, steps[..|steps| - 1]), steps[|steps| - 1])
  }

  // ---- what a step leaves alone ----

  /** The steps that write the conversion queue, and what they write. */
  function NextConvs(u: Rules, w: World, s: Step): map<string, Conv>
    requires Enabled(u, w, s)
  {
    match s
    case Enqueue(path, policy) =>
      var d := ToDo(u, w, path, policy);
      w.convs[path := Conv(d.family, d.action, Pending)]
    case Claim(a, path) => w.convs[path := w.convs[path].(state := Running)]
    case Settle(a) =>
      var path := w.workers[a].path;
      w.convs[path := w.convs[path].(state := w.workers[a].phase.end)]
    case Recover(ok) => if ok then Requeued(w.convs) else w.convs
    case _ => w.convs
  }

  lemma PlacedNext(u: Rules, w: World, s: Step)
    requires Enabled(u, w, s)
    ensures Apply(u, w, s).placed == NextPlaced(w, s)
  {
    if Moves(s) {
      hide Enabled, Apply;
      MovesFrame(u, w, s);
    } else {
      hide DiskKey, Target, PlaceAt, SlotFrom, SlotOf, ToDo, Requeued, Rendered.Path;
    }
  }

  function NextPlaced(w: World, s: Step): map<string, Bytes> {
    match s
    case MoveIn(path, bytes) => w.placed[path := bytes]
    case _ => w.placed
  }

  /** Who works on what once the step is taken. */
  function NextWorkers(w: World, s: Step): map<nat, Worker>
    requires Moves(s) || Writing(s) ==> s.worker in w.workers
  {
    match s
    case Claim(a, path) => w.workers[a := Worker(path, Holding)]
    case Probe(a) => w.workers[a := w.workers[a].(phase := Probed)]
    case Refuse(a, end) => w.workers[a := w.workers[a].(phase := Settling(end))]
    case Produce(a, _) => w.workers[a := w.workers[a].(phase := Copied)]
    case Mark(a) => w.workers[a := w.workers[a].(phase := Marked)]
    case RemoveFails(a) => w.workers[a := w.workers[a].(phase := Undoing)]
    case KeepOriginal(a) => w.workers[a := w.workers[a].(phase := Settling(Done))]
    case Remove(a) => w.workers[a := w.workers[a].(phase := Settling(Done))]
    case Undo(a) => w.workers[a := w.workers[a].(phase := Settling(Done))]
    case UndoFails(a) => w.workers[a := w.workers[a].(phase := Settling(Done))]
    case Settle(a) => w.workers - {a}
    case Abandon(a) => w.workers - {a}
    case Crash => map[]
    case _ => w.workers
  }

  lemma WorkersNext(u: Rules, w: World, s: Step)
    requires Enabled(u, w, s)
    ensures Moves(s) || Writing(s) ==> s.worker in w.workers
    ensures Apply(u, w, s).workers == NextWorkers(w, s)
  {
    hide DiskKey, Target, PlaceAt, SlotFrom, SlotOf, ToDo, Requeued, Rendered.Path;
  }

  lemma ConvsNext(u: Rules, w: World, s: Step)
    requires Enabled(u, w, s)
    ensures Apply(u, w, s).convs == NextConvs(u, w, s)
  {
    hide DiskKey, Target, PlaceAt, SlotFrom, SlotOf, ToDo, Requeued, Rendered.Path;
  }

  /** A worker that moves on, or stops, without writing either table. */
  predicate Forward(s: Step) {
    s.Refuse? || s.Produce? || s.KeepOriginal? || s.RemoveFails? || s.UndoFails? || s.Abandon?
  }

  predicate Moves(s: Step) { Forward(s) || s.Probe? }

  predicate Writing(s: Step) { s.Mark? || s.Remove? || s.Undo? || s.Settle? }

  /** One worker is elsewhere, or gone, with at most its copy to show for it. */
  predicate Moved(w: World, v: World, a: nat) {
    && a in w.workers && v.(disk := w.disk, workers := w.workers) == w
    && v.workers.Keys <= w.workers.Keys
    && (forall b | b in v.workers :: v.workers[b].path == w.workers[b].path)
    && (forall b | b in w.workers && b != a :: b in v.workers && v.workers[b] == w.workers[b])
  }

  lemma MovesFrame(u: Rules, w: World, s: Step)
    requires Enabled(u, w, s) && Moves(s)
    ensures Moved(w, Apply(u, w, s), s.worker)
  {
    hide DiskKey, Target, PlaceAt, SlotFrom, SlotOf, ToDo;
  }
}
