/**
  Two parties, one item at a time: a receiver's outbox and the phones that collect from it
  (mobile/src/engine/inbox.ts, mobile/src/data/inbox.ts). Every effect is a step, so the phone may
  be killed between any two, downloads may be cut off or spliced, sources may be edited, and
  acknowledgements may be lost, repeated or late. One step joins effects: `Serve` is the receiver looking
  the item up, reading or failing its source, and noting that it was handed out.
*/
module Delivery {
  import opened Wrappers
  import opened Texts
  import opened Hashing
  import opened Outbox

  /** A row of `received`: the digest it was saved under, and whether the receiver still has to be told. */
  datatype Record = Record(sha: Sha, unacked: bool)

  datatype Staging = Arriving | Staged(bytes: Bytes) | MovedAway

  /** A download the system carries on with by itself. */
  datatype Job = Job(sha: Sha, staging: Staging)

  /** How far the one save in progress is. */
  datatype Phase = Verified | PutAway | Noted

  /** The save in progress: the item and digest of the job it was started for. */
  datatype Saving = Saving(id: Id, sha: Sha, phase: Phase)

  /**
    `offered` and `wanted` are one check's listing and what it will ask for. `library` is everything
    ever put away, and `mishaps` the items whose save was cut off after that and before the record.
  */
  datatype Phone = Phone(
    received: map<Id, Record>,
    jobs: map<Id, Job>,
    saving: Option<Saving>,
    offered: map<Id, Sha>,
    wanted: map<Id, Sha>,
    library: set<(Id, Bytes)>,
    mishaps: set<Id>)

  /** `used` is every id an item was ever queued under. */
  datatype System = System(rows: map<Id, Item>, phones: map<string, Phone>, used: set<Id>)

  datatype Step =
    | Queue(id: Id, device: string, path: string, size: nat)
    | Hash(id: Id, reading: Reading)
    | Serve(device: string, id: Id, source: Source)
    | Cancel(device: string, id: Id)
    | ClearFinished(device: string)
    | Listing(device: string, shown: set<Id>)
    | ReadLedger(device: string)
    | StartDownloads(device: string)
    | Arrive(device: string, id: Id, bytes: Bytes)
    | DropDownload(device: string, id: Id)
    | Verify(device: string, id: Id)
    | Save(device: string, moves: bool)
    | Defer(device: string)
    | Note(device: string)
    | NoteFails(device: string)
    | Finish(device: string)
    | Killed(device: string)
    | Ack(device: string, id: Id, heard: bool)

  function NewPhone(): Phone { Phone(map[], map[], None, map[], map[], {}, {}) }

  function Init(devices: set<string>): System {
    System(map[], map d | d in devices :: NewPhone(), {})
  }

  predicate SavingAt(p: Phone, phase: Phase) {
    p.saving.Some? && p.saving.value.phase == phase
  }

  /** There is a staged file under the item being saved: the one verified, or what came in its place. */
  predicate HasStaged(p: Phone)
    requires p.saving.Some?
  {
    var id := p.saving.value.id;
    id in p.jobs && p.jobs[id].staging.Staged?
  }

  predicate Enabled(w: System, s: Step) {
    match s
    case Queue(id, d, path, size) => id !in w.used && d in w.phones
    case Hash(id, reading) => id in w.rows && w.rows[id].state == Pending
    case Serve(d, id, source) => true
    case Cancel(d, id) => true
    case ClearFinished(d) => true
    case Listing(d, shown) => d in w.phones && shown <= Offers(w.rows, d).Keys
    case ReadLedger(d) => d in w.phones
    case StartDownloads(d) => d in w.phones
    case Arrive(d, id, bytes) => d in w.phones && id in w.phones[d].jobs && w.phones[d].jobs[id].staging == Arriving
    case DropDownload(d, id) => d in w.phones
    case Verify(d, id) => d in w.phones && w.phones[d].saving.None? && id in w.phones[d].jobs &&
      w.phones[d].jobs[id].staging != Arriving
    case Save(d, moves) => d in w.phones && SavingAt(w.phones[d], Verified) && HasStaged(w.phones[d])
    case Defer(d) => d in w.phones && SavingAt(w.phones[d], Verified)
    case Note(d) => d in w.phones && SavingAt(w.phones[d], PutAway)
    case NoteFails(d) => d in w.phones && SavingAt(w.phones[d], PutAway)
    case Finish(d) => d in w.phones && SavingAt(w.phones[d], Noted)
    case Killed(d) => d in w.phones
    case Ack(d, id, heard) => d in w.phones && id in w.phones[d].received && w.phones[d].received[id].unacked
  }

  // ---- the phone's own steps ----

  /** `toCollect`: what is on offer and not in the ledger. */
  function ToCollect(offered: map<Id, Sha>, received: map<Id, Record>): map<Id, Sha> {
    map id | id in offered && id !in received :: offered[id]
  }

  /** Downloads for everything wanted that is not already under way. */
  function Started(p: Phone): Phone {
    p.(jobs := map id | id in p.jobs.Keys + p.wanted.Keys ::
         if id in p.jobs then p.jobs[id] else Job(p.wanted[id], Arriving),
       wanted := map[])
  }

  /** Verification: wrong or missing bytes are given up, and the download starts over. */
  function Checked(p: Phone, id: Id): Phone
    requires id in p.jobs
  {
    if p.jobs[id].staging.Staged? && Sha256(p.jobs[id].staging.bytes) == p.jobs[id].sha
    then p.(saving := Some(Saving(id, p.jobs[id].sha, Verified)))
    else p.(jobs := p.jobs[id := p.jobs[id].(staging := Arriving)])
  }

  /** The library takes a copy; the Files folder takes the staged file itself. */
  function Kept(p: Phone, moves: bool): Phone
    requires SavingAt(p, Verified) && HasStaged(p)
  {
    var id := p.saving.value.id;
    var job := p.jobs[id];
    p.(library := p.library + {(id, job.staging.bytes)}, saving := Some(p.saving.value.(phase := PutAway)),
       jobs := if moves then p.jobs[id := job.(staging := MovedAway)] else p.jobs)
  }

  /** `recordReceived`: an earlier record keeps its digest and what it owes. */
  function Recorded(received: map<Id, Record>, id: Id, sha: Sha): map<Id, Record> {
    if id in received then received else received[id := Record(sha, true)]
  }

  function Died(p: Phone): Phone {
    p.(saving := None, offered := map[], wanted := map[],
       mishaps := if SavingAt(p, PutAway) then p.mishaps + {p.saving.value.id} else p.mishaps)
  }

  predicate OnPhone(s: Step) {
    s.ReadLedger? || s.StartDownloads? || s.Arrive? || s.DropDownload? || s.Verify? || s.Save? || s.Defer? || s.Note? ||
    s.NoteFails? || s.Finish? || s.Killed?
  }

  function PhoneAfter(p: Phone, w: System, s: Step): Phone
    requires Enabled(w, s) && OnPhone(s) && p == w.phones[s.device]
  {
    match s
    case ReadLedger(_) => p.(wanted := ToCollect(p.offered, p.received), offered := map[])
    case StartDownloads(_) => Started(p)
    case Arrive(_, id, bytes) => p.(jobs := p.jobs[id := p.jobs[id].(staging := Staged(bytes))])
    case DropDownload(_, id) => p.(jobs := p.jobs - {id})
    case Verify(_, id) => Checked(p, id)
    case Save(_, moves) => Kept(p, moves)
    case Defer(_) => p.(saving := None)
    case Note(_) =>
      var saved := p.saving.value;
      p.(received := Recorded(p.received, saved.id, saved.sha), saving := Some(saved.(phase := Noted)))
    case NoteFails(_) =>
      p.(saving := Some(p.saving.value.(phase := Noted)), mishaps := p.mishaps + {p.saving.value.id})
    case Finish(_) => p.(jobs := p.jobs - {p.saving.value.id}, saving := None)
    case Killed(_) => Died(p)
    case _ => p
  }

  function Apply(w: System, s: Step): System
    requires Enabled(w, s)
  {
    if OnPhone(s) then w.(phones := w.phones[s.device := PhoneAfter(w.phones[s.device], w, s)])
    else
      match s
      case Queue(id, d, path, size) => w.(rows := Queued(w.rows, id, d, path, size), used := w.used + {id})
      case Hash(id, reading) => w.(rows := HashedBy(w.rows, id, reading))
      case Serve(d, id, source) =>
        var (r, rows) := Opened(w.rows, d, id, source);
        w.(rows := if r.Ok? then HandedOut(w.rows, d, id) else rows)
      case Cancel(d, id) => w.(rows := Dropped(w.rows, d, id))
      case ClearFinished(d) => w.(rows := Tidied(w.rows, d))
      case Listing(d, shown) =>
        var offers := Offers(w.rows, d);
        w.(phones := w.phones[d := w.phones[d].(offered := map id | id in shown && id in offers :: offers[id])])
      case Ack(d, id, heard) =>
        var p := w.phones[d];
        w.(rows := Acknowledged(w.rows, d, id),
           phones := if heard
             then w.phones[d := p.(received := p.received[id := p.received[id].(unacked := false)])] else w.phones)
      case _ => w
  }

  predicate Runs(w: System, steps: seq<Step>)
    decreases |steps|, 0
  {
    steps == [] || (Runs(w, steps[..|steps| - 1]) && Enabled(Exec(w, steps[..|steps| - 1]), steps[|steps| - 1]))
  }

  function Exec(w: System, steps: seq<Step>): System
    requires Runs(w, steps)
    decreases |steps|, 1
  {
    if steps == [] then w else Apply(Exec(w, steps[..|steps| - 1]), steps[|steps| - 1])
  }

  // ---- the invariant ----

  /** The id was queued, and the row that still has it, if any, is this device's, hashed, and of this digest. */
  predicate Known(w: System, d: string, id: Id, sha: Sha) {
    id in w.used &&
        (id in w.rows ==> w.rows[id].device == d && w.rows[id].sha == Some(sha) && w.rows[id].state != Pending)
  }

  predicate Listed(w: System, d: string, list: map<Id, Sha>) {
    forall id | id in list :: Known(w, d, id, list[id])
  }

  predicate JobsKnown(w: System, d: string, jobs: map<Id, Job>) {
    forall id | id in jobs :: Known(w, d, id, jobs[id].sha)
  }

  predicate LedgerKnown(w: System, d: string, received: map<Id, Record>) {
    forall id | id in received :: Known(w, d, id, received[id].sha)
  }

  /** A receiver that was heard to take an acknowledgement has the row as delivered, or not at all. */
  predicate AcksHeard(w: System, received: map<Id, Record>) {
    forall id | id in received && !received[id].unacked && id in w.rows :: w.rows[id].state == Delivered
  }

  /** What the phone's ledger says it has, it once put away, byte for byte. */
  predicate LedgerHonest(p: Phone) {
    forall id | id in p.received :: (id, p.received[id].sha.content) in p.library
  }

  /** What is about to be put away is what was verified, and what was put away is what it should be. */
  predicate SavingHonest(p: Phone) {
    p.saving.Some? ==>
      var save := p.saving.value;
      if save.phase == Verified then HasStaged(p) ==> Sha256(p.jobs[save.id].staging.bytes) == save.sha
      else (save.id, save.sha.content) in p.library
  }

  predicate PhoneHonest(p: Phone) { LedgerHonest(p) && SavingHonest(p) }

  predicate Honest(w: System) { forall d | d in w.phones :: PhoneHonest(w.phones[d]) }

  /** Whatever was put away is recorded, is about to be, or was cut off in between. */
  predicate PhoneRecords(p: Phone) {
    && (forall e | e in p.library ::
          e.0 in p.received || e.0 in p.mishaps || (SavingAt(p, PutAway) && p.saving.value.id == e.0))
    && (SavingAt(p, Noted) ==> p.saving.value.id in p.received || p.saving.value.id in p.mishaps)
  }

  predicate PhoneKnown(w: System, d: string, p: Phone) {
    && Listed(w, d, p.offered) && Listed(w, d, p.wanted) && JobsKnown(w, d, p.jobs)
    && LedgerKnown(w, d, p.received) && AcksHeard(w, p.received)
    && (p.saving.Some? ==> Known(w, d, p.saving.value.id, p.saving.value.sha))
  }

  predicate RowsHonest(w: System) {
    && w.rows.Keys <= w.used
    && (forall id | id in w.rows && w.rows[id].state == Delivered ::
          w.rows[id].device in w.phones && id in w.phones[w.rows[id].device].received)
    && (forall id | id in w.rows && w.rows[id].state == Pending :: w.rows[id].sha == None)
  }

  predicate Inv(w: System) {
    RowsHonest(w) && forall d | d in w.phones :: PhoneKnown(w, d, w.phones[d]) && PhoneRecords(w.phones[d])
  }

  // ---- steps of the receiver ----

  /** Rows somebody may know of keep their device and their digest, and a delivered one stays so. */
  predicate Advances(w: System, v: System) {
    v.phones == w.phones && w.used <= v.used &&
    forall id | id in w.used && id in v.rows ::
      id in w.rows && (w.rows[id].state != Pending ==>
        && v.rows[id].device == w.rows[id].device && v.rows[id].sha == w.rows[id].sha && v.rows[id].state != Pending
        && (w.rows[id].state == Delivered ==> v.rows[id].state == Delivered))
  }

  lemma AdvanceKeepsKnown(w: System, v: System, d: string, p: Phone)
    requires Advances(w, v) && PhoneKnown(w, d, p)
    ensures PhoneKnown(v, d, p)
  {
    forall id, sha | Known(w, d, id, sha)
      ensures Known(v, d, id, sha)
    {
    }
    forall id | id in p.received && !p.received[id].unacked && id in v.rows
      ensures v.rows[id].state == Delivered
    {
      assert Known(w, d, id, p.received[id].sha);
    }
  }

  lemma ReceiverStepsAdvance(w: System, s: Step)
    requires RowsHonest(w) && Enabled(w, s) && !OnPhone(s) && !s.Listing? && !s.Ack?
    ensures Advances(w, Apply(w, s)) && RowsHonest(Apply(w, s))
  {
    if s.Serve? {
      ServeAdvances(w, s.device, s.id, s.source);
    }
  }

  lemma ServeAdvances(w: System, d: string, id: Id, source: Source)
    requires RowsHonest(w)
    ensures Advances(w, Apply(w, Serve(d, id, source))) && RowsHonest(Apply(w, Serve(d, id, source)))
  {
    hide Advances, RowsHonest;
    NothingAdvances(w);
    if id in w.rows && Offerable(w.rows[id]) {
      OneRowAdvances(w, id, Failed);
      OneRowAdvances(w, id, Claimed);
    }
  }

  lemma NothingAdvances(w: System)
    requires RowsHonest(w)
    ensures Advances(w, w)
  {
  }

  /** A row on offer fails, or is handed out. */
  lemma OneRowAdvances(w: System, id: Id, state: ItemState)
    requires RowsHonest(w) && id in w.rows && Offerable(w.rows[id]) && state in {Failed, Claimed}
    ensures var v := w.(rows := w.rows[id := w.rows[id].(state := state)]); Advances(w, v) && RowsHonest(v)
  {
  }

  lemma AckAdvances(w: System, d: string, id: Id, heard: bool)
    requires RowsHonest(w) && Enabled(w, Ack(d, id, heard)) && LedgerKnown(w, d, w.phones[d].received)
    ensures Advances(w, w.(rows := Acknowledged(w.rows, d, id))) && RowsHonest(Apply(w, Ack(d, id, heard)))
    ensures id in w.rows ==> Acknowledged(w.rows, d, id)[id].state == Delivered
  {
    hide Advances, Offers, ToCollect;
    assert Known(w, d, id, w.phones[d].received[id].sha);
    assert Advances(w, w.(rows := Acknowledged(w.rows, d, id))) by {
      AckedRowsAdvance(w, d, id);
    }
  }

  lemma AckedRowsAdvance(w: System, d: string, id: Id)
    requires id in w.rows ==> w.rows[id].state != Pending
    ensures Advances(w, w.(rows := Acknowledged(w.rows, d, id)))
  {
  }

  lemma AckKeepsInv(w: System, d: string, id: Id, heard: bool)
    requires Inv(w) && Enabled(w, Ack(d, id, heard))
    ensures Inv(Apply(w, Ack(d, id, heard)))
  {
    hide PhoneRecords, Advances, RowsHonest, Offers;
    var v := Apply(w, Ack(d, id, heard));
    var told := w.(rows := Acknowledged(w.rows, d, id));
    assert PhoneKnown(w, d, w.phones[d]);
    AckAdvances(w, d, id, heard);
    forall e | e in v.phones
      ensures PhoneKnown(v, e, v.phones[e]) && PhoneRecords(v.phones[e])
    {
      assert PhoneKnown(w, e, w.phones[e]) && PhoneRecords(w.phones[e]);
      AdvanceKeepsKnown(w, told, e, w.phones[e]);
      HeardKeepsPhone(told, v, e, w.phones[e], id, e == d && heard);
    }
  }

  lemma HeardKeepsPhone(told: System, v: System, d: string, p: Phone, id: Id, heard: bool)
    requires PhoneKnown(told, d, p) && PhoneRecords(p) && v.rows == told.rows && v.used == told.used
    requires heard ==> id in p.received && (id in told.rows ==> told.rows[id].state == Delivered)
    ensures var q := if heard then p.(received := p.received[id := p.received[id].(unacked := false)]) else p;
      PhoneKnown(v, d, q) && PhoneRecords(q)
  {
    forall i, sha | Known(told, d, i, sha)
      ensures Known(v, d, i, sha)
    {
    }
  }

  // ---- steps of the phone ----

  lemma PhoneStepsKeepRecords(w: System, s: Step)
    requires Enabled(w, s) && OnPhone(s) && PhoneRecords(w.phones[s.device])
    ensures PhoneRecords(PhoneAfter(w.phones[s.device], w, s))
  {
    hide ToCollect, Offers;
  }

  lemma PhoneStepsKnowNothingNew(w: System, s: Step)
    requires Enabled(w, s) && OnPhone(s) && PhoneKnown(w, s.device, w.phones[s.device])
    ensures PhoneKnown(w, s.device, PhoneAfter(w.phones[s.device], w, s))
  {
    hide Known, Offers;
    var p := w.phones[s.device];
    var q := PhoneAfter(p, w, s);
    if s.Note? {
      NoteKeepsKnown(w, s.device, p);
    }
  }

  lemma NoteKeepsKnown(w: System, d: string, p: Phone)
    requires SavingAt(p, PutAway) && PhoneKnown(w, d, p)
    ensures var noted := Recorded(p.received, p.saving.value.id, p.saving.value.sha);
      LedgerKnown(w, d, noted) && AcksHeard(w, noted)
  {
  }

  lemma KnownDependsOnRows(w: System, v: System, d: string, p: Phone)
    requires PhoneKnown(w, d, p) && v.rows == w.rows && v.used == w.used
    ensures PhoneKnown(v, d, p)
  {
    forall id, sha | Known(w, d, id, sha)
      ensures Known(v, d, id, sha)
    {
    }
  }

  lemma ListingKeepsPhone(w: System, d: string, shown: set<Id>)
    requires Inv(w) && Enabled(w, Listing(d, shown))
    ensures var q := Apply(w, Listing(d, shown)).phones[d]; PhoneKnown(w, d, q) && PhoneRecords(q)
  {
    assert PhoneKnown(w, d, w.phones[d]) && PhoneRecords(w.phones[d]);
    var q := Apply(w, Listing(d, shown)).phones[d];
    PhoneRecordsByParts(w.phones[d], q);
  }

  lemma PhoneRecordsByParts(p: Phone, q: Phone)
    requires PhoneRecords(p) && q == p.(offered := q.offered)
    ensures PhoneRecords(q)
  {
  }

  lemma PhoneStepKeepsInv(w: System, s: Step)
    requires Inv(w) && Enabled(w, s) && (OnPhone(s) || s.Listing?)
    ensures Inv(Apply(w, s))
  {
    hide PhoneRecords, PhoneKnown, PhoneAfter, Offers, Enabled;
    var v := Apply(w, s);
    var d := s.device;
    DeviceIsThere(w, s);
    assert PhoneKnown(w, d, w.phones[d]) && PhoneRecords(w.phones[d]);
    if s.Listing? {
      ListingKeepsPhone(w, d, s.shown);
    } else {
      PhoneStepsKeepRecords(w, s);
      PhoneStepsKnowNothingNew(w, s);
      PhoneForgetsNothing(w, s);
    }
    forall e | e in v.phones
      ensures PhoneKnown(v, e, v.phones[e]) && PhoneRecords(v.phones[e])
    {
      KnownDependsOnRows(w, v, e, v.phones[e]);
    }
  }

  lemma DeviceIsThere(w: System, s: Step)
    requires Enabled(w, s) && (OnPhone(s) || s.Listing?)
    ensures s.device in w.phones
  {
  }

  /** A phone never forgets what it has saved. */
  lemma PhoneForgetsNothing(w: System, s: Step)
    requires Enabled(w, s) && OnPhone(s)
    ensures w.phones[s.device].received.Keys <= PhoneAfter(w.phones[s.device], w, s).received.Keys
  {
    hide ToCollect, Offers;
  }

  lemma StepKeepsInv(w: System, s: Step)
    requires Inv(w) && Enabled(w, s)
    ensures Inv(Apply(w, s))
  {
    hide Enabled, PhoneRecords, PhoneKnown, RowsHonest, Apply;
    if OnPhone(s) || s.Listing? {
      PhoneStepKeepsInv(w, s);
    } else if s.Ack? {
      AckKeepsInv(w, s.device, s.id, s.heard);
    } else {
      ReceiverStepsAdvance(w, s);
      var v := Apply(w, s);
      forall d | d in v.phones
        ensures PhoneKnown(v, d, v.phones[d]) && PhoneRecords(v.phones[d])
      {
        AdvanceKeepsKnown(w, v, d, w.phones[d]);
      }
    }
  }

  lemma {:induction false} RunKeepsInv(w: System, steps: seq<Step>)
    requires Inv(w) && Runs(w, steps)
    ensures Inv(Exec(w, steps))
  {
    hide Enabled, Apply;
    if steps != [] {
      RunKeepsInv(w, steps[..|steps| - 1]);
      StepKeepsInv(Exec(w, steps[..|steps| - 1]), steps[|steps| - 1]);
    }
  }

  lemma InvInEveryRun(devices: set<string>, steps: seq<Step>)
    requires Runs(Init(devices), steps)
    ensures Inv(Exec(Init(devices), steps))
  {
    hide Enabled, Apply, Runs, Exec;
    assert Inv(Init(devices));
    RunKeepsInv(Init(devices), steps);
  }

  // ---- a file that changes under a save ----

  /**
    Other bytes arrive under an item whose download was verified and is waiting to be put away. Only
    a download that was cancelled meanwhile and asked for again can do that.
  */
  predicate Swaps(w: System, s: Step)
    requires Enabled(w, s)
  {
    s.Arrive? &&
    var p := w.phones[s.device];
    SavingAt(p, Verified) && p.saving.value.id == s.id && Sha256(s.bytes) != p.saving.value.sha
  }

  lemma PhoneStepStaysHonest(w: System, s: Step)
    requires Enabled(w, s) && OnPhone(s) && PhoneHonest(w.phones[s.device])
    ensures PhoneHonest(PhoneAfter(w.phones[s.device], w, s)) <==> !Swaps(w, s)
  {
    hide ToCollect, Offers;
  }

  lemma OtherStepsStayHonest(w: System, s: Step)
    requires Enabled(w, s) && !OnPhone(s) && Honest(w)
    ensures Honest(Apply(w, s))
  {
    hide Offers, Opened, Queued, HashedBy, Dropped, Tidied, Acknowledged;
    var v := Apply(w, s);
    forall d | d in v.phones
      ensures PhoneHonest(v.phones[d])
    {
      assert PhoneHonest(w.phones[d]);
    }
  }

  /** One step keeps every phone honest if and only if it does not swap a file under a save. */
  lemma HonestKeptExactly(w: System, s: Step)
    requires Enabled(w, s) && Honest(w)
    ensures Honest(Apply(w, s)) <==> !Swaps(w, s)
  {
    if OnPhone(s) {
      hide PhoneHonest, PhoneAfter, Enabled, Swaps;
      DeviceIsThere(w, s);
      PhoneStepStaysHonest(w, s);
      var v := Apply(w, s);
      assert forall d | d in v.phones && d != s.device :: v.phones[d] == w.phones[d];
      assert s.device in v.phones;
    } else {
      hide Enabled, Apply, Honest;
      OtherStepsStayHonest(w, s);
    }
  }

  predicate HonestThroughout(w: System, steps: seq<Step>)
    requires Runs(w, steps)
    decreases |steps|
  {
    Honest(Exec(w, steps)) && (steps == [] || HonestThroughout(w, steps[..|steps| - 1]))
  }

  predicate NeverSwapped(w: System, steps: seq<Step>)
    requires Runs(w, steps)
  {
    steps == [] ||
    (NeverSwapped(w, steps[..|steps| - 1]) && !Swaps(Exec(w, steps[..|steps| - 1]), steps[|steps| - 1]))
  }

  /**
    At every point of a run each phone has what its ledger says it has, byte for byte, and is about
    to put away nothing but what it verified, if and only if no step swapped a file under a save.
  */
  lemma {:induction false} HonestExactlyThroughout(devices: set<string>, steps: seq<Step>)
    requires Runs(Init(devices), steps)
    ensures HonestThroughout(Init(devices), steps) <==> NeverSwapped(Init(devices), steps)
  {
    hide Enabled, Apply, Honest, Swaps;
    if steps == [] {
      NewPhonesAreHonest(devices);
    } else {
      var before := steps[..|steps| - 1];
      HonestExactlyThroughout(devices, before);
      if HonestThroughout(Init(devices), before) {
        HonestInTheEnd(Init(devices), before);
        HonestKeptExactly(Exec(Init(devices), before), steps[|steps| - 1]);
      }
    }
  }

  lemma NewPhonesAreHonest(devices: set<string>)
    ensures Honest(Init(devices))
  {
  }

  lemma HonestInTheEnd(w: System, steps: seq<Step>)
    requires Runs(w, steps) && HonestThroughout(w, steps)
    ensures Honest(Exec(w, steps))
  {
    hide Honest, Runs, Exec;
  }

  // ---- what delivery means ----

  /**
    A row is delivered only if its device recorded it under exactly the row's digest: under edited
    sources, cut-off downloads, lost and repeated acknowledgements, and a phone killed anywhere. And
    unless a file was swapped under a save, it put away the very bytes of that digest.
  */
  lemma DeliveredMeansSaved(devices: set<string>, steps: seq<Step>, id: Id)
    requires Runs(Init(devices), steps)
    requires var w := Exec(Init(devices), steps); id in w.rows && w.rows[id].state == Delivered
    ensures var w := Exec(Init(devices), steps);
      var row := w.rows[id];
      && row.device in w.phones && row.sha.Some?
      && id in w.phones[row.device].received && w.phones[row.device].received[id].sha == row.sha.value
      && (NeverSwapped(Init(devices), steps) ==> (id, row.sha.value.content) in w.phones[row.device].library)
  {
    hide Enabled, Apply, Runs, Exec, NeverSwapped, HonestThroughout;
    InvInEveryRun(devices, steps);
    var w := Exec(Init(devices), steps);
    var d := w.rows[id].device;
    assert PhoneKnown(w, d, w.phones[d]);
    assert Known(w, d, id, w.phones[d].received[id].sha);
    HonestExactlyThroughout(devices, steps);
    if NeverSwapped(Init(devices), steps) {
      HonestInTheEnd(Init(devices), steps);
      assert PhoneHonest(w.phones[d]);
    }
  }

  /** Once a row has left `pending` its digest never changes again, nor does whose it is. */
  lemma DigestIsFinal(w: System, s: Step, id: Id)
    requires Inv(w) && Enabled(w, s) && id in w.rows && w.rows[id].state != Pending && id in Apply(w, s).rows
    ensures Apply(w, s).rows[id].sha == w.rows[id].sha && Apply(w, s).rows[id].device == w.rows[id].device
    ensures Apply(w, s).rows[id].state != Pending
    ensures w.rows[id].state == Delivered ==> Apply(w, s).rows[id].state == Delivered
  {
    hide PhoneRecords, PhoneKnown, PhoneAfter;
  }

  /** What a phone was told of, and what it may still save, is never a digest the row does not have. */
  lemma ToldOnlyTheDigest(devices: set<string>, steps: seq<Step>, d: string, id: Id)
    requires Runs(Init(devices), steps)
    requires var w := Exec(Init(devices), steps); d in w.phones && id in w.phones[d].jobs && id in w.rows
    ensures var w := Exec(Init(devices), steps);
      w.rows[id].device == d && w.rows[id].sha == Some(w.phones[d].jobs[id].sha)
  {
    hide Enabled, Apply, Runs, Exec, PhoneRecords;
    InvInEveryRun(devices, steps);
    var w := Exec(Init(devices), steps);
    assert PhoneKnown(w, d, w.phones[d]);
  }

  /** A check asks for nothing the ledger already had when the check read it. */
  lemma LedgeredIsNotAskedFor(w: System, d: string, id: Id)
    requires Enabled(w, ReadLedger(d)) && id in w.phones[d].received
    ensures id !in Apply(w, ReadLedger(d)).phones[d].wanted
  {
  }

  /** Nothing one device asks for, cancels or clears touches a row of another device. */
  lemma OtherDevicesUntouched(w: System, s: Step, id: Id)
    requires Inv(w) && Enabled(w, s) && !s.Queue? && !s.Hash? && id in w.rows && w.rows[id].device != s.device
    ensures id in Apply(w, s).rows && Apply(w, s).rows[id] == w.rows[id]
  {
    hide PhoneRecords, PhoneKnown, PhoneAfter;
  }

  /** A phone stops owing an acknowledgement only when the receiver's row is delivered or gone. */
  lemma NothingOwedMeansTold(devices: set<string>, steps: seq<Step>, d: string, id: Id)
    requires Runs(Init(devices), steps)
    requires var w := Exec(Init(devices), steps);
      d in w.phones && id in w.phones[d].received && !w.phones[d].received[id].unacked && id in w.rows
    ensures Exec(Init(devices), steps).rows[id].state == Delivered
  {
    hide Enabled, Apply, Runs, Exec, PhoneRecords;
    InvInEveryRun(devices, steps);
    var w := Exec(Init(devices), steps);
    assert PhoneKnown(w, d, w.phones[d]);
  }

  /**
    What is in the library and not in the ledger was cut off exactly between the two, or is between
    them now: no other way to collect a file twice goes unrecorded.
  */
  lemma SavedIsRecordedButForMishaps(devices: set<string>, steps: seq<Step>, d: string, id: Id, bytes: Bytes)
    requires Runs(Init(devices), steps)
    requires var w := Exec(Init(devices), steps); d in w.phones && (id, bytes) in w.phones[d].library
    ensures var p := Exec(Init(devices), steps).phones[d];
      id in p.received || id in p.mishaps || (SavingAt(p, PutAway) && p.saving.value.id == id)
  {
    hide Enabled, Apply, Runs, Exec, PhoneKnown;
    InvInEveryRun(devices, steps);
    var w := Exec(Init(devices), steps);
    assert PhoneRecords(w.phones[d]);
  }

  // ---- what is on offer, and for how long ----

  /** What is ready or handed out has been hashed. */
  predicate AllHashed(rows: map<Id, Item>) {
    forall id | id in rows && rows[id].state in {Ready, Claimed} :: rows[id].sha.Some?
  }

  lemma StepKeepsHashed(w: System, s: Step)
    requires AllHashed(w.rows) && Enabled(w, s)
    ensures AllHashed(Apply(w, s).rows)
  {
    hide PhoneAfter, Offers;
  }

  lemma {:induction false} HashedInEveryRun(devices: set<string>, steps: seq<Step>)
    requires Runs(Init(devices), steps)
    ensures AllHashed(Exec(Init(devices), steps).rows)
  {
    hide Enabled, Apply, AllHashed;
    if steps == [] {
      NoneHashed(devices);
    } else {
      HashedInEveryRun(devices, steps[..|steps| - 1]);
      StepKeepsHashed(Exec(Init(devices), steps[..|steps| - 1]), steps[|steps| - 1]);
    }
  }

  lemma NoneHashed(devices: set<string>)
    ensures AllHashed(Init(devices).rows)
  {
  }

  /**
    In every run a row is on offer to its own device and to no other, under its own digest, exactly as
    long as it is neither being hashed nor failed nor delivered: also after it was handed out.
  */
  lemma OfferedExactly(devices: set<string>, steps: seq<Step>, d: string, id: Id)
    requires Runs(Init(devices), steps)
    ensures var rows := Exec(Init(devices), steps).rows;
      && (id in Offers(rows, d) <==>
         id in rows && rows[id].device == d && rows[id].state !in {Pending, Delivered, Failed})
      && (id in Offers(rows, d) ==> rows[id].sha == Some(Offers(rows, d)[id]))
  {
    hide Enabled, Apply, Runs, Exec;
    HashedInEveryRun(devices, steps);
  }

  /** The device cancels or acknowledges the item, or its source is found gone or changed. */
  predicate Ends(i: Item, s: Step, d: string, id: Id) {
    match s
    case Cancel(e, j) => e == d && j == id
    case Ack(e, j, _) => e == d && j == id
    case Serve(e, j, source) => e == d && j == id && (source.Gone? || (source.There? && !Unchanged(i, source)))
    case _ => false
  }

  /** The row is where it was, but for having been handed out. */
  predicate StillThere(rows: map<Id, Item>, id: Id, i: Item) {
    id in rows && rows[id].(state := i.state) == i && Offerable(rows[id])
  }

  /** Only those three take an item off offer; a source out of reach, and another fetch, do not. */
  lemma OfferEndsExactly(w: System, s: Step, d: string, id: Id)
    requires w.rows.Keys <= w.used && Enabled(w, s) && id in Offers(w.rows, d)
    ensures id in Offers(Apply(w, s).rows, d) <==> !Ends(w.rows[id], s, d, id)
    ensures !Ends(w.rows[id], s, d, id) ==> StillThere(Apply(w, s).rows, id, w.rows[id])
  {
    hide PhoneAfter;
  }

  lemma {:induction false} StaysOnOffer(w: System, steps: seq<Step>, d: string, id: Id)
    requires Inv(w) && Runs(w, steps) && id in Offers(w.rows, d)
    requires forall s | s in steps :: !Ends(w.rows[id], s, d, id)
    ensures StillThere(Exec(w, steps).rows, id, w.rows[id]) && id in Offers(Exec(w, steps).rows, d)
  {
    hide Enabled, Apply, Ends, Inv;
    if steps != [] {
      var before, s := steps[..|steps| - 1], steps[|steps| - 1];
      assert s in steps && forall t | t in before :: t in steps;
      StaysOnOffer(w, before, d, id);
      RunKeepsInv(w, before);
      var x := Exec(w, before);
      UsedIds(x);
      SameEnd(w.rows[id], x.rows[id], s, d, id);
      OfferEndsExactly(x, s, d, id);
    }
  }

  lemma UsedIds(w: System)
    requires Inv(w)
    ensures w.rows.Keys <= w.used
  {
  }

  lemma SameEnd(i: Item, j: Item, s: Step, d: string, id: Id)
    requires j.(state := i.state) == i
    ensures Ends(i, s, d, id) == Ends(j, s, d, id)
  {
    assert j.(state := i.state).size == j.size && j.(state := i.state).mtime == j.mtime;
  }

  /**
    A broken-off download can be asked for again as often as it takes. From any point of any run, until
    the device cancels or acknowledges the item or its source is found gone or changed, the item is on
    offer under the same digest, and a fetch that finds the source as it was hashed is given its bytes.
  */
  lemma ServedEveryTime(
      devices: set<string>, steps: seq<Step>, more: seq<Step>, d: string, id: Id, content: Bytes, mtime: int)
    requires Runs(Init(devices), steps)
    requires var w := Exec(Init(devices), steps);
      && Runs(w, more) && id in Offers(w.rows, d) && (forall s | s in more :: !Ends(w.rows[id], s, d, id))
      && |content| == w.rows[id].size && mtime == w.rows[id].mtime
    ensures var w := Exec(Init(devices), steps);
      var x := Exec(w, more);
      && id in Offers(x.rows, d) && Offers(x.rows, d)[id] == Offers(w.rows, d)[id]
      && Opened(x.rows, d, id, There(content, mtime)) == (Ok(content), x.rows)
      && Opened(x.rows, d, id, Away) == (Err(Unavailable), x.rows)
  {
    hide Enabled, Apply, Runs, Exec, Ends;
    InvInEveryRun(devices, steps);
    var w := Exec(Init(devices), steps);
    StaysOnOffer(w, more, d, id);
    var i := Exec(w, more).rows[id];
    assert i.(state := w.rows[id].state).size == i.size && i.(state := w.rows[id].state).mtime == i.mtime;
    assert i.(state := w.rows[id].state).sha == i.sha;
  }
}
