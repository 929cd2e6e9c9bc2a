/**
  mobile/src/engine/inbox.ts, as one phone runs it: what has arrived is saved, what is owed is
  acknowledged, and what is on offer and not yet in the ledger is asked for. Each method is proved
  to take steps of the delivery protocol, and to leave every download where it belongs.
*/
module Inbox {
  import opened Wrappers
  import opened Hashing
  import opened Outbox
  import opened Delivery

  /** What this phone can do with a file whose bytes are right. */
  datatype Fate = Defers | Keeps(moves: bool, noted: bool)

  predicate Intact(j: Job) { j.staging.Staged? && Sha256(j.staging.bytes) == j.sha }

  /** `save` as a function of the phone. */
  function SavedPhone(p: Phone, id: Id, fate: Fate): Phone
    requires p.saving.None? && id in p.jobs
  {
    var c := Checked(p, id);
    if !Intact(p.jobs[id]) || fate.Defers? then c.(saving := None)
    else
      var entry := (id, p.jobs[id].staging.bytes);
      p.(library := p.library + {entry}, jobs := p.jobs - {id},
         received := if fate.noted then Recorded(p.received, id, p.jobs[id].sha) else p.received,
         mishaps := if fate.noted then p.mishaps else p.mishaps + {id})
  }

  /** The steps of one save, between which the app may be killed. */
  function SaveSteps(p: Phone, d: string, id: Id, fate: Fate): seq<Step>
    requires id in p.jobs
  {
    if !Intact(p.jobs[id]) then [Verify(d, id)]
    else if fate.Defers? then [Verify(d, id), Defer(d)]
    else [Verify(d, id), Save(d, fate.moves), if fate.noted then Note(d) else NoteFails(d), Finish(d)]
  }

  lemma Extend(w: System, steps: seq<Step>, s: Step)
    requires Runs(w, steps) && Enabled(Exec(w, steps), s)
    ensures Runs(w, steps + [s]) && Exec(w, steps + [s]) == Apply(Exec(w, steps), s)
  {
    hide Enabled, Apply;
    assert (steps + [s])[..|steps + [s]| - 1] == steps;
  }

  function OnlyPhone(w: System, d: string, p: Phone): System { w.(phones := w.phones[d := p]) }

  lemma PhoneStep(w: System, d: string, s: Step)
    requires d in w.phones && Enabled(w, s) && OnPhone(s) && s.device == d
    ensures Apply(w, s) == OnlyPhone(w, d, PhoneAfter(w.phones[d], w, s))
  {
    hide PhoneAfter, Enabled;
  }

  /** One more phone step at the end of a run. */
  lemma Next(w: System, d: string, steps: seq<Step>, p: Phone, s: Step)
    requires d in w.phones && Runs(w, steps) && Exec(w, steps) == OnlyPhone(w, d, p)
    requires OnPhone(s) && s.device == d && Enabled(OnlyPhone(w, d, p), s)
    ensures Runs(w, steps + [s]) && Exec(w, steps + [s]) == OnlyPhone(w, d, PhoneAfter(p, OnlyPhone(w, d, p), s))
  {
    hide PhoneAfter, Enabled, Apply, Runs, Exec;
    Extend(w, steps, s);
    PhoneStep(OnlyPhone(w, d, p), d, s);
  }

  lemma VerifyRuns(w: System, d: string, id: Id)
    requires d in w.phones && w.phones[d].saving.None? && id in w.phones[d].jobs
    requires w.phones[d].jobs[id].staging != Arriving
    ensures Runs(w, [Verify(d, id)]) && Exec(w, [Verify(d, id)]) == OnlyPhone(w, d, Checked(w.phones[d], id))
  {
    hide Runs, Exec, Apply, Checked, OnlyPhone;
    var p := w.phones[d];
    NoSteps(w);
    SamePhone(w, d);
    Next(w, d, [], p, Verify(d, id));
    assert [] + [Verify(d, id)] == [Verify(d, id)];
  }

  lemma NoteRuns(w: System, d: string, steps: seq<Step>, p: Phone, id: Id, noted: bool)
    requires d in w.phones && Runs(w, steps) && Exec(w, steps) == OnlyPhone(w, d, p)
    requires id in p.jobs && p.saving == Some(Saving(id, p.jobs[id].sha, PutAway))
    ensures var more := steps + [if noted then Note(d) else NoteFails(d)] + [Finish(d)];
      Runs(w, more) && Exec(w, more) == OnlyPhone(w, d, Ended(p, id, noted))
  {
    hide Runs, Exec, Offers, ToCollect, Started, Kept, Checked, Died;
    var second := if noted then Note(d) else NoteFails(d);
    Next(w, d, steps, p, second);
    Next(w, d, steps + [second], PhoneAfter(p, OnlyPhone(w, d, p), second), Finish(d));
  }

  /** Recorded, or not, and no longer a download. */
  function Ended(p: Phone, id: Id, noted: bool): Phone
    requires id in p.jobs
  {
    p.(saving := None, jobs := p.jobs - {id},
       received := if noted then Recorded(p.received, id, p.jobs[id].sha) else p.received,
       mishaps := if noted then p.mishaps else p.mishaps + {id})
  }

  lemma KeepRuns(w: System, d: string, id: Id, steps: seq<Step>, p: Phone, moves: bool, noted: bool)
    requires d in w.phones && Runs(w, steps) && Exec(w, steps) == OnlyPhone(w, d, p)
    requires id in p.jobs && p.saving == Some(Saving(id, p.jobs[id].sha, Verified)) && Intact(p.jobs[id])
    ensures var more := steps + [Save(d, moves)] + [if noted then Note(d) else NoteFails(d)] + [Finish(d)];
      Runs(w, more) && Exec(w, more) == OnlyPhone(w, d, SavedPhone(p.(saving := None), id, Keeps(moves, noted)))
  {
    hide Runs, Exec, Offers, ToCollect, Started, Checked, Died, Recorded;
    Next(w, d, steps, p, Save(d, moves));
    NoteRuns(w, d, steps + [Save(d, moves)], Kept(p, moves), id, noted);
    assert Kept(p, moves).jobs - {id} == p.jobs - {id};
  }

  /** A save is a run of the protocol. */
  lemma SaveIsARun(w: System, d: string, id: Id, fate: Fate)
    requires d in w.phones && w.phones[d].saving.None? && id in w.phones[d].jobs
    requires w.phones[d].jobs[id].staging != Arriving
    ensures var steps := SaveSteps(w.phones[d], d, id, fate);
      Runs(w, steps) && Exec(w, steps) == OnlyPhone(w, d, SavedPhone(w.phones[d], id, fate))
  {
    hide Runs, Exec, Offers, ToCollect, Started, PhoneAfter;
    var p := w.phones[d];
    VerifyRuns(w, d, id);
    var c := Checked(p, id);
    if Intact(p.jobs[id]) {
      if fate.Defers? {
        DeferRuns(w, d, [Verify(d, id)], c);
        assert [Verify(d, id)] + [Defer(d)] == [Verify(d, id), Defer(d)];
      } else {
        KeepRuns(w, d, id, [Verify(d, id)], c, fate.moves, fate.noted);
        var last := if fate.noted then Note(d) else NoteFails(d);
        assert [Verify(d, id)] + [Save(d, fate.moves)] + [last] + [Finish(d)] == SaveSteps(p, d, id, fate);
        assert c.(saving := None) == p;
      }
    }
  }

  lemma DeferRuns(w: System, d: string, steps: seq<Step>, p: Phone)
    requires d in w.phones && Runs(w, steps) && Exec(w, steps) == OnlyPhone(w, d, p) && SavingAt(p, Verified)
    ensures Runs(w, steps + [Defer(d)]) && Exec(w, steps + [Defer(d)]) == OnlyPhone(w, d, p.(saving := None))
  {
    hide Runs, Exec, Offers;
    Next(w, d, steps, p, Defer(d));
  }

  lemma {:induction false} RunsOn(w: System, steps: seq<Step>, more: seq<Step>)
    requires Runs(w, steps) && Runs(Exec(w, steps), more)
    ensures Runs(w, steps + more) && Exec(w, steps + more) == Exec(Exec(w, steps), more)
  {
    hide Enabled, Apply;
    if more == [] {
      assert steps + more == steps;
    } else {
      RunsOn(w, steps, more[..|more| - 1]);
      assert (steps + more)[..|steps + more| - 1] == steps + more[..|more| - 1];
    }
  }

  /** What one pass over the arrivals did to this download. */
  predicate Handled(before: Phone, after: Phone, id: Id, fate: Fate)
    requires id in before.jobs
  {
    var job := before.jobs[id];
    if job.staging == Arriving || (Intact(job) && fate.Defers?) then id in after.jobs && after.jobs[id] == job
    else if !Intact(job) then id in after.jobs && after.jobs[id] == job.(staging := Arriving)
    else
      && id !in after.jobs && (id, job.staging.bytes) in after.library
      && if fate.noted then id in after.received && after.received[id] == Entry(before, id, job.sha)
         else id in after.mishaps
  }

  /** The ledger's entry for a saved file: the one it had, or that it was received and is to be acknowledged. */
  function Entry(p: Phone, id: Id, sha: Sha): Record {
    if id in p.received then p.received[id] else Record(sha, true)
  }

  /** The ledger has what it had, and nothing of items that are not among these. */
  predicate LedgerGrew(start: Phone, p: Phone, done: set<Id>) {
    && (forall id | id in start.received :: id in p.received && p.received[id] == start.received[id])
    && (forall id | id in p.received :: id in start.received || id in done)
  }

  predicate AsItWas(before: Phone, after: Phone, id: Id) {
    id in before.jobs && id in after.jobs && after.jobs[id] == before.jobs[id]
  }

  /** Nothing arrives while these steps are taken. */
  predicate NoArrivals(steps: seq<Step>) { forall s | s in steps :: !s.Arrive? }

  lemma {:induction false} NoArrivalsStayHonest(w: System, steps: seq<Step>)
    requires Honest(w) && Runs(w, steps) && NoArrivals(steps)
    ensures Honest(Exec(w, steps))
  {
    hide Enabled, Apply, Honest;
    if steps != [] {
      var before, s := steps[..|steps| - 1], steps[|steps| - 1];
      assert s in steps && forall t | t in before :: t in steps;
      NoArrivalsStayHonest(w, before);
      HonestKeptExactly(Exec(w, before), s);
    }
  }

  class InboxApp {
    const device: string
    var now: System

    constructor (device: string, w: System)
      ensures this.device == device && now == w
    {
      this.device, now := device, w;
    }

    ghost predicate Resting()
      reads this
    {
      device in now.phones && now.phones[device].saving.None?
    }

    /** `save`: verified, put away, recorded, and only then given up as a download. */
    method SaveOne(id: Id, fate: Fate) returns (saved: bool)
      requires Resting() && id in now.phones[device].jobs && now.phones[device].jobs[id].staging != Arriving
      modifies this
      ensures now == OnlyPhone(old(now), device, SavedPhone(old(now).phones[device], id, fate))
      ensures saved <==> Intact(old(now).phones[device].jobs[id]) && fate.Keeps?
    {
      var p := now.phones[device];
      var job := p.jobs[id];
      if !job.staging.Staged? || Sha256(job.staging.bytes) != job.sha {
        now := OnlyPhone(now, device, p.(jobs := p.jobs[id := job.(staging := Arriving)]));
        return false;
      }
      if fate.Defers? {
        assert Checked(p, id).(saving := None) == p;
        return false;
      }
      p := p.(library := p.library + {(id, job.staging.bytes)});
      if fate.noted {
        p := p.(received := Recorded(p.received, id, job.sha));
      } else {
        p := p.(mishaps := p.mishaps + {id});
      }
      now := OnlyPhone(now, device, p.(jobs := p.jobs - {id}));
      return true;
    }

    /**
      `saveArrivals`: every download that has arrived is dealt with, one at a time. Intact ones that
      this phone can keep are in the library and recorded; damaged ones start over; the rest stay.
    */
    method SaveArrivals(fates: Id -> Fate) returns (saved: nat, ghost steps: seq<Step>)
      requires Resting()
      modifies this
      ensures Resting() && Runs(old(now), steps) && now == Exec(old(now), steps) && NoArrivals(steps)
      ensures now == OnlyPhone(old(now), device, now.phones[device])
      ensures forall id | id in old(now).phones[device].jobs ::
        Handled(old(now).phones[device], now.phones[device], id, fates(id))
      ensures now.phones[device].jobs.Keys <= old(now).phones[device].jobs.Keys
      ensures saved == |Keepable(old(now).phones[device], old(now).phones[device].jobs.Keys, fates)|
    {
      hide Runs, Exec, SavedPhone, SaveSteps, Passed, Keepable, Arrived, Intact, Handled, OnlyPhone;
      saved, steps := 0, [];
      ghost var start := now.phones[device];
      ghost var p := start;
      NoSteps(now);
      SamePhone(now, device);
      NothingPassed(start, fates);
      var todo := Arrived(now.phones[device]);
      while todo != {}
        invariant device in old(now).phones && now == OnlyPhone(old(now), device, p)
        invariant Runs(old(now), steps) && now == Exec(old(now), steps) && NoArrivals(steps)
        invariant todo <= Arrived(start) && Passed(start, p, Arrived(start) - todo, fates, saved)
        decreases |todo|
      {
        var id :| id in todo;
        OnlyPhones(old(now), device, p, SavedIfAny(p, id, fates(id)));
        StillArrived(start, p, Arrived(start) - todo, id, fates, saved);
        ghost var before := now;
        SaveIsARun(before, device, id, fates(id));
        var ok := SaveOne(id, fates(id));
        ghost var taken := SaveSteps(p, device, id, fates(id));
        RunsOn(old(now), steps, taken);
        assert NoArrivals(taken) by {
          SavesBringNothing(p, device, id, fates(id));
        }
        steps := steps + taken;
        OneMorePassed(start, p, Arrived(start) - todo, id, fates, saved);
        assert Arrived(start) - todo + {id} == Arrived(start) - (todo - {id});
        p := SavedIfAny(p, id, fates(id));
        todo := todo - {id};
        saved := if ok then saved + 1 else saved;
      }
      OnlyPhones(old(now), device, p, p);
      AllPassed(start, p, fates, saved);
    }

    /** `sendAcknowledgements`: each one that is owed, once; what does not get through stays owed. */
    method SendAcknowledgements(reach: Id -> Reach) returns (ghost steps: seq<Step>)
      requires device in now.phones
      modifies this
      ensures Runs(old(now), steps) && now == Exec(old(now), steps) && NoArrivals(steps)
      ensures now == AfterAcks(old(now), device, Owed(old(now).phones[device]), reach)
    {
      hide Runs, Exec, AfterAcks, Enabled, Apply, Acknowledged;
      steps := [];
      var todo := Owed(now.phones[device]);
      ghost var owed := todo;
      NoSteps(now);
      NoAcks(now, device, reach);
      assert owed - todo == {};
      while todo != {}
        invariant todo <= owed == Owed(old(now).phones[device])
        invariant Runs(old(now), steps) && now == Exec(old(now), steps) && NoArrivals(steps)
        invariant now == AfterAcks(old(now), device, owed - todo, reach)
        decreases |todo|
      {
        var id :| id in todo;
        OneMoreAck(old(now), device, owed - todo, id, reach);
        assert owed - todo + {id} == owed - (todo - {id});
        if reach(id).Reached? {
          AckApplied(now, device, id, reach(id).heard);
          var p := now.phones[device];
          Extend(old(now), steps, Ack(device, id, reach(id).heard));
          steps := steps + [Ack(device, id, reach(id).heard)];
          now := now.(rows := Acknowledged(now.rows, device, id));
          if reach(id).heard {
            var told := p.(received := p.received[id := p.received[id].(unacked := false)]);
            now := now.(phones := now.phones[device := told]);
          }
        }
        todo := todo - {id};
      }
      assert owed - {} == owed;
    }

    /** The rest of a check: the listing, the ledger, and downloads for what is in one and not the other. */
    method Collect(shown: set<Id>) returns (ghost steps: seq<Step>)
      requires device in now.phones && shown <= Offers(now.rows, device).Keys
      modifies this
      ensures Runs(old(now), steps) && now == Exec(old(now), steps) && NoArrivals(steps)
      ensures device in now.phones && now == OnlyPhone(old(now), device, now.phones[device])
      ensures var p, q := old(now).phones[device], now.phones[device];
        && q.received == p.received && q.library == p.library && q.saving == p.saving
        && (forall id :: id in q.jobs <==> id in p.jobs || (id in shown && id !in p.received))
        && forall id | id in q.jobs ::
           q.jobs[id] == if id in p.jobs then p.jobs[id] else Job(Offers(old(now).rows, device)[id], Arriving)
    {
      hide Runs, Exec, Offers, ToCollect, Started, Shown;
      steps := [Listing(device, shown), ReadLedger(device), StartDownloads(device)];
      CollectRuns(now, device, shown);
      CollectedExactly(now.phones[device], shown, Offers(now.rows, device));
      var p := Shown(now.phones[device], shown, Offers(now.rows, device));
      now := OnlyPhone(now, device, p);
      p := p.(wanted := ToCollect(p.offered, p.received), offered := map[]);
      now := OnlyPhone(now, device, p);
      p := Started(p);
      now := OnlyPhone(now, device, p);
    }

    /**
      `checkInbox`: what has arrived is saved before the receiver is even asked, what is owed is
      acknowledged before it is asked what it has, and the whole of it is a run of the protocol.
      The new downloads are for exactly what is on offer, was listed and is not in the ledger.
    */
    method CheckInbox(fates: Id -> Fate, reachable: bool, reach: Id -> Reach, listed: Id -> bool)
        returns (saved: nat, ghost steps: seq<Step>)
      requires Resting() && Inv(now)
      modifies this
      ensures Runs(old(now), steps) && now == Exec(old(now), steps) && Inv(now)
      ensures Honest(old(now)) ==> Honest(now)
      ensures saved == |Keepable(old(now).phones[device], old(now).phones[device].jobs.Keys, fates)|
      ensures device in now.phones
      ensures forall id | id !in old(now).phones[device].jobs ::
        id in now.phones[device].jobs <==>
          reachable && id in Offers(now.rows, device).Keys && listed(id) && id !in now.phones[device].received
    {
      hide Runs, Exec, Offers, AfterAcks, Handled, Keepable, Inv, OnlyPhone, Passed, Honest;
      saved, steps := SaveArrivals(fates);
      OnlyPhones(old(now), device, now.phones[device], now.phones[device]);
      if reachable {
        ghost var first := now;
        ghost var more := SendAcknowledgements(reach);
        AcksKeepDownloads(first, device, Owed(first.phones[device]), reach);
        RunsOn(old(now), steps, more);
        steps := steps + more;
        ghost var second := now;
        var offers := Offers(now.rows, device);
        more := Collect(set id | id in offers && listed(id));
        RowsStay(second, device, now.phones[device]);
        RunsOn(old(now), steps, more);
        steps := steps + more;
      }
      RunKeepsInv(old(now), steps);
      if Honest(old(now)) {
        NoArrivalsStayHonest(old(now), steps);
      }
    }
  }

  function Shown(p: Phone, shown: set<Id>, offers: map<Id, Sha>): Phone {
    p.(offered := map id | id in shown && id in offers :: offers[id])
  }

  /** The phone once it has seen a listing, read its ledger and started what it wants. */
  function CollectedBy(p: Phone, shown: set<Id>, offers: map<Id, Sha>): Phone {
    var shows := Shown(p, shown, offers);
    Started(shows.(wanted := ToCollect(shows.offered, shows.received), offered := map[]))
  }

  lemma ListingRuns(w: System, d: string, shown: set<Id>)
    requires d in w.phones && shown <= Offers(w.rows, d).Keys
    ensures var s := [Listing(d, shown)];
      Runs(w, s) && Exec(w, s) == OnlyPhone(w, d, Shown(w.phones[d], shown, Offers(w.rows, d)))
  {
    hide Runs, Exec, Offers;
    NoSteps(w);
    Extend(w, [], Listing(d, shown));
    assert [] + [Listing(d, shown)] == [Listing(d, shown)];
  }

  lemma CollectRuns(w: System, d: string, shown: set<Id>)
    requires d in w.phones && shown <= Offers(w.rows, d).Keys
    ensures var steps := [Listing(d, shown), ReadLedger(d), StartDownloads(d)];
      && Runs(w, steps) && NoArrivals(steps)
      && Exec(w, steps) == OnlyPhone(w, d, CollectedBy(w.phones[d], shown, Offers(w.rows, d)))
  {
    hide Runs, Exec, Offers, ToCollect, Started;
    ListingRuns(w, d, shown);
    var shows := Shown(w.phones[d], shown, Offers(w.rows, d));
    Next(w, d, [Listing(d, shown)], shows, ReadLedger(d));
    var read := shows.(wanted := ToCollect(shows.offered, shows.received), offered := map[]);
    Next(w, d, [Listing(d, shown)] + [ReadLedger(d)], read, StartDownloads(d));
    assert [Listing(d, shown)] + [ReadLedger(d)] + [StartDownloads(d)] ==
        [Listing(d, shown), ReadLedger(d), StartDownloads(d)];
  }

  /** What a listing and a look at the ledger add to the downloads. */
  lemma CollectedExactly(p: Phone, shown: set<Id>, offers: map<Id, Sha>)
    requires shown <= offers.Keys
    ensures var q := CollectedBy(p, shown, offers);
      && q.received == p.received && q.library == p.library && q.saving == p.saving
      && (forall id :: id in q.jobs <==> id in p.jobs || (id in shown && id !in p.received))
      && forall id | id in q.jobs :: q.jobs[id] == if id in p.jobs then p.jobs[id] else Job(offers[id], Arriving)
  {
  }

  lemma SavesBringNothing(p: Phone, d: string, id: Id, fate: Fate)
    requires id in p.jobs
    ensures NoArrivals(SaveSteps(p, d, id, fate))
  {
  }

  /** `SavedPhone`, wherever it makes sense. */
  function SavedIfAny(p: Phone, id: Id, fate: Fate): Phone {
    if p.saving.None? && id in p.jobs then SavedPhone(p, id, fate) else p
  }

  lemma SamePhone(w: System, d: string)
    requires d in w.phones
    ensures OnlyPhone(w, d, w.phones[d]) == w
  {
  }

  lemma OnlyPhones(w: System, d: string, p: Phone, q: Phone)
    requires d in w.phones
    ensures d in OnlyPhone(w, d, p).phones && OnlyPhone(w, d, p).phones[d] == p
    ensures OnlyPhone(OnlyPhone(w, d, p), d, q) == OnlyPhone(w, d, q)
  {
  }

  function Arrived(p: Phone): set<Id> {
    set id | id in p.jobs && p.jobs[id].staging != Arriving
  }

  /** The downloads in `done` have been dealt with, the others are as they were, and `saved` counts. */
  predicate Passed(start: Phone, p: Phone, done: set<Id>, fates: Id -> Fate, saved: nat) {
    && done <= Arrived(start) && p.saving.None? && p.jobs.Keys <= start.jobs.Keys
    && (forall id | id in done :: Handled(start, p, id, fates(id)))
    && (forall id | id in start.jobs && id !in done :: AsItWas(start, p, id))
    && LedgerGrew(start, p, done) && saved == |Keepable(start, done, fates)|
  }

  lemma NothingPassed(start: Phone, fates: Id -> Fate)
    requires start.saving.None?
    ensures Passed(start, start, Arrived(start) - Arrived(start), fates, 0)
  {
    assert Arrived(start) - Arrived(start) == {};
    assert Keepable(start, {}, fates) == {};
  }

  lemma StillArrived(start: Phone, p: Phone, done: set<Id>, id: Id, fates: Id -> Fate, saved: nat)
    requires Passed(start, p, done, fates, saved) && id in Arrived(start) && id !in done
    ensures p.saving.None? && id in p.jobs && p.jobs[id] == start.jobs[id] && p.jobs[id].staging != Arriving
  {
  }

  lemma OneMorePassed(start: Phone, p: Phone, done: set<Id>, id: Id, fates: Id -> Fate, saved: nat)
    requires Passed(start, p, done, fates, saved) && id in Arrived(start) && id !in done && id in p.jobs
    ensures Passed(start, SavedPhone(p, id, fates(id)), done + {id}, fates,
      if Intact(p.jobs[id]) && fates(id).Keeps? then saved + 1 else saved)
  {
    hide SavedPhone, Intact, Keepable;
    OneSaved(start, p, id, fates(id));
    KeptOneMore(start, done, id, fates);
    var q := SavedPhone(p, id, fates(id));
    forall j | j in done
      ensures Handled(start, q, j, fates(j))
    {
      assert Handled(start, p, j, fates(j));
    }
    forall j | j in start.jobs && j !in done + {id}
      ensures AsItWas(start, q, j)
    {
      assert AsItWas(start, p, j);
    }
  }

  lemma AllPassed(start: Phone, p: Phone, fates: Id -> Fate, saved: nat)
    requires Passed(start, p, Arrived(start) - {}, fates, saved)
    ensures p.saving.None?
    ensures forall id | id in start.jobs :: Handled(start, p, id, fates(id))
    ensures saved == |Keepable(start, start.jobs.Keys, fates)| && p.jobs.Keys <= start.jobs.Keys
  {
    assert Keepable(start, Arrived(start), fates) == Keepable(start, start.jobs.Keys, fates);
    assert Arrived(start) - {} == Arrived(start);
    forall id | id in start.jobs
      ensures Handled(start, p, id, fates(id))
    {
      assert id !in Arrived(start) ==> AsItWas(start, p, id);
    }
  }

  lemma NoSteps(w: System)
    ensures Runs(w, []) && Exec(w, []) == w
  {
  }

  /** The intact downloads among these that this phone can put away. */
  function Keepable(p: Phone, ids: set<Id>, fates: Id -> Fate): set<Id> {
    set id | id in ids && id in p.jobs && Intact(p.jobs[id]) && fates(id).Keeps?
  }

  lemma OneSaved(start: Phone, p: Phone, id: Id, fate: Fate)
    requires p.saving.None? && id in start.jobs && AsItWas(start, p, id) && start.jobs[id].staging != Arriving
    requires id in p.received <==> id in start.received
    requires id in start.received ==> p.received[id] == start.received[id]
    ensures var q := SavedPhone(p, id, fate);
      && (forall j | j in p.received :: j in q.received && q.received[j] == p.received[j])
      && (forall j | j in q.received :: j in p.received || j == id)
      && Handled(start, q, id, fate) && q.saving.None? && q.jobs.Keys <= p.jobs.Keys
      && (forall j | j in p.jobs && j != id :: j in q.jobs && q.jobs[j] == p.jobs[j])
      && p.library <= q.library && p.received.Keys <= q.received.Keys && p.mishaps <= q.mishaps
  {
  }

  lemma KeptOneMore(start: Phone, done: set<Id>, id: Id, fates: Id -> Fate)
    requires id !in done && id in start.jobs
    ensures |Keepable(start, done + {id}, fates)| ==
      |Keepable(start, done, fates)| + if Intact(start.jobs[id]) && fates(id).Keeps? then 1 else 0
  {
    hide Intact;
    var before := Keepable(start, done, fates);
    assert Keepable(start, done + {id}, fates) ==
        if Intact(start.jobs[id]) && fates(id).Keeps? then before + {id} else before;
  }

  /** Whether a request got through, and whether its answer did. */
  datatype Reach = Unreached | Reached(heard: bool)

  function Owed(p: Phone): set<Id> {
    set id | id in p.received && p.received[id].unacked
  }

  function AckedRows(rows: map<Id, Item>, d: string, ids: set<Id>, reach: Id -> Reach): map<Id, Item> {
    map id | id in rows ::
      if id in ids && reach(id).Reached? && rows[id].device == d then rows[id].(state := Delivered) else rows[id]
  }

  function AckedLedger(received: map<Id, Record>, ids: set<Id>, reach: Id -> Reach): map<Id, Record> {
    map id | id in received ::
      if id in ids && reach(id) == Reached(true) then received[id].(unacked := false) else received[id]
  }

  /** The system once these acknowledgements were sent. */
  function AfterAcks(w: System, d: string, ids: set<Id>, reach: Id -> Reach): System
    requires d in w.phones
  {
    w.(rows := AckedRows(w.rows, d, ids, reach), phones := w.phones[d := Told(w.phones[d], ids, reach)])
  }

  function Told(p: Phone, ids: set<Id>, reach: Id -> Reach): Phone {
    p.(received := AckedLedger(p.received, ids, reach))
  }

  lemma NoAcks(w: System, d: string, reach: Id -> Reach)
    requires d in w.phones
    ensures AfterAcks(w, d, {}, reach) == w
  {
    assert AckedRows(w.rows, d, {}, reach) == w.rows;
    assert AckedLedger(w.phones[d].received, {}, reach) == w.phones[d].received;
  }

  lemma OneMoreRow(rows: map<Id, Item>, d: string, done: set<Id>, id: Id, reach: Id -> Reach)
    ensures AckedRows(rows, d, done + {id}, reach) ==
      if reach(id).Reached? then Acknowledged(AckedRows(rows, d, done, reach), d, id)
      else AckedRows(rows, d, done, reach)
  {
  }

  lemma OneMoreRecord(received: map<Id, Record>, done: set<Id>, id: Id, reach: Id -> Reach)
    requires id in received && id !in done
    ensures var v := AckedLedger(received, done, reach);
      && id in v && v[id] == received[id]
      && AckedLedger(received, done + {id}, reach) ==
         if reach(id) == Reached(true) then v[id := v[id].(unacked := false)] else v
  {
  }

  lemma AcksKeepDownloads(w: System, d: string, ids: set<Id>, reach: Id -> Reach)
    requires d in w.phones
    ensures var v := AfterAcks(w, d, ids, reach);
      d in v.phones && v.phones[d].jobs == w.phones[d].jobs && v.phones[d].received.Keys == w.phones[d].received.Keys
  {
  }

  lemma RowsStay(w: System, d: string, p: Phone)
    ensures OnlyPhone(w, d, p).rows == w.rows
  {
  }

  lemma OneMoreAck(w: System, d: string, done: set<Id>, id: Id, reach: Id -> Reach)
    requires d in w.phones && id in Owed(w.phones[d]) && id !in done
    ensures var v, next := AfterAcks(w, d, done, reach), AfterAcks(w, d, done + {id}, reach);
      match reach(id)
      case Unreached => next == v
      case Reached(heard) => Enabled(v, Ack(d, id, heard)) && next == Apply(v, Ack(d, id, heard))
  {
    hide AckedRows, AckedLedger, Acknowledged;
    OneMoreRow(w.rows, d, done, id, reach);
    OneMoreRecord(w.phones[d].received, done, id, reach);
    var v := AfterAcks(w, d, done, reach);
    assert v.phones[d] == Told(w.phones[d], done, reach);
  }

  lemma AckApplied(v: System, d: string, id: Id, heard: bool)
    requires Enabled(v, Ack(d, id, heard))
    ensures d in v.phones && id in v.phones[d].received
    ensures var p := v.phones[d];
      Apply(v, Ack(d, id, heard)) == v.(rows := Acknowledged(v.rows, d, id), phones :=
        if heard then v.phones[d := p.(received := p.received[id := p.received[id].(unacked := false)])] else v.phones)
  {
    hide Acknowledged;
  }
}
