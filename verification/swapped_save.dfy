/** A run in which the file that was verified is not the file that is put away. */
module SwappedSave {
  import opened Wrappers
  import opened Hashing
  import opened Texts
  import opened Outbox
  import opened Delivery
  import opened Inbox

  /** Queued for one phone, and hashed. */
  function OnOffer(d: string, id: Id, good: Bytes): System {
    Init({d}).(rows := map[id := Item(d, "", |good|, 0, Some(Sha256(good)), Ready)], used := {id})
  }

  lemma IsOnOffer(d: string, id: Id, good: Bytes)
    ensures var steps := [Queue(id, d, "", |good|), Hash(id, Seen(good, |good|, 0))];
      Runs(Init({d}), steps) && Exec(Init({d}), steps) == OnOffer(d, id, good)
  {
    hide Runs, Exec;
    NoSteps(Init({d}));
    var queue, hash := Queue(id, d, "", |good|), Hash(id, Seen(good, |good|, 0));
    Extend(Init({d}), [], queue);
    assert [] + [queue] == [queue] && [queue] + [hash] == [queue, hash];
    Extend(Init({d}), [queue], hash);
    assert Exec(Init({d}), [queue, hash]).rows == OnOffer(d, id, good).rows;
  }

  /** A phone that has nothing in its ledger, and this download. */
  function Fetching(p: Phone, id: Id, sha: Sha, staging: Staging): Phone { p.(jobs := map[id := Job(sha, staging)]) }

  /** One step of this phone, from one known state to the next. */
  lemma Onto(w: System, d: string, steps: seq<Step>, p: Phone, s: Step, q: Phone)
    requires d in w.phones && Runs(w, steps) && Exec(w, steps) == OnlyPhone(w, d, p)
    requires OnPhone(s) && s.device == d && Enabled(OnlyPhone(w, d, p), s) && PhoneAfter(p, OnlyPhone(w, d, p), s) == q
    ensures Runs(w, steps + [s]) && Exec(w, steps + [s]) == OnlyPhone(w, d, q)
  {
    hide PhoneAfter, Enabled, Runs, Exec;
    Next(w, d, steps, p, s);
  }

  function AskSteps(d: string, id: Id): seq<Step> { [Listing(d, {id}), ReadLedger(d), StartDownloads(d)] }

  lemma IsListed(d: string, id: Id, good: Bytes, p: Phone)
    requires p.offered == map[]
    ensures var w := OnlyPhone(OnOffer(d, id, good), d, p);
      && Enabled(w, Listing(d, {id}))
      && Apply(w, Listing(d, {id})) == OnlyPhone(OnOffer(d, id, good), d, p.(offered := map[id := Sha256(good)]))
  {
    var w := OnlyPhone(OnOffer(d, id, good), d, p);
    var offers := Offers(w.rows, d);
    assert offers == map[id := Sha256(good)];
    var v := Apply(w, Listing(d, {id}));
    assert v.phones[d].offered == map[id := Sha256(good)];
    assert v.phones[d] == p.(offered := map[id := Sha256(good)]);
    assert v.phones == OnOffer(d, id, good).phones[d := v.phones[d]];
  }

  /** One check asks for the item. */
  lemma Asks(d: string, id: Id, good: Bytes, steps: seq<Step>, p: Phone)
    requires var w := OnOffer(d, id, good); Runs(w, steps) && Exec(w, steps) == OnlyPhone(w, d, p)
    requires p.received == map[] && p.jobs == map[] && p.offered == map[] && p.wanted == map[]
    ensures var w := OnOffer(d, id, good);
      && Runs(w, steps + AskSteps(d, id))
      && Exec(w, steps + AskSteps(d, id)) == OnlyPhone(w, d, Fetching(p, id, Sha256(good), Arriving))
  {
    hide Runs, Exec;
    var w, sha := OnOffer(d, id, good), Sha256(good);
    var p1 := p.(offered := map[id := sha]);
    IsListed(d, id, good, p);
    Extend(w, steps, Listing(d, {id}));
    var p2 := p.(wanted := map[id := sha]);
    assert ToCollect(p1.offered, p1.received) == map[id := sha];
    Onto(w, d, steps + [Listing(d, {id})], p1, ReadLedger(d), p2);
    assert Started(p2) == Fetching(p, id, sha, Arriving);
    Onto(w, d, steps + [Listing(d, {id})] + [ReadLedger(d)], p2, StartDownloads(d), Fetching(p, id, sha, Arriving));
    assert steps + [Listing(d, {id})] + [ReadLedger(d)] + [StartDownloads(d)] == steps + AskSteps(d, id);
  }

  /** A save that was started for the good bytes. */
  function Pending(id: Id, good: Bytes): Phone { NewPhone().(saving := Some(Saving(id, Sha256(good), Verified))) }

  /** The good bytes arrive and are verified, and then everything is cancelled. */
  lemma IsCancelled(d: string, id: Id, good: Bytes)
    ensures var w := OnOffer(d, id, good);
      var steps := AskSteps(d, id) + [Arrive(d, id, good), Verify(d, id), DropDownload(d, id)];
      Runs(w, steps) && Exec(w, steps) == OnlyPhone(w, d, Pending(id, good))
  {
    hide Runs, Exec, AskSteps;
    var w, sha := OnOffer(d, id, good), Sha256(good);
    NoSteps(w);
    SamePhone(w, d);
    Asks(d, id, good, [], NewPhone());
    var ask := AskSteps(d, id);
    assert [] + ask == ask;
    var p := Fetching(NewPhone(), id, sha, Staged(good));
    ArrivesOnto(w, d, ask, NewPhone(), id, sha, good);
    var q := p.(saving := Some(Saving(id, sha, Verified)));
    Onto(w, d, ask + [Arrive(d, id, good)], p, Verify(d, id), q);
    assert q.jobs - {id} == map[];
    Onto(w, d, ask + [Arrive(d, id, good)] + [Verify(d, id)], q, DropDownload(d, id), Pending(id, good));
    assert ask + [Arrive(d, id, good)] + [Verify(d, id)] + [DropDownload(d, id)] ==
        ask + [Arrive(d, id, good), Verify(d, id), DropDownload(d, id)];
  }

  /** The phone in the end: its ledger and its library do not agree. */
  function Deceived(id: Id, good: Bytes, bad: Bytes): Phone {
    NewPhone().(library := {(id, bad)}, received := map[id := Record(Sha256(good), true)])
  }

  lemma ArrivesOnto(w: System, d: string, steps: seq<Step>, p: Phone, id: Id, sha: Sha, bytes: Bytes)
    requires d in w.phones && Runs(w, steps) && Exec(w, steps) == OnlyPhone(w, d, Fetching(p, id, sha, Arriving))
    ensures Runs(w, steps + [Arrive(d, id, bytes)])
    ensures Exec(w, steps + [Arrive(d, id, bytes)]) == OnlyPhone(w, d, Fetching(p, id, sha, Staged(bytes)))
  {
    hide Runs, Exec;
    var q := Fetching(p, id, sha, Arriving);
    assert q.jobs[id := Job(sha, Staged(bytes))] == map[id := Job(sha, Staged(bytes))];
    Onto(w, d, steps, q, Arrive(d, id, bytes), Fetching(p, id, sha, Staged(bytes)));
  }

  /** What was put away is recorded, under the digest the save was started for. */
  lemma RecordedAndDone(w: System, d: string, steps: seq<Step>, id: Id, good: Bytes, bad: Bytes)
    requires var p := Fetching(Pending(id, good), id, Sha256(good), Staged(bad));
      var q := p.(library := {(id, bad)}, saving := Some(Saving(id, Sha256(good), PutAway)));
      d in w.phones && Runs(w, steps) && Exec(w, steps) == OnlyPhone(w, d, q)
    ensures var more := steps + [Note(d)] + [Finish(d)];
      Runs(w, more) && Exec(w, more) == OnlyPhone(w, d, Deceived(id, good, bad))
  {
    hide Runs, Exec;
    var sha := Sha256(good);
    var p := Fetching(Pending(id, good), id, sha, Staged(bad));
    var q := p.(library := {(id, bad)}, saving := Some(Saving(id, sha, PutAway)));
    var r := q.(received := map[id := Record(sha, true)], saving := Some(Saving(id, sha, Noted)));
    assert Recorded(map[], id, sha) == map[id := Record(sha, true)];
    Onto(w, d, steps, q, Note(d), r);
    assert r.jobs - {id} == map[];
    Onto(w, d, steps + [Note(d)], r, Finish(d), Deceived(id, good, bad));
  }

  /** Asked for again, other bytes come, and the save goes on with them. */
  lemma IsDeceived(d: string, id: Id, good: Bytes, bad: Bytes, steps: seq<Step>)
    requires var w := OnOffer(d, id, good); Runs(w, steps) && Exec(w, steps) == OnlyPhone(w, d, Pending(id, good))
    ensures var w := OnOffer(d, id, good);
      var more := steps + AskSteps(d, id) + [Arrive(d, id, bad), Save(d, false), Note(d), Finish(d)];
      Runs(w, more) && Exec(w, more) == OnlyPhone(w, d, Deceived(id, good, bad))
  {
    hide Runs, Exec, AskSteps;
    var w, sha := OnOffer(d, id, good), Sha256(good);
    Asks(d, id, good, steps, Pending(id, good));
    var asked := steps + AskSteps(d, id);
    ArrivesOnto(w, d, asked, Pending(id, good), id, sha, bad);
    var s1 := asked + [Arrive(d, id, bad)];
    var p := Fetching(Pending(id, good), id, sha, Staged(bad));
    var q := p.(library := {(id, bad)}, saving := Some(Saving(id, sha, PutAway)));
    Onto(w, d, s1, p, Save(d, false), q);
    RecordedAndDone(w, d, s1 + [Save(d, false)], id, good, bad);
    assert s1 + [Save(d, false)] + [Note(d)] + [Finish(d)] ==
        asked + [Arrive(d, id, bad), Save(d, false), Note(d), Finish(d)];
  }

  /** The whole run, from nothing to an acknowledgement that is heard. */
  function SwapSteps(d: string, id: Id, good: Bytes, bad: Bytes): seq<Step> {
    [Queue(id, d, "", |good|), Hash(id, Seen(good, |good|, 0))] +
    (AskSteps(d, id) + [Arrive(d, id, good), Verify(d, id), DropDownload(d, id)] +
     AskSteps(d, id) + [Arrive(d, id, bad), Save(d, false), Note(d), Finish(d)] + [Ack(d, id, true)])
  }

  /**
    Between the check of a download's digest and putting it away the user cancels, a new check asks
    for the same item, and other bytes arrive under the same name. They are put away unverified,
    the item is recorded under the digest they do not have, and the receiver marks it delivered.
  */
  lemma DeliveredButNotSaved(d: string, id: Id, good: Bytes, bad: Bytes)
    requires good != bad
    ensures var steps := SwapSteps(d, id, good, bad);
      Runs(Init({d}), steps) &&
      var w := Exec(Init({d}), steps);
      && id in w.rows && w.rows[id].state == Delivered && w.rows[id].sha == Some(Sha256(good))
      && d in w.phones && w.phones[d].library == {(id, bad)}
  {
    hide Runs, Exec, AskSteps;
    var w := OnOffer(d, id, good);
    var first := AskSteps(d, id) + [Arrive(d, id, good), Verify(d, id), DropDownload(d, id)];
    var more := first + AskSteps(d, id) + [Arrive(d, id, bad), Save(d, false), Note(d), Finish(d)];
    IsOnOffer(d, id, good);
    IsCancelled(d, id, good);
    IsDeceived(d, id, good, bad, first);
    Extend(w, more, Ack(d, id, true));
    RunsOn(Init({d}), [Queue(id, d, "", |good|), Hash(id, Seen(good, |good|, 0))], more + [Ack(d, id, true)]);
  }
}
