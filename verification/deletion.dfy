/**
  mobile/src/core/deletion.ts: what the receiver's answers allow the phone to delete. The functions
  say what the three loops compute; the lemmas say when an asset goes, that neither list's order
  matters, that no asset is lost track of, and that not asking pointless questions changes nothing.
*/
module Deletion {
  import opened Wrappers
  import opened Custody

  /** One file that was sent. `withheld` is None when it was never established. */
  datatype Candidate = Candidate(
    assetId: string, key: string, storedPath: string, size: int, sha: ShaText,
    withheld: Option<seq<string>>, filename: string)

  datatype Confirmation = Confirmation(key: string, confirmed: bool, reason: Option<string>)

  /** Why an asset stays: the reason on screen together with its detail. */
  datatype Verdict =
    | NotKnownWhatElse
    | PartsWithheld(parts: seq<string>)
    | NothingRecorded
    | Unanswered
    | Refused(word: Option<string>)

  datatype Kept = Kept(assetId: string, filename: string, verdict: Verdict)

  datatype Plan = Plan(deletable: seq<string>, kept: seq<Kept>)

  predicate Usable(c: Candidate) { c.storedPath != "" && c.size >= 0 && c.sha.HexSha? }

  predicate AllSent(c: Candidate) { c.withheld == Some([]) }

  predicate WorthAsking(c: Candidate) { AllSent(c) && Usable(c) }

  // ---- the plan ----

  function Lookup(answers: map<string, Confirmation>, key: string): Option<Confirmation> {
    if key in answers then Some(answers[key]) else None
  }

  function Noted(answers: map<string, Confirmation>, c: Confirmation): map<string, Confirmation> {
    if c.key in answers && !answers[c.key].confirmed then answers else answers[c.key := c]
  }

  function Answers(confirmations: seq<Confirmation>): map<string, Confirmation> {
    if confirmations == [] then map[]
    else Noted(Answers(confirmations[..|confirmations| - 1]), confirmations[|confirmations| - 1])
  }

  function Assets(candidates: seq<Candidate>): seq<string> {
    if candidates == [] then []
    else
      var before, id := Assets(candidates[..|candidates| - 1]), candidates[|candidates| - 1].assetId;
      if id in before then before else before + [id]
  }

  function Group(candidates: seq<Candidate>, id: string): seq<Candidate> {
    if candidates == [] then []
    else
      var before, last := Group(candidates[..|candidates| - 1], id), candidates[|candidates| - 1];
      if last.assetId == id then before + [last] else before
  }

  function PartlySent(group: seq<Candidate>): Option<Verdict> {
    if group == [] then None
    else
      match group[0].withheld
      case None => Some(NotKnownWhatElse)
      case Some(parts) => if parts != [] then Some(PartsWithheld(parts)) else PartlySent(group[1..])
  }

  function NotVouched(group: seq<Candidate>, answers: map<string, Confirmation>): Option<Verdict> {
    if group == [] then None
    else if !Usable(group[0]) then Some(NothingRecorded)
    else
      match Lookup(answers, group[0].key)
      case None => Some(Unanswered)
      case Some(a) => if !a.confirmed then Some(Refused(a.reason)) else NotVouched(group[1..], answers)
  }

  function VerdictOn(group: seq<Candidate>, answers: map<string, Confirmation>): Option<Verdict> {
    if PartlySent(group).Some? then PartlySent(group) else NotVouched(group, answers)
  }

  function PlanOver(ids: seq<string>, candidates: seq<Candidate>, answers: map<string, Confirmation>): Plan {
    if ids == [] then Plan([], [])
    else
      var before, id := PlanOver(ids[..|ids| - 1], candidates, answers), ids[|ids| - 1];
      var group := Group(candidates, id);
      match VerdictOn(group, answers)
      case None => before.(deletable := before.deletable + [id])
      case Some(v) => before.(kept := before.kept + [Kept(id, if group == [] then "" else group[0].filename, v)])
  }

  /** `planDeletions`. */
  function PlanFor(candidates: seq<Candidate>, confirmations: seq<Confirmation>): Plan {
    PlanOver(Assets(candidates), candidates, Answers(confirmations))
  }

  // ---- when an asset goes ----

  predicate Vouched(confirmations: seq<Confirmation>, key: string) {
    (exists a | a in confirmations :: a.key == key) && forall a | a in confirmations && a.key == key :: a.confirmed
  }

  lemma {:induction false} AnswerIsVouched(confirmations: seq<Confirmation>, key: string)
    ensures var a := Lookup(Answers(confirmations), key);
      && (a.Some? <==> exists c | c in confirmations :: c.key == key)
      && (a.Some? && a.value.confirmed <==> Vouched(confirmations, key))
  {
    if confirmations != [] {
      var before, last := confirmations[..|confirmations| - 1], confirmations[|confirmations| - 1];
      AnswerIsVouched(before, key);
      assert confirmations == before + [last];
      assert forall c :: c in confirmations <==> c in before || c == last;
    }
  }

  lemma {:induction false} GroupMembers(candidates: seq<Candidate>, id: string, c: Candidate)
    ensures c in Group(candidates, id) <==> c in candidates && c.assetId == id
  {
    if candidates != [] {
      GroupMembers(candidates[..|candidates| - 1], id, c);
    }
  }

  lemma {:induction false} AssetsMembers(candidates: seq<Candidate>, id: string)
    ensures id in Assets(candidates) <==> exists c | c in candidates :: c.assetId == id
  {
    if candidates != [] {
      var before, last := candidates[..|candidates| - 1], candidates[|candidates| - 1];
      AssetsMembers(before, id);
      assert forall c :: c in candidates <==> c in before || c == last;
    }
  }

  lemma {:induction false} AssetsOnce(candidates: seq<Candidate>)
    ensures forall i, j | 0 <= i < j < |Assets(candidates)| :: Assets(candidates)[i] != Assets(candidates)[j]
  {
    if candidates != [] {
      AssetsOnce(candidates[..|candidates| - 1]);
    }
  }

  lemma {:induction false} AllOfItSent(group: seq<Candidate>)
    ensures PartlySent(group).None? <==> forall c | c in group :: AllSent(c)
  {
    if group != [] {
      AllOfItSent(group[1..]);
      assert AllSent(group[0]) <==> group[0].withheld.Some? && group[0].withheld.value == [];
      assert forall c :: c in group <==> c == group[0] || c in group[1..];
    }
  }

  lemma {:induction false} AllOfItVouched(group: seq<Candidate>, confirmations: seq<Confirmation>)
    ensures NotVouched(group, Answers(confirmations)).None? <==>
      forall c | c in group :: Usable(c) && Vouched(confirmations, c.key)
  {
    hide Vouched;
    if group != [] {
      AllOfItVouched(group[1..], confirmations);
      AnswerIsVouched(confirmations, group[0].key);
      assert forall c :: c in group <==> c == group[0] || c in group[1..];
    }
  }

  lemma {:induction false} PlanMembers(
      ids: seq<string>, candidates: seq<Candidate>, answers: map<string, Confirmation>, id: string)
    ensures id in PlanOver(ids, candidates, answers).deletable <==>
      id in ids && VerdictOn(Group(candidates, id), answers).None?
  {
    hide VerdictOn;
    if ids != [] {
      PlanMembers(ids[..|ids| - 1], candidates, answers, id);
    }
  }

  /** Every file of the asset: sent in full, recorded in full, answered for, and never refused. */
  predicate MayGo(candidates: seq<Candidate>, confirmations: seq<Confirmation>, id: string) {
    (exists c | c in candidates :: c.assetId == id) &&
    forall c | c in candidates && c.assetId == id ::
      c.withheld == Some([]) && c.storedPath != "" && c.size >= 0 && c.sha.HexSha? && Vouched(confirmations, c.key)
  }

  /** An asset is deletable exactly when nothing at all speaks against it. */
  lemma DeletableExactly(candidates: seq<Candidate>, confirmations: seq<Confirmation>, id: string)
    ensures id in PlanFor(candidates, confirmations).deletable <==> MayGo(candidates, confirmations, id)
  {
    hide Vouched;
    var group := Group(candidates, id);
    PlanMembers(Assets(candidates), candidates, Answers(confirmations), id);
    AssetsMembers(candidates, id);
    AllOfItSent(group);
    AllOfItVouched(group, confirmations);
    forall c {
      GroupMembers(candidates, id, c);
    }
  }

  /** The order of neither list, and no repetition in either, decides whether an asset goes. */
  lemma OrderPlaysNoPart(
      candidates: seq<Candidate>, others: seq<Candidate>,
      confirmations: seq<Confirmation>, replies: seq<Confirmation>, id: string)
    requires forall c :: c in candidates <==> c in others
    requires forall a :: a in confirmations <==> a in replies
    ensures id in PlanFor(candidates, confirmations).deletable <==> id in PlanFor(others, replies).deletable
  {
    hide PlanFor;
    DeletableExactly(candidates, confirmations, id);
    DeletableExactly(others, replies, id);
    assert forall key :: Vouched(confirmations, key) <==> Vouched(replies, key);
  }

  // ---- why an asset stays ----

  /** The first file of the asset, in the order they were listed, of which this is true. */
  predicate FirstWith(candidates: seq<Candidate>, id: string, what: Candidate -> bool, i: nat) {
    i < |candidates| && candidates[i].assetId == id && what(candidates[i]) &&
    forall j | 0 <= j < i && candidates[j].assetId == id :: !what(candidates[j])
  }

  lemma {:induction false} FirstInGroup(candidates: seq<Candidate>, id: string, what: Candidate -> bool, i: nat)
      returns (g: nat)
    requires FirstWith(candidates, id, what, i)
    ensures var group := Group(candidates, id);
      g < |group| && group[g] == candidates[i] && forall h | 0 <= h < g :: !what(group[h])
  {
    var before := candidates[..|candidates| - 1];
    if i == |before| {
      g := |Group(before, id)|;
      forall h | 0 <= h < g
        ensures !what(Group(before, id)[h])
      {
        var c := Group(before, id)[h];
        GroupMembers(before, id, c);
        var j :| 0 <= j < |before| && before[j] == c;
        assert candidates[j] == c;
      }
    } else {
      g := FirstInGroup(before, id, what, i);
    }
  }

  lemma {:induction false} PartlySentAt(group: seq<Candidate>, g: nat)
    requires g < |group| && !AllSent(group[g]) && forall h | 0 <= h < g :: AllSent(group[h])
    ensures PartlySent(group) ==
      Some(if group[g].withheld.None? then NotKnownWhatElse else PartsWithheld(group[g].withheld.value))
  {
    if g > 0 {
      assert AllSent(group[0]) && group[1..][g - 1] == group[g];
      PartlySentAt(group[1..], g - 1);
    }
  }

  lemma {:induction false} NotVouchedAt(group: seq<Candidate>, answers: map<string, Confirmation>, g: nat)
    requires g < |group|
    requires forall h | 0 <= h < g ::
      Usable(group[h]) && group[h].key in answers && answers[group[h].key].confirmed
    requires !(Usable(group[g]) && group[g].key in answers && answers[group[g].key].confirmed)
    ensures NotVouched(group, answers) == Some(
      if !Usable(group[g]) then NothingRecorded
      else if group[g].key !in answers then Unanswered
      else Refused(answers[group[g].key].reason))
  {
    if g > 0 {
      assert group[1..][g - 1] == group[g];
      NotVouchedAt(group[1..], answers, g - 1);
    }
  }

  lemma {:induction false} PlanKeeps(
      ids: seq<string>, candidates: seq<Candidate>, answers: map<string, Confirmation>, id: string)
    requires id in ids && VerdictOn(Group(candidates, id), answers).Some? && Group(candidates, id) != []
    ensures Kept(id, Group(candidates, id)[0].filename, VerdictOn(Group(candidates, id), answers).value) in
      PlanOver(ids, candidates, answers).kept
  {
    hide VerdictOn, Group;
    if id in ids[..|ids| - 1] {
      PlanKeeps(ids[..|ids| - 1], candidates, answers, id);
    }
  }

  /** The first answer about a key that is not a yes. */
  predicate FirstNo(confirmations: seq<Confirmation>, key: string, n: nat) {
    n < |confirmations| && confirmations[n].key == key && !confirmations[n].confirmed &&
    forall m | 0 <= m < n && confirmations[m].key == key :: confirmations[m].confirmed
  }

  lemma {:induction false} FirstNoStands(confirmations: seq<Confirmation>, key: string, n: nat)
    requires FirstNo(confirmations, key, n)
    ensures Lookup(Answers(confirmations), key) == Some(confirmations[n])
  {
    var before := confirmations[..|confirmations| - 1];
    if n == |before| {
      AnswerIsVouched(before, key);
    } else {
      FirstNoStands(before, key, n);
    }
  }

  /** The name shown for an asset is its first file's. */
  lemma NamedByTheFirst(candidates: seq<Candidate>, id: string, f: nat)
    requires FirstWith(candidates, id, (c: Candidate) => true, f)
    ensures Group(candidates, id) != [] && Group(candidates, id)[0] == candidates[f]
  {
    var g := FirstInGroup(candidates, id, (c: Candidate) => true, f);
  }

  /** An asset of which something was not sent stays for that, whatever the receiver says: for the first such file. */
  lemma StaysUnsent(candidates: seq<Candidate>, confirmations: seq<Confirmation>, id: string, f: nat, i: nat)
    requires FirstWith(candidates, id, (c: Candidate) => true, f)
    requires FirstWith(candidates, id, (c: Candidate) => c.withheld != Some([]), i)
    ensures var withheld := candidates[i].withheld;
      Kept(id, candidates[f].filename, if withheld.None? then NotKnownWhatElse else PartsWithheld(withheld.value)) in
        PlanFor(candidates, confirmations).kept
  {
    hide Group, PlanOver, Answers, Assets;
    NamedByTheFirst(candidates, id, f);
    var g := FirstInGroup(candidates, id, (c: Candidate) => c.withheld != Some([]), i);
    PartlySentAt(Group(candidates, id), g);
    AssetsMembers(candidates, id);
    PlanKeeps(Assets(candidates), candidates, Answers(confirmations), id);
  }

  /**
    An asset all of which was sent stays for the first of its files that is not fully recorded, or that
    was not answered for, or that was refused; and of several refusals the first is the one shown.
  */
  lemma StaysUnvouched(candidates: seq<Candidate>, confirmations: seq<Confirmation>, id: string, f: nat, i: nat, n: nat)
    requires FirstWith(candidates, id, (c: Candidate) => true, f)
    requires forall c | c in candidates && c.assetId == id :: c.withheld == Some([])
    requires FirstWith(candidates, id, (c: Candidate) => !(Usable(c) && Vouched(confirmations, c.key)), i)
    ensures var c, kept := candidates[i], PlanFor(candidates, confirmations).kept;
      var recorded := c.storedPath != "" && c.size >= 0 && c.sha.HexSha?;
      && (!recorded ==> Kept(id, candidates[f].filename, NothingRecorded) in kept)
      && (recorded && (forall a | a in confirmations :: a.key != c.key) ==>
         Kept(id, candidates[f].filename, Unanswered) in kept)
      && (recorded && FirstNo(confirmations, c.key, n) ==>
         Kept(id, candidates[f].filename, Refused(confirmations[n].reason)) in kept)
  {
    hide Group, PlanOver, Answers, Assets, Vouched;
    NamedByTheFirst(candidates, id, f);
    var bad := (c: Candidate) => !(Usable(c) && Vouched(confirmations, c.key));
    var g := FirstInGroup(candidates, id, bad, i);
    var group, answers := Group(candidates, id), Answers(confirmations);
    AllOfItSent(group);
    forall c {
      GroupMembers(candidates, id, c);
    }
    forall key {
      AnswerIsVouched(confirmations, key);
    }
    NotVouchedAt(group, answers, g);
    if FirstNo(confirmations, candidates[i].key, n) {
      FirstNoStands(confirmations, candidates[i].key, n);
    }
    AssetsMembers(candidates, id);
    PlanKeeps(Assets(candidates), candidates, answers, id);
  }

  // ---- nothing is dropped silently ----

  function KeptIds(kept: seq<Kept>): seq<string> {
    seq(|kept|, i requires 0 <= i < |kept| => kept[i].assetId)
  }

  lemma {:induction false} PlanOverConserves(
      ids: seq<string>, candidates: seq<Candidate>, answers: map<string, Confirmation>)
    ensures var p := PlanOver(ids, candidates, answers);
      multiset(p.deletable) + multiset(KeptIds(p.kept)) == multiset(ids)
  {
    hide VerdictOn;
    if ids != [] {
      var before, id := ids[..|ids| - 1], ids[|ids| - 1];
      PlanOverConserves(before, candidates, answers);
      assert ids == before + [id];
      var p, q := PlanOver(before, candidates, answers), PlanOver(ids, candidates, answers);
      if q.kept != p.kept {
        assert KeptIds(q.kept) == KeptIds(p.kept) + [id];
      }
    }
  }

  /** Every asset is in exactly one of the two lists, once. */
  lemma EveryAssetOnce(candidates: seq<Candidate>, confirmations: seq<Confirmation>, id: string)
    ensures var p := PlanFor(candidates, confirmations);
      multiset(p.deletable)[id] + multiset(KeptIds(p.kept))[id] ==
        if exists c | c in candidates :: c.assetId == id then 1 else 0
  {
    var ids := Assets(candidates);
    PlanOverConserves(ids, candidates, Answers(confirmations));
    AssetsMembers(candidates, id);
    AssetsOnce(candidates);
    OnceInMultiset(ids, id);
  }

  lemma {:induction false} OnceInMultiset(ids: seq<string>, id: string)
    requires forall i, j | 0 <= i < j < |ids| :: ids[i] != ids[j]
    ensures multiset(ids)[id] == if id in ids then 1 else 0
  {
    if ids != [] {
      var before, last := ids[..|ids| - 1], ids[|ids| - 1];
      OnceInMultiset(before, id);
      assert ids == before + [last];
      assert last !in before;
    }
  }

  // ---- asking only what could matter ----

  /** All the answers, when each candidate in the list is asked about; a lost answer is an empty one. */
  function Ask(view: Candidate -> seq<Confirmation>, candidates: seq<Candidate>): seq<Confirmation> {
    if candidates == [] then [] else Ask(view, candidates[..|candidates| - 1]) + view(candidates[|candidates| - 1])
  }

  function Askable(candidates: seq<Candidate>): seq<Candidate> {
    if candidates == [] then []
    else
      var before, last := Askable(candidates[..|candidates| - 1]), candidates[|candidates| - 1];
      if WorthAsking(last) then before + [last] else before
  }

  predicate UniqueKeys(candidates: seq<Candidate>) {
    forall i, j | 0 <= i < j < |candidates| :: candidates[i].key != candidates[j].key
  }

  /** What is said about one key, in the order it is said. */
  function About(confirmations: seq<Confirmation>, key: string): seq<Confirmation> {
    if confirmations == [] then []
    else
      var before, last := About(confirmations[..|confirmations| - 1], key), confirmations[|confirmations| - 1];
      if last.key == key then before + [last] else before
  }

  lemma {:induction false} AboutConcat(a: seq<Confirmation>, b: seq<Confirmation>, key: string)
    ensures About(a + b, key) == About(a, key) + About(b, key)
  {
    if b == [] {
      assert a + b == a;
    } else {
      AboutConcat(a, b[..|b| - 1], key);
      assert (a + b)[..|a + b| - 1] == a + b[..|b| - 1];
    }
  }

  lemma {:induction false} AboutAll(a: seq<Confirmation>, key: string, own: bool)
    requires forall c | c in a :: (c.key == key) == own
    ensures About(a, key) == if own then a else []
  {
    if a != [] {
      AboutAll(a[..|a| - 1], key, own);
      assert a == a[..|a| - 1] + [a[|a| - 1]] && a[|a| - 1] in a;
    }
  }

  lemma {:induction false} AnswerIsAbout(confirmations: seq<Confirmation>, key: string)
    ensures Lookup(Answers(confirmations), key) == Lookup(Answers(About(confirmations, key)), key)
  {
    if confirmations != [] {
      var before, last := confirmations[..|confirmations| - 1], confirmations[|confirmations| - 1];
      AnswerIsAbout(before, key);
      if last.key == key {
        assert (About(before, key) + [last])[..|About(before, key)|] == About(before, key);
      }
    }
  }

  predicate Quotes(view: Candidate -> seq<Confirmation>, candidates: seq<Candidate>) {
    forall c | c in candidates :: forall a | a in view(c) :: a.key == c.key
  }

  /** Whatever else is asked about, what comes back about a candidate is what was said about it. */
  lemma {:induction false} AskedAbout(view: Candidate -> seq<Confirmation>, candidates: seq<Candidate>, c: Candidate)
    requires UniqueKeys(candidates) && Quotes(view, candidates) && Quotes(view, [c])
    requires forall d | d in candidates && d.key == c.key :: d == c
    ensures About(Ask(view, candidates), c.key) == if c in candidates then view(c) else []
  {
    if candidates != [] {
      var before, last := candidates[..|candidates| - 1], candidates[|candidates| - 1];
      AskedAbout(view, before, c);
      AboutConcat(Ask(view, before), view(last), c.key);
      AboutAll(view(last), c.key, last.key == c.key);
      assert last in candidates && c in [c];
      assert forall d :: d in candidates <==> d in before || d == last;
      if last == c {
        assert c !in before;
      }
    }
  }

  lemma {:induction false} AskableMembers(candidates: seq<Candidate>)
    requires UniqueKeys(candidates)
    ensures UniqueKeys(Askable(candidates))
    ensures forall c :: c in Askable(candidates) <==> c in candidates && WorthAsking(c)
  {
    if candidates != [] {
      var before, last := candidates[..|candidates| - 1], candidates[|candidates| - 1];
      AskableMembers(before);
      forall d | d in Askable(before)
        ensures d.key != last.key
      {
        var i :| 0 <= i < |before| && before[i] == d;
        assert candidates[i] == d;
      }
    }
  }

  lemma {:induction false} SameVerdict(
      group: seq<Candidate>, a: map<string, Confirmation>, b: map<string, Confirmation>)
    requires forall c | c in group && Usable(c) :: Lookup(a, c.key) == Lookup(b, c.key)
    ensures NotVouched(group, a) == NotVouched(group, b)
  {
    if group != [] && Usable(group[0]) {
      assert group[0] in group;
      SameVerdict(group[1..], a, b);
    }
  }

  lemma {:induction false} SamePlan(
      ids: seq<string>, candidates: seq<Candidate>, a: map<string, Confirmation>, b: map<string, Confirmation>)
    requires forall c | c in candidates && WorthAsking(c) :: Lookup(a, c.key) == Lookup(b, c.key)
    ensures PlanOver(ids, candidates, a) == PlanOver(ids, candidates, b)
  {
    hide Usable, NotVouched, Lookup;
    if ids != [] {
      var id := ids[|ids| - 1];
      var group := Group(candidates, id);
      SamePlan(ids[..|ids| - 1], candidates, a, b);
      AllOfItSent(group);
      forall c {
        GroupMembers(candidates, id, c);
      }
      if PartlySent(group).None? {
        SameVerdict(group, a, b);
      }
    }
  }

  /**
    Asking only about the candidates worth asking about gives the same plan, reasons and all, as
    asking about every one of them.
  */
  lemma FilterIsTransparent(view: Candidate -> seq<Confirmation>, candidates: seq<Candidate>)
    requires UniqueKeys(candidates) && Quotes(view, candidates)
    ensures PlanFor(candidates, Ask(view, Askable(candidates))) == PlanFor(candidates, Ask(view, candidates))
  {
    hide Lookup, WorthAsking, UniqueKeys;
    var few, all := Ask(view, Askable(candidates)), Ask(view, candidates);
    AskableMembers(candidates);
    forall c | c in candidates && WorthAsking(c)
      ensures Lookup(Answers(few), c.key) == Lookup(Answers(all), c.key)
    {
      KeyIsItsOwn(candidates, c);
      AskedAbout(view, candidates, c);
      AskedAbout(view, Askable(candidates), c);
      AnswerIsAbout(few, c.key);
      AnswerIsAbout(all, c.key);
    }
    SamePlan(Assets(candidates), candidates, Answers(few), Answers(all));
  }

  lemma KeyIsItsOwn(candidates: seq<Candidate>, c: Candidate)
    requires UniqueKeys(candidates) && c in candidates
    ensures forall d | d in candidates && d.key == c.key :: d == c
  {
  }

  // ---- the loops ----

  method CollectAnswers(confirmations: seq<Confirmation>) returns (answers: map<string, Confirmation>)
    ensures answers == Answers(confirmations)
  {
    answers := map[];
    for i := 0 to |confirmations|
      invariant answers == Answers(confirmations[..i])
    {
      assert confirmations[..i + 1][..i] == confirmations[..i];
      var c := confirmations[i];
      if !(c.key in answers && !answers[c.key].confirmed) {
        answers := answers[c.key := c];
      }
    }
    assert confirmations[..|confirmations|] == confirmations;
  }

  /** The groups, and their assets in the order they were first met. */
  method GroupByAsset(candidates: seq<Candidate>) returns (order: seq<string>, byAsset: map<string, seq<Candidate>>)
    ensures order == Assets(candidates)
    ensures forall id ::
      (id in byAsset <==> id in order) && (if id in byAsset then byAsset[id] else []) == Group(candidates, id)
  {
    order, byAsset := [], map[];
    for i := 0 to |candidates|
      invariant order == Assets(candidates[..i])
      invariant forall id ::
        (id in byAsset <==> id in order) && (if id in byAsset then byAsset[id] else []) == Group(candidates[..i], id)
    {
      assert candidates[..i + 1][..i] == candidates[..i];
      var c := candidates[i];
      if c.assetId in byAsset {
        byAsset := byAsset[c.assetId := byAsset[c.assetId] + [c]];
      } else {
        byAsset := byAsset[c.assetId := [c]];
        order := order + [c.assetId];
      }
    }
    assert candidates[..|candidates|] == candidates;
  }

  method VerdictFor(group: seq<Candidate>, answers: map<string, Confirmation>) returns (v: Option<Verdict>)
    ensures v == VerdictOn(group, answers)
  {
    for i := 0 to |group|
      invariant PartlySent(group) == PartlySent(group[i..])
    {
      assert group[i..][1..] == group[i + 1..];
      if group[i].withheld.None? {
        return Some(NotKnownWhatElse);
      }
      if group[i].withheld.value != [] {
        return Some(PartsWithheld(group[i].withheld.value));
      }
    }
    assert group[|group|..] == [];
    for i := 0 to |group|
      invariant NotVouched(group, answers) == NotVouched(group[i..], answers)
    {
      assert group[i..][1..] == group[i + 1..];
      if !Usable(group[i]) {
        return Some(NothingRecorded);
      }
      var answer := Lookup(answers, group[i].key);
      if answer.None? {
        return Some(Unanswered);
      }
      if !answer.value.confirmed {
        return Some(Refused(answer.value.reason));
      }
    }
    return None;
  }

  method PlanDeletions(candidates: seq<Candidate>, confirmations: seq<Confirmation>) returns (plan: Plan)
    ensures plan == PlanFor(candidates, confirmations)
  {
    hide VerdictOn, Group;
    var answers := CollectAnswers(confirmations);
    var order, byAsset := GroupByAsset(candidates);
    plan := Plan([], []);
    for i := 0 to |order|
      invariant plan == PlanOver(order[..i], candidates, answers)
    {
      assert order[..i + 1][..i] == order[..i];
      var id := order[i];
      var verdict := VerdictFor(byAsset[id], answers);
      if verdict.None? {
        plan := plan.(deletable := plan.deletable + [id]);
      } else {
        GroupNotEmpty(candidates, id);
        plan := plan.(kept := plan.kept + [Kept(id, byAsset[id][0].filename, verdict.value)]);
      }
    }
    assert order[..|order|] == order;
  }

  lemma GroupNotEmpty(candidates: seq<Candidate>, id: string)
    requires id in Assets(candidates)
    ensures Group(candidates, id) != []
  {
    AssetsMembers(candidates, id);
    var c :| c in candidates && c.assetId == id;
    GroupMembers(candidates, id, c);
  }
}
