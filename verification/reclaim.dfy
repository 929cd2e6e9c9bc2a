/**
  mobile/src/engine/deletion.ts and mobile/src/data/deletion.ts: the phone's side of
  delete-after-transfer. The phone records what it hashed, asks the receiver to read it back, and
  hands to the library only assets of which every recorded file was read back during this very
  reclaim, whatever happened to the receiver's disk before, between and after the questions.
*/
module Reclaim {
  import opened Wrappers
  import opened Texts
  import opened Hashing
  import opened Ledger
  import opened Custody
  import opened Deletion
  import opened Selection

  // ---- a receiver's reply, as JSON ----

  datatype Json = Missing | Null | Bool(b: bool) | Text(s: string) | OtherValue

  datatype Entry = NotAnObject | Entry(id: Json, confirmed: Json, reason: Json)

  datatype Body = NotJson | NoResults | Results(entries: seq<Entry>)

  function ReadEntry(e: Entry): Option<Confirmation> {
    if e.NotAnObject? || !e.id.Text? || e.id.s == "" then None
    else Some(Confirmation(e.id.s, e.confirmed == Bool(true), if e.reason.Text? then Some(e.reason.s) else None))
  }

  function ReadEntries(entries: seq<Entry>): seq<Confirmation> {
    if entries == [] then []
    else
      var before := ReadEntries(entries[..|entries| - 1]);
      match ReadEntry(entries[|entries| - 1])
      case Some(c) => before + [c]
      case None => before
  }

  function ReadBody(body: Body): seq<Confirmation> {
    if body.Results? then ReadEntries(body.entries) else []
  }

  method ParseConfirmations(body: Body) returns (out: seq<Confirmation>)
    ensures out == ReadBody(body)
  {
    out := [];
    if !body.Results? {
      return;
    }
    for i := 0 to |body.entries|
      invariant out == ReadEntries(body.entries[..i])
    {
      assert body.entries[..i + 1][..i] == body.entries[..i];
      var e := body.entries[i];
      if e.NotAnObject? {
        continue;
      }
      if !e.id.Text? || e.id.s == "" {
        continue;
      }
      out := out + [Confirmation(e.id.s, e.confirmed == Bool(true), if e.reason.Text? then Some(e.reason.s) else None)];
    }
    assert body.entries[..|body.entries|] == body.entries;
  }

  /** The only thing that reads as a yes about a key is the boolean true beside exactly that key. */
  lemma {:induction false} OnlyTrueIsAYes(entries: seq<Entry>, key: string)
    ensures (exists c | c in ReadEntries(entries) :: c.key == key && c.confirmed) <==>
      key != "" && exists e | e in entries :: e.Entry? && e.id == Text(key) && e.confirmed == Bool(true)
  {
    if entries != [] {
      var before, last := entries[..|entries| - 1], entries[|entries| - 1];
      OnlyTrueIsAYes(before, key);
      var r := ReadEntry(last);
      assert forall e :: e in entries <==> e in before || e == last;
      assert (r.Some? && r.value.key == key && r.value.confirmed) <==>
        (last.Entry? && last.id == Text(key) && key != "" && last.confirmed == Bool(true));
      assert forall c :: c in ReadEntries(entries) <==> c in ReadEntries(before) || (r.Some? && r.value == c);
    }
  }

  // ---- the stored question ----

  datatype Column = SqlNull | Broken | NotAnArray | Array(entries: seq<Json>)

  function StoreWithheld(withheld: Option<seq<string>>): Column {
    match withheld
    case None => SqlNull
    case Some(parts) => Array(seq(|parts|, i requires 0 <= i < |parts| => Text(parts[i])))
  }

  function ParseWithheld(raw: Column): Option<seq<string>> {
    if raw.Array? && forall e | e in raw.entries :: e.Text? then
      Some(seq(|raw.entries|,
          i requires 0 <= i < |raw.entries| => assert raw.entries[i] in raw.entries; raw.entries[i].s))
    else None
  }

  /** "Unknown" and "nothing withheld" survive the table apart; no damaged column reads as the latter. */
  lemma WithheldSurvives(withheld: Option<seq<string>>, raw: Column)
    ensures ParseWithheld(StoreWithheld(withheld)) == withheld
    ensures ParseWithheld(raw) == Some([]) <==> raw == Array([])
  {
    if withheld.Some? {
      var entries := StoreWithheld(withheld).entries;
      assert forall e | e in entries :: e.Text?;
      assert ParseWithheld(StoreWithheld(withheld)).value == withheld.value;
    }
    OnlyEmptyIsNothing(raw);
  }

  lemma OnlyEmptyIsNothing(raw: Column)
    ensures ParseWithheld(raw) == Some([]) <==> raw == Array([])
  {
    var read := ParseWithheld(raw);
    if read.Some? {
      assert |read.value| == |raw.entries|;
      assert read.value == [] <==> raw.entries == [];
    } else if raw.Array? {
      assert raw.entries != [];
    }
  }

  datatype PendingRow = PendingRow(
    receiver: string, key: string, assetId: string, filename: string, storedPath: string, size: int, sha: ShaText,
        withheld: Column)

  function ToCandidate(r: PendingRow): Candidate {
    Candidate(r.assetId, r.key, r.storedPath, r.size, r.sha, ParseWithheld(r.withheld), r.filename)
  }

  function ToRow(receiver: string, c: Candidate): PendingRow {
    PendingRow(receiver, c.key, c.assetId, c.filename, c.storedPath, c.size, c.sha, StoreWithheld(c.withheld))
  }

  /** The rows of the table but for these keys of this receiver. */
  function Without(table: seq<PendingRow>, receiver: string, keys: set<string>): seq<PendingRow> {
    if table == [] then []
    else
      var before, last := Without(table[..|table| - 1], receiver, keys), table[|table| - 1];
      if last.receiver == receiver && last.key in keys then before else before + [last]
  }

  function Waiting(table: seq<PendingRow>, receiver: string): seq<Candidate> {
    if table == [] then []
    else
      var before, last := Waiting(table[..|table| - 1], receiver), table[|table| - 1];
      if last.receiver == receiver then before + [ToCandidate(last)] else before
  }

  predicate OneRowPerKey(table: seq<PendingRow>) {
    forall i, j | 0 <= i < j < |table| :: table[i].receiver != table[j].receiver || table[i].key != table[j].key
  }

  lemma {:induction false} WithoutMembers(table: seq<PendingRow>, receiver: string, keys: set<string>)
    requires OneRowPerKey(table)
    ensures OneRowPerKey(Without(table, receiver, keys))
    ensures forall r :: r in Without(table, receiver, keys) <==>
      r in table && !(r.receiver == receiver && r.key in keys)
  {
    if table != [] {
      var before, last := table[..|table| - 1], table[|table| - 1];
      WithoutMembers(before, receiver, keys);
      forall r | r in before
        ensures r.receiver != last.receiver || r.key != last.key
      {
        var i :| 0 <= i < |before| && before[i] == r;
        assert table[i] == r;
      }
      assert forall r :: r in table <==> r in before || r == last;
    }
  }

  lemma {:induction false} WithoutTwice(table: seq<PendingRow>, receiver: string, a: set<string>, b: set<string>)
    ensures Without(Without(table, receiver, a), receiver, b) == Without(table, receiver, a + b)
  {
    if table != [] {
      var before, last := table[..|table| - 1], table[|table| - 1];
      WithoutTwice(before, receiver, a, b);
      if !(last.receiver == receiver && last.key in a) {
        var kept := Without(before, receiver, a);
        assert (kept + [last])[..|kept|] == kept;
      }
    }
  }

  lemma {:induction false} WaitingMembers(table: seq<PendingRow>, receiver: string)
    requires OneRowPerKey(table)
    ensures UniqueKeys(Waiting(table, receiver))
    ensures forall c :: c in Waiting(table, receiver) <==>
      exists r | r in table :: r.receiver == receiver && ToCandidate(r) == c
  {
    hide ParseWithheld;
    if table != [] {
      var before, last := table[..|table| - 1], table[|table| - 1];
      WaitingMembers(before, receiver);
      forall c | c in Waiting(before, receiver) && last.receiver == receiver
        ensures c.key != last.key
      {
        var r :| r in before && r.receiver == receiver && ToCandidate(r) == c;
        var i :| 0 <= i < |before| && before[i] == r;
        assert table[i] == r;
      }
      assert forall r :: r in table <==> r in before || r == last;
    }
  }

  // ---- asking ----

  /** What the receiver's ledger and disk show while it looks at one item. */
  datatype Moment = Moment(files: map<string, Row>, view: View)

  /** What becomes of one batch: it gets no answer, or each item is looked at in its own moment. */
  datatype Round = Lost | Served(moments: nat -> Moment)

  /** `CONFIRM_BATCH`. */
  const BATCH := 100

  function RequestFor(c: Candidate): Request { Request(c.key, c.storedPath, c.size, c.sha) }

  function Word(r: Reason): string {
    match r
    case NoReason => ""
    case Unknown => "unknown"
    case OriginalRemoved => "original_removed"
    case Missing => "missing"
    case SizeMismatch => "size_mismatch"
    case ContentMismatch => "content_mismatch"
    case Unreadable => "unreadable"
    case BadRequest => "bad_request"
  }

  /** How the receiver writes one of its answers down; an empty reason is left out. */
  function EntryOf(a: Answer): Entry {
    Entry(Text(a.id), Bool(a.confirmed), if a.reason == NoReason then Json.Missing else Text(Word(a.reason)))
  }

  function AnswerTo(m: Moment, root: Key, device: string, c: Candidate): Answer {
    ConfirmOne(m.files, root, m.view, device, RequestFor(c))
  }

  /** Everything the phone hears about the item at this place. */
  function Heard(serve: nat -> Round, root: Key, device: string, cs: seq<Candidate>, p: nat): seq<Confirmation>
    requires p < |cs|
  {
    match serve(p / BATCH)
    case Lost => []
    case Served(moments) => ReadEntries([EntryOf(AnswerTo(moments(p % BATCH), root, device, cs[p]))])
  }

  function HeardUpTo(serve: nat -> Round, root: Key, device: string, cs: seq<Candidate>, n: nat): seq<Confirmation>
    requires n <= |cs|
  {
    if n == 0 then [] else HeardUpTo(serve, root, device, cs, n - 1) + Heard(serve, root, device, cs, n - 1)
  }

  lemma HeardOne(a: Answer)
    ensures ReadEntries([EntryOf(a)]) ==
      if a.id == "" then []
      else [Confirmation(a.id, a.confirmed, if a.reason == NoReason then None else Some(Word(a.reason)))]
  {
    hide Word;
    assert [EntryOf(a)][..0] == [];
  }

  lemma AnswerQuotes(m: Moment, root: Key, device: string, c: Candidate)
    ensures AnswerTo(m, root, device, c).id == c.key
  {
  }

  /** The receiver, while it looked at this item, said yes. */
  predicate SaidYes(serve: nat -> Round, root: Key, device: string, cs: seq<Candidate>, p: nat)
    requires p < |cs|
  {
    serve(p / BATCH).Served? && AnswerTo(serve(p / BATCH).moments(p % BATCH), root, device, cs[p]).confirmed
  }

  lemma HeardAbout(serve: nat -> Round, root: Key, device: string, cs: seq<Candidate>, p: nat, key: string)
    requires p < |cs|
    ensures forall a | a in Heard(serve, root, device, cs, p) ::
      a.key == cs[p].key && (a.confirmed <==> SaidYes(serve, root, device, cs, p))
    ensures Heard(serve, root, device, cs, p) == [] <==> serve(p / BATCH).Lost? || cs[p].key == ""
  {
    hide AnswerTo;
    if serve(p / BATCH).Served? {
      AnswerQuotes(serve(p / BATCH).moments(p % BATCH), root, device, cs[p]);
      HeardOne(AnswerTo(serve(p / BATCH).moments(p % BATCH), root, device, cs[p]));
    }
  }

  lemma {:induction false} HeardUpToMembers(
      serve: nat -> Round, root: Key, device: string, cs: seq<Candidate>, n: nat, a: Confirmation)
    requires n <= |cs|
    ensures a in HeardUpTo(serve, root, device, cs, n) <==>
      exists p: nat | p < n :: a in Heard(serve, root, device, cs, p)
  {
    hide Heard;
    if n > 0 {
      HeardUpToMembers(serve, root, device, cs, n - 1, a);
    }
  }

  /** With unique keys, what is heard vouches for a file exactly when the receiver said yes to it. */
  lemma VouchedIsSaidYes(serve: nat -> Round, root: Key, device: string, cs: seq<Candidate>, p: nat)
    requires UniqueKeys(cs) && p < |cs| && cs[p].key != ""
    ensures Vouched(HeardUpTo(serve, root, device, cs, |cs|), cs[p].key) <==> SaidYes(serve, root, device, cs, p)
  {
    hide Heard, SaidYes, UniqueKeys;
    var all, key := HeardUpTo(serve, root, device, cs, |cs|), cs[p].key;
    KeyAtOnePlace(cs, p);
    HeardAbout(serve, root, device, cs, p, key);
    forall a
      ensures a in all && a.key == key <==> a in Heard(serve, root, device, cs, p)
    {
      HeardUpToMembers(serve, root, device, cs, |cs|, a);
      if a in all && a.key == key {
        var q: nat :| q < |cs| && a in Heard(serve, root, device, cs, q);
        HeardAbout(serve, root, device, cs, q, key);
      }
    }
    if serve(p / BATCH).Served? {
      assert Heard(serve, root, device, cs, p)[0] in Heard(serve, root, device, cs, p);
    } else {
      LostIsNoYes(serve, root, device, cs, p);
    }
  }

  lemma LostIsNoYes(serve: nat -> Round, root: Key, device: string, cs: seq<Candidate>, p: nat)
    requires p < |cs| && !serve(p / BATCH).Served?
    ensures !SaidYes(serve, root, device, cs, p) && Heard(serve, root, device, cs, p) == []
  {
  }

  lemma KeyAtOnePlace(cs: seq<Candidate>, p: nat)
    requires UniqueKeys(cs) && p < |cs|
    ensures forall q | 0 <= q < |cs| && cs[q].key == cs[p].key :: q == p
  {
  }

  function EntriesFor(moments: nat -> Moment, root: Key, device: string, batch: seq<Candidate>): seq<Entry> {
    seq(|batch|, j requires 0 <= j < |batch| => EntryOf(AnswerTo(moments(j), root, device, batch[j])))
  }

  /** The answers to a whole batch are the answers to its items, one after the other. */
  lemma {:induction false} BatchHeard(
      serve: nat -> Round, root: Key, device: string, cs: seq<Candidate>, b: nat, n: nat)
    requires b * BATCH <= b * BATCH + n <= |cs| && n <= BATCH
    ensures HeardUpTo(serve, root, device, cs, b * BATCH + n) == HeardUpTo(serve, root, device, cs, b * BATCH) +
      match serve(b)
      case Lost => []
      case Served(moments) => ReadEntries(EntriesFor(moments, root, device, cs[b * BATCH..b * BATCH + n]))
  {
    hide AnswerTo, EntryOf, ReadEntry, ReadEntries, Heard, EntriesFor;
    var start := b * BATCH;
    if n == 0 {
      NoEntries();
      if serve(b).Served? {
        assert cs[start..start + n] == [];
        NoneAsked(serve(b).moments, root, device);
      }
    } else {
      var p := start + n - 1;
      BatchHeard(serve, root, device, cs, b, n - 1);
      HeardInBatch(serve, root, device, cs, b, n - 1);
      assert HeardUpTo(serve, root, device, cs, p + 1) ==
          HeardUpTo(serve, root, device, cs, p) + Heard(serve, root, device, cs, p);
      if serve(b).Served? {
        var moments, some := serve(b).moments, cs[start..p];
        var last := EntryOf(AnswerTo(moments(n - 1), root, device, cs[p]));
        assert cs[start..p + 1] == some + [cs[p]] && |some| == n - 1;
        OneMoreAsked(moments, root, device, some, cs[p]);
        LastEntry(EntriesFor(moments, root, device, some), last);
        Associative(HeardUpTo(serve, root, device, cs, start), ReadEntries(EntriesFor(moments, root, device, some)),
          ReadEntries([last]));
      }
    }
  }

  lemma Associative<T>(a: seq<T>, b: seq<T>, c: seq<T>)
    ensures (a + b) + c == a + (b + c)
  {
  }

  lemma NoneAsked(moments: nat -> Moment, root: Key, device: string)
    ensures EntriesFor(moments, root, device, []) == []
  {
  }

  lemma OneMoreAsked(moments: nat -> Moment, root: Key, device: string, batch: seq<Candidate>, c: Candidate)
    ensures EntriesFor(moments, root, device, batch + [c]) ==
      EntriesFor(moments, root, device, batch) + [EntryOf(AnswerTo(moments(|batch|), root, device, c))]
  {
    hide AnswerTo, EntryOf;
  }

  lemma NoEntries()
    ensures ReadEntries([]) == []
  {
  }

  lemma HeardInBatch(serve: nat -> Round, root: Key, device: string, cs: seq<Candidate>, b: nat, j: nat)
    requires j < BATCH && b * BATCH + j < |cs|
    ensures Heard(serve, root, device, cs, b * BATCH + j) ==
      match serve(b)
      case Lost => []
      case Served(moments) => ReadEntries([EntryOf(AnswerTo(moments(j), root, device, cs[b * BATCH + j]))])
  {
    hide AnswerTo, EntryOf, ReadEntries;
    assert (b * BATCH + j) / BATCH == b && (b * BATCH + j) % BATCH == j;
  }

  lemma LastEntry(entries: seq<Entry>, e: Entry)
    ensures ReadEntries(entries + [e]) == ReadEntries(entries) + ReadEntries([e])
  {
    hide ReadEntry;
    assert [e][..0] == [] && (entries + [e])[..|entries|] == entries;
    NoEntries();
  }

  // ---- the phone ----

  /** A file as it was sent: `key` is its ledger key. */
  datatype Sent = Sent(assetId: string, key: string, size: nat, filename: string, withheld: Option<seq<string>>)

  datatype Outcome = Outcome(off: bool, offered: nat, deleted: nat, kept: seq<Kept>)

  /** During this reclaim the receiver found exactly these bytes under an unremoved row of this device. */
  ghost predicate ReadDuring(serve: nat -> Round, root: Key, device: string, path: string, bytes: Bytes) {
    exists b: nat, j: nat :: serve(b).Served? && FoundExactly(serve(b).moments(j), root, device, path, bytes)
  }

  predicate FoundExactly(m: Moment, root: Key, device: string, path: string, bytes: Bytes) {
    && path in m.files && m.files[path].device == device && !m.files[path].removed
    && Resolve(root, path).Some?
    && m.view.read(Resolve(root, path).value).Regular?
    && Clip(m.view.read(Resolve(root, path).value).content) == bytes
  }

  /** A yes to a question is the bytes it is about, read back under the path it names, and all of that is a yes. */
  lemma YesExactly(m: Moment, root: Key, device: string, c: Candidate, bytes: Bytes)
    requires c.sha == HexSha(Sha256(bytes)) && c.size == |bytes|
    ensures AnswerTo(m, root, device, c).confirmed <==>
      c.storedPath != "" && ReadBack(m.files, root, m.view, device, c.storedPath, bytes)
    ensures AnswerTo(m, root, device, c).id == c.key
  {
    hide ConfirmOne, ReadBack;
    ConfirmedExactly(m.files, root, m.view, device, RequestFor(c), bytes);
  }

  lemma YesMeansFound(m: Moment, root: Key, device: string, c: Candidate, bytes: Bytes)
    requires AnswerTo(m, root, device, c).confirmed && c.sha == HexSha(Sha256(bytes))
    ensures FoundExactly(m, root, device, c.storedPath, bytes)
  {
    hide Resolve, Clip;
  }

  /** Whether this file speaks for letting its asset go: worth asking about, and a yes when asked. */
  predicate Speaks(serve: nat -> Round, root: Key, device: string, asked: seq<Candidate>, c: Candidate) {
    exists p: nat | p < |asked| :: asked[p] == c && SaidYes(serve, root, device, asked, p)
  }

  /** What the library is asked to delete. */
  predicate HandedOver(serve: nat -> Round, root: Key, device: string, waiting: seq<Candidate>, id: string) {
    (exists c | c in waiting :: c.assetId == id) &&
    forall c | c in waiting && c.assetId == id :: WorthAsking(c) && Speaks(serve, root, device, Askable(waiting), c)
  }

  /** What a reclaim that asked about everything worth asking about decides on. */
  function Decided(serve: nat -> Round, root: Key, device: string, waiting: seq<Candidate>): Plan {
    PlanFor(waiting, HeardUpTo(serve, root, device, Askable(waiting), |Askable(waiting)|))
  }

  lemma PlanHandsOver(serve: nat -> Round, root: Key, device: string, waiting: seq<Candidate>, id: string)
    requires UniqueKeys(waiting) && forall c | c in waiting :: c.key != ""
    ensures id in Decided(serve, root, device, waiting).deletable <==> HandedOver(serve, root, device, waiting, id)
  {
    hide SaidYes, UniqueKeys, Vouched, PlanFor, HeardUpTo, Askable;
    var asked := Askable(waiting);
    var heard := HeardUpTo(serve, root, device, asked, |asked|);
    AskableMembers(waiting);
    DeletableExactly(waiting, heard, id);
    forall c | c in waiting && WorthAsking(c)
      ensures Vouched(heard, c.key) <==> Speaks(serve, root, device, asked, c)
    {
      var p: nat :| p < |asked| && asked[p] == c;
      VouchedIsSaidYes(serve, root, device, asked, p);
      KeyAtOnePlace(asked, p);
    }
  }

  method ConfirmBatch(round: Round, root: Key, device: string, batch: seq<Candidate>)
      returns (out: Option<seq<Confirmation>>)
    ensures match round
      case Lost => out == None
      case Served(moments) => out == Some(ReadEntries(EntriesFor(moments, root, device, batch)))
  {
    if round.Lost? {
      return None;
    }
    var confirmations := ParseConfirmations(Results(EntriesFor(round.moments, root, device, batch)));
    return Some(confirmations);
  }

  /** `confirmAll`: a batch that could not be asked about says nothing, and stops no other. */
  method ConfirmAll(serve: nat -> Round, root: Key, device: string, cs: seq<Candidate>)
      returns (out: seq<Confirmation>, errors: nat)
    ensures out == HeardUpTo(serve, root, device, cs, |cs|)
  {
    hide HeardUpTo, EntriesFor;
    out, errors := [], 0;
    NothingHeardYet(serve, root, device, cs);
    var b := 0;
    while b * BATCH < |cs|
      invariant out == HeardUpTo(serve, root, device, cs, if b * BATCH < |cs| then b * BATCH else |cs|)
      decreases |cs| - b * BATCH
    {
      var end := if b * BATCH + BATCH < |cs| then b * BATCH + BATCH else |cs|;
      var heard := ConfirmBatch(serve(b), root, device, cs[b * BATCH..end]);
      BatchHeard(serve, root, device, cs, b, end - b * BATCH);
      if heard.Some? {
        out := out + heard.value;
      } else {
        errors := errors + 1;
      }
      b := b + 1;
    }
  }

  lemma NothingHeardYet(serve: nat -> Round, root: Key, device: string, cs: seq<Candidate>)
    ensures HeardUpTo(serve, root, device, cs, 0) == []
  {
  }

  lemma {:induction false} WithoutNone(table: seq<PendingRow>, receiver: string)
    ensures Without(table, receiver, {}) == table
  {
    if table != [] {
      WithoutNone(table[..|table| - 1], receiver);
    }
  }

  /** For every row of the asset: nothing was withheld, and its bytes were found during this reclaim. */
  ghost predicate CoveredByReads(
    serve: nat -> Round, root: Key, device: string, table: seq<PendingRow>, hashed: map<(string, string), Bytes>,
        receiver: string, id: string)
  {
    (exists r | r in table :: r.receiver == receiver && r.assetId == id) &&
    forall r | r in table && r.receiver == receiver && r.assetId == id ::
      ParseWithheld(r.withheld) == Some([]) && (receiver, r.key) in hashed &&
      ReadDuring(serve, root, device, r.storedPath, hashed[(receiver, r.key)])
  }

  lemma HandedMeansRead(
    serve: nat -> Round, root: Key, device: string, table: seq<PendingRow>, hashed: map<(string, string), Bytes>,
        receiver: string, id: string)
    requires OneRowPerKey(table) && HandedOver(serve, root, device, Waiting(table, receiver), id)
    requires forall r | r in table ::
      (r.receiver, r.key) in hashed && r.sha == HexSha(Sha256(hashed[(r.receiver, r.key)]))
    ensures CoveredByReads(serve, root, device, table, hashed, receiver, id)
  {
    hide FoundExactly, AnswerTo, ParseWithheld, Askable, Waiting;
    var waiting := Waiting(table, receiver);
    WaitingMembers(table, receiver);
    forall r | r in table && r.receiver == receiver && r.assetId == id
      ensures ParseWithheld(r.withheld) == Some([])
      ensures ReadDuring(serve, root, device, r.storedPath, hashed[(receiver, r.key)])
    {
      var c := ToCandidate(r);
      assert c in waiting && WorthAsking(c) && Speaks(serve, root, device, Askable(waiting), c);
      var p: nat :| p < |Askable(waiting)| && Askable(waiting)[p] == c &&
          SaidYes(serve, root, device, Askable(waiting), p);
      YesMeansFound(serve(p / BATCH).moments(p % BATCH), root, device, c, hashed[(receiver, r.key)]);
    }
  }

  lemma NoneHandedOver(serve: nat -> Round, root: Key, device: string, waiting: seq<Candidate>)
    requires Askable(waiting) == []
    ensures forall id :: !HandedOver(serve, root, device, waiting, id)
  {
  }

  method KeysToClear(waiting: seq<Candidate>, gone: seq<string>) returns (keys: seq<string>)
    ensures (set k | k in keys) == KeysOf(waiting, gone)
  {
    keys := [];
    for i := 0 to |waiting|
      invariant (set k | k in keys) == KeysOf(waiting[..i], gone)
    {
      ghost var before := keys;
      assert waiting[..i + 1] == waiting[..i] + [waiting[i]];
      if waiting[i].assetId in gone {
        keys := keys + [waiting[i].key];
        assert KeysOf(waiting[..i + 1], gone) == KeysOf(waiting[..i], gone) + {waiting[i].key};
        assert (set k | k in keys) == (set k | k in before) + {waiting[i].key};
      } else {
        assert KeysOf(waiting[..i + 1], gone) == KeysOf(waiting[..i], gone);
      }
    }
    assert waiting[..|waiting|] == waiting;
  }

  function KeysOf(cs: seq<Candidate>, gone: seq<string>): set<string> {
    set c | c in cs && c.assetId in gone :: c.key
  }

  /** Clearing the keys of these assets' files takes exactly their rows. */
  lemma ClearedExactly(table: seq<PendingRow>, receiver: string, gone: seq<string>)
    requires OneRowPerKey(table)
    ensures forall r :: r in Without(table, receiver, KeysOf(Waiting(table, receiver), gone)) <==>
      r in table && !(r.receiver == receiver && r.assetId in gone)
  {
    hide ParseWithheld, OneRowPerKey, Without, Waiting;
    var waiting := Waiting(table, receiver);
    WaitingMembers(table, receiver);
    WithoutMembers(table, receiver, KeysOf(waiting, gone));
    forall r | r in table && r.receiver == receiver
      ensures r.key in KeysOf(waiting, gone) <==> r.assetId in gone
    {
      assert ToCandidate(r) in waiting;
      if r.key in KeysOf(waiting, gone) {
        var c :| c in waiting && c.assetId in gone && c.key == r.key;
        var q :| q in table && q.receiver == receiver && ToCandidate(q) == c;
        SameKeySameRow(table, r, q);
      }
    }
  }

  lemma SameKeySameRow(table: seq<PendingRow>, r: PendingRow, q: PendingRow)
    requires OneRowPerKey(table) && r in table && q in table && r.receiver == q.receiver && r.key == q.key
    ensures r == q
  {
  }

  class Phone {
    /** The table of questions, in the order they were recorded. */
    var table: seq<PendingRow>
    /** The bytes each question is about. */
    ghost var hashed: map<(string, string), Bytes>

    ghost predicate Valid()
      reads this
    {
      && OneRowPerKey(table)
      && forall r | r in table ::
         r.key != "" && (r.receiver, r.key) in hashed && r.sha == HexSha(Sha256(hashed[(r.receiver, r.key)]))
    }

    constructor ()
      ensures Valid() && table == []
    {
      table, hashed := [], map[];
    }

    /** `noteSent`: the file's digest, taken while the phone still has it; no digest, no row. */
    method NoteSent(receiver: string, sent: Sent, storedPath: string, content: Option<Bytes>)
      requires Valid() && sent.key != ""
      modifies this
      ensures Valid()
      ensures storedPath == "" || content.None? ==> table == old(table) && hashed == old(hashed)
      ensures storedPath != "" && content.Some? ==>
        var c := Candidate(sent.assetId, sent.key, storedPath, sent.size, HexSha(Sha256(content.value)), sent.withheld,
            sent.filename);
        table == Without(old(table), receiver, {sent.key}) + [ToRow(receiver, c)] &&
            ToCandidate(ToRow(receiver, c)) == c
        && hashed == old(hashed)[(receiver, sent.key) := content.value]
    {
      hide StoreWithheld, ParseWithheld;
      if storedPath == "" || content.None? {
        return;
      }
      var sha := HexSha(Sha256(content.value));
      var row := ToRow(receiver,
          Candidate(sent.assetId, sent.key, storedPath, sent.size, sha, sent.withheld, sent.filename));
      WithheldSurvives(sent.withheld, SqlNull);
      WithoutMembers(table, receiver, {sent.key});
      table := Without(table, receiver, {sent.key}) + [row];
      hashed := hashed[(receiver, sent.key) := content.value];
    }

    /** `clearCandidates`: in chunks of four hundred keys. */
    method ClearCandidates(receiver: string, keys: seq<string>)
      requires Valid()
      modifies this`table
      ensures Valid() && table == Without(old(table), receiver, (set k | k in keys))
    {
      var i := 0;
      WithoutNone(table, receiver);
      assert (set k | k in keys[..0]) == {};
      while i < |keys|
        invariant 0 <= i <= |keys| && Valid()
        invariant table == Without(old(table), receiver, (set k | k in keys[..i]))
      {
        var end := if i + 400 < |keys| then i + 400 else |keys|;
        var chunk := set k | k in keys[i..end];
        WithoutMembers(table, receiver, chunk);
        WithoutTwice(old(table), receiver, (set k | k in keys[..i]), chunk);
        assert keys[..end] == keys[..i] + keys[i..end];
        assert (set k | k in keys[..i]) + chunk == (set k | k in keys[..end]);
        table := Without(table, receiver, chunk);
        i := end;
      }
      assert keys[..|keys|] == keys;
    }

    /**
      `reclaim`. `handed` is what the library is asked to delete, whether or not the user lets it.
      Every file recorded for every one of those assets was read back by the receiver, byte for
      byte what the phone hashed, while this reclaim was asking; and nothing else keeps an asset.
    */
    method ReclaimSpace(receiver: string, device: string, root: Key, on: bool, serve: nat -> Round, deletes: bool)
        returns (outcome: Outcome, handed: seq<string>)
      requires Valid()
      modifies this`table
      ensures Valid()
      ensures !on ==> handed == [] && outcome == Outcome(true, 0, 0, [])
      ensures on ==> forall id :: id in handed <==> HandedOver(serve, root, device, Waiting(old(table), receiver), id)
      ensures forall id | id in handed :: CoveredByReads(serve, root, device, old(table), hashed, receiver, id)
      ensures table == if deletes then Without(old(table), receiver, KeysOf(Waiting(old(table), receiver), handed))
        else old(table)
      ensures forall r :: r in table <==>
        r in old(table) && !(deletes && r.receiver == receiver && r.assetId in handed)
      ensures on ==> var plan := Decided(serve, root, device, Waiting(old(table), receiver));
        handed == plan.deletable && outcome == Outcome(false, |handed|, if deletes then |handed| else 0, plan.kept)
    {
      hide HandedOver, CoveredByReads, HeardUpTo, PlanFor, Askable, Ask;
      handed := [];
      var waiting := Waiting(table, receiver);
      WithoutNone(table, receiver);
      assert KeysOf(waiting, []) == {};
      forall gone {
        ClearedExactly(table, receiver, gone);
      }
      if !on {
        return Outcome(true, 0, 0, []), [];
      }
      WaitingMembers(table, receiver);
      var askable := Askable(waiting);
      forall id {
        PlanHandsOver(serve, root, device, waiting, id);
      }
      if askable == [] {
        NothingHeardYet(serve, root, device, askable);
        var early := PlanDeletions(waiting, []);
        assert Decided(serve, root, device, waiting) == early;
        assert early.deletable != [] ==> HandedOver(serve, root, device, waiting, early.deletable[0]);
        NoneHandedOver(serve, root, device, waiting);
        return Outcome(false, 0, 0, early.kept), [];
      }
      var confirmations, errors := ConfirmAll(serve, root, device, askable);
      var plan := PlanDeletions(waiting, confirmations);
      handed := plan.deletable;
      forall id | id in handed {
        HandedMeansRead(serve, root, device, table, hashed, receiver, id);
      }
      if handed == [] || !deletes {
        return Outcome(false, |handed|, 0, plan.kept), handed;
      }
      var keys := KeysToClear(waiting, handed);
      ClearCandidates(receiver, keys);
      return Outcome(false, |handed|, |handed|, plan.kept), handed;
    }
  }

  // ---- whole assets ----

  function TypeName(t: ResourceType): string {
    match t
    case PhotoType => "photo"
    case FullSizePhoto => "fullSizePhoto"
    case AlternatePhoto => "alternatePhoto"
    case VideoType => "video"
    case FullSizeVideo => "fullSizeVideo"
    case PairedVideo => "pairedVideo"
    case FullSizePairedVideo => "fullSizePairedVideo"
    case Audio => "audio"
    case PhotoProxy => "photoProxy"
    case AdjustmentData => "adjustmentData"
    case AdjustmentBasePhoto => "adjustmentBasePhoto"
    case AdjustmentBaseVideo => "adjustmentBaseVideo"
    case AdjustmentBasePairedVideo => "adjustmentBasePairedVideo"
    case UnknownType => "unknown"
  }

  function Names(types: Option<seq<ResourceType>>): Option<seq<string>> {
    match types
    case None => None
    case Some(ts) => Some(seq(|ts|, i requires 0 <= i < |ts| => TypeName(ts[i])))
  }

  /** A row of this asset, noted over these bytes with what its resource list said was left behind. */
  predicate NotedAs(
    table: seq<PendingRow>, hashed: map<(string, string), Bytes>, receiver: string, id: string, bytes: Bytes,
        withheld: Option<seq<ResourceType>>)
  {
    exists r | r in table ::
      r.receiver == receiver && r.assetId == id && r.withheld == StoreWithheld(Names(withheld)) &&
      (receiver, r.key) in hashed && hashed[(receiver, r.key)] == bytes
  }

  /**
    The whole chain. When every resource the phone chose to send was noted, and the asset is still
    what was hashed, then an asset handed over is one of which every photograph, chosen or not, was
    found on the receiver byte for byte during the reclaim.
  */
  lemma EveryPhotographWasFound(
    serve: nat -> Round, root: Key, device: string, table: seq<PendingRow>, hashed: map<(string, string), Bytes>,
        receiver: string, id: string,
    resources: seq<Resource>, content: seq<Bytes>, adjusted: bool, options: SendOptions, kind: AssetKind, i: nat)
    requires CoveredByReads(serve, root, device, table, hashed, receiver, id)
    requires |content| == |resources| && i < |resources| && !IsSidecar(resources[i].rtype)
    requires var chosen := Picked(resources, adjusted, options, kind);
      Firsts(resources, chosen) && forall k | k in chosen ::
        NotedAs(table, hashed, receiver, id, content[k], Withheld(resources, SentTypes(resources, chosen)))
    ensures exists path :: ReadDuring(serve, root, device, path, content[i])
  {
    hide Picked, Withheld, ReadDuring, TypeName, FirstOf;
    var chosen := Picked(resources, adjusted, options, kind);
    NeverNothing(resources, adjusted, options, kind, i);
    WithheldIsExact(resources, adjusted, options, kind);
    var withheld := Withheld(resources, SentTypes(resources, chosen));
    assert chosen[0] in chosen;
    var r :| r in table && r.receiver == receiver && r.assetId == id && r.withheld == StoreWithheld(Names(withheld));
    WithheldSurvives(Names(withheld), SqlNull);
    assert Names(withheld) == Some([]);
    assert withheld == Some([]);
    assert i in chosen;
    var q :| q in table && q.receiver == receiver && q.assetId == id && (receiver, q.key) in hashed &&
        hashed[(receiver, q.key)] == content[i];
    assert ReadDuring(serve, root, device, q.storedPath, content[i]);
  }

  /** `ledgerKey`: a secondary resource carries its type. */
  function LedgerKey(id: string, part: Option<string>, size: nat): string {
    id + (if part.Some? then [':'] + part.value else []) + [':'] + Decimal(size)
  }

  lemma LastColon(x: string, d: string, y: string, e: string)
    requires x + [':'] + d == y + [':'] + e && ':' !in d && ':' !in e
    ensures x == y && d == e
  {
    var s, t := x + [':'] + d, y + [':'] + e;
    assert s[|x|] == ':' && t[|y|] == ':';
    assert s[..|x|] == x && t[..|y|] == y && s[|x| + 1..] == d && t[|y| + 1..] == e;
  }

  lemma {:induction false} DecimalHasNoColon(n: nat)
    ensures ':' !in Decimal(n)
  {
    if n >= 10 {
      DecimalHasNoColon(n / 10);
    }
  }

  /** Identifiers never hold a colon, so two files share a row only if they are the same one at the same size. */
  lemma LedgerKeysDiffer(id: string, part: Option<string>, size: nat, id2: string, part2: Option<string>, size2: nat)
    requires ':' !in id && ':' !in id2 && (part.Some? ==> ':' !in part.value) && (part2.Some? ==> ':' !in part2.value)
    requires LedgerKey(id, part, size) == LedgerKey(id2, part2, size2)
    ensures id == id2 && part == part2 && size == size2
  {
    hide Decimal;
    var x := id + if part.Some? then [':'] + part.value else [];
    var y := id2 + if part2.Some? then [':'] + part2.value else [];
    DecimalHasNoColon(size);
    DecimalHasNoColon(size2);
    LastColon(x, Decimal(size), y, Decimal(size2));
    DecimalInjective(size, size2);
    assert (part.Some? ==> x[|id|] == ':') && (part2.Some? ==> y[|id2|] == ':');
    assert (part.Some? <==> ':' in x) && (part2.Some? <==> ':' in y);
    if part.Some? {
      assert x == id + [':'] + part.value && y == id2 + [':'] + part2.value;
      LastColon(id, part.value, id2, part2.value);
    } else {
      assert x == id && y == id2;
    }
  }
}
