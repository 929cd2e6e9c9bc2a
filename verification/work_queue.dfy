/**
  mobile/src/core/queue.ts: bounded concurrency with pause and cancel. The state machine has one
  step for each thing that can happen to the queue between two turns of the event loop; the class
  is the original, proved to take exactly those steps.
*/
module WorkQueues {
  /** `ticket` tells the additions apart, which may well be of one and the same item. */
  datatype Job<T> = Job(item: T, attempt: nat, ticket: nat)

  /** What a worker has been told. The first request to stop is the one it sees. */
  datatype Signal = Going | ToldToPause | ToldToCancel

  datatype Flight<T> = Flight(job: Job<T>, signal: Signal)

  /**
    `workers` are the calls of `run` that have not ended, by their job's ticket; `inFlight` is the
    table the original keeps of them, which has one entry for an item. Below them is the history a
    run is judged by: everything ever added, and what became of what is neither waiting nor running.
  */
  datatype Queue<T(==)> = Queue(
    limit: nat,
    pending: seq<Job<T>>,
    workers: map<nat, Flight<T>>,
    inFlight: map<T, nat>,
    paused: bool,
    stopped: bool,
    waiters: nat,
    added: seq<T>,
    settled: multiset<nat>,
    discarded: multiset<nat>)

  datatype Outcome = Finished | Interrupted

  datatype Event<T> =
    | Add(items: seq<T>)
    | Pause
    | Resume
    | Cancel
    | WhenIdle
    | Settle(ticket: nat, outcome: Outcome)

  function New<T(==)>(limit: int): Queue<T> {
    Queue(if limit < 1 then 1 else limit, [], map[], map[], false, false, 0, [], multiset{}, multiset{})
  }

  predicate Idle<T(==)>(q: Queue<T>) {
    |q.inFlight| == 0 && (q.pending == [] || q.stopped)
  }

  function JobsFor<T(==)>(items: seq<T>, ticket: nat): seq<Job<T>> {
    seq(|items|, i requires 0 <= i < |items| => Job(items[i], 0, ticket + i))
  }

  function TicketsOf<T(==)>(jobs: seq<Job<T>>): seq<nat> {
    seq(|jobs|, i requires 0 <= i < |jobs| => jobs[i].ticket)
  }

  function Tickets(n: nat): seq<nat> { seq(n, i => i) }

  function Abort<T(==)>(f: Flight<T>, signal: Signal): Flight<T> {
    if f.signal == Going then f.(signal := signal) else f
  }

  /** Every worker the table knows of is told. */
  function AbortAll<T(==)>(workers: map<nat, Flight<T>>, inFlight: map<T, nat>, signal: Signal): map<nat, Flight<T>> {
    map t | t in workers :: if t in inFlight.Values then Abort(workers[t], signal) else workers[t]
  }

  function Start<T(==)>(q: Queue<T>): Queue<T>
    requires q.pending != []
  {
    var job := q.pending[0];
    q.(pending := q.pending[1..],
       workers := q.workers[job.ticket := Flight(job, Going)],
       inFlight := q.inFlight[job.item := job.ticket])
  }

  predicate CanStart<T(==)>(q: Queue<T>) {
    !q.paused && !q.stopped && |q.inFlight| < q.limit && q.pending != []
  }

  function Filled<T(==)>(q: Queue<T>): Queue<T>
    decreases |q.pending|
  {
    if CanStart(q) then Filled(Start(q)) else q
  }

  /** `pump`: fill the slots, and let everybody go who waits for an idle queue. */
  function Pumped<T(==)>(q: Queue<T>): Queue<T> {
    var f := Filled(q);
    if Idle(f) then f.(waiters := 0) else f
  }

  predicate Enabled<T(==)>(q: Queue<T>, e: Event<T>) { e.Settle? ==> e.ticket in q.workers }

  function Queued<T(==)>(q: Queue<T>, items: seq<T>): Queue<T> {
    q.(pending := q.pending + JobsFor(items, |q.added|), added := q.added + items)
  }

  function Stopped<T(==)>(q: Queue<T>, signal: Signal): Queue<T> {
    q.(workers := AbortAll(q.workers, q.inFlight, signal))
  }

  /** A worker is done; the table forgets whatever it had under the worker's item. */
  function Left<T(==)>(q: Queue<T>, ticket: nat): Queue<T>
    requires ticket in q.workers
  {
    q.(workers := q.workers - {ticket}, inFlight := q.inFlight - {q.workers[ticket].job.item})
  }

  function Again<T(==)>(q: Queue<T>, ticket: nat): Queue<T>
    requires ticket in q.workers
  {
    var job := q.workers[ticket].job;
    Left(q, ticket).(pending := [job.(attempt := job.attempt + 1)] + q.pending)
  }

  function Ended<T(==)>(q: Queue<T>, ticket: nat): Queue<T>
    requires ticket in q.workers
  {
    Left(q, ticket).(settled := q.settled + multiset{ticket})
  }

  function Apply<T(==)>(q: Queue<T>, e: Event<T>): Queue<T>
    requires Enabled(q, e)
  {
    match e
    case Add(items) => Pumped(Queued(q, items))
    case Pause => if q.paused then q else Stopped(q, ToldToPause).(paused := true)
    case Resume => if !q.paused then q else Pumped(q.(paused := false))
    case Cancel =>
      var discarded := q.discarded + multiset(TicketsOf(q.pending));
      Stopped(q, ToldToCancel).(stopped := true, pending := [], discarded := discarded)
    case WhenIdle => if Idle(q) then q else q.(waiters := q.waiters + 1)
    case Settle(ticket, outcome) =>
      Pumped(if outcome == Interrupted && !q.stopped then Again(q, ticket) else Ended(q, ticket))
  }

  predicate Runs<T(==)>(limit: int, events: seq<Event<T>>)
    decreases |events|, 0
  {
    events == [] ||
        (Runs(limit, events[..|events| - 1]) && Enabled(Exec(limit, events[..|events| - 1]), events[|events| - 1]))
  }

  function Exec<T(==)>(limit: int, events: seq<Event<T>>): Queue<T>
    requires Runs(limit, events)
    decreases |events|, 1
  {
    if events == [] then New(limit) else Apply(Exec(limit, events[..|events| - 1]), events[|events| - 1])
  }

  // ---- what holds between any two events ----

  /** Everything added is waiting, running, settled or thrown away by a cancel, and only one of them. */
  predicate Conserved<T(==)>(q: Queue<T>) {
    && multiset(Tickets(|q.added|)) ==
       multiset(TicketsOf(q.pending)) + multiset(q.workers.Keys) + q.settled + q.discarded
    && (!q.stopped ==> q.discarded == multiset{})
  }

  /** Every job is of the item it was added for. */
  predicate Genuine<T(==)>(q: Queue<T>) {
    && (forall i | 0 <= i < |q.pending| ::
          q.pending[i].ticket < |q.added| && q.pending[i].item == q.added[q.pending[i].ticket])
    && (forall t | t in q.workers ::
          t < |q.added| && q.workers[t].job.ticket == t && q.workers[t].job.item == q.added[t])
  }

  /** The table knows no more workers than the limit, each under its own item. */
  predicate Bounded<T(==)>(q: Queue<T>) {
    && |q.inFlight| <= q.limit && q.limit >= 1
    && (forall item | item in q.inFlight ::
          q.inFlight[item] in q.workers && q.workers[q.inFlight[item]].job.item == item)
  }

  /** Every worker the table knows knows that the queue is paused or cancelled. */
  predicate Told<T(==)>(q: Queue<T>) {
    q.paused || q.stopped ==>
      forall item | item in q.inFlight && q.inFlight[item] in q.workers :: q.workers[q.inFlight[item]].signal != Going
  }

  /** The first k pending jobs were interrupted; the others are the newest added, in the order they came. */
  predicate Turn<T(==)>(q: Queue<T>, k: nat) {
    && k <= |q.pending| <= |q.added| + k
    && (forall i | 0 <= i < |q.pending| :: q.pending[i].attempt > 0 <==> i < k)
    && (forall i | k <= i < |q.pending| :: q.pending[i].ticket == |q.added| - |q.pending| + i)
  }

  /** Interrupted work goes first, and everything else in the order it came. */
  predicate InTurn<T(==)>(q: Queue<T>) { exists k: nat | k <= |q.pending| :: Turn(q, k) }

  /** Nothing that may start is waiting: with work left and no pause, every slot is taken. */
  predicate Busy<T(==)>(q: Queue<T>) {
    !q.paused && !q.stopped && q.pending != [] ==> |q.inFlight| >= q.limit
  }

  predicate Sane<T(==)>(q: Queue<T>) { Conserved(q) && Genuine(q) && Bounded(q) && Told(q) && InTurn(q) }

  predicate Inv<T(==)>(q: Queue<T>) { Sane(q) && Busy(q) }

  lemma OnlyOnce(n: nat, ticket: nat)
    ensures multiset(Tickets(n))[ticket] == if ticket < n then 1 else 0
  {
    if n > 0 {
      OnlyOnce(n - 1, ticket);
      assert Tickets(n) == Tickets(n - 1) + [n - 1];
    }
  }

  /** A job that waits is held by no worker. */
  lemma WaitingIsIdle<T>(q: Queue<T>)
    requires Conserved(q) && q.pending != []
    ensures q.pending[0].ticket !in q.workers
  {
    var ticket := q.pending[0].ticket;
    OnlyOnce(|q.added|, ticket);
    assert TicketsOf(q.pending)[0] == ticket;
    assert multiset(TicketsOf(q.pending))[ticket] >= 1;
    assert multiset(q.workers.Keys)[ticket] == 0;
  }

  lemma StartKeepsConserved<T>(q: Queue<T>)
    requires Conserved(q) && q.pending != []
    ensures Conserved(Start(q))
  {
    var v, job := Start(q), q.pending[0];
    WaitingIsIdle(q);
    assert TicketsOf(q.pending) == [job.ticket] + TicketsOf(v.pending);
    assert v.workers.Keys == q.workers.Keys + {job.ticket};
    OneMore(q.workers.Keys, job.ticket);
  }

  lemma OneMore<T>(a: set<T>, x: T)
    requires x !in a
    ensures multiset(a + {x}) == multiset(a) + multiset{x} && |a + {x}| == |a| + 1
  {
  }

  lemma SizeOfKeys<T, U>(m: map<T, U>)
    ensures |m| == |m.Keys|
  {
  }

  lemma OneEntryMore<T>(table: map<T, nat>, item: T, ticket: nat)
    ensures |table[item := ticket]| <= |table| + 1
    ensures item !in table ==> |table[item := ticket]| == |table| + 1
  {
    SizeOfKeys(table);
    SizeOfKeys(table[item := ticket]);
    assert table[item := ticket].Keys == table.Keys + {item};
    if item !in table {
      OneMore(table.Keys, item);
    } else {
      assert table.Keys + {item} == table.Keys;
    }
  }

  lemma StartKeepsTable<T>(q: Queue<T>)
    requires Conserved(q) && Genuine(q) && Bounded(q) && CanStart(q)
    ensures Genuine(Start(q)) && Bounded(Start(q)) && Told(Start(q))
  {
    hide Conserved;
    WaitingIsIdle(q);
    OneEntryMore(q.inFlight, q.pending[0].item, q.pending[0].ticket);
  }

  lemma StartKeepsTurn<T>(q: Queue<T>, k: nat)
    requires CanStart(q) && Turn(q, k)
    ensures Turn(Start(q), if k > 0 then k - 1 else 0)
  {
  }

  lemma StartKeepsSane<T>(q: Queue<T>)
    requires Sane(q) && CanStart(q)
    ensures Sane(Start(q))
  {
    hide Conserved, Genuine, Bounded, Told, Turn;
    StartKeepsConserved(q);
    StartKeepsTable(q);
    var k: nat :| k <= |q.pending| && Turn(q, k);
    StartKeepsTurn(q, k);
    var after := if k > 0 then k - 1 else 0;
    assert after <= |Start(q).pending| && Turn(Start(q), after);
  }

  lemma {:induction false} FilledIsBusy<T>(q: Queue<T>)
    requires Sane(q)
    ensures var f := Filled(q);
      && Inv(f) && f.(pending := q.pending, workers := q.workers, inFlight := q.inFlight) == q
      && (q.paused || q.stopped ==> f == q)
    decreases |q.pending|
  {
    hide Sane;
    if CanStart(q) {
      StartKeepsSane(q);
      FilledIsBusy(Start(q));
    }
  }

  lemma FlagsKeepSane<T>(q: Queue<T>, paused: bool, waiters: nat)
    requires Sane(q) && (paused ==> q.paused)
    ensures Sane(q.(paused := paused, waiters := waiters))
  {
    var v := q.(paused := paused, waiters := waiters);
    var k: nat :| k <= |q.pending| && Turn(q, k);
    assert Turn(v, k);
  }

  lemma PumpedIsBusy<T>(q: Queue<T>)
    requires Sane(q)
    ensures var p := Pumped(q);
      && Inv(p) && p.(pending := q.pending, workers := q.workers, inFlight := q.inFlight, waiters := q.waiters) == q
      && (q.paused || q.stopped ==> p.pending == q.pending && p.workers == q.workers && p.inFlight == q.inFlight)
      && p.waiters == (if Idle(p) then 0 else q.waiters)
  {
    hide Sane, Filled;
    FilledIsBusy(q);
    FlagsKeepSane(Filled(q), q.paused, 0);
  }

  lemma AddKeepsConserved<T>(q: Queue<T>, items: seq<T>)
    requires Conserved(q)
    ensures Conserved(Queued(q, items))
  {
    var v, n := Queued(q, items), |q.added|;
    var more := TicketsOf(JobsFor(items, n));
    assert TicketsOf(v.pending) == TicketsOf(q.pending) + more;
    assert Tickets(|v.added|) == Tickets(n) + more;
  }

  lemma AddKeepsTurn<T>(q: Queue<T>, items: seq<T>, k: nat)
    requires Turn(q, k)
    ensures Turn(Queued(q, items), k)
  {
  }

  lemma AddKeepsSane<T>(q: Queue<T>, items: seq<T>)
    requires Sane(q)
    ensures Sane(Queued(q, items))
  {
    hide Conserved, Turn;
    AddKeepsConserved(q, items);
    var k: nat :| k <= |q.pending| && Turn(q, k);
    AddKeepsTurn(q, items, k);
  }

  lemma SettleKeepsConserved<T>(q: Queue<T>, ticket: nat)
    requires Conserved(q) && Genuine(q) && ticket in q.workers
    ensures Conserved(Ended(q, ticket)) && Conserved(Again(q, ticket))
  {
    hide Genuine, Conserved;
    var again := Again(q, ticket);
    OneWorkerLess(q, ticket);
    assert TicketsOf(again.pending) == [ticket] + TicketsOf(q.pending) by {
      JobHasTicket(q, ticket);
    }
    Moved(q, Ended(q, ticket), ticket);
    Moved(q, again, ticket);
  }

  lemma JobHasTicket<T>(q: Queue<T>, ticket: nat)
    requires Genuine(q) && ticket in q.workers
    ensures q.workers[ticket].job.ticket == ticket
  {
  }

  lemma OneWorkerLess<T>(q: Queue<T>, ticket: nat)
    requires ticket in q.workers
    ensures multiset(q.workers.Keys) == multiset(Left(q, ticket).workers.Keys) + multiset{ticket}
  {
    var left := Left(q, ticket);
    assert q.workers.Keys == left.workers.Keys + {ticket};
    OneMore(left.workers.Keys, ticket);
  }

  /** A ticket that leaves one place for another is conserved. */
  lemma Moved<T>(q: Queue<T>, v: Queue<T>, ticket: nat)
    requires Conserved(q) && v.added == q.added && v.discarded == q.discarded && v.stopped == q.stopped
    requires multiset(q.workers.Keys) == multiset(v.workers.Keys) + multiset{ticket}
    requires multiset(TicketsOf(v.pending)) + v.settled == multiset(TicketsOf(q.pending)) + q.settled + multiset{ticket}
    ensures Conserved(v)
  {
    hide TicketsOf, Tickets;
    var waiting, left := multiset(TicketsOf(v.pending)), multiset(v.workers.Keys);
    assert waiting + left + v.settled + v.discarded == (waiting + v.settled) + left + v.discarded;
    var before := multiset(TicketsOf(q.pending));
    assert before + (left + multiset{ticket}) + q.settled == (before + q.settled + multiset{ticket}) + left;
  }

  lemma SettleKeepsTable<T>(q: Queue<T>, ticket: nat)
    requires Genuine(q) && Bounded(q) && Told(q) && ticket in q.workers
    ensures Genuine(Ended(q, ticket)) && Genuine(Again(q, ticket))
    ensures Bounded(Ended(q, ticket)) && Told(Ended(q, ticket))
    ensures Bounded(Again(q, ticket)) && Told(Again(q, ticket))
  {
    var left, item := Left(q, ticket), q.workers[ticket].job.item;
    SizeOfKeys(q.inFlight);
    SizeOfKeys(left.inFlight);
    assert left.inFlight.Keys == q.inFlight.Keys - {item};
    var again := Again(q, ticket);
    assert forall i | 0 < i < |again.pending| :: again.pending[i] == q.pending[i - 1];
  }

  lemma SettleKeepsTurn<T>(q: Queue<T>, ticket: nat, k: nat)
    requires Turn(q, k) && ticket in q.workers
    ensures Turn(Ended(q, ticket), k) && Turn(Again(q, ticket), k + 1)
  {
    var again := Again(q, ticket);
    assert forall i | 0 < i < |again.pending| :: again.pending[i] == q.pending[i - 1];
  }

  lemma SettleKeepsSane<T>(q: Queue<T>, ticket: nat)
    requires Sane(q) && ticket in q.workers
    ensures Sane(Ended(q, ticket)) && Sane(Again(q, ticket))
  {
    hide Conserved, Genuine, Bounded, Told, Turn;
    SettleKeepsConserved(q, ticket);
    SettleKeepsTable(q, ticket);
    var k: nat :| k <= |q.pending| && Turn(q, k);
    SettleKeepsTurn(q, ticket, k);
    var again := Again(q, ticket);
    assert k + 1 <= |again.pending| && Turn(again, k + 1);
  }

  lemma AbortedKeys<T>(workers: map<nat, Flight<T>>, inFlight: map<T, nat>, signal: Signal)
    ensures AbortAll(workers, inFlight, signal).Keys == workers.Keys
  {
  }

  lemma StopKeepsConserved<T>(q: Queue<T>)
    requires Conserved(q)
    ensures Conserved(Apply(q, Pause)) && Conserved(Apply(q, Cancel))
  {
    hide AbortAll;
    AbortedKeys(q.workers, q.inFlight, ToldToPause);
    AbortedKeys(q.workers, q.inFlight, ToldToCancel);
  }

  lemma ToldWhenListed<T>(q: Queue<T>, signal: Signal)
    requires signal != Going
    ensures var v := Stopped(q, signal).workers;
      && v.Keys == q.workers.Keys && (forall t | t in v :: v[t].job == q.workers[t].job)
      && (forall item | item in q.inFlight && q.inFlight[item] in v :: v[q.inFlight[item]].signal != Going)
  {
    assert forall item | item in q.inFlight :: q.inFlight[item] in q.inFlight.Values;
  }

  lemma StopKeepsTable<T>(q: Queue<T>)
    requires Genuine(q) && Bounded(q) && Told(q)
    ensures Genuine(Apply(q, Pause)) && Bounded(Apply(q, Pause)) && Told(Apply(q, Pause))
    ensures Genuine(Apply(q, Cancel)) && Bounded(Apply(q, Cancel)) && Told(Apply(q, Cancel))
  {
    hide AbortAll;
    ToldWhenListed(q, ToldToPause);
    ToldWhenListed(q, ToldToCancel);
  }

  lemma StopKeepsTurn<T>(q: Queue<T>, k: nat)
    requires Turn(q, k)
    ensures Turn(Apply(q, Pause), k) && Turn(Apply(q, Cancel), 0)
  {
    hide AbortAll;
  }

  lemma StopKeepsSane<T>(q: Queue<T>)
    requires Sane(q)
    ensures Sane(Apply(q, Pause)) && Sane(Apply(q, Cancel))
  {
    hide Conserved, Genuine, Bounded, Told, Turn;
    StopKeepsConserved(q);
    StopKeepsTable(q);
    var k: nat :| k <= |q.pending| && Turn(q, k);
    StopKeepsTurn(q, k);
  }

  lemma StepKeepsInv<T>(q: Queue<T>, e: Event<T>)
    requires Inv(q) && Enabled(q, e)
    ensures Inv(Apply(q, e))
  {
    hide Sane, Pumped, Filled, AbortAll, Queued, Again, Ended;
    match e
    case Add(items) =>
      AddKeepsSane(q, items);
      PumpedIsBusy(Queued(q, items));
    case Pause => StopKeepsSane(q);
    case Resume =>
      if q.paused {
        FlagsKeepSane(q, false, q.waiters);
        PumpedIsBusy(q.(paused := false));
      }
    case Cancel => StopKeepsSane(q);
    case WhenIdle => FlagsKeepSane(q, q.paused, q.waiters + 1);
    case Settle(ticket, outcome) =>
      SettleKeepsSane(q, ticket);
      PumpedIsBusy(if outcome == Interrupted && !q.stopped then Again(q, ticket) else Ended(q, ticket));
  }

  /**
    In every run, between any two events, whatever was added how often: everything ever added is
    accounted for exactly once, so that a pause loses and repeats nothing; the table holds no
    more than the limit and is full while there is work and no pause; whoever is in it knows
    of a pause or cancel; interrupted work goes first and the rest in the order it came.
  */
  lemma {:induction false} InvInEveryRun<T>(limit: int, events: seq<Event<T>>)
    requires Runs(limit, events)
    ensures Inv(Exec(limit, events))
  {
    hide Inv, Enabled, Apply;
    if events == [] {
      NewIsSane<T>(limit);
    } else {
      InvInEveryRun(limit, events[..|events| - 1]);
      StepKeepsInv(Exec(limit, events[..|events| - 1]), events[|events| - 1]);
    }
  }

  lemma NewIsSane<T>(limit: int)
    ensures Inv(New<T>(limit))
  {
    assert Turn(New<T>(limit), 0);
  }

  // ---- the table and the workers ----

  /** The table knows every worker, so it counts them, a pause reaches them all and idle means idle. */
  predicate Tracked<T(==)>(q: Queue<T>) {
    forall t | t in q.workers :: q.workers[t].job.item in q.inFlight && q.inFlight[q.workers[t].job.item] == t
  }

  /** A table that knows every worker has one entry for each. */
  lemma TrackedCounts<T>(q: Queue<T>)
    requires Inv(q) && Tracked(q)
    ensures |q.workers| == |q.inFlight| <= q.limit
    ensures Idle(q) ==> q.workers == map[]
    ensures q.paused || q.stopped ==> forall t | t in q.workers :: q.workers[t].signal != Going
  {
    hide Conserved, InTurn;
    SizeOfKeys(q.inFlight);
    SizeOfKeys(q.workers);
    SameCount(q.inFlight, q.workers.Keys);
    if Idle(q) {
      assert q.workers.Keys == {};
    }
  }

  /** Entries that lead to different tickets are as many as the tickets they lead to. */
  lemma {:induction false} SameCount<T>(table: map<T, nat>, tickets: set<nat>)
    requires table.Values == tickets && forall a, b | a in table && b in table && table[a] == table[b] :: a == b
    ensures |table.Keys| == |tickets|
    decreases |table.Keys|
  {
    if table != map[] {
      var a :| a in table;
      var rest := table - {a};
      WithoutOne(table, a);
      SameCount(rest, tickets - {table[a]});
    }
  }

  lemma WithoutOne<T>(table: map<T, nat>, a: T)
    requires a in table && forall b | b in table && table[b] == table[a] :: b == a
    ensures var rest := table - {a};
      rest.Values == table.Values - {table[a]} && rest.Keys == table.Keys - {a} && |table.Keys| == |rest.Keys| + 1
    ensures |table.Values| == |table.Values - {table[a]}| + 1
  {
    var rest := table - {a};
    assert rest.Keys == table.Keys - {a};
    forall u | u in table.Values - {table[a]}
      ensures u in rest.Values
    {
      var b :| b in table && table[b] == u;
      assert b in rest && rest[b] == u;
    }
  }

  /** The jobs that filling the slots starts. */
  function Started<T(==)>(q: Queue<T>): seq<Job<T>>
    decreases |q.pending|
  {
    if CanStart(q) then [q.pending[0]] + Started(Start(q)) else []
  }

  /** They are of different items, none of which the table has. */
  predicate Apart<T(==)>(q: Queue<T>, jobs: seq<Job<T>>) {
    && (forall i, j | 0 <= i < j < |jobs| :: jobs[i].item != jobs[j].item)
    && (forall i | 0 <= i < |jobs| :: jobs[i].item !in q.inFlight)
  }

  /** A start loses track of a worker exactly when the item is being worked on already. */
  lemma StartTracksExactly<T>(q: Queue<T>)
    requires Sane(q) && CanStart(q)
    ensures Tracked(Start(q)) <==> Tracked(q) && q.pending[0].item !in q.inFlight
  {
    hide Conserved, InTurn, Told;
    WaitingIsIdle(q);
    var v, job := Start(q), q.pending[0];
    if !Tracked(q) {
      var t :| t in q.workers && !(q.workers[t].job.item in q.inFlight && q.inFlight[q.workers[t].job.item] == t);
      assert t in v.workers && v.workers[t] == q.workers[t];
    } else if job.item in q.inFlight {
      var t := q.inFlight[job.item];
      assert t in v.workers && v.workers[t] == q.workers[t];
    }
  }

  lemma ApartFromFirst<T>(q: Queue<T>, jobs: seq<Job<T>>)
    requires q.pending != []
    ensures Apart(q, [q.pending[0]] + jobs) <==> q.pending[0].item !in q.inFlight && Apart(Start(q), jobs)
  {
    var first, all := q.pending[0].item, [q.pending[0]] + jobs;
    assert forall i | 0 <= i < |jobs| :: all[i + 1] == jobs[i];
    assert forall i | 0 < i < |all| :: all[i] == jobs[i - 1];
    if Apart(q, all) {
      assert all[0].item == first && first !in q.inFlight;
      forall i | 0 <= i < |jobs|
        ensures jobs[i].item != first && jobs[i].item !in q.inFlight
      {
        assert all[0].item != all[i + 1].item && all[i + 1].item !in q.inFlight;
      }
      forall i, j | 0 <= i < j < |jobs|
        ensures jobs[i].item != jobs[j].item
      {
        assert all[i + 1].item != all[j + 1].item;
      }
    }
  }

  lemma {:induction false} FillingTracksExactly<T>(q: Queue<T>)
    requires Sane(q)
    ensures Tracked(Filled(q)) <==> Tracked(q) && Apart(q, Started(q))
    decreases |q.pending|
  {
    hide Sane, Tracked, Apart, Start;
    if CanStart(q) {
      StartKeepsSane(q);
      StartIsShorter(q);
      FillingTracksExactly(Start(q));
      StartTracksExactly(q);
      ApartFromFirst(q, Started(Start(q)));
    } else {
      NothingIsApart(q);
    }
  }

  lemma StartIsShorter<T>(q: Queue<T>)
    requires q.pending != []
    ensures |Start(q).pending| < |q.pending|
  {
  }

  lemma NothingIsApart<T>(q: Queue<T>)
    ensures Apart(q, [])
  {
  }

  /** The queue as the pump finds it, when this event ends in a pump. */
  function Ready<T(==)>(q: Queue<T>, e: Event<T>): Queue<T>
    requires Enabled(q, e) && Pumps(q, e)
  {
    match e
    case Add(items) => Queued(q, items)
    case Resume => q.(paused := false)
    case Settle(ticket, outcome) => if outcome == Interrupted && !q.stopped then Again(q, ticket) else Ended(q, ticket)
  }

  predicate Pumps<T(==)>(q: Queue<T>, e: Event<T>) { e.Add? || e.Settle? || (e.Resume? && q.paused) }

  lemma ReadyIsSane<T>(q: Queue<T>, e: Event<T>)
    requires Inv(q) && Enabled(q, e) && Pumps(q, e)
    ensures Sane(Ready(q, e)) && Apply(q, e) == Pumped(Ready(q, e))
  {
    hide Sane, Pumped, Queued, Again, Ended;
    match e
    case Add(items) => AddKeepsSane(q, items);
    case Resume => FlagsKeepSane(q, false, q.waiters);
    case Settle(ticket, _) => SettleKeepsSane(q, ticket);
  }

  /** A worker that leaves takes its own entry with it, so no track is lost of the others. */
  lemma LeavingKeepsTrack<T>(q: Queue<T>, ticket: nat)
    requires Sane(q) && Tracked(q) && ticket in q.workers
    ensures Tracked(Left(q, ticket))
  {
    hide Conserved, InTurn, Told;
  }

  lemma ReadyIsTracked<T>(q: Queue<T>, e: Event<T>)
    requires Inv(q) && Tracked(q) && Enabled(q, e) && Pumps(q, e)
    ensures Tracked(Ready(q, e))
  {
    hide Sane;
    if e.Settle? {
      LeavingKeepsTrack(q, e.ticket);
    }
  }

  /** No item is started a second time while it is being worked on. */
  predicate StartsApart<T(==)>(q: Queue<T>, e: Event<T>)
    requires Enabled(q, e)
  {
    Pumps(q, e) ==> Apart(Ready(q, e), Started(Ready(q, e)))
  }

  /** An event loses track of a worker exactly when it starts an item that is being worked on. */
  lemma StepTracksExactly<T>(q: Queue<T>, e: Event<T>)
    requires Inv(q) && Tracked(q) && Enabled(q, e)
    ensures Tracked(Apply(q, e)) <==> StartsApart(q, e)
  {
    hide Sane, Apart, Started, Filled;
    if Pumps(q, e) {
      ReadyIsSane(q, e);
      ReadyIsTracked(q, e);
      FillingTracksExactly(Ready(q, e));
    } else {
      hide AbortAll;
      ToldWhenListed(q, ToldToPause);
      ToldWhenListed(q, ToldToCancel);
    }
  }

  predicate TrackedThroughout<T(==)>(limit: int, events: seq<Event<T>>)
    requires Runs(limit, events)
    decreases |events|
  {
    Tracked(Exec(limit, events)) && (events == [] || TrackedThroughout(limit, events[..|events| - 1]))
  }

  predicate ApartThroughout<T(==)>(limit: int, events: seq<Event<T>>)
    requires Runs(limit, events)
  {
    events == [] ||
    (ApartThroughout(limit, events[..|events| - 1]) &&
        StartsApart(Exec(limit, events[..|events| - 1]), events[|events| - 1]))
  }

  /**
    In every run the table knows every worker at every point if and only if no event started an
    item that was being worked on. And then no more workers run than the limit, a paused or
    cancelled queue has told every one of them, and an idle queue has none.
  */
  lemma {:induction false} TrackedExactlyThroughout<T>(limit: int, events: seq<Event<T>>)
    requires Runs(limit, events)
    ensures TrackedThroughout(limit, events) <==> ApartThroughout(limit, events)
    ensures ApartThroughout(limit, events) ==>
      var q := Exec(limit, events);
      && |q.workers| <= q.limit && (Idle(q) ==> q.workers == map[])
      && (q.paused || q.stopped ==> forall t | t in q.workers :: q.workers[t].signal != Going)
  {
    hide Inv, Tracked, Enabled, Apply, StartsApart;
    var q := Exec(limit, events);
    InvInEveryRun(limit, events);
    if events == [] {
      NewIsTracked<T>(limit);
    } else {
      var before := events[..|events| - 1];
      TrackedExactlyThroughout(limit, before);
      if TrackedThroughout(limit, before) {
        TrackedOfAll(limit, before);
        InvInEveryRun(limit, before);
        StepTracksExactly(Exec(limit, before), events[|events| - 1]);
      }
    }
    if Tracked(q) {
      TrackedCounts(q);
    }
  }

  lemma TrackedOfAll<T>(limit: int, events: seq<Event<T>>)
    requires Runs(limit, events) && TrackedThroughout(limit, events)
    ensures Tracked(Exec(limit, events))
  {
    hide Tracked, Runs, Exec;
  }

  lemma NewIsTracked<T>(limit: int)
    ensures Tracked(New<T>(limit))
  {
  }

  lemma OneMoreEvent<T>(limit: int, events: seq<Event<T>>, e: Event<T>, q: Queue<T>)
    requires Runs(limit, events) && Exec(limit, events) == q && Enabled(q, e)
    ensures Runs(limit, events + [e]) && Exec(limit, events + [e]) == Apply(q, e)
  {
    hide Enabled, Apply;
    assert (events + [e])[..|events + [e]| - 1] == events;
  }

  // ---- additions that are never lost track of ----

  /** Nothing waits that is being worked on or waits a second time. */
  predicate Unrepeated<T(==)>(q: Queue<T>) {
    && (forall i, j | 0 <= i < j < |q.pending| :: q.pending[i].item != q.pending[j].item)
    && (forall i, t | 0 <= i < |q.pending| && t in q.workers :: q.pending[i].item != q.workers[t].job.item)
  }

  /** What is added neither waits nor is being worked on, and comes once. It may have been added before. */
  predicate Fresh<T(==)>(q: Queue<T>, items: seq<T>) {
    && (forall i, j | 0 <= i < j < |items| :: items[i] != items[j])
    && (forall i, j | 0 <= i < |items| && 0 <= j < |q.pending| :: items[i] != q.pending[j].item)
    && (forall i, t | 0 <= i < |items| && t in q.workers :: items[i] != q.workers[t].job.item)
  }

  lemma {:induction false} FillingKeepsUnrepeated<T>(q: Queue<T>)
    requires Sane(q) && Tracked(q) && Unrepeated(q)
    ensures Tracked(Filled(q)) && Unrepeated(Filled(q))
    decreases |q.pending|
  {
    hide Sane, Tracked;
    if CanStart(q) {
      StartKeepsSane(q);
      ListedIsWorkedOn(q);
      StartTracksExactly(q);
      StartKeepsUnrepeated(q);
      FillingKeepsUnrepeated(Start(q));
    }
  }

  lemma ListedIsWorkedOn<T>(q: Queue<T>)
    requires Sane(q)
    ensures forall item | item in q.inFlight ::
      q.inFlight[item] in q.workers && q.workers[q.inFlight[item]].job.item == item
  {
    hide Conserved, Genuine, Told, InTurn;
  }

  lemma StartKeepsUnrepeated<T>(q: Queue<T>)
    requires Unrepeated(q) && CanStart(q)
    ensures Unrepeated(Start(q))
  {
  }

  lemma ReadyIsUnrepeated<T>(q: Queue<T>, e: Event<T>)
    requires Inv(q) && Tracked(q) && Unrepeated(q) && Enabled(q, e) && Pumps(q, e) && (e.Add? ==> Fresh(q, e.items))
    ensures Unrepeated(Ready(q, e))
  {
    hide Conserved, InTurn, Told, Bounded;
    match e
    case Add(items) => QueuedIsUnrepeated(q, items);
    case Resume =>
    case Settle(ticket, outcome) => LeavingKeepsUnrepeated(q, ticket);
  }

  lemma QueuedIsUnrepeated<T>(q: Queue<T>, items: seq<T>)
    requires Unrepeated(q) && Fresh(q, items)
    ensures Unrepeated(Queued(q, items))
  {
    var v, n := Queued(q, items), |q.pending|;
    assert forall i | 0 <= i < n :: v.pending[i] == q.pending[i];
    assert forall i | n <= i < |v.pending| :: v.pending[i].item == items[i - n];
  }

  lemma LeavingKeepsUnrepeated<T>(q: Queue<T>, ticket: nat)
    requires Tracked(q) && Unrepeated(q) && ticket in q.workers
    ensures Unrepeated(Ended(q, ticket)) && Unrepeated(Again(q, ticket))
  {
    var again, job := Again(q, ticket), q.workers[ticket].job;
    assert forall i | 0 < i < |again.pending| :: again.pending[i] == q.pending[i - 1];
    assert forall t | t in again.workers :: t != ticket && again.workers[t].job.item != job.item;
  }

  lemma StepKeepsUnrepeated<T>(q: Queue<T>, e: Event<T>)
    requires Inv(q) && Tracked(q) && Unrepeated(q) && Enabled(q, e) && (e.Add? ==> Fresh(q, e.items))
    ensures Tracked(Apply(q, e)) && Unrepeated(Apply(q, e))
  {
    hide Sane, Fresh, Filled;
    if Pumps(q, e) {
      ReadyIsSane(q, e);
      ReadyIsTracked(q, e);
      ReadyIsUnrepeated(q, e);
      FillingKeepsUnrepeated(Ready(q, e));
    } else {
      hide AbortAll;
      ToldWhenListed(q, ToldToPause);
      ToldWhenListed(q, ToldToCancel);
    }
  }

  predicate AddedFresh<T(==)>(limit: int, events: seq<Event<T>>)
    requires Runs(limit, events)
  {
    events == [] ||
    (AddedFresh(limit, events[..|events| - 1]) &&
     (events[|events| - 1].Add? ==> Fresh(Exec(limit, events[..|events| - 1]), events[|events| - 1].items)))
  }

  /** Whoever adds only what neither waits nor is being worked on never makes the table lose track. */
  lemma {:induction false} FreshIsTracked<T>(limit: int, events: seq<Event<T>>)
    requires Runs(limit, events) && AddedFresh(limit, events)
    ensures TrackedThroughout(limit, events) && Unrepeated(Exec(limit, events))
  {
    hide Inv, Tracked, Enabled, Apply, Fresh, Unrepeated;
    if events == [] {
      NewIsTracked<T>(limit);
      NewIsUnrepeated<T>(limit);
    } else {
      var before := events[..|events| - 1];
      FreshIsTracked(limit, before);
      TrackedOfAll(limit, before);
      InvInEveryRun(limit, before);
      StepKeepsUnrepeated(Exec(limit, before), events[|events| - 1]);
    }
  }

  lemma NewIsUnrepeated<T>(limit: int)
    ensures Unrepeated(New<T>(limit))
  {
  }

  /**
    An item added three times to a queue of two runs three times at once, the table has one entry
    for it, and once the first of the three is done the queue says that it is idle.
  */
  lemma RepeatsAreLostTrackOf<T>(item: T)
    ensures var events := [Add([item, item, item])];
      Runs(2, events) && |Exec(2, events).workers| == 3 && |Exec(2, events).inFlight| == 1
    ensures var events := [Add([item, item, item])] + [Settle(0, Finished)];
      Runs(2, events) && Idle(Exec(2, events)) && |Exec(2, events).workers| == 2
  {
    hide Idle;
    var q := Queued(New<T>(2), [item, item, item]);
    ThreeStart(item);
    OneMoreEvent(2, [], Add([item, item, item]), New<T>(2));
    assert [] + [Add([item, item, item])] == [Add([item, item, item])];
    var v := Exec(2, [Add([item, item, item])]);
    assert v.workers == Filled(q).workers && v.inFlight == Filled(q).inFlight && v.pending == [] && v.limit == 2;
    OneMoreEvent(2, [Add([item, item, item])], Settle(0, Finished), v);
    FirstLeaves(v, item);
  }

  lemma ThreeStart<T>(item: T)
    ensures var q, job := Queued(New<T>(2), [item, item, item]), (t: nat) => Flight(Job(item, 0, t), Going);
      Filled(q) == q.(pending := [], inFlight := map[item := 2], workers := map[0 := job(0), 1 := job(1), 2 := job(2)])
  {
    var q := Queued(New<T>(2), [item, item, item]);
    assert q.pending == [Job(item, 0, 0), Job(item, 0, 1), Job(item, 0, 2)];
    var q1 := Start(q);
    OneEntryMore(q.inFlight, item, 0);
    assert q1.inFlight == map[item := 0] && |q1.inFlight| == 1;
    var q2 := Start(q1);
    assert q2.inFlight == map[item := 1] && |q2.inFlight| == 1;
    var q3 := Start(q2);
    assert q3.inFlight == map[item := 2] && q3.pending == [];
    assert Filled(q3) == q3 && Filled(q2) == q3 && Filled(q1) == q3;
  }

  lemma FirstLeaves<T>(v: Queue<T>, item: T)
    requires v.workers.Keys == {0, 1, 2} && v.workers[0].job.item == item && v.inFlight.Keys == {item}
    requires v.pending == []
    ensures var w := Apply(v, Settle(0, Finished)); Idle(w) && |w.workers| == 2
  {
    var rest := v.workers - {0};
    SizeOfKeys(rest);
    assert rest.Keys == {1, 2};
    assert v.inFlight - {item} == map[];
  }

  // ---- what becomes of one job ----

  lemma {:induction false} FillingKeepsBooks<T>(q: Queue<T>)
    ensures var f := Filled(q);
      f.settled == q.settled && f.discarded == q.discarded && f.limit == q.limit && f.added == q.added
    decreases |q.pending|
  {
    if CanStart(q) {
      FillingKeepsBooks(Start(q));
    }
  }

  /**
    A job ends when its worker is through with it, or is interrupted after a cancel; a cancel throws
    away what has not started; and nothing else takes a job out of the queue. The limit never changes.
  */
  lemma EndedExactly<T>(q: Queue<T>, e: Event<T>)
    requires Enabled(q, e)
    ensures var v := Apply(q, e);
      && v.settled == q.settled +
           (if e.Settle? && (e.outcome == Finished || q.stopped) then multiset{e.ticket} else multiset{})
      && v.discarded == q.discarded + (if e.Cancel? then multiset(TicketsOf(q.pending)) else multiset{})
      && v.added == q.added + (if e.Add? then e.items else [])
      && v.limit == q.limit
  {
    hide AbortAll, TicketsOf, JobsFor;
    if Pumps(q, e) {
      hide Pumped, Apply;
      ThenPumped(q, e);
      PumpingKeepsBooks(Ready(q, e));
    }
  }

  /** A limit below one counts as one. */
  lemma {:induction false} LimitIsKept<T>(limit: int, events: seq<Event<T>>)
    requires Runs(limit, events)
    ensures Exec(limit, events).limit == if limit < 1 then 1 else limit
  {
    hide Apply, Enabled;
    if events != [] {
      LimitIsKept(limit, events[..|events| - 1]);
      EndedExactly(Exec(limit, events[..|events| - 1]), events[|events| - 1]);
    }
  }

  lemma PumpingKeepsBooks<T>(q: Queue<T>)
    ensures var p := Pumped(q);
      p.settled == q.settled && p.discarded == q.discarded && p.limit == q.limit && p.added == q.added
  {
    hide Filled;
    FillingKeepsBooks(q);
  }

  lemma ThenPumped<T>(q: Queue<T>, e: Event<T>)
    requires Enabled(q, e) && Pumps(q, e)
    ensures Apply(q, e) == Pumped(Ready(q, e))
  {
    hide Pumped, Queued, Again, Ended;
  }

  lemma {:induction false} FillingKeepsWorkers<T>(q: Queue<T>, t: nat)
    requires Sane(q) && t in q.workers
    ensures t in Filled(q).workers && Filled(q).workers[t] == q.workers[t]
    decreases |q.pending|
  {
    hide Genuine, Bounded, Told, InTurn;
    if CanStart(q) {
      WaitingIsIdle(q);
      StartKeepsSane(q);
      FillingKeepsWorkers(Start(q), t);
    }
  }

  /** Interrupted work is first in line, one attempt further, or has been started again at once. */
  lemma InterruptedGoesAgain<T>(q: Queue<T>, ticket: nat)
    requires Inv(q) && ticket in q.workers && !q.stopped
    ensures var v, job := Apply(q, Settle(ticket, Interrupted)), q.workers[ticket].job;
      var again := Job(job.item, job.attempt + 1, ticket);
      || (v.pending != [] && v.pending[0] == again)
      || (ticket in v.workers && v.workers[ticket] == Flight(again, Going))
    ensures q.paused ==>
      var v, job := Apply(q, Settle(ticket, Interrupted)), q.workers[ticket].job;
      v.pending == [Job(job.item, job.attempt + 1, ticket)] + q.pending && v.workers == q.workers - {ticket}
  {
    hide Sane, Filled;
    JobOf(q, ticket);
    var ready := Again(q, ticket);
    ReadyIsSane(q, Settle(ticket, Interrupted));
    FilledIsBusy(ready);
    if CanStart(ready) {
      StartKeepsSane(ready);
      FillingKeepsWorkers(Start(ready), ticket);
      FilledFurther(ready);
    } else {
      FilledUp(ready);
    }
  }

  lemma JobOf<T>(q: Queue<T>, ticket: nat)
    requires Sane(q) && ticket in q.workers
    ensures q.workers[ticket].job.ticket == ticket
  {
    hide Conserved, Bounded, Told, InTurn;
  }

  /** A worker that has been told to stop is told nothing else. */
  lemma FirstSignalStays<T>(q: Queue<T>, e: Event<T>, t: nat)
    requires Inv(q) && Enabled(q, e) && t in q.workers && q.workers[t].signal != Going
    requires !(e.Settle? && e.ticket == t)
    ensures t in Apply(q, e).workers && Apply(q, e).workers[t] == q.workers[t]
  {
    hide Sane, Filled, TicketsOf;
    if Pumps(q, e) {
      hide Pumped, Ready, Apply;
      ReadyIsSane(q, e);
      ReadyKeepsWorker(q, e, t);
      PumpingKeepsWorkers(Ready(q, e), t);
    }
  }

  lemma ReadyKeepsWorker<T>(q: Queue<T>, e: Event<T>, t: nat)
    requires Enabled(q, e) && Pumps(q, e) && t in q.workers && !(e.Settle? && e.ticket == t)
    ensures t in Ready(q, e).workers && Ready(q, e).workers[t] == q.workers[t]
  {
    hide JobsFor;
  }

  lemma PumpingKeepsWorkers<T>(q: Queue<T>, t: nat)
    requires Sane(q) && t in q.workers
    ensures t in Pumped(q).workers && Pumped(q).workers[t] == q.workers[t]
  {
    hide Sane, Filled;
    FillingKeepsWorkers(q, t);
  }

  // ---- the end ----

  /** Nothing starts after a cancel, and nothing takes a cancel back. */
  lemma NothingStartsAfterCancel<T>(q: Queue<T>, e: Event<T>)
    requires Enabled(q, e) && q.stopped
    ensures Apply(q, e).stopped && Apply(q, e).workers.Keys <= q.workers.Keys
  {
    hide AbortAll;
    AbortedKeys(q.workers, q.inFlight, ToldToPause);
    AbortedKeys(q.workers, q.inFlight, ToldToCancel);
  }

  /** Waiters are let go all at once, and only when nothing is in flight and nothing is left to start. */
  lemma ReleasedOnlyWhenIdle<T>(q: Queue<T>, e: Event<T>)
    requires Enabled(q, e) && Apply(q, e).waiters < q.waiters
    ensures var v := Apply(q, e); v.waiters == 0 && |v.inFlight| == 0 && (v.pending == [] || v.stopped)
  {
    hide AbortAll, Filled;
    if Pumps(q, e) {
      FillingKeepsWaiters(Ready(q, e));
    }
  }

  lemma {:induction false} FillingKeepsWaiters<T>(q: Queue<T>)
    ensures Filled(q).waiters == q.waiters
    decreases |q.pending|
  {
    if CanStart(q) {
      FillingKeepsWaiters(Start(q));
    }
  }

  /** Somebody waits for a queue that is already idle. */
  predicate Stranded<T(==)>(q: Queue<T>) {
    q.waiters > 0 && |q.inFlight| == 0 && (q.pending == [] || q.stopped)
  }

  /**
    The only step that strands a waiter is a cancel with nothing in flight, and it strands every one
    there is. Anything else that happens to a queue leaves nobody behind who was not already.
  */
  lemma StrandedExactly<T>(q: Queue<T>, e: Event<T>)
    requires Enabled(q, e) && !Stranded(q)
    ensures Stranded(Apply(q, e)) <==> e.Cancel? && q.waiters > 0 && |q.inFlight| == 0
  {
    hide AbortAll, Filled;
  }

  /** A cancel finds work that nobody is doing only on a paused queue. */
  lemma StrandingNeedsAPause<T>(q: Queue<T>)
    requires Inv(q) && !Stranded(q) && q.waiters > 0 && |q.inFlight| == 0
    ensures q.paused && q.pending != []
  {
    hide Conserved, Genuine, Told, InTurn;
  }

  predicate NoCancelStrands<T(==)>(limit: int, events: seq<Event<T>>)
    requires Runs(limit, events)
  {
    events == [] ||
    (NoCancelStrands(limit, events[..|events| - 1]) &&
     var q := Exec(limit, events[..|events| - 1]);
     !(events[|events| - 1].Cancel? && q.waiters > 0 && |q.inFlight| == 0))
  }

  /** So in every run without such a cancel, whoever waits is let go the moment the queue is idle. */
  lemma {:induction false} WaitersAreServed<T>(limit: int, events: seq<Event<T>>)
    requires Runs(limit, events) && NoCancelStrands(limit, events)
    ensures !Stranded(Exec(limit, events))
  {
    hide Enabled, Apply;
    if events != [] {
      var before := events[..|events| - 1];
      WaitersAreServed(limit, before);
      StrandedExactly(Exec(limit, before), events[|events| - 1]);
    }
  }

  lemma AddToNew<T>(item: T)
    ensures Apply(New<T>(1), Add([item])) ==
      New<T>(1).(workers := map[0 := Flight(Job(item, 0, 0), Going)], inFlight := map[item := 0], added := [item])
  {
    var q := Queued(New<T>(1), [item]);
    assert q.pending == [Job(item, 0, 0)] && [] + [item] == [item];
    OneEntryMore(map[], item, 0);
    assert Start(q).inFlight == map[item := 0] && Start(q).pending == [];
    assert Filled(q) == Start(q);
  }

  /** It does happen: the one running item is interrupted by a pause, and then everything is cancelled. */
  lemma CancelCanStrand<T>(item: T)
    ensures var events := [Add([item])] + [WhenIdle] + [Pause] + [Settle(0, Interrupted)] + [Cancel];
      Runs(1, events) && Stranded(Exec(1, events))
  {
    hide Filled, AbortAll, Runs, Exec, Apply;
    var flight := Flight(Job(item, 0, 0), Going);
    var q1 := New<T>(1).(workers := map[0 := flight], inFlight := map[item := 0], added := [item]);
    AddToNew(item);
    NoEvents<T>(1);
    OneMoreEvent(1, [], Add([item]), New<T>(1));
    assert [] + [Add([item])] == [Add([item])];
    OneMoreEvent(1, [Add([item])], WhenIdle, q1);
    WaitsForOne(q1, item);
    OneMoreEvent(1, [Add([item])] + [WhenIdle], Pause, q1.(waiters := 1));
    var q4 := Apply(Apply(q1.(waiters := 1), Pause), Settle(0, Interrupted));
    OneMoreEvent(1, [Add([item])] + [WhenIdle] + [Pause], Settle(0, Interrupted), Apply(q1.(waiters := 1), Pause));
    OneMoreEvent(1, [Add([item])] + [WhenIdle] + [Pause] + [Settle(0, Interrupted)], Cancel, q4);
    assert !Stranded(q4);
    StrandedExactly(q4, Cancel);
  }

  lemma NoEvents<T>(limit: int)
    ensures Runs<T>(limit, []) && Exec<T>(limit, []) == New(limit)
  {
  }

  /** Somebody waits for the one item, a pause interrupts it, and its worker leaves. */
  lemma WaitsForOne<T>(q: Queue<T>, item: T)
    requires q.workers.Keys == {0} && q.workers[0].job.item == item && q.inFlight == map[item := 0]
    requires !q.paused && !q.stopped && q.waiters == 0
    ensures Apply(q, WhenIdle) == q.(waiters := 1)
    ensures var paused := Apply(q.(waiters := 1), Pause);
      Enabled(paused, Settle(0, Interrupted)) &&
      var v := Apply(paused, Settle(0, Interrupted));
      v.waiters == 1 && |v.inFlight| == 0 && v.pending != [] && !v.stopped
  {
    hide AbortAll;
    SizeOfKeys(q.inFlight);
    ToldWhenListed(q.(waiters := 1), ToldToPause);
    assert q.inFlight - {item} == map[];
  }

  lemma FilledFurther<T>(q: Queue<T>)
    requires CanStart(q)
    ensures Filled(q) == Filled(Start(q))
  {
  }

  lemma FilledUp<T>(q: Queue<T>)
    requires !CanStart(q)
    ensures Filled(q) == q
  {
  }

  // ---- the original ----

  class WorkQueue<T(==)> {
    const limit: nat
    var pending: seq<Job<T>>
    var workers: map<nat, Flight<T>>
    var inFlight: map<T, nat>
    var paused: bool
    var stopped: bool
    var draining: bool
    var idleWaiters: nat
    var nextTicket: nat
    ghost var added: seq<T>
    ghost var settled: multiset<nat>
    ghost var discarded: multiset<nat>

    /** Between two turns of the event loop nobody is filling slots. */
    ghost predicate Valid()
      reads this
    {
      !draining && nextTicket == |added|
    }

    /** The queue as the state machine sees it. */
    ghost function State(): Queue<T>
      reads this
    {
      Queue(limit, pending, workers, inFlight, paused, stopped, idleWaiters, added, settled, discarded)
    }

    constructor (limit: int)
      ensures Valid() && State() == New(limit)
    {
      this.limit := if limit < 1 then 1 else limit;
      pending, workers, inFlight, paused, stopped, draining, idleWaiters := [], map[], map[], false, false, false, 0;
      nextTicket, added, settled, discarded := 0, [], multiset{}, multiset{};
    }

    method Pump()
      requires Valid()
      modifies this`pending, this`workers, this`inFlight, this`draining, this`idleWaiters
      ensures Valid() && State() == Pumped(old(State()))
    {
      if draining {
        return;
      }
      hide Filled, Start;
      draining := true;
      while !paused && !stopped && |inFlight| < limit
        invariant Filled(State()) == Filled(old(State()))
        modifies this`pending, this`workers, this`inFlight
        decreases |pending|
      {
        if pending == [] {
          break;
        }
        FilledFurther(State());
        StartNext();
      }
      FilledUp(State());
      draining := false;
      if |inFlight| == 0 && (pending == [] || stopped) {
        idleWaiters := 0;
      }
    }

    /** `run`, up to where it waits for its worker. */
    method StartNext()
      requires pending != []
      modifies this`pending, this`workers, this`inFlight
      ensures State() == Start(old(State())) && |pending| == |old(pending)| - 1
    {
      var job := pending[0];
      pending := pending[1..];
      workers := workers[job.ticket := Flight(job, Going)];
      inFlight := inFlight[job.item := job.ticket];
    }

    method AddItems(items: seq<T>)
      requires Valid()
      modifies this
      ensures Valid() && State() == Apply(old(State()), Add(items))
    {
      hide Pumped;
      pending := pending + JobsFor(items, nextTicket);
      nextTicket := nextTicket + |items|;
      added := added + items;
      Pump();
    }

    method PauseQueue()
      requires Valid()
      modifies this`paused, this`workers
      ensures Valid() && State() == Apply(old(State()), Pause)
    {
      if paused {
        return;
      }
      paused := true;
      workers := AbortAll(workers, inFlight, ToldToPause);
    }

    method ResumeQueue()
      requires Valid()
      modifies this
      ensures Valid() && State() == Apply(old(State()), Resume)
    {
      hide Pumped;
      if !paused {
        return;
      }
      paused := false;
      Pump();
    }

    method CancelQueue()
      requires Valid()
      modifies this
      ensures Valid() && State() == Apply(old(State()), Cancel)
    {
      stopped := true;
      discarded := discarded + multiset(TicketsOf(pending));
      pending := [];
      workers := AbortAll(workers, inFlight, ToldToCancel);
    }

    method WaitUntilIdle()
      requires Valid()
      modifies this`idleWaiters
      ensures Valid() && State() == Apply(old(State()), WhenIdle)
      ensures idleWaiters == old(idleWaiters) + if |inFlight| == 0 && (pending == [] || stopped) then 0 else 1
    {
      if |inFlight| == 0 && (pending == [] || stopped) {
        return;
      }
      idleWaiters := idleWaiters + 1;
    }

    /** Back to the front of the queue if it was interrupted, and off the table in any case. */
    method TakeOff(ticket: nat, outcome: Outcome)
      requires ticket in workers
      modifies this`pending, this`settled, this`workers, this`inFlight
      ensures State() == Ready(old(State()), Settle(ticket, outcome))
    {
      var job := workers[ticket].job;
      if outcome == Interrupted && !stopped {
        pending := [job.(attempt := job.attempt + 1)] + pending;
      } else {
        settled := settled + multiset{ticket};
      }
      workers := workers - {ticket};
      inFlight := inFlight - {job.item};
    }

    /** What `run` does once its worker is done with this job. */
    method Leave(ticket: nat, outcome: Outcome)
      requires Valid() && ticket in workers
      modifies this
      ensures Valid() && State() == Apply(old(State()), Settle(ticket, outcome))
    {
      hide Pumped, Apply, Ready;
      ThenPumped(State(), Settle(ticket, outcome));
      TakeOff(ticket, outcome);
      Pump();
    }
  }
}
