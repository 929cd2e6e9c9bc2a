/**
  core/discovery/ratelimit.go: a token bucket for each source address, in a table of bounded size
  that forgets the quiet ones. Times are seconds and everything is computed without rounding.
*/
module RateLimit {

  type Addr = string

  datatype Bucket = Bucket(tokens: real, last: real)

  /** `maxTrackedSources`. */
  const MAX_TRACKED := 4096

  /** `idleEviction`, one minute. */
  const IDLE := 60.0

  datatype Event = Ask(src: Addr, at: real) | Evict(at: real)

  function Min(a: real, b: real): real { if a < b then a else b }

  /** What the rate gives in this many seconds. */
  function Gain(rate: real, seconds: real): real { seconds * rate }

  lemma GainAdds(rate: real, a: real, b: real)
    ensures Gain(rate, a) + Gain(rate, b) == Gain(rate, a + b) && Gain(rate, 0.0) == 0.0
    ensures rate >= 0.0 && a >= 0.0 ==> Gain(rate, a) >= 0.0
    ensures rate >= 0.0 && b >= 0.0 ==> Gain(rate, b) >= 0.0
  {
    NonNegative(rate, a);
    NonNegative(rate, b);
  }

  lemma NonNegative(rate: real, a: real)
    ensures rate >= 0.0 && a >= 0.0 ==> a * rate >= 0.0
  {
  }

  /** What a bucket holds by now: it fills at the rate and never beyond the burst, which is a second's worth. */
  function Refilled(rate: real, b: Bucket, now: real): real {
    Min(rate, b.tokens + Gain(rate, now - b.last))
  }

  /** What this source could spend now. A source nobody remembers could spend a full burst. */
  function Level(rate: real, buckets: map<Addr, Bucket>, src: Addr, now: real): real {
    if src in buckets then Refilled(rate, buckets[src], now) else rate
  }

  /** The table is full and has nothing on this source: it is dropped wholesale. */
  predicate Overflows(buckets: map<Addr, Bucket>, src: Addr) { src !in buckets && |buckets| >= MAX_TRACKED }

  predicate Allowed(rate: real, buckets: map<Addr, Bucket>, src: Addr, now: real) {
    Level(rate, buckets, src, now) >= 1.0
  }

  function AfterAsk(rate: real, buckets: map<Addr, Bucket>, src: Addr, now: real): map<Addr, Bucket> {
    var level := Level(rate, buckets, src, now);
    var table := if Overflows(buckets, src) then map[] else buckets;
    table[src := Bucket(if level >= 1.0 then level - 1.0 else level, now)]
  }

  function AfterEvict(buckets: map<Addr, Bucket>, now: real): map<Addr, Bucket> {
    map a | a in buckets && !(buckets[a].last < now - IDLE) :: buckets[a]
  }

  function After(rate: real, buckets: map<Addr, Bucket>, e: Event): map<Addr, Bucket> {
    match e
    case Ask(src, at) => AfterAsk(rate, buckets, src, at)
    case Evict(at) => AfterEvict(buckets, at)
  }

  function Run(rate: real, buckets: map<Addr, Bucket>, events: seq<Event>): map<Addr, Bucket> {
    if events == [] then buckets else After(rate, Run(rate, buckets, events[..|events| - 1]), events[|events| - 1])
  }

  // ---- the original ----

  class Limiter {
    const rate: real
    const burst: real := rate
    var buckets: map<Addr, Bucket>

    constructor (perSecond: int)
      ensures rate == perSecond as real && buckets == map[]
    {
      rate, buckets := perSecond as real, map[];
    }

    method Allow(src: Addr, now: real) returns (ok: bool)
      modifies this
      ensures ok <==> Allowed(rate, old(buckets), src, now)
      ensures buckets == AfterAsk(rate, old(buckets), src, now)
    {
      var b := Bucket(burst, now);
      if src in buckets {
        b := buckets[src];
      } else {
        if |buckets| >= MAX_TRACKED {
          buckets := map[];
        }
        assert (now - now) * rate == 0.0;
      }
      var tokens := b.tokens + (now - b.last) * rate;
      if tokens > burst {
        tokens := burst;
      }
      ok := !(tokens < 1.0);
      buckets := buckets[src := Bucket(if ok then tokens - 1.0 else tokens, now)];
    }

    method EvictIdle(now: real)
      modifies this
      ensures buckets == AfterEvict(old(buckets), now)
      ensures forall a :: a in buckets <==> a in old(buckets) && now - old(buckets)[a].last <= 60.0
      ensures forall a | a in buckets :: buckets[a] == old(buckets)[a]
    {
      var cutoff := now - IDLE;
      var todo := buckets.Keys;
      while todo != {}
        invariant todo <= old(buckets).Keys
        invariant buckets ==
          map a | a in old(buckets) && (a in todo || !(old(buckets)[a].last < cutoff)) :: old(buckets)[a]
        decreases todo
      {
        var a :| a in todo;
        if buckets[a].last < cutoff {
          buckets := buckets - {a};
        }
        todo := todo - {a};
      }
    }
  }

  // ---- traces ----

  /** Time never runs backwards, from `since` on. */
  predicate Monotone(events: seq<Event>, since: real) {
    && (forall i, j | 0 <= i < j < |events| :: events[i].at <= events[j].at)
    && (forall e | e in events :: since <= e.at)
  }

  /** No bucket holds anything it could not, and none is from the future. */
  predicate Sane(rate: real, buckets: map<Addr, Bucket>, now: real) {
    forall a | a in buckets :: 0.0 <= buckets[a].tokens <= rate && buckets[a].last <= now
  }

  lemma StepKeepsSane(rate: real, buckets: map<Addr, Bucket>, now: real, e: Event)
    requires rate >= 0.0 && Sane(rate, buckets, now) && now <= e.at
    ensures Sane(rate, After(rate, buckets, e), e.at)
  {
    hide Gain;
    if e.Ask? && e.src in buckets {
      GainAdds(rate, e.at - buckets[e.src].last, 0.0);
    }
  }

  // ---- eviction cannot be observed ----

  /** What an idle bucket holds: everything it can. */
  lemma IdleIsFull(rate: real, b: Bucket, since: real, now: real)
    requires rate >= 0.0 && 0.0 <= b.tokens && b.last < since - IDLE && since <= now
    ensures Refilled(rate, b, now) == rate
  {
    var idle := now - b.last;
    GainAdds(rate, IDLE, idle - IDLE);
    assert Gain(rate, IDLE) == 60.0 * rate;
  }

  /** The two tables differ only in buckets that are full again by now. */
  predicate Alike(rate: real, a: map<Addr, Bucket>, b: map<Addr, Bucket>, now: real) {
    && a.Keys <= b.Keys
    && (forall k | k in a :: a[k] == b[k])
    && (forall k | k in b && k !in a :: b[k].last < now - IDLE)
  }

  /** Whatever is asked next, the two tables answer alike and stay alike. */
  lemma SameAnswer(rate: real, a: map<Addr, Bucket>, b: map<Addr, Bucket>, now: real, src: Addr, at: real)
    requires rate >= 0.0 && Alike(rate, a, b, now) && Sane(rate, b, now) && now <= at
    requires !Overflows(b, src) && |b| <= MAX_TRACKED
    ensures Allowed(rate, a, src, at) <==> Allowed(rate, b, src, at)
    ensures Alike(rate, AfterAsk(rate, a, src, at), AfterAsk(rate, b, src, at), at)
  {
    hide Gain, Refilled;
    if src in b && src !in a {
      IdleIsFull(rate, b[src], now, at);
      SmallerTable(a, b, src);
    } else {
      FewerKeys(a, b);
    }
    assert Level(rate, a, src, at) == Level(rate, b, src, at);
  }

  lemma FewerKeys(a: map<Addr, Bucket>, b: map<Addr, Bucket>)
    requires a.Keys <= b.Keys
    ensures |a| <= |b|
  {
    assert |a| == |a.Keys| && |b| == |b.Keys|;
    assert b.Keys == a.Keys + (b.Keys - a.Keys);
  }

  lemma SmallerTable(a: map<Addr, Bucket>, b: map<Addr, Bucket>, src: Addr)
    requires a.Keys <= b.Keys && src in b && src !in a
    ensures |a| < |b|
  {
    assert |a| == |a.Keys| && |b| == |b.Keys|;
    assert b.Keys == a.Keys + (b.Keys - a.Keys) && src in b.Keys - a.Keys;
  }

  /** The questions of a trace, without the evictions. */
  function Questions(events: seq<Event>): seq<Event> {
    if events == [] then []
    else
      var before, last := Questions(events[..|events| - 1]), events[|events| - 1];
      if last.Ask? then before + [last] else before
  }

  function Answers(rate: real, buckets: map<Addr, Bucket>, events: seq<Event>): seq<bool> {
    if events == [] then []
    else
      var before, last := events[..|events| - 1], events[|events| - 1];
      Answers(rate, buckets, before) + if last.Ask? then [Allowed(rate, Run(rate, buckets, before), last.src, last.at)]
          else []
  }

  function Sources(events: seq<Event>): set<Addr> {
    set e | e in events && e.Ask? :: e.src
  }

  lemma {:induction false} TableIsOfSources(rate: real, events: seq<Event>)
    ensures Run(rate, map[], events).Keys <= Sources(events)
  {
    if events != [] {
      TableIsOfSources(rate, events[..|events| - 1]);
      assert events == events[..|events| - 1] + [events[|events| - 1]];
    }
  }

  function Latest(events: seq<Event>): real { if events == [] then 0.0 else events[|events| - 1].at }

  lemma NoOverflow(b: map<Addr, Bucket>, src: Addr, sources: set<Addr>)
    requires b.Keys <= sources && src in sources && |sources| <= MAX_TRACKED
    ensures !Overflows(b, src) && |b| <= MAX_TRACKED
  {
    assert |b| == |b.Keys|;
    Subset(b.Keys, sources);
    if src !in b {
      Subset(b.Keys + {src}, sources);
    }
  }

  lemma {:induction false} QuestionsAreAsked(events: seq<Event>)
    ensures Sources(Questions(events)) == Sources(events)
  {
    if events != [] {
      var before, last := events[..|events| - 1], events[|events| - 1];
      QuestionsAreAsked(before);
      assert events == before + [last];
      assert Sources(events) == Sources(before) + (if last.Ask? then {last.src} else {});
      if last.Ask? {
        assert Sources(Questions(before) + [last]) == Sources(Questions(before)) + {last.src};
      }
    }
  }

  lemma EvictKeepsAlike(rate: real, a: map<Addr, Bucket>, b: map<Addr, Bucket>, now: real, at: real)
    requires Alike(rate, a, b, now) && Sane(rate, b, now) && now <= at
    ensures Alike(rate, AfterEvict(a, at), b, at) && Sane(rate, b, at)
  {
  }

  lemma {:induction false} EvictionKeepsAlike(rate: real, events: seq<Event>)
    requires rate >= 0.0 && Monotone(events, 0.0) && |Sources(events)| <= MAX_TRACKED
    ensures var a, b := Run(rate, map[], events), Run(rate, map[], Questions(events));
      && Alike(rate, a, b, Latest(events)) && Sane(rate, b, Latest(events))
      && Answers(rate, map[], events) == Answers(rate, map[], Questions(events))
  {
    hide AfterAsk, AfterEvict, Allowed, Overflows, Sane, Level, Alike;
    if events == [] {
      NothingYet(rate);
    } else {
      var before, last := events[..|events| - 1], events[|events| - 1];
      assert last in events && forall e | e in before :: e in events;
      assert Sources(before) <= Sources(events);
      Subset(Sources(before), Sources(events));
      EvictionKeepsAlike(rate, before);
      var a, b := Run(rate, map[], before), Run(rate, map[], Questions(before));
      assert Latest(before) <= last.at;
      if last.Ask? {
        QuestionsAreAsked(before);
        TableIsOfSources(rate, Questions(before));
        assert last.src in Sources(events);
        NoOverflow(b, last.src, Sources(events));
        SameAnswer(rate, a, b, Latest(before), last.src, last.at);
        StepKeepsSane(rate, b, Latest(before), last);
        assert (Questions(before) + [last])[..|Questions(before)|] == Questions(before);
      } else {
        EvictKeepsAlike(rate, a, b, Latest(before), last.at);
      }
    }
  }

  lemma NothingYet(rate: real)
    ensures Sane(rate, map[], 0.0) && Alike(rate, map[], map[], 0.0)
  {
  }

  lemma Subset<T>(a: set<T>, b: set<T>)
    requires a <= b
    ensures |a| <= |b|
  {
    assert b == a + (b - a);
  }

  /**
    As long as no more sources ask than the table can hold, evicting the idle ones, whenever and
    however often, changes no answer.
  */
  lemma EvictionIsUnobservable(rate: real, events: seq<Event>)
    requires rate >= 0.0 && Monotone(events, 0.0) && |Sources(events)| <= MAX_TRACKED
    ensures Answers(rate, map[], events) == Answers(rate, map[], Questions(events))
  {
    EvictionKeepsAlike(rate, events);
  }

  // ---- the rate is bounded ----

  /** How often this source is answered. */
  function Replies(rate: real, buckets: map<Addr, Bucket>, src: Addr, events: seq<Event>): nat {
    if events == [] then 0
    else
      var before, last := events[..|events| - 1], events[|events| - 1];
      Replies(rate, buckets, src, before) +
      if last.Ask? && last.src == src && Allowed(rate, Run(rate, buckets, before), src, last.at) then 1 else 0
  }

  /** Somebody else's question overflows the table, and this source's bucket is dropped with it. */
  predicate Forgets(buckets: map<Addr, Bucket>, src: Addr, e: Event) {
    e.Ask? && src in buckets && Overflows(buckets, e.src)
  }

  /** How often that happens. */
  function Forgotten(rate: real, buckets: map<Addr, Bucket>, src: Addr, events: seq<Event>): nat {
    if events == [] then 0
    else
      var before, last := events[..|events| - 1], events[|events| - 1];
      Forgotten(rate, buckets, src, before) + if Forgets(Run(rate, buckets, before), src, last) then 1 else 0
  }

  /** So many bursts. */
  function Bursts(rate: real, n: nat): real { n as real * rate }

  lemma OneBurstMore(rate: real, n: nat)
    ensures Bursts(rate, n + 1) == Bursts(rate, n) + rate && Bursts(rate, 0) == 0.0
  {
  }

  /** Waiting adds at most what the rate gives. */
  lemma LevelGrows(rate: real, buckets: map<Addr, Bucket>, src: Addr, now: real, later: real)
    requires rate >= 0.0 && Sane(rate, buckets, now) && now <= later
    ensures Level(rate, buckets, src, later) <= Level(rate, buckets, src, now) + Gain(rate, later - now)
    ensures 0.0 <= Level(rate, buckets, src, later) <= rate
  {
    hide Gain;
    GainAdds(rate, later - now, 0.0);
    if src in buckets {
      GainAdds(rate, now - buckets[src].last, later - now);
    }
  }

  function Paid(rate: real, buckets: map<Addr, Bucket>, src: Addr, e: Event): real {
    if e.Ask? && e.src == src && Allowed(rate, buckets, src, e.at) then 1.0 else 0.0
  }

  function Given(rate: real, buckets: map<Addr, Bucket>, src: Addr, e: Event): real {
    if Forgets(buckets, src, e) then rate else 0.0
  }

  /** One event: a reply costs a token, and nothing gives one but being forgotten, which gives a burst. */
  lemma LevelPays(rate: real, buckets: map<Addr, Bucket>, src: Addr, now: real, e: Event)
    requires rate >= 0.0 && Sane(rate, buckets, now) && now <= e.at
    ensures Level(rate, After(rate, buckets, e), src, e.at) + Paid(rate, buckets, src, e) <=
      Level(rate, buckets, src, e.at) + Given(rate, buckets, src, e)
  {
    hide Gain;
    LevelGrows(rate, buckets, src, now, e.at);
    GainAdds(rate, 0.0, 0.0);
    if e.Evict? && src in buckets && src !in AfterEvict(buckets, e.at) {
      IdleIsFull(rate, buckets[src], e.at, e.at);
    }
  }

  /** One event more: what it pays and what it gives. */
  lemma OneMoreEvent(rate: real, buckets: map<Addr, Bucket>, src: Addr, events: seq<Event>)
    requires events != []
    ensures var before, last := events[..|events| - 1], events[|events| - 1];
      var v := Run(rate, buckets, before);
      && Run(rate, buckets, events) == After(rate, v, last)
      && Replies(rate, buckets, src, events) as real ==
         Replies(rate, buckets, src, before) as real + Paid(rate, v, src, last)
      && Bursts(rate, Forgotten(rate, buckets, src, events)) ==
         Bursts(rate, Forgotten(rate, buckets, src, before)) + Given(rate, v, src, last)
  {
    hide After, Allowed, Forgets, Bursts;
    OneBurstMore(rate, Forgotten(rate, buckets, src, events[..|events| - 1]));
  }

  /** How much is left after these events, and what was paid and given on the way. */
  predicate Balanced(rate: real, buckets: map<Addr, Bucket>, src: Addr, events: seq<Event>, since: real, now: real) {
    Replies(rate, buckets, src, events) as real + Level(rate, Run(rate, buckets, events), src, now) <=
      rate + Bursts(rate, Forgotten(rate, buckets, src, events)) + Gain(rate, now - since)
  }

  lemma StaysBalanced(
      rate: real, buckets: map<Addr, Bucket>, src: Addr, events: seq<Event>, since: real, now: real)
    requires rate >= 0.0 && events != [] && since <= now <= events[|events| - 1].at
    requires Sane(rate, Run(rate, buckets, events[..|events| - 1]), now)
    requires Balanced(rate, buckets, src, events[..|events| - 1], since, now)
    ensures Balanced(rate, buckets, src, events, since, events[|events| - 1].at)
  {
    hide Gain, Level, After, Sane, Bursts, Paid, Given, Run, Replies, Forgotten;
    var v, last := Run(rate, buckets, events[..|events| - 1]), events[|events| - 1];
    OneMoreEvent(rate, buckets, src, events);
    LevelGrows(rate, v, src, now, last.at);
    LevelPays(rate, v, src, now, last);
    GainAdds(rate, now - since, last.at - now);
    assert (now - since) + (last.at - now) == last.at - since;
  }

  lemma {:induction false} RepliesPaidFor(
      rate: real, buckets: map<Addr, Bucket>, src: Addr, events: seq<Event>, since: real)
    requires rate >= 0.0 && Sane(rate, buckets, since) && Monotone(events, since)
    ensures var now := if events == [] then since else events[|events| - 1].at;
      && Sane(rate, Run(rate, buckets, events), now) && since <= now
      && Balanced(rate, buckets, src, events, since, now)
  {
    if events == [] {
      hide Gain, Level, Sane, Bursts;
      OneBurstMore(rate, 0);
      LevelGrows(rate, buckets, src, since, since);
      GainAdds(rate, 0.0, 0.0);
    } else {
      hide Balanced, After, Sane;
      var before, last := events[..|events| - 1], events[|events| - 1];
      assert last in events && forall e | e in before :: e in events;
      RepliesPaidFor(rate, buckets, src, before, since);
      var now := if before == [] then since else before[|before| - 1].at;
      assert now <= last.at;
      StaysBalanced(rate, buckets, src, events, since, now);
      StepKeepsSane(rate, Run(rate, buckets, before), now, last);
    }
  }

  /**
    In any window of any trace, evictions and other sources included, one source is answered at
    most a burst and the rate times the window, and a burst more for each time that a full table
    was dropped with its bucket in it.
  */
  lemma RateIsBounded(rate: real, buckets: map<Addr, Bucket>, src: Addr, window: seq<Event>, from: real, to: real)
    requires rate >= 0.0 && Sane(rate, buckets, from) && Monotone(window, from)
    requires from <= to && forall e | e in window :: e.at <= to
    ensures Replies(rate, buckets, src, window) as real <=
      rate + Bursts(rate, Forgotten(rate, buckets, src, window)) + rate * (to - from)
  {
    hide Gain, Level, Sane, Replies, Run, Forgotten, Bursts;
    RepliesPaidFor(rate, buckets, src, window, from);
    var now := if window == [] then from else window[|window| - 1].at;
    if window != [] {
      assert window[|window| - 1] in window;
    }
    LevelGrows(rate, Run(rate, buckets, window), src, now, now);
    MoreTimeMoreGain(rate, from, now, to);
  }

  /** And being forgotten does give a burst: a source with nothing left is answered again at once. */
  lemma ForgottenIsServed(rate: nat, buckets: map<Addr, Bucket>, src: Addr, other: Addr, now: real)
    requires rate >= 1 && src in buckets && other !in buckets && |buckets| == MAX_TRACKED
    requires buckets[src] == Bucket(0.0, now)
    ensures var v := Run(rate as real, buckets, [Ask(src, now), Ask(other, now)]);
      !Allowed(rate as real, buckets, src, now) && Level(rate as real, v, src, now) == rate as real && src !in v
  {
    GainAdds(rate as real, 0.0, 0.0);
    var first := AfterAsk(rate as real, buckets, src, now);
    assert [Ask(src, now), Ask(other, now)][..1] == [Ask(src, now)] && [Ask(src, now)][..0] == [];
    assert Run(rate as real, buckets, [Ask(src, now)]) == first;
    assert first.Keys == buckets.Keys && |first| == |first.Keys| == |buckets.Keys| == |buckets|;
  }

  lemma MoreTimeMoreGain(rate: real, from: real, now: real, to: real)
    requires rate >= 0.0 && from <= now <= to
    ensures Gain(rate, now - from) <= rate * (to - from)
  {
    NonNegative(rate, to - now);
    assert rate * (to - from) == (now - from) * rate + (to - now) * rate;
  }

  /** What any trace from an empty table leads to is a table the bound applies to. */
  lemma {:induction false} TracesAreSane(rate: real, events: seq<Event>, since: real)
    requires rate >= 0.0 && Monotone(events, since)
    ensures Sane(rate, Run(rate, map[], events), if events == [] then since else events[|events| - 1].at)
  {
    if events != [] {
      var before := events[..|events| - 1];
      assert forall e | e in before :: e in events;
      assert events[|events| - 1] in events;
      TracesAreSane(rate, before, since);
      var now := if before == [] then since else before[|before| - 1].at;
      StepKeepsSane(rate, Run(rate, map[], before), now, events[|events| - 1]);
    }
  }

  /** Nobody is turned away for good: a newcomer is answered, and so is whoever waited for one token's worth. */
  lemma WaitingEarnsAReply(rate: real, buckets: map<Addr, Bucket>, src: Addr, now: real)
    requires rate >= 1.0 && Sane(rate, buckets, now)
    requires src in buckets ==> Gain(rate, now - buckets[src].last) >= 1.0
    ensures Allowed(rate, buckets, src, now)
  {
    hide Gain;
  }

  /** A full burst is answered at one instant, and then nothing until time passes. */
  lemma {:induction false} BurstIsServed(rate: nat, src: Addr, now: real, n: nat)
    requires n <= rate
    ensures var v := Run(rate as real, map[], seq(n, i => Ask(src, now)));
      && Level(rate as real, v, src, now) == (rate - n) as real
      && (Allowed(rate as real, v, src, now) <==> n < rate)
      && v.Keys <= {src} && (n > 0 ==> src in v && v[src].last == now)
  {
    GainAdds(rate as real, 0.0, 0.0);
    if n > 0 {
      BurstIsServed(rate, src, now, n - 1);
      var events := seq(n, i => Ask(src, now));
      assert events[..n - 1] == seq(n - 1, i => Ask(src, now));
    }
  }
}
