/**
 The keyed token-bucket limiter. Times and credit are whole nanoseconds: a
 bucket holds at most burst * every of credit, gains one unit a nanosecond and
 pays `every` for a request. That the library's floating-point bucket behaves
 like this exact one is an assumption of the model.
 */
module RateLimit {
  import opened Finite

  type Key = string

  const SECOND: int := 1_000_000_000
  const SWEEP_INTERVAL: int := 60 * SECOND

  datatype Config = Config(every: int, burst: int, maxKeys: nat) {
    predicate Valid() { every > 0 && burst > 0 }

    /** The credit of a full bucket. */
    function Cap(): int { burst * every }

    function IdleTtl(): int { Cap() + SECOND }
  }

  // ---- One bucket --------------------------------------------------------

  /** What a bucket held when it was last brought up to date. */
  datatype Tokens = Tokens(credit: int, last: int)

  function CreditAt(cfg: Config, b: Tokens, t: int): int {
    if t < b.last then b.credit else Min(cfg.Cap(), b.credit + (t - b.last))
  }

  /** ReserveN(now, 1): pays at once, and owes the missing credit as a delay. */
  function Reserve(cfg: Config, b: Tokens, now: int): (Tokens, int) {
    var credit := CreditAt(cfg, b, now) - cfg.every;
    (Tokens(credit, now), if credit < 0 then -credit else 0)
  }

  /** CancelAt(now): gives the payment back. */
  function CancelAt(cfg: Config, b: Tokens, now: int): Tokens {
    Tokens(Min(cfg.Cap(), CreditAt(cfg, b, now) + cfg.every), now)
  }

  /** Rounded up to whole seconds. */
  function RetryAfter(delay: int): int { (delay + SECOND - 1) / SECOND * SECOND }

  datatype Verdict = Allowed | Denied(retryAfter: int)

  function Try(cfg: Config, b: Tokens, now: int): (Tokens, Verdict) {
    var (b', delay) := Reserve(cfg, b, now);
    if delay == 0 then (b', Allowed) else (CancelAt(cfg, b', now), Denied(RetryAfter(delay)))
  }

  predicate Sound(cfg: Config, b: Tokens, now: int) {
    0 <= b.credit <= cfg.Cap() && b.last <= now
  }

  /** Credit never falls by waiting, and a clock that goes back adds none. */
  lemma CreditNeverFalls(cfg: Config, b: Tokens, t: int, u: int)
    requires b.credit <= cfg.Cap() && t <= u
    ensures b.credit <= CreditAt(cfg, b, t) <= CreditAt(cfg, b, u) <= cfg.Cap()
    ensures t <= b.last ==> CreditAt(cfg, b, t) == b.credit
  {
  }

  /** A denied request leaves the bucket as if only time had passed. */
  lemma DenialIsNeutral(cfg: Config, b: Tokens, now: int, t: int)
    requires cfg.Valid() && Sound(cfg, b, now) && now <= t
    requires Try(cfg, b, now).1.Denied?
    ensures CreditAt(cfg, Try(cfg, b, now).0, t) == CreditAt(cfg, b, t)
    ensures Sound(cfg, Try(cfg, b, now).0, now)
  {
  }

  lemma CapBounds(cfg: Config)
    requires cfg.Valid()
    ensures cfg.Cap() >= cfg.every
  {
  }

  /** Waiting for retryAfter with no other use of the bucket is enough; it
      exceeds the true delay by less than a second, and any shorter wait than
      the true delay is refused. */
  lemma RetryAfterTight(cfg: Config, b: Tokens, now: int, t: int)
    requires cfg.Valid() && Sound(cfg, b, now) && now <= t
    requires Try(cfg, b, now).1.Denied?
    ensures var (b', v) := Try(cfg, b, now);
            var delay := cfg.every - CreditAt(cfg, b, now);
            && 0 < delay <= v.retryAfter < delay + SECOND
            && (Try(cfg, b', t).1.Allowed? <==> t >= now + delay)
  {
    CapBounds(cfg);
    DenialIsNeutral(cfg, b, now, t);
    var delay := cfg.every - CreditAt(cfg, b, now);
    assert Reserve(cfg, b, now).1 == delay;
    RoundUp(delay);
  }

  lemma RoundUp(delay: int)
    requires delay > 0
    ensures delay <= RetryAfter(delay) < delay + SECOND
  {
    var n := delay + SECOND - 1;
    assert n == n / SECOND * SECOND + n % SECOND;
  }

  /** Credit gained and spent over one request. */
  lemma TryBalance(cfg: Config, b: Tokens, now: int)
    requires cfg.Valid() && Sound(cfg, b, now)
    ensures var (b', v) := Try(cfg, b, now);
            && Sound(cfg, b', now) && b'.last == now
            && b'.credit == CreditAt(cfg, b, now) - (if v.Allowed? then cfg.every else 0)
  {
    CapBounds(cfg);
  }

  // ---- The keyed limiter -------------------------------------------------

  datatype Entry = Entry(tokens: Tokens, lastSeen: int)

  datatype State = State(buckets: map<Key, Entry>, overflow: Tokens, lastSweep: int)

  /** Whether the answer came from the key's own bucket or the shared one. */
  datatype Answer = Answer(verdict: Verdict, own: bool)

  function Sweep(cfg: Config, s: State, now: int): State {
    State(map k | k in s.buckets && now - s.buckets[k].lastSeen < cfg.IdleTtl() :: s.buckets[k], s.overflow, now)
  }

  function SweepIfDue(cfg: Config, s: State, now: int, interval: int): State {
    if now - s.lastSweep >= interval then Sweep(cfg, s, now) else s
  }

  /** bucketFor: the key's entry, seen now, is in the result, unless the map
      is full of other keys. */
  function BucketFor(cfg: Config, s: State, key: Key, now: int): State {
    if key in s.buckets then s.(buckets := s.buckets[key := s.buckets[key].(lastSeen := now)])
    else
      var s' := if |s.buckets| >= cfg.maxKeys then SweepIfDue(cfg, s, now, SECOND) else s;
      if |s'.buckets| >= cfg.maxKeys then s'
      else s'.(buckets := s'.buckets[key := Entry(Tokens(cfg.Cap(), now), now)])
  }

  /** The request itself, from the key's own bucket if it has one. */
  function Spend(cfg: Config, s: State, key: Key, now: int): (State, Answer) {
    if key in s.buckets then
      var (b, v) := Try(cfg, s.buckets[key].tokens, now);
      (s.(buckets := s.buckets[key := s.buckets[key].(tokens := b)]), Answer(v, true))
    else
      var (b, v) := Try(cfg, s.overflow, now);
      (s.(overflow := b), Answer(v, false))
  }

  function Allow(cfg: Config, s: State, key: Key, now: int): (State, Answer) {
    Spend(cfg, BucketFor(cfg, SweepIfDue(cfg, s, now, SWEEP_INTERVAL), key, now), key, now)
  }

  ghost predicate Valid(cfg: Config, s: State, now: int) {
    && cfg.Valid()
    && |s.buckets| <= cfg.maxKeys
    && Sound(cfg, s.overflow, now)
    && (forall k :: k in s.buckets ==>
          Sound(cfg, s.buckets[k].tokens, s.buckets[k].lastSeen) && s.buckets[k].lastSeen <= now)
  }

  function Initial(cfg: Config): State { State(map[], Tokens(cfg.Cap(), 0), 0) }

  /** What the key may spend from its own bucket at time t, whether or not the
      bucket is currently stored. */
  function KeyCredit(cfg: Config, s: State, k: Key, t: int): int {
    if k in s.buckets then CreditAt(cfg, s.buckets[k].tokens, t) else cfg.Cap()
  }

  /** Sweeping forgets only full buckets. */
  lemma SweepForgetsNothing(cfg: Config, s: State, now: int, interval: int)
    requires Valid(cfg, s, now)
    ensures var s' := SweepIfDue(cfg, s, now, interval);
            && Valid(cfg, s', now) && s'.overflow == s.overflow
            && forall k :: KeyCredit(cfg, s', k, now) == KeyCredit(cfg, s, k, now)
  {
    var s' := SweepIfDue(cfg, s, now, interval);
    SubmapSize(s'.buckets, s.buckets);
  }

  /** Finding a bucket changes nobody's credit. */
  lemma BucketForForgetsNothing(cfg: Config, s: State, key: Key, now: int)
    requires Valid(cfg, s, now)
    ensures var s' := BucketFor(cfg, s, key, now);
            && Valid(cfg, s', now) && s'.overflow == s.overflow
            && forall k :: KeyCredit(cfg, s', k, now) == KeyCredit(cfg, s, k, now)
  {
    SweepForgetsNothing(cfg, s, now, SECOND);
  }

  /** One request: it spends from its own bucket or from the shared one, never
      from another key's, and the map stays within maxKeys. */
  lemma AllowBalance(cfg: Config, s: State, key: Key, now: int)
    requires Valid(cfg, s, now)
    ensures var (s', a) := Allow(cfg, s, key, now);
            var spent := if a.verdict.Allowed? then cfg.every else 0;
            && Valid(cfg, s', now)
            && (forall k :: KeyCredit(cfg, s', k, now)
                         == KeyCredit(cfg, s, k, now) - (if a.own && k == key then spent else 0))
            && CreditAt(cfg, s'.overflow, now) == CreditAt(cfg, s.overflow, now) - (if a.own then 0 else spent)
            && (a.own ==> a.verdict == Try(cfg, Tokens(KeyCredit(cfg, s, key, now), now), now).1)
            && (!a.own ==> a.verdict == Try(cfg, s.overflow, now).1)
  {
    var s1 := SweepIfDue(cfg, s, now, SWEEP_INTERVAL);
    var s2 := BucketFor(cfg, s1, key, now);
    SweepForgetsNothing(cfg, s, now, SWEEP_INTERVAL);
    BucketForForgetsNothing(cfg, s1, key, now);
    if key in s2.buckets {
      TryBalance(cfg, s2.buckets[key].tokens, now);
      assert KeyCredit(cfg, s2, key, now) == KeyCredit(cfg, s, key, now);
    } else {
      TryBalance(cfg, s2.overflow, now);
    }
  }

  // ---- Runs --------------------------------------------------------------

  datatype Event = Event(key: Key, now: int)

  predicate InOrder(events: seq<Event>, start: int) {
    events == [] || (start <= events[0].now && InOrder(events[1..], events[0].now))
  }

  /** A machine that answers each event, over a sequence of them. */
  function StateAfter<S, E, A>(step: (S, E) -> (S, A), s: S, events: seq<E>): S
    decreases |events|
  {
    if events == [] then s else StateAfter(step, step(s, events[0]).0, events[1..])
  }

  function AnswersTo<S, E, A>(step: (S, E) -> (S, A), s: S, events: seq<E>): (answers: seq<A>)
    ensures |answers| == |events|
    decreases |events|
  {
    if events == [] then [] else [step(s, events[0]).1] + AnswersTo(step, step(s, events[0]).0, events[1..])
  }

  lemma {:induction false} AnswersSplit<S, E, A>(step: (S, E) -> (S, A), s: S, past: seq<E>, later: seq<E>)
    ensures AnswersTo(step, s, past + later)
         == AnswersTo(step, s, past) + AnswersTo(step, StateAfter(step, s, past), later)
    decreases |past|
  {
    if past == [] {
      assert past + later == later;
    } else {
      assert (past + later)[1..] == past[1..] + later;
      AnswersSplit(step, step(s, past[0]).0, past[1..], later);
    }
  }

  function StepOf(cfg: Config): (State, Event) -> (State, Answer) {
    (s: State, e: Event) => Allow(cfg, s, e.key, e.now)
  }

  function After(cfg: Config, s: State, events: seq<Event>): State { StateAfter(StepOf(cfg), s, events) }

  function Answers(cfg: Config, s: State, events: seq<Event>): (answers: seq<Answer>)
    ensures |answers| == |events|
  {
    AnswersTo(StepOf(cfg), s, events)
  }

  /** The first request of a run, and the rest of it. */
  lemma RunStep(cfg: Config, s: State, events: seq<Event>)
    requires events != []
    ensures var (s', a) := Allow(cfg, s, events[0].key, events[0].now);
            && After(cfg, s, events) == After(cfg, s', events[1..])
            && Answers(cfg, s, events) == [a] + Answers(cfg, s', events[1..])
  {
  }

  function EndTime(events: seq<Event>, start: int): int {
    if events == [] then start else events[|events| - 1].now
  }

  lemma ValidLater(cfg: Config, s: State, now: int, t: int)
    requires Valid(cfg, s, now) && now <= t
    ensures Valid(cfg, s, t)
  {
  }

  lemma AllowValid(cfg: Config, s: State, key: Key, start: int, now: int)
    requires Valid(cfg, s, start) && start <= now
    ensures Valid(cfg, Allow(cfg, s, key, now).0, now)
  {
    ValidLater(cfg, s, start, now);
    AllowBalance(cfg, s, key, now);
  }

  /** The map never holds more than maxKeys buckets. */
  lemma {:induction false} MemoryBounded(cfg: Config, s: State, events: seq<Event>, start: int)
    requires Valid(cfg, s, start) && InOrder(events, start)
    ensures start <= EndTime(events, start)
    ensures Valid(cfg, After(cfg, s, events), EndTime(events, start))
    ensures |After(cfg, s, events).buckets| <= cfg.maxKeys
    decreases |events|
  {
    if events != [] {
      var e := events[0];
      AllowValid(cfg, s, e.key, start, e.now);
      var s' := Allow(cfg, s, e.key, e.now).0;
      MemoryBounded(cfg, s', events[1..], e.now);
      RunStep(cfg, s, events);
      assert EndTime(events, start) == EndTime(events[1..], e.now);
    }
  }

  // ---- Refinement --------------------------------------------------------

  /** The simple limiter: one bucket per key, full at first, never dropped. */
  type Ideal = map<Key, Tokens>

  function IdealBucket(cfg: Config, ideal: Ideal, k: Key, now: int): Tokens {
    if k in ideal then ideal[k] else Tokens(cfg.Cap(), now)
  }

  /** Every answer from a key's own bucket is the simple limiter's answer, the
      simple limiter serving just those requests. */
  predicate Agrees(cfg: Config, ideal: Ideal, events: seq<Event>, answers: seq<Answer>)
    requires |events| == |answers|
    decreases |events|
  {
    events == [] ||
    var (e, a) := (events[0], answers[0]);
    var (b, v) := Try(cfg, IdealBucket(cfg, ideal, e.key, e.now), e.now);
    if a.own then a.verdict == v && Agrees(cfg, ideal[e.key := b], events[1..], answers[1..])
    else Agrees(cfg, ideal, events[1..], answers[1..])
  }

  /** The two limiters would grant every key the same credit at time t. */
  ghost predicate Simulates(cfg: Config, s: State, ideal: Ideal, t: int) {
    && (forall k :: k in ideal ==> Sound(cfg, ideal[k], t))
    && (forall k :: KeyCredit(cfg, s, k, t) == CreditAt(cfg, IdealBucket(cfg, ideal, k, t), t))
  }

  lemma SimulatesLater(cfg: Config, s: State, ideal: Ideal, t: int, u: int)
    requires Valid(cfg, s, t) && Simulates(cfg, s, ideal, t) && t <= u
    ensures Simulates(cfg, s, ideal, u)
  {
    forall k ensures KeyCredit(cfg, s, k, u) == CreditAt(cfg, IdealBucket(cfg, ideal, k, u), u) {
      assert KeyCredit(cfg, s, k, t) == CreditAt(cfg, IdealBucket(cfg, ideal, k, t), t);
    }
  }

  /** The simple limiter's state once the same request has been served. */
  function Serve(cfg: Config, ideal: Ideal, k: Key, now: int, own: bool): Ideal {
    if own then ideal[k := Try(cfg, IdealBucket(cfg, ideal, k, now), now).0] else ideal
  }

  /** A verdict depends on the credit alone. */
  lemma SameCreditSameVerdict(cfg: Config, b: Tokens, c: Tokens, now: int)
    requires CreditAt(cfg, b, now) == CreditAt(cfg, c, now)
    ensures Try(cfg, b, now).1 == Try(cfg, c, now).1
  {
  }

  /** What serving a request does to the simple limiter. */
  lemma ServeBalance(cfg: Config, ideal: Ideal, k: Key, now: int, own: bool, j: Key)
    requires cfg.Valid() && forall i :: i in ideal ==> Sound(cfg, ideal[i], now)
    ensures var ideal', b := Serve(cfg, ideal, k, now, own), IdealBucket(cfg, ideal, k, now);
            && (j in ideal' ==> Sound(cfg, ideal'[j], now))
            && CreditAt(cfg, IdealBucket(cfg, ideal', j, now), now)
                 == CreditAt(cfg, IdealBucket(cfg, ideal, j, now), now)
                    - (if own && j == k && Try(cfg, b, now).1.Allowed? then cfg.every else 0)
  {
    CapBounds(cfg);
    TryBalance(cfg, IdealBucket(cfg, ideal, k, now), now);
  }

  /** One request is answered alike, and leaves the two limiters in step. */
  lemma RequestRefines(cfg: Config, s: State, ideal: Ideal, k: Key, now: int)
    requires Valid(cfg, s, now) && Simulates(cfg, s, ideal, now)
    ensures var (s', a) := Allow(cfg, s, k, now);
            && Valid(cfg, s', now) && Simulates(cfg, s', Serve(cfg, ideal, k, now, a.own), now)
            && (a.own ==> a.verdict == Try(cfg, IdealBucket(cfg, ideal, k, now), now).1)
  {
    var (s', a) := Allow(cfg, s, k, now);
    AllowBalance(cfg, s, k, now);
    var b := IdealBucket(cfg, ideal, k, now);
    assert KeyCredit(cfg, s, k, now) == CreditAt(cfg, b, now);
    KeyCreditInRange(cfg, s, k, now);
    SameCreditSameVerdict(cfg, Tokens(KeyCredit(cfg, s, k, now), now), b, now);
    var ideal' := Serve(cfg, ideal, k, now, a.own);
    forall j
      ensures j in ideal' ==> Sound(cfg, ideal'[j], now)
      ensures KeyCredit(cfg, s', j, now) == CreditAt(cfg, IdealBucket(cfg, ideal', j, now), now)
    {
      assert KeyCredit(cfg, s, j, now) == CreditAt(cfg, IdealBucket(cfg, ideal, j, now), now);
      ServeBalance(cfg, ideal, k, now, a.own, j);
    }
  }

  lemma KeyCreditInRange(cfg: Config, s: State, k: Key, now: int)
    requires Valid(cfg, s, now)
    ensures KeyCredit(cfg, s, k, now) <= cfg.Cap()
    ensures CreditAt(cfg, Tokens(KeyCredit(cfg, s, k, now), now), now) == KeyCredit(cfg, s, k, now)
  {
  }

  /** However often buckets are swept and made anew, no decision on a key's own
      bucket differs from the simple limiter's. */
  lemma {:induction false} Refines(cfg: Config, s: State, ideal: Ideal, events: seq<Event>, start: int)
    requires Valid(cfg, s, start) && InOrder(events, start) && Simulates(cfg, s, ideal, start)
    ensures Agrees(cfg, ideal, events, Answers(cfg, s, events))
    decreases |events|
  {
    if events != [] {
      var e := events[0];
      var (s', a) := Allow(cfg, s, e.key, e.now);
      ValidLater(cfg, s, start, e.now);
      SimulatesLater(cfg, s, ideal, start, e.now);
      RequestRefines(cfg, s, ideal, e.key, e.now);
      Refines(cfg, s', Serve(cfg, ideal, e.key, e.now, a.own), events[1..], e.now);
      RunStep(cfg, s, events);
      assert Answers(cfg, s, events)[1..] == Answers(cfg, s', events[1..]);
    }
  }

  lemma FreshLimiterRefines(cfg: Config, events: seq<Event>)
    requires cfg.Valid() && InOrder(events, 0)
    ensures Agrees(cfg, map[], events, Answers(cfg, Initial(cfg), events))
  {
    Refines(cfg, Initial(cfg), map[], events, 0);
  }

  // ---- Window bounds -----------------------------------------------------

  predicate FromOwn(e: Event, a: Answer, k: Key) { a.own && e.key == k && a.verdict.Allowed? }

  predicate FromOverflow(a: Answer) { !a.own && a.verdict.Allowed? }

  function OwnAdmitted(events: seq<Event>, answers: seq<Answer>, k: Key): nat
    requires |events| == |answers|
  {
    if events == [] then 0
    else (if FromOwn(events[0], answers[0], k) then 1 else 0) + OwnAdmitted(events[1..], answers[1..], k)
  }

  function OverflowAdmitted(answers: seq<Answer>): nat {
    if answers == [] then 0
    else (if FromOverflow(answers[0]) then 1 else 0) + OverflowAdmitted(answers[1..])
  }

  /** Everything one key is granted, from whichever bucket. */
  function Admitted(events: seq<Event>, answers: seq<Answer>, k: Key): nat
    requires |events| == |answers|
  {
    if events == [] then 0
    else (if events[0].key == k && answers[0].verdict.Allowed? then 1 else 0)
         + Admitted(events[1..], answers[1..], k)
  }

  /** n requests cost n * every. */
  function Cost(cfg: Config, n: nat): int {
    if n == 0 then 0 else cfg.every + Cost(cfg, n - 1)
  }

  lemma {:induction false} CostIsProduct(cfg: Config, n: nat)
    ensures Cost(cfg, n) == cfg.every * n
  {
    if n > 0 {
      CostIsProduct(cfg, n - 1);
      Distribute(cfg.every, n - 1, 1);
    }
  }

  lemma Distribute(e: int, a: int, b: int)
    ensures e * (a + b) == e * a + e * b
  {
  }

  /** One request spends its cost; until the next, credit grows with time. */
  lemma RequestPays(cfg: Config, s: State, e: Event, start: int, k: Key)
    requires Valid(cfg, s, start) && start <= e.now
    ensures var (s', a) := Allow(cfg, s, e.key, e.now);
            && Valid(cfg, s', e.now)
            && KeyCredit(cfg, s', k, e.now) + (if FromOwn(e, a, k) then cfg.every else 0)
                 <= KeyCredit(cfg, s, k, start) + (e.now - start)
            && CreditAt(cfg, s'.overflow, e.now) + (if FromOverflow(a) then cfg.every else 0)
                 <= CreditAt(cfg, s.overflow, start) + (e.now - start)
  {
    ValidLater(cfg, s, start, e.now);
    AllowBalance(cfg, s, e.key, e.now);
    assert KeyCredit(cfg, s, k, e.now) <= KeyCredit(cfg, s, k, start) + (e.now - start);
  }

  lemma CostStep(cfg: Config, paid: bool, n: nat)
    ensures Cost(cfg, (if paid then 1 else 0) + n) == (if paid then cfg.every else 0) + Cost(cfg, n)
  {
  }

  lemma CountStep(cfg: Config, s: State, events: seq<Event>, k: Key)
    requires events != []
    ensures var (s', a) := Allow(cfg, s, events[0].key, events[0].now);
            var answers, rest := Answers(cfg, s, events), Answers(cfg, s', events[1..]);
            && OwnAdmitted(events, answers, k)
                 == (if FromOwn(events[0], a, k) then 1 else 0) + OwnAdmitted(events[1..], rest, k)
            && OverflowAdmitted(answers) == (if FromOverflow(a) then 1 else 0) + OverflowAdmitted(rest)
  {
    var (s', a) := Allow(cfg, s, events[0].key, events[0].now);
    var answers := Answers(cfg, s, events);
    RunStep(cfg, s, events);
    assert answers[0] == a && answers[1..] == Answers(cfg, s', events[1..]);
  }

  /** Requests a key's own bucket admits are paid out of its credit at the
      start and the time that passed. */
  lemma {:induction false} OwnCreditPays(cfg: Config, s: State, events: seq<Event>, start: int, k: Key)
    requires Valid(cfg, s, start) && InOrder(events, start)
    ensures Cost(cfg, OwnAdmitted(events, Answers(cfg, s, events), k))
         <= KeyCredit(cfg, s, k, start) + (EndTime(events, start) - start)
    decreases |events|
  {
    if events != [] {
      var e, rest := events[0], events[1..];
      var (s', a) := Allow(cfg, s, e.key, e.now);
      RequestPays(cfg, s, e, start, k);
      OwnCreditPays(cfg, s', rest, e.now, k);
      CountStep(cfg, s, events, k);
      var later := OwnAdmitted(rest, Answers(cfg, s', rest), k);
      CostStep(cfg, FromOwn(e, a, k), later);
      assert EndTime(rest, e.now) == EndTime(events, start);
      calc {
        Cost(cfg, OwnAdmitted(events, Answers(cfg, s, events), k));
        (if FromOwn(e, a, k) then cfg.every else 0) + Cost(cfg, later);
      <=
        (if FromOwn(e, a, k) then cfg.every else 0) + KeyCredit(cfg, s', k, e.now) + (EndTime(events, start) - e.now);
      <=
        KeyCredit(cfg, s, k, start) + (EndTime(events, start) - start);
      }
    } else {
      CapBounds(cfg);
    }
  }

  /** Requests of all keys that the overflow bucket admits, likewise. */
  lemma {:induction false} OverflowCreditPays(cfg: Config, s: State, events: seq<Event>, start: int)
    requires Valid(cfg, s, start) && InOrder(events, start)
    ensures Cost(cfg, OverflowAdmitted(Answers(cfg, s, events)))
         <= CreditAt(cfg, s.overflow, start) + (EndTime(events, start) - start)
    decreases |events|
  {
    if events != [] {
      var e, rest := events[0], events[1..];
      var (s', a) := Allow(cfg, s, e.key, e.now);
      RequestPays(cfg, s, e, start, e.key);
      OverflowCreditPays(cfg, s', rest, e.now);
      CountStep(cfg, s, events, e.key);
      CostStep(cfg, FromOverflow(a), OverflowAdmitted(Answers(cfg, s', rest)));
      assert EndTime(rest, e.now) == EndTime(events, start);
    } else {
      CapBounds(cfg);
    }
  }

  lemma AtMost(cfg: Config, n: nat, w: nat)
    requires cfg.Valid() && Cost(cfg, n) <= cfg.Cap() + w
    ensures n <= cfg.burst + w / cfg.every
  {
    CostIsProduct(cfg, n);
    var e, q := cfg.every, w / cfg.every;
    assert e * (n - cfg.burst) <= w by { Distribute(e, n, -cfg.burst); }
    Quotient(e, n - cfg.burst, w);
  }

  lemma Quotient(e: int, m: int, w: nat)
    requires e > 0 && e * m <= w
    ensures m <= w / e
  {
    var q := w / e;
    assert w == e * q + w % e;
    assert e * (m - q) < e by { Distribute(e, m, -q); }
    Positive(e, m - q);
  }

  lemma Positive(e: int, d: int)
    requires e > 0 && e * d < e
    ensures d <= 0
  {
    if d > 0 { Distribute(e, d - 1, 1); }
  }

  lemma {:induction false} AdmittedSplits(events: seq<Event>, answers: seq<Answer>, k: Key)
    requires |events| == |answers|
    ensures Admitted(events, answers, k) <= OwnAdmitted(events, answers, k) + OverflowAdmitted(answers)
  {
    if events != [] { AdmittedSplits(events[1..], answers[1..], k); }
  }

  lemma AnswersOfWindow(cfg: Config, s: State, past: seq<Event>, window: seq<Event>)
    ensures Answers(cfg, s, past + window)[|past|..] == Answers(cfg, After(cfg, s, past), window)
  {
    AnswersSplit(StepOf(cfg), s, past, window);
  }

  lemma {:induction false} InOrderSplits(past: seq<Event>, window: seq<Event>, start: int)
    requires InOrder(past + window, start)
    ensures InOrder(past, start)
    ensures InOrder(window, EndTime(past, start))
    decreases |past|
  {
    if past == [] {
      assert past + window == window;
    } else {
      assert (past + window)[1..] == past[1..] + window;
      InOrderSplits(past[1..], window, past[0].now);
    }
  }

  lemma WindowPays(cfg: Config, s: State, window: seq<Event>, k: Key, w: nat)
    requires window != [] && Valid(cfg, s, window[0].now) && InOrder(window, window[0].now)
    requires window[|window| - 1].now - window[0].now <= w
    ensures var answers, most := Answers(cfg, s, window), cfg.burst + w / cfg.every;
            && OwnAdmitted(window, answers, k) <= most
            && OverflowAdmitted(answers) <= most
            && Admitted(window, answers, k) <= 2 * most
  {
    var answers := Answers(cfg, s, window);
    OwnCreditPays(cfg, s, window, window[0].now, k);
    OverflowCreditPays(cfg, s, window, window[0].now);
    AtMost(cfg, OwnAdmitted(window, answers, k), w);
    AtMost(cfg, OverflowAdmitted(answers), w);
    AdmittedSplits(window, answers, k);
  }

  /** In any stretch of a run that lasts w, one key's own bucket admits at most
      burst + w/every requests, all overflow keys together as many, and so a
      key that moves between the two at most twice that. */
  lemma WindowBound(cfg: Config, past: seq<Event>, window: seq<Event>, k: Key, w: nat)
    requires cfg.Valid() && InOrder(past + window, 0)
    requires window != [] && window[|window| - 1].now - window[0].now <= w
    ensures var answers := Answers(cfg, Initial(cfg), past + window)[|past|..];
            var most := cfg.burst + w / cfg.every;
            && OwnAdmitted(window, answers, k) <= most
            && OverflowAdmitted(answers) <= most
            && Admitted(window, answers, k) <= 2 * most
  {
    var s := After(cfg, Initial(cfg), past);
    AnswersOfWindow(cfg, Initial(cfg), past, window);
    InOrderSplits(past, window, 0);
    MemoryBounded(cfg, Initial(cfg), past, 0);
    ValidLater(cfg, s, EndTime(past, 0), window[0].now);
    WindowPays(cfg, s, window, k, w);
  }

  // ---- Keeping the promise of Retry-After ---------------------------------

  lemma OtherDoesNotMatter(cfg: Config, s: State, e: Event, start: int, k: Key)
    requires Valid(cfg, s, start) && start <= e.now && e.key != k
    ensures var s' := Allow(cfg, s, e.key, e.now).0;
            Valid(cfg, s', e.now)
            && KeyCredit(cfg, s', k, e.now) == Min(cfg.Cap(), KeyCredit(cfg, s, k, start) + (e.now - start))
  {
    ValidLater(cfg, s, start, e.now);
    AllowBalance(cfg, s, e.key, e.now);
  }

  /** Requests for other keys leave this key's credit to time alone. */
  lemma {:induction false} OthersDoNotMatter(cfg: Config, s: State, events: seq<Event>, start: int, k: Key)
    requires Valid(cfg, s, start) && InOrder(events, start)
    requires forall e :: e in events ==> e.key != k
    ensures KeyCredit(cfg, After(cfg, s, events), k, EndTime(events, start))
         == Min(cfg.Cap(), KeyCredit(cfg, s, k, start) + (EndTime(events, start) - start))
    decreases |events|
  {
    if events != [] {
      var e := events[0];
      var s' := Allow(cfg, s, e.key, e.now).0;
      OtherDoesNotMatter(cfg, s, e, start, k);
      MemoryBounded(cfg, s', events[1..], e.now);
      OthersDoNotMatter(cfg, s', events[1..], e.now, k);
      RunStep(cfg, s, events);
      assert EndTime(events, start) == EndTime(events[1..], e.now);
    }
  }

  /** A client refused on its own bucket that comes back after retryAfter is
      admitted if its own bucket answers, whatever other keys did meanwhile. */
  lemma RetryAfterIsHonoured(cfg: Config, s: State, key: Key, now: int, others: seq<Event>, t: int)
    requires Valid(cfg, s, now)
    requires var a := Allow(cfg, s, key, now).1; a.own && a.verdict.Denied?
    requires InOrder(others, now) && forall e :: e in others ==> e.key != key
    requires t >= EndTime(others, now) && t >= now + Allow(cfg, s, key, now).1.verdict.retryAfter
    ensures var a := Allow(cfg, After(cfg, Allow(cfg, s, key, now).0, others), key, t).1;
            a.own ==> a.verdict.Allowed?
  {
    var s1 := Allow(cfg, s, key, now).0;
    var s2 := After(cfg, s1, others);
    DeniedOwes(cfg, s, key, now);
    MemoryBounded(cfg, s1, others, now);
    OthersDoNotMatter(cfg, s1, others, now, key);
    CapBounds(cfg);
    ValidLater(cfg, s2, EndTime(others, now), t);
    CreditGrows(cfg, s2, key, EndTime(others, now), t);
    EnoughIsAdmitted(cfg, s2, key, t);
  }

  /** A refusal by a key's own bucket waits at least for the missing credit. */
  lemma DeniedOwes(cfg: Config, s: State, key: Key, now: int)
    requires Valid(cfg, s, now)
    requires var a := Allow(cfg, s, key, now).1; a.own && a.verdict.Denied?
    ensures var (s', a) := Allow(cfg, s, key, now);
            Valid(cfg, s', now) && KeyCredit(cfg, s', key, now) + a.verdict.retryAfter >= cfg.every
  {
    AllowBalance(cfg, s, key, now);
    KeyCreditInRange(cfg, s, key, now);
    RetryAfterTight(cfg, Tokens(KeyCredit(cfg, s, key, now), now), now, now);
  }

  lemma CreditGrows(cfg: Config, s: State, key: Key, start: int, t: int)
    requires Valid(cfg, s, start) && start <= t
    ensures KeyCredit(cfg, s, key, t) == Min(cfg.Cap(), KeyCredit(cfg, s, key, start) + (t - start))
  {
  }

  lemma EnoughIsAdmitted(cfg: Config, s: State, key: Key, t: int)
    requires Valid(cfg, s, t) && KeyCredit(cfg, s, key, t) >= cfg.every
    ensures var a := Allow(cfg, s, key, t).1;
            a.own ==> a.verdict.Allowed?
  {
    AllowBalance(cfg, s, key, t);
  }

  // ---- When a key has a bucket of its own ----------------------------------

  /** The keys seen too recently to be swept. */
  function Recent(cfg: Config, s: State, now: int): set<Key> {
    set k | k in s.buckets && now - s.buckets[k].lastSeen < cfg.burst * cfg.every + 1_000_000_000
  }

  lemma SweepKeepsRecent(cfg: Config, s: State, now: int)
    ensures Sweep(cfg, s, now).buckets.Keys == Recent(cfg, s, now)
    ensures |Sweep(cfg, s, now).buckets| == |Recent(cfg, s, now)|
  {
    var swept := Sweep(cfg, s, now).buckets;
    assert swept.Keys == Recent(cfg, s, now);
    assert |swept| == |swept.Keys|;
  }

  /** Exactly when a request is answered by its key's own bucket: the key has
      one that is not swept now, or there is room for one, if need be after a
      sweep, which is due after a minute and, when there is no room, after a
      second. */
  lemma OwnExactlyWhen(cfg: Config, s: State, key: Key, now: int)
    requires Valid(cfg, s, now)
    ensures Allow(cfg, s, key, now).1.own <==>
      var recent := Recent(cfg, s, now);
      if now - s.lastSweep >= 60 * 1_000_000_000 then key in recent || |recent| < cfg.maxKeys
      else
        || key in s.buckets || |s.buckets| < cfg.maxKeys
        || (now - s.lastSweep >= 1_000_000_000 && |recent| < cfg.maxKeys)
  {
    SweepKeepsRecent(cfg, s, now);
  }

  /** In particular whenever it has one, or there is room. */
  lemma OwnWhenRoom(cfg: Config, s: State, key: Key, now: int)
    requires Valid(cfg, s, now) && (key in s.buckets || |s.buckets| < cfg.maxKeys)
    ensures Allow(cfg, s, key, now).1.own
    ensures Allow(cfg, s, key, now).0.buckets.Keys <= s.buckets.Keys + {key}
  {
    OwnExactlyWhen(cfg, s, key, now);
    var recent := Recent(cfg, s, now);
    assert recent <= s.buckets.Keys && |s.buckets.Keys| == |s.buckets|;
    SubsetSize(recent, s.buckets.Keys);
  }

  function KeysOf(events: seq<Event>): set<Key> { set e | e in events :: e.key }

  /** The answers of the simple limiter. */
  function IdealAnswers(cfg: Config, ideal: Ideal, events: seq<Event>): (verdicts: seq<Verdict>)
    ensures |verdicts| == |events|
    decreases |events|
  {
    if events == [] then []
    else
      var e := events[0];
      var (b, v) := Try(cfg, IdealBucket(cfg, ideal, e.key, e.now), e.now);
      [v] + IdealAnswers(cfg, ideal[e.key := b], events[1..])
  }

  lemma {:induction false} RoomForAll(cfg: Config, s: State, ideal: Ideal, events: seq<Event>, start: int,
                                      keys: set<Key>)
    requires Valid(cfg, s, start) && InOrder(events, start) && Simulates(cfg, s, ideal, start)
    requires s.buckets.Keys <= keys && |keys| <= cfg.maxKeys
    requires forall e :: e in events ==> e.key in keys
    ensures forall i :: 0 <= i < |events| ==>
      Answers(cfg, s, events)[i] == Answer(IdealAnswers(cfg, ideal, events)[i], true)
    decreases |events|
  {
    if events != [] {
      var e := events[0];
      assert e in events;
      ValidLater(cfg, s, start, e.now);
      SimulatesLater(cfg, s, ideal, start, e.now);
      RoomForOne(cfg, s, e.key, keys);
      OwnWhenRoom(cfg, s, e.key, e.now);
      RequestRefines(cfg, s, ideal, e.key, e.now);
      var (s', a) := Allow(cfg, s, e.key, e.now);
      var ideal' := Serve(cfg, ideal, e.key, e.now, true);
      RoomForAll(cfg, s', ideal', events[1..], e.now, keys);
      RunStep(cfg, s, events);
      assert IdealAnswers(cfg, ideal, events)[1..] == IdealAnswers(cfg, ideal', events[1..]);
      forall i | 0 < i < |events|
        ensures Answers(cfg, s, events)[i] == Answer(IdealAnswers(cfg, ideal, events)[i], true)
      {
        assert Answers(cfg, s, events)[i] == Answers(cfg, s', events[1..])[i - 1];
        assert IdealAnswers(cfg, ideal, events)[i] == IdealAnswers(cfg, ideal', events[1..])[i - 1];
      }
    }
  }

  lemma RoomForOne(cfg: Config, s: State, key: Key, keys: set<Key>)
    requires s.buckets.Keys <= keys && |keys| <= cfg.maxKeys && key in keys
    ensures key in s.buckets || |s.buckets| < cfg.maxKeys
  {
    assert |s.buckets.Keys| == |s.buckets|;
    SubsetSize(s.buckets.Keys, keys);
  }

  /** As long as no more than maxKeys keys ever ask, a new limiter answers every
      request, without exception, as one bucket per key would. */
  lemma FewKeysNeverShare(cfg: Config, events: seq<Event>)
    requires cfg.Valid() && InOrder(events, 0) && |KeysOf(events)| <= cfg.maxKeys
    ensures forall i :: 0 <= i < |events| ==>
      Answers(cfg, Initial(cfg), events)[i] == Answer(IdealAnswers(cfg, map[], events)[i], true)
  {
    RoomForAll(cfg, Initial(cfg), map[], events, 0, KeysOf(events));
  }

  function Copies(k: Key, t: int, n: nat): (events: seq<Event>)
    ensures |events| == n && forall i :: 0 <= i < n ==> events[i] == Event(k, t)
  {
    if n == 0 then [] else [Event(k, t)] + Copies(k, t, n - 1)
  }

  lemma {:induction false} IdealBurst(cfg: Config, ideal: Ideal, k: Key, t: int, m: nat, n: nat)
    requires cfg.Valid() && Sound(cfg, IdealBucket(cfg, ideal, k, t), t)
    requires CreditAt(cfg, IdealBucket(cfg, ideal, k, t), t) == Cost(cfg, m)
    ensures forall i :: 0 <= i < n ==> (IdealAnswers(cfg, ideal, Copies(k, t, n))[i].Allowed? <==> i < m)
    decreases n
  {
    if n > 0 {
      var b := IdealBucket(cfg, ideal, k, t);
      TryBalance(cfg, b, t);
      CostAtLeast(cfg, m);
      var ideal' := ideal[k := Try(cfg, b, t).0];
      IdealBurst(cfg, ideal', k, t, if m > 0 then m - 1 else 0, n - 1);
      assert Copies(k, t, n)[1..] == Copies(k, t, n - 1);
      var all, rest := IdealAnswers(cfg, ideal, Copies(k, t, n)), IdealAnswers(cfg, ideal', Copies(k, t, n - 1));
      forall i | 0 <= i < n ensures all[i].Allowed? <==> i < m { if i > 0 { assert all[i] == rest[i - 1]; } }
    }
  }

  lemma {:induction false} CostAtLeast(cfg: Config, m: nat)
    requires cfg.Valid()
    ensures if m == 0 then Cost(cfg, m) == 0 else Cost(cfg, m) >= cfg.every
  {
    if m > 0 { CostAtLeast(cfg, m - 1); }
  }

  /** Of n requests a new key makes at once, exactly the first `burst` are
      admitted. */
  lemma BurstIsAdmitted(cfg: Config, k: Key, t: int, n: nat)
    requires cfg.Valid() && cfg.maxKeys > 0 && t >= 0
    ensures forall i :: 0 <= i < n ==>
      (Answers(cfg, Initial(cfg), Copies(k, t, n))[i].verdict.Allowed? <==> i < cfg.burst)
  {
    var events := Copies(k, t, n);
    CopiesInOrder(k, t, n, 0);
    assert KeysOf(events) <= {k};
    SubsetSize(KeysOf(events), {k});
    FewKeysNeverShare(cfg, events);
    CostIsProduct(cfg, cfg.burst);
    CapBounds(cfg);
    IdealBurst(cfg, map[], k, t, cfg.burst, n);
  }

  lemma {:induction false} CopiesInOrder(k: Key, t: int, n: nat, start: int)
    requires start <= t
    ensures InOrder(Copies(k, t, n), start)
    decreases n
  {
    if n > 0 {
      CopiesInOrder(k, t, n - 1, t);
      assert Copies(k, t, n)[1..] == Copies(k, t, n - 1);
    }
  }
}
