/**
  What the store promises over whole runs, whatever the interleaving of clients,
  sweeps and departures: locks are safe, nothing expires early and no increment is lost.
*/
module KvRuns {
  import opened Options
  import opened Int64
  import opened KvStore

  // One critical section under the store's lock.
  datatype Event =
    | Asked(c: Id, verb: Verb, now: Time, later: Time)
    | Sweep(now: Time)
    | Leave(c: Id)
    | Elsewhere // anything that does not concern the store

  function Apply(s: Store, e: Event): Store
  {
    match e
    case Asked(c, v, now, later) => After(s, c, v, now, later)
    case Sweep(now) => Swept(s, now)
    case Leave(c) => Left(s, c)
    case Elsewhere => s
  }

  // Event e takes the lock at time t and leaves s' at time t'. A verb reads the
  // clock while it holds the lock; the sweep read it some time before.
  predicate Follows(s: Store, t: Time, e: Event, s': Store, t': Time) {
    && t <= t'
    && (e.Asked? ==> t <= e.now <= e.later <= t')
    && (e.Sweep? ==> e.now <= t)
    && s' == Apply(s, e)
  }

  ghost predicate StepAt(ss: seq<Store>, es: seq<Event>, clocks: seq<Time>, m: nat)
    requires |ss| == |es| + 1 && |clocks| == |es| + 1 && m < |es|
  {
    Follows(ss[m], clocks[m], es[m], ss[m + 1], clocks[m + 1])
  }

  // The stores follow from the events, whatever the clock says.
  ghost predicate Chain(ss: seq<Store>, es: seq<Event>) {
    |ss| == |es| + 1 && forall m: nat :: m < |es| ==> LinkAt(ss, es, m)
  }

  ghost predicate LinkAt(ss: seq<Store>, es: seq<Event>, m: nat)
    requires |ss| == |es| + 1 && m < |es|
  {
    ss[m + 1] == Apply(ss[m], es[m])
  }

  ghost predicate Run(ss: seq<Store>, es: seq<Event>, clocks: seq<Time>) {
    && |ss| == |es| + 1 && |clocks| == |es| + 1
    && forall m: nat :: m < |es| ==> StepAt(ss, es, clocks, m)
  }

  lemma {:induction false} ClockGrows(ss: seq<Store>, es: seq<Event>, clocks: seq<Time>, i: nat, j: nat)
    requires Run(ss, es, clocks) && i <= j < |clocks|
    ensures clocks[i] <= clocks[j]
    decreases j - i
  {
    if i < j {
      ClockGrows(ss, es, clocks, i, j - 1);
      assert StepAt(ss, es, clocks, j - 1);
    }
  }

  // ---- locks --------------------------------------------------------------------

  // A SETNX that acquires k.
  predicate Wins(s: Store, e: Event, k: Key) {
    e.Asked? && e.verb.SetNx? && e.verb.key == k && !Live(s, k, e.now)
  }

  predicate Deletes(e: Event, k: Key) {
    e.Asked? && e.verb.Del? && e.verb.key == k
  }

  // The event finds k's deadline passed and drops it.
  predicate Expires(s: Store, e: Event, k: Key) {
    match e
    case Asked(_, v, now, _) => FindsExpired(s, v, now, k)
    case Sweep(now) => Expired(s, k, now)
    case _ => false
  }

  predicate Rearms(e: Event, k: Key) {
    e.Asked? && e.verb.SetEx? && e.verb.key == k
  }

  lemma HeldStep(s: Store, e: Event, k: Key)
    requires k in s.kv && !Deletes(e, k) && !Expires(s, e, k)
    ensures k in Apply(s, e).kv && !Wins(s, e, k)
  {
  }

  // A key that a SETNX acquired stays until it is deleted or expires.
  lemma {:induction false} HeldUntilReleased(ss: seq<Store>, es: seq<Event>, k: Key, i: nat, j: nat)
    requires Chain(ss, es) && i < j < |ss| && Wins(ss[i], es[i], k)
    requires forall m :: i < m < j ==> !Deletes(es[m], k) && !Expires(ss[m], es[m], k)
    ensures k in ss[j].kv
    decreases j - i
  {
    assert LinkAt(ss, es, j - 1);
    if i + 1 < j {
      HeldUntilReleased(ss, es, k, i, j - 1);
      HeldStep(ss[j - 1], es[j - 1], k);
    }
  }

  // Between two successful SETNX on one key it is deleted or expires.
  lemma LockIsExclusive(ss: seq<Store>, es: seq<Event>, k: Key, i: nat, j: nat)
    requires Chain(ss, es) && i < j < |es|
    requires Wins(ss[i], es[i], k) && Wins(ss[j], es[j], k)
    ensures exists m :: i < m <= j && (Deletes(es[m], k) || Expires(ss[m], es[m], k))
  {
    if forall m :: i < m < j ==> !Deletes(es[m], k) && !Expires(ss[m], es[m], k) {
      HeldUntilReleased(ss, es, k, i, j);
      assert Expires(ss[j], es[j], k);
    }
  }

  // k is held and cannot expire before `deadline`; with no deadline, not at all.
  ghost predicate HeldTo(s: Store, k: Key, deadline: Option<Time>) {
    && k in s.kv
    && (k in s.expires ==> deadline.Some? && deadline.value <= s.expires[k])
  }

  lemma HeldToStep(s: Store, e: Event, k: Key, deadline: Option<Time>)
    requires HeldTo(s, k, deadline) && !Deletes(e, k) && !Rearms(e, k)
    requires e.Asked? || e.Sweep? ==> deadline.Some? ==> e.now < deadline.value
    ensures HeldTo(Apply(s, e), k, deadline) && !Wins(s, e, k)
  {
  }

  lemma {:induction false} HeldToDeadline(ss: seq<Store>, es: seq<Event>, clocks: seq<Time>,
      k: Key, deadline: Option<Time>, i: nat, j: nat)
    requires Run(ss, es, clocks) && i < j < |ss| && HeldTo(ss[i + 1], k, deadline)
    requires forall m :: i < m < j ==> !Deletes(es[m], k) && !Rearms(es[m], k)
    requires deadline.Some? ==> clocks[j] < deadline.value
    ensures HeldTo(ss[j], k, deadline)
    decreases j - i
  {
    if i + 1 < j {
      assert StepAt(ss, es, clocks, j - 1);
      HeldToDeadline(ss, es, clocks, k, deadline, i, j - 1);
      HeldToStep(ss[j - 1], es[j - 1], k, deadline);
    }
  }

  // With no DEL or SETEX on the key in between, the second win comes no sooner
  // than the first one's ttl, and never if that ttl is 0.
  lemma LockLastsItsTtl(ss: seq<Store>, es: seq<Event>, clocks: seq<Time>, k: Key, i: nat, j: nat)
    requires Run(ss, es, clocks) && i < j < |es|
    requires Wins(ss[i], es[i], k) && Wins(ss[j], es[j], k)
    requires forall m :: i < m < j ==> !Deletes(es[m], k) && !Rearms(es[m], k)
    ensures es[i].verb.ttl > 0 && es[j].now >= es[i].later + es[i].verb.ttl
  {
    var ttl := es[i].verb.ttl;
    var deadline := if ttl > 0 then Some(es[i].later + ttl) else None;
    assert StepAt(ss, es, clocks, i);
    assert StepAt(ss, es, clocks, j);
    if ttl == 0 || es[j].now < es[i].later + ttl {
      assert HeldTo(ss[i + 1], k, deadline);
      HeldToDeadline(ss, es, clocks, k, deadline, i, j);
    }
  }

  // ---- expiry ---------------------------------------------------------------------

  // In every reachable state only stored keys have deadlines.
  lemma {:induction false} DeadlinesAlwaysKept(ss: seq<Store>, es: seq<Event>, clocks: seq<Time>, m: nat)
    requires Run(ss, es, clocks) && m < |ss| && DeadlinesHaveKeys(ss[0])
    ensures DeadlinesHaveKeys(ss[m])
  {
    if m > 0 {
      DeadlinesAlwaysKept(ss, es, clocks, m - 1);
      assert StepAt(ss, es, clocks, m - 1);
    }
  }

  // The event is a SET, SETEX, DEL or INCR of k, which rewrites whatever is there.
  predicate Rewrites(e: Event, k: Key) {
    e.Asked? && e.verb.key == k && !e.verb.Get? && !e.verb.SetNx?
  }

  lemma LastsStep(s: Store, e: Event, k: Key)
    requires k in s.kv && !Rewrites(e, k)
    requires k in s.expires && (e.Asked? || e.Sweep?) ==> e.now < s.expires[k]
    ensures Lookup(Apply(s, e).kv, k) == Lookup(s.kv, k)
    ensures Lookup(Apply(s, e).expires, k) == Lookup(s.expires, k)
  {
  }

  // No key expires early: until it is rewritten, a value stays with its deadline as
  // long as the clock has not reached that deadline, and for good if it has none.
  lemma {:induction false} ValueLastsUntilDue(ss: seq<Store>, es: seq<Event>, clocks: seq<Time>, k: Key, i: nat, j: nat)
    requires Run(ss, es, clocks) && i <= j < |ss| && k in ss[i].kv
    requires forall m :: i <= m < j ==> !Rewrites(es[m], k)
    requires k in ss[i].expires ==> clocks[j] < ss[i].expires[k]
    ensures Lookup(ss[j].kv, k) == Lookup(ss[i].kv, k)
    ensures Lookup(ss[j].expires, k) == Lookup(ss[i].expires, k)
    decreases j
  {
    if i < j {
      assert StepAt(ss, es, clocks, j - 1);
      ValueLastsUntilDue(ss, es, clocks, k, i, j - 1);
      LastsStep(ss[j - 1], es[j - 1], k);
    }
  }

  // And none lingers: a deadline that a sweep finds passed is gone after it, with its key.
  lemma SweepLeavesNothingDue(ss: seq<Store>, es: seq<Event>, clocks: seq<Time>, m: nat, k: Key)
    requires Run(ss, es, clocks) && m < |es| && es[m].Sweep? && DeadlinesHaveKeys(ss[0])
    ensures Expired(ss[m], k, es[m].now) ==> k !in ss[m + 1].kv && k !in ss[m + 1].expires
    ensures k in ss[m + 1].expires ==> k in ss[m + 1].kv && ss[m + 1].expires[k] > es[m].now
  {
    assert StepAt(ss, es, clocks, m);
    DeadlinesAlwaysKept(ss, es, clocks, m + 1);
  }

  // ---- what a GET finds, from the history -----------------------------------------------

  // The event overwrites k: SET, SETEX, DEL, a SETNX that acquires it, or an INCR.
  predicate Touches(s: Store, e: Event, k: Key) {
    Rewrites(e, k) || Wins(s, e, k)
  }

  ghost predicate Untouched(ss: seq<Store>, es: seq<Event>, k: Key, i: nat, j: nat)
    requires j <= |es| < |ss|
  {
    forall m :: i < m < j ==> !Touches(ss[m], es[m], k)
  }

  // k holds v up to the deadline, if any; from then on it may be gone.
  predicate HoldsTill(s: Store, k: Key, v: Value, deadline: Option<Time>, t: Time) {
    || (Lookup(s.kv, k) == Some(v) && Lookup(s.expires, k) == deadline)
    || (k !in s.kv && k !in s.expires && deadline.Some? && deadline.value <= t)
  }

  lemma HoldsTillStep(s: Store, t: Time, e: Event, s': Store, t': Time, k: Key, v: Value, deadline: Option<Time>)
    requires Follows(s, t, e, s', t') && HoldsTill(s, k, v, deadline, t) && !Touches(s, e, k)
    ensures HoldsTill(s', k, v, deadline, t')
  {
  }

  lemma {:induction false} HoldsTillRun(ss: seq<Store>, es: seq<Event>, clocks: seq<Time>, k: Key, v: Value,
      deadline: Option<Time>, i: nat, j: nat)
    requires Run(ss, es, clocks) && i < j < |ss| && Untouched(ss, es, k, i, j)
    requires HoldsTill(ss[i + 1], k, v, deadline, clocks[i + 1])
    ensures HoldsTill(ss[j], k, v, deadline, clocks[j])
    decreases j
  {
    if i + 1 < j {
      HoldsTillRun(ss, es, clocks, k, v, deadline, i, j - 1);
      assert StepAt(ss, es, clocks, j - 1);
      HoldsTillStep(ss[j - 1], clocks[j - 1], es[j - 1], ss[j], clocks[j], k, v, deadline);
    }
  }

  // The last frame that a GET makes the daemon send the asker says x.
  predicate GetAnswers(s: Store, e: Event, x: Option<Value>)
    requires e.Asked? && e.verb.Get?
  {
    var sent := Sent(s, e.c, e.verb, e.now, e.c);
    sent != [] && sent[|sent| - 1] == Reply(e.verb.ask, e.verb.key, x)
  }

  lemma HeldIsAnswered(s: Store, t: Time, e: Event, v: Value, deadline: Option<Time>)
    requires e.Asked? && e.verb.Get? && t <= e.now && HoldsTill(s, e.verb.key, v, deadline, t)
    ensures GetAnswers(s, e, if deadline.None? || e.now < deadline.value then Some(v) else None)
  {
    GetSeesOnlyLiveKeys(s, e.c, e.verb.key, e.verb.ask, e.now);
  }

  // SET, SETEX or a winning SETNX of v under k with this ttl, none being 0.
  predicate SetsFor(s: Store, e: Event, k: Key, v: Value, ttl: nat) {
    && e.Asked?
    && (|| (e.verb == Set(k, v) && ttl == 0)
        || e.verb == SetEx(k, ttl, v)
        || (Wins(s, e, k) && e.verb.ttl == ttl && e.verb.value == v))
  }

  // A value is found up to its ttl after it was set, and not from then on: whatever sweeps
  // and other verbs happen, as long as nobody overwrites it. Set without a ttl it is found
  // for good, whatever deadline the key had before.
  lemma FoundForItsTtl(ss: seq<Store>, es: seq<Event>, clocks: seq<Time>, k: Key, v: Value, ttl: nat, i: nat, j: nat)
    requires Run(ss, es, clocks) && i < j < |es| && SetsFor(ss[i], es[i], k, v, ttl)
    requires Untouched(ss, es, k, i, j) && es[j].Asked? && es[j].verb.Get? && es[j].verb.key == k
    ensures GetAnswers(ss[j], es[j], if ttl == 0 || es[j].now < es[i].later + ttl then Some(v) else None)
  {
    var deadline := if ttl == 0 then None else Some(es[i].later + ttl);
    assert StepAt(ss, es, clocks, i);
    assert StepAt(ss, es, clocks, j);
    assert HoldsTill(ss[i + 1], k, v, deadline, clocks[i + 1]);
    HoldsTillRun(ss, es, clocks, k, v, deadline, i, j);
    HeldIsAnswered(ss[j], clocks[j], es[j], v, deadline);
  }

  // A deleted key is found by nobody until it is set again.
  lemma DeletedIsNotFound(ss: seq<Store>, es: seq<Event>, clocks: seq<Time>, k: Key, i: nat, j: nat)
    requires Run(ss, es, clocks) && i < j < |es| && Deletes(es[i], k)
    requires Untouched(ss, es, k, i, j) && es[j].Asked? && es[j].verb.Get? && es[j].verb.key == k
    ensures GetAnswers(ss[j], es[j], None)
  {
    assert StepAt(ss, es, clocks, i);
    assert StepAt(ss, es, clocks, j);
    ClockGrows(ss, es, clocks, i, j);
    HoldsTillRun(ss, es, clocks, k, [], Some(clocks[i]), i, j);
    HeldIsAnswered(ss[j], clocks[j], es[j], [], Some(clocks[i]));
  }

  lemma IncrStarts(s: Store, e: Event, k: Key, t: Time) returns (v: Value)
    requires Counts(e, k) && !Live(s, k, e.now) && DeadlinesHaveKeys(s)
    ensures |v| == 8 && Signed(Bits(v)) == Signed(e.verb.delta) && HoldsTill(Apply(s, e), k, v, None, t)
  {
    var f := Fresh(s, k, e.now);
    assert k !in f.kv && k !in f.expires && Number(f, k) == 0;
    v := Incremented(f, k, e.verb.delta);
    SignedIsWrapped(e.verb.delta);
  }

  lemma SignedIsWrapped(bits: U64)
    ensures Wrap(Signed(bits)) == Signed(bits)
  {
  }

  // An INCR that finds nothing alive leaves its delta, without a deadline.
  lemma IncrOfNothing(ss: seq<Store>, es: seq<Event>, clocks: seq<Time>, k: Key, i: nat, j: nat) returns (v: Value)
    requires Run(ss, es, clocks) && i < j < |es| && DeadlinesHaveKeys(ss[i])
    requires Counts(es[i], k) && !Live(ss[i], k, es[i].now)
    requires Untouched(ss, es, k, i, j) && es[j].Asked? && es[j].verb.Get? && es[j].verb.key == k
    ensures |v| == 8 && Signed(Bits(v)) == Signed(es[i].verb.delta)
    ensures GetAnswers(ss[j], es[j], Some(v))
  {
    assert StepAt(ss, es, clocks, i);
    assert StepAt(ss, es, clocks, j);
    v := IncrStarts(ss[i], es[i], k, clocks[i + 1]);
    HoldsTillRun(ss, es, clocks, k, v, None, i, j);
    HeldIsAnswered(ss[j], clocks[j], es[j], v, None);
  }

  // ---- INCR keeps the deadline ------------------------------------------------------------

  // k holds something up to the deadline, if any; from then on it may be gone.
  predicate Lives(s: Store, k: Key, deadline: Option<Time>, t: Time) {
    || (k in s.kv && Lookup(s.expires, k) == deadline)
    || (k !in s.kv && k !in s.expires && deadline.Some? && deadline.value <= t)
  }

  lemma LivesStep(s: Store, t: Time, e: Event, s': Store, t': Time, k: Key, deadline: Option<Time>)
    requires Follows(s, t, e, s', t') && Lives(s, k, deadline, t)
    requires Touches(s, e, k) ==> Counts(e, k) && (deadline.Some? ==> e.now < deadline.value)
    ensures Lives(s', k, deadline, t')
  {
  }

  lemma {:induction false} LivesRun(ss: seq<Store>, es: seq<Event>, clocks: seq<Time>, k: Key,
      deadline: Option<Time>, i: nat, j: nat)
    requires Run(ss, es, clocks) && i < j < |ss| && Lives(ss[i + 1], k, deadline, clocks[i + 1])
    requires forall m :: i < m < j && Touches(ss[m], es[m], k) ==>
               Counts(es[m], k) && (deadline.Some? ==> es[m].now < deadline.value)
    ensures Lives(ss[j], k, deadline, clocks[j])
    decreases j
  {
    if i + 1 < j {
      LivesRun(ss, es, clocks, k, deadline, i, j - 1);
      assert StepAt(ss, es, clocks, j - 1);
      LivesStep(ss[j - 1], clocks[j - 1], es[j - 1], ss[j], clocks[j], k, deadline);
    }
  }

  // Incrementing a key before its ttl is over, or trying to, neither prolongs nor ends it:
  // a GET still finds the key exactly until that ttl after it was set.
  lemma IncrKeepsTtl(ss: seq<Store>, es: seq<Event>, clocks: seq<Time>, k: Key, v: Value, ttl: nat, i: nat, j: nat)
    returns (x: Option<Value>)
    requires Run(ss, es, clocks) && i < j < |es| && SetsFor(ss[i], es[i], k, v, ttl)
    requires forall m :: i < m < j && Touches(ss[m], es[m], k) ==>
               Counts(es[m], k) && (ttl > 0 ==> es[m].now < es[i].later + ttl)
    requires es[j].Asked? && es[j].verb.Get? && es[j].verb.key == k
    ensures GetAnswers(ss[j], es[j], x) && (x.Some? <==> ttl == 0 || es[j].now < es[i].later + ttl)
  {
    var deadline := if ttl == 0 then None else Some(es[i].later + ttl);
    assert StepAt(ss, es, clocks, i);
    assert StepAt(ss, es, clocks, j);
    assert Lives(ss[i + 1], k, deadline, clocks[i + 1]);
    LivesRun(ss, es, clocks, k, deadline, i, j);
    GetSeesOnlyLiveKeys(ss[j], es[j].c, k, es[j].verb.ask, es[j].now);
    x := if Live(ss[j], k, es[j].now) then Some(ss[j].kv[k]) else None;
  }

  // ---- counters -----------------------------------------------------------------

  predicate Counts(e: Event, k: Key) {
    e.Asked? && e.verb.Incr? && e.verb.key == k
  }

  // The event does not write k: it is about another key, or only reads.
  predicate LeavesAlone(s: Store, e: Event, k: Key) {
    match e
    case Asked(_, v, now, _) => v.key != k || v.Get? || (v.SetNx? && Live(s, k, now))
    case _ => true
  }

  // The sum of the deltas of the increments of k among the first m events.
  function Total(es: seq<Event>, k: Key, m: nat): int
    requires m <= |es|
  {
    if m == 0 then 0 else Total(es, k, m - 1) + Delta(es[m - 1], k)
  }

  // Step m only increments k, or leaves it alone, and does not find it expired.
  ghost predicate CountedAt(ss: seq<Store>, es: seq<Event>, k: Key, m: nat)
    requires |ss| == |es| + 1 && m < |es|
  {
    && ss[m + 1] == Apply(ss[m], es[m])
    && !Expires(ss[m], es[m], k) && (Counts(es[m], k) || LeavesAlone(ss[m], es[m], k))
  }

  ghost predicate OnlyCounted(ss: seq<Store>, es: seq<Event>, k: Key) {
    |ss| == |es| + 1 && forall m: nat :: m < |es| ==> CountedAt(ss, es, k, m)
  }

  lemma CountStep(s: Store, e: Event, k: Key)
    requires Countable(s, k) && !Expires(s, e, k) && Counts(e, k)
    ensures Countable(Apply(s, e), k)
    ensures Number(Apply(s, e), k) == Wrap(Number(s, k) + Signed(e.verb.delta))
  {
    assert Fresh(s, k, e.now) == s;
    assert Apply(s, e).kv[k] == Incremented(s, k, e.verb.delta);
  }

  lemma AloneStep(s: Store, e: Event, k: Key)
    requires !Expires(s, e, k) && LeavesAlone(s, e, k) && !Counts(e, k)
    ensures Lookup(Apply(s, e).kv, k) == Lookup(s.kv, k)
  {
  }

  // What the event adds to the number under k.
  function Delta(e: Event, k: Key): int {
    if Counts(e, k) then Signed(e.verb.delta) else 0
  }

  lemma NumberStep(s: Store, e: Event, k: Key)
    requires Countable(s, k) && !Expires(s, e, k) && (Counts(e, k) || LeavesAlone(s, e, k))
    ensures Countable(Apply(s, e), k)
    ensures Number(Apply(s, e), k) == Wrap(Number(s, k) + Delta(e, k))
  {
    if Counts(e, k) {
      CountStep(s, e, k);
    } else {
      AloneStep(s, e, k);
      assert k in Apply(s, e).kv <==> k in s.kv;
      NumberIsWrapped(s, k);
    }
  }

  // start and the first m deltas, wrapped once to signed 64 bits.
  function WrappedSum(start: int, es: seq<Event>, k: Key, m: nat): int
    requires m <= |es|
  {
    Wrap(start + Total(es, k, m))
  }

  // The number under k, carried from event to event as the daemon does.
  function Tally(start: int, es: seq<Event>, k: Key, m: nat): int
    requires m <= |es|
  {
    if m == 0 then start else Wrap(Tally(start, es, k, m - 1) + Delta(es[m - 1], k))
  }

  // Wrapping at every step is wrapping the sum.
  lemma {:induction false} TallyIsWrappedSum(start: int, es: seq<Event>, k: Key, m: nat)
    requires m <= |es| && Wrap(start) == start
    ensures Tally(start, es, k, m) == WrappedSum(start, es, k, m)
  {
    if m > 0 {
      TallyIsWrappedSum(start, es, k, m - 1);
      WrapAdd(start + Total(es, k, m - 1), Delta(es[m - 1], k));
    }
  }

  lemma {:induction false} NumberIsTally(ss: seq<Store>, es: seq<Event>, k: Key, m: nat)
    requires OnlyCounted(ss, es, k) && m < |ss| && Countable(ss[0], k)
    ensures Countable(ss[m], k) && Number(ss[m], k) == Tally(Number(ss[0], k), es, k, m)
  {
    if m > 0 {
      NumberIsTally(ss, es, k, m - 1);
      NumberAt(ss, es, k, m);
    }
  }

  // The stored number is the initial one plus every delta so far, wrapped to
  // signed 64 bits.
  lemma NoLostIncrement(ss: seq<Store>, es: seq<Event>, k: Key, m: nat)
    requires OnlyCounted(ss, es, k) && m < |ss| && Countable(ss[0], k)
    ensures Countable(ss[m], k) && Number(ss[m], k) == WrappedSum(Number(ss[0], k), es, k, m)
  {
    NumberIsTally(ss, es, k, m);
    NumberIsWrapped(ss[0], k);
    TallyIsWrappedSum(Number(ss[0], k), es, k, m);
  }

  lemma NumberAt(ss: seq<Store>, es: seq<Event>, k: Key, m: nat)
    requires OnlyCounted(ss, es, k) && 0 < m < |ss| && Countable(ss[m - 1], k)
    ensures Countable(ss[m], k) && Number(ss[m], k) == Wrap(Number(ss[m - 1], k) + Delta(es[m - 1], k))
  {
    assert CountedAt(ss, es, k, m - 1);
    NumberStep(ss[m - 1], es[m - 1], k);
  }

  // The last frame that the increment makes the daemon send its client says x.
  predicate AnsweredWith(s: Store, e: Event, x: int)
    requires e.Asked? && e.verb.Incr?
  {
    var sent := Sent(s, e.c, e.verb, e.now, e.c);
    && sent != []
    && var answer := sent[|sent| - 1];
    && answer.Result? && answer.ask == e.verb.ask && answer.ok && |answer.value| == 8
    && Signed(Bits(answer.value)) == x
  }

  lemma AnswerAt(ss: seq<Store>, es: seq<Event>, k: Key, m: nat)
    requires OnlyCounted(ss, es, k) && m < |es| && Countable(ss[m], k) && Counts(es[m], k)
    ensures Countable(ss[m + 1], k) && AnsweredWith(ss[m], es[m], Number(ss[m + 1], k))
  {
    assert CountedAt(ss, es, k, m);
    AnswerIsStored(ss[m], es[m], k);
  }

  lemma NumberIsWrapped(s: Store, k: Key)
    requires Countable(s, k)
    ensures Wrap(Number(s, k)) == Number(s, k)
  {
  }

  // Each increment is answered with the sum up to and including its own delta.
  lemma EveryAnswerIsAPrefixSum(ss: seq<Store>, es: seq<Event>, k: Key, m: nat)
    requires OnlyCounted(ss, es, k) && m < |es| && Countable(ss[0], k)
    requires Counts(es[m], k)
    ensures AnsweredWith(ss[m], es[m], WrappedSum(Number(ss[0], k), es, k, m + 1))
  {
    NumberIsTally(ss, es, k, m);
    AnswerAt(ss, es, k, m);
    NoLostIncrement(ss, es, k, m + 1);
  }

  // The answer to an increment is the value it leaves.
  lemma AnswerIsStored(s: Store, e: Event, k: Key)
    requires Countable(s, k) && !Expires(s, e, k) && Counts(e, k)
    ensures Countable(Apply(s, e), k) && AnsweredWith(s, e, Number(Apply(s, e), k))
  {
    assert Fresh(s, k, e.now) == s;
    var sent := Sent(s, e.c, e.verb, e.now, e.c);
    assert sent[|sent| - 1] == Result(e.verb.ask, k, true, Incremented(s, k, e.verb.delta));
  }
}
