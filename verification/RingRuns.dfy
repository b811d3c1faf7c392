/**
  What the frame ring promises over whole runs: a retained frame is whole and
  stable, retains are fresh, and a large enough ring never starves its producer.
*/
module RingRuns {
  import opened Options
  import opened RingModel
  import opened RingInvariant

  // ss is the run that starts at a freshly created ring and takes the steps `acts`.
  ghost predicate Run(ss: seq<State>, acts: seq<Step>) {
    && |ss| == |acts| + 1
    && Init(ss[0])
    && forall m {:trigger acts[m]} :: 0 <= m < |acts| ==> Can(ss[m], acts[m]) && ss[m + 1] == Do(ss[m], acts[m])
  }

  lemma {:induction false} RunInv(ss: seq<State>, acts: seq<Step>, m: nat)
    requires Run(ss, acts) && m < |ss|
    ensures Inv(ss[m])
  {
    if m == 0 {
      InitInv(ss[0]);
    } else {
      RunInv(ss, acts, m - 1);
      StepInv(ss[m - 1], acts[m - 1]);
    }
  }

  // ---- history only grows -----------------------------------------------------

  lemma StepGrows(s: State, a: Step)
    requires Can(s, a)
    ensures var s' := Do(s, a);
            && s.landed <= s'.landed && s.frames <= s'.frames
            && |s'.consumers| == |s.consumers| && |s'.slots| == |s.slots|
  {
  }

  // A consumer stands where it stood until it moves itself.
  lemma OthersMove(s: State, a: Step, c: nat)
    requires Can(s, a) && c < |s.consumers| && !(a.ByConsumer? && a.c == c)
    ensures |Do(s, a).consumers| == |s.consumers| && Do(s, a).consumers[c] == s.consumers[c]
  {
  }

  lemma {:induction false} RunGrows(ss: seq<State>, acts: seq<Step>, i: nat, j: nat)
    requires Run(ss, acts) && i <= j < |ss|
    ensures ss[i].landed <= ss[j].landed && ss[i].frames <= ss[j].frames
    ensures |ss[i].consumers| == |ss[j].consumers| && |ss[i].slots| == |ss[j].slots|
    decreases j - i
  {
    if i < j {
      RunGrows(ss, acts, i, j - 1);
      StepGrows(ss[j - 1], acts[j - 1]);
    }
  }

  // ---- a retained frame is whole and stable -----------------------------------

  ghost predicate HoldsFrom(ss: seq<State>, c: nat, i: nat, j: nat) {
    && i <= j < |ss|
    && forall m :: i <= m <= j ==> c < |ss[m].consumers| && ss[m].consumers[c].pc.Holding?
  }

  lemma StepKeepsHold(s: State, a: Step, c: nat)
    requires Can(s, a) && c < |s.consumers|
    requires s.consumers[c].pc.Holding? && Do(s, a).consumers[c].pc.Holding?
    ensures Do(s, a).consumers[c] == s.consumers[c]
  {
  }

  lemma {:induction false} HoldIsOneHold(ss: seq<State>, acts: seq<Step>, c: nat, i: nat, j: nat)
    requires Run(ss, acts) && HoldsFrom(ss, c, i, j)
    ensures ss[j].consumers[c] == ss[i].consumers[c]
    decreases j - i
  {
    if i < j {
      HoldIsOneHold(ss, acts, c, i, j - 1);
      assert ss[j] == Do(ss[j - 1], acts[j - 1]) && ss[j].consumers[c].pc.Holding?;
      assert ss[j - 1].consumers[c].pc.Holding?;
      StepKeepsHold(ss[j - 1], acts[j - 1], c);
    }
  }

  // From the moment shm_ring_retain_latest returns a slot until it is released,
  // the producer does not own it and does not write it, and its payload is the
  // one published frame it was when the slot was returned.
  lemma RetainedFrameIsStable(ss: seq<State>, acts: seq<Step>, c: nat, i: nat, j: nat)
    requires Run(ss, acts) && HoldsFrom(ss, c, i, j)
    ensures var held := ss[i].consumers[c];
            && held.idx < |ss[j].slots|
            && held.seen < |ss[i].frames|
            && ss[j].consumers[c].idx == held.idx
            && held.idx !in ss[j].owned
            && ss[j].slots[held.idx].payload == ss[i].frames[held.seen]
            && (j < |acts| ==> forall w, v :: acts[j] != ByProducer(Write(held.idx, w, v)))
  {
    HoldIsOneHold(ss, acts, c, i, j);
    RunInv(ss, acts, i);
    RunInv(ss, acts, j);
    RunGrows(ss, acts, i, j);
    assert ConsumerOk(ss[i], ss[i].consumers[c]);
    assert ConsumerOk(ss[j], ss[j].consumers[c]);
  }

  // Every refcount is the number of consumers claiming or holding that slot.
  lemma RefcountsAreExact(ss: seq<State>, acts: seq<Step>, m: nat, i: nat)
    requires Run(ss, acts) && m < |ss| && i < |ss[m].slots|
    ensures ss[m].slots[i].refcount == |set c | 0 <= c < |ss[m].consumers| && ss[m].consumers[c].Claims(i)|
  {
    RunInv(ss, acts, m);
    assert Claimants(ss[m].consumers, i) ==
           set c | 0 <= c < |ss[m].consumers| && ss[m].consumers[c].Claims(i);
  }

  // ---- freshness --------------------------------------------------------------

  // last_ready always designates a READY slot holding the newest landed frame.
  lemma LastReadyIsReady(ss: seq<State>, acts: seq<Step>, m: nat)
    requires Run(ss, acts) && m < |ss| && ss[m].lastReady.Some?
    ensures var i := ss[m].lastReady.value;
            && i < |ss[m].slots| && ss[m].slots[i].phase == Ready
            && i !in ss[m].owned
            && 0 < ss[m].landed <= |ss[m].frames|
            && ss[m].slots[i].payload == ss[m].frames[ss[m].landed - 1]
  {
    RunInv(ss, acts, m);
    assert Offers(ss[m], ss[m].lastReady.value);
  }

  // Consumer c takes none of the given kind of step at positions i..j-1.
  ghost predicate Avoids(acts: seq<Step>, c: nat, k: ConsumerStep, i: nat, j: nat) {
    j <= |acts| && forall m :: i <= m < j ==> acts[m] != ByConsumer(c, k)
  }

  lemma {:induction false} LoadIsRemembered(ss: seq<State>, acts: seq<Step>, c: nat, i: nat, j: nat)
    requires Run(ss, acts) && i <= j < |ss| && c < |ss[i].consumers|
    requires Avoids(acts, c, LoadLast, i, j)
    ensures c < |ss[j].consumers| && ss[j].consumers[c].loaded == ss[i].consumers[c].loaded
    decreases j - i
  {
    if i < j {
      LoadIsRemembered(ss, acts, c, i, j - 1);
      assert ss[j] == Do(ss[j - 1], acts[j - 1]);
    }
  }

  // A retain whose winning load of last_ready is step `load` and whose
  // validation of the slot state is step `check`.
  ghost predicate Retains(ss: seq<State>, acts: seq<Step>, c: nat, load: nat, check: nat) {
    && Run(ss, acts) && load < check < |acts| && c < |ss[load].consumers|
    && acts[load] == ByConsumer(c, LoadLast)
    && acts[check] == ByConsumer(c, Check)
    && Avoids(acts, c, LoadLast, load + 1, check)
    && c < |ss[check + 1].consumers| && ss[check + 1].consumers[c].pc.Holding?
  }

  // The frame a retain returned.
  ghost function Returned(ss: seq<State>, c: nat, check: nat): nat
    requires check + 1 < |ss| && c < |ss[check + 1].consumers|
  {
    ss[check + 1].consumers[c].seen
  }

  // The returned frame is at least as new as last_ready was at the winning load,
  // and at most one frame newer than last_ready at the validation.
  lemma RetainIsFresh(ss: seq<State>, acts: seq<Step>, c: nat, load: nat, check: nat)
    requires Retains(ss, acts, c, load, check)
    ensures ss[load].landed >= 1 && ss[check].landed >= 1
    ensures ss[load].landed - 1 <= Returned(ss, c, check) <= (ss[check].landed - 1) + 1
  {
    RunInv(ss, acts, check);
    RunInv(ss, acts, check + 1);
    RunGrows(ss, acts, load, load + 1);
    LoadIsRemembered(ss, acts, c, load + 1, check);
    assert ConsumerOk(ss[check], ss[check].consumers[c]);
    assert ConsumerOk(ss[check + 1], ss[check + 1].consumers[c]);
    if ss[load + 1].consumers[c].pc.Failed? {
      StaysFailed(ss, acts, c, load + 1, check);
    }
  }

  // A failed call loads nothing until it returns and a new call starts.
  lemma {:induction false} StaysFailed(ss: seq<State>, acts: seq<Step>, c: nat, i: nat, j: nat)
    requires Run(ss, acts) && i <= j < |ss| && c < |ss[i].consumers|
    requires Avoids(acts, c, LoadLast, i, j)
    requires !ss[i].consumers[c].pc.Aimed? && !ss[i].consumers[c].pc.Staked? && !ss[i].consumers[c].pc.Holding?
    ensures c < |ss[j].consumers| && !ss[j].consumers[c].pc.Aimed? && !ss[j].consumers[c].pc.Staked?
    ensures !ss[j].consumers[c].pc.Holding?
    decreases j - i
  {
    if i < j {
      StaysFailed(ss, acts, c, i, j - 1);
      assert ss[j] == Do(ss[j - 1], acts[j - 1]);
    }
  }

  // A retain that starts after another one validated goes back by at most one
  // frame, whichever consumers made the two.
  lemma RetainsGoBackByAtMostOne(ss: seq<State>, acts: seq<Step>,
      c: nat, load: nat, check: nat, d: nat, load': nat, check': nat)
    requires Retains(ss, acts, c, load, check) && Retains(ss, acts, d, load', check')
    requires check < load'
    ensures Returned(ss, d, check') >= Returned(ss, c, check) - 1
  {
    RetainIsFresh(ss, acts, c, load, check);
    RetainIsFresh(ss, acts, d, load', check');
    RunGrows(ss, acts, check, load');
  }

  lemma {:induction false} CallIsRemembered(ss: seq<State>, acts: seq<Step>, c: nat, i: nat, j: nat)
    requires Run(ss, acts) && i <= j < |ss| && c < |ss[i].consumers|
    requires Avoids(acts, c, Call, i, j)
    ensures c < |ss[j].consumers| && ss[j].consumers[c].called == ss[i].consumers[c].called
    decreases j - i
  {
    if i < j {
      CallIsRemembered(ss, acts, c, i, j - 1);
      assert ss[j] == Do(ss[j - 1], acts[j - 1]);
    }
  }

  // Once a frame is published, shm_ring_retain_latest fails only if at least
  // SHM_RETAIN_TRIES publishes landed during the call.
  lemma RetainFailsOnlyUnderChurn(ss: seq<State>, acts: seq<Step>, c: nat, call: nat, end: nat)
    requires Run(ss, acts) && call < end < |ss| && c < |ss[call].consumers|
    requires acts[call] == ByConsumer(c, Call) && Avoids(acts, c, Call, call + 1, end)
    requires c < |ss[end].consumers| && ss[end].consumers[c].pc.Failed?
    requires ss[call].landed > 0
    ensures ss[end].landed >= ss[call].landed + RETAIN_TRIES
  {
    CallIsRemembered(ss, acts, c, call + 1, end);
    RunInv(ss, acts, end);
    assert ConsumerOk(ss[end], ss[end].consumers[c]);
  }

  // ---- no starvation ----------------------------------------------------------

  // Why the scan may have passed over slot j.
  ghost predicate Excused(s: State, j: nat)
    requires s.producer.Scanning?
  {
    || Some(j) == s.producer.published
    || j in s.owned
    || exists c :: 0 <= c < |s.home| && s.home[c] == Some(j)
  }

  // During a scan a consumer can only be on the slot it was on when the scan
  // began or on the published one.
  ghost predicate StayHome(s: State) {
    s.producer.Scanning? ==>
      && |s.home| == |s.consumers|
      && forall c :: 0 <= c < |s.consumers| ==>
           s.consumers[c].Target() in {None, s.producer.published, s.home[c]}
  }

  // Every slot the scan passed over is excused.
  ghost predicate PassedOver(s: State)
    requires |s.slots| > 0
  {
    s.producer.Scanning? ==>
      && (forall a: nat :: 1 <= a < s.producer.attempt ==> Excused(s, Visited(s, a)))
      && (s.producer.point.Undo? ==> Excused(s, Current(s)))
  }

  ghost predicate ScanOk(s: State)
    requires |s.slots| > 0
  {
    StayHome(s) && PassedOver(s)
  }

  // The pre-filter reads the real refcount.
  predicate Honest(s: State, a: Step)
    requires Can(s, a)
  {
    a.ByProducer? && a.p.Filter? && s.producer.attempt <= |s.slots| ==>
      a.p.count == s.slots[Current(s)].refcount
  }

  lemma CountedIsClaimed(s: State, i: nat)
    requires Counted(s) && i < |s.slots| && s.slots[i].refcount != 0
    ensures exists c :: 0 <= c < |s.consumers| && s.consumers[c].Claims(i)
  {
    var claimants := Claimants(s.consumers, i);
    assert claimants != {};
    var c :| c in claimants;
  }

  lemma StayHomeStep(s: State, a: Step)
    requires Inv(s) && StayHome(s) && Can(s, a)
    ensures StayHome(Do(s, a))
  {
    match a
    case ByProducer(p) => ProducerStaysHome(s, p);
    case ByConsumer(c, k) => ConsumerStaysHome(s, c, k);
  }

  // The scan remembers what each consumer aimed at when it began.
  lemma ProducerStaysHome(s: State, p: ProducerStep)
    requires StayHome(s) && ProducerCan(s, p)
    ensures StayHome(ProducerDo(s, p))
  {
    var s' := ProducerDo(s, p);
    assert s'.consumers == s.consumers;
    if p.BeginAcquire? {
      assert forall c :: 0 <= c < |s'.consumers| ==> s'.home[c] == s'.consumers[c].Target();
    }
  }

  // During a scan a consumer keeps its aim, drops it, or takes the published slot.
  lemma ConsumerStaysHome(s: State, c: nat, k: ConsumerStep)
    requires Shaped(s) && StayHome(s) && ConsumerCan(s, c, k)
    ensures StayHome(ConsumerDo(s, c, k))
  {
    var s' := ConsumerDo(s, c, k);
    ConsumerStepFrame(s, c, k);
    if s.producer.Scanning? {
      assert s'.consumers[c].Target() in {None, s.lastReady, s.consumers[c].Target()};
      forall d | 0 <= d < |s'.consumers|
        ensures s'.consumers[d].Target() in {None, s'.producer.published, s'.home[d]}
      {
        assert s.consumers[d].Target() in {None, s.producer.published, s.home[d]};
      }
    }
  }

  // A refcount seen above zero is that of a consumer that was here all along.
  lemma BusyIsExcused(s: State, j: nat)
    requires Inv(s) && StayHome(s) && s.producer.Scanning? && j < |s.slots|
    requires s.slots[j].refcount != 0
    ensures Excused(s, j)
  {
    CountedIsClaimed(s, j);
    var c :| 0 <= c < |s.consumers| && s.consumers[c].Claims(j);
    assert s.consumers[c].Target() == Some(j);
    assert s.consumers[c].Target() in {None, s.producer.published, s.home[c]};
  }

  // Both states are in the same scan, so they excuse the same slots.
  predicate SameScan(s: State, s': State) {
    && s.producer.Scanning? && s'.producer.Scanning?
    && s'.producer.published == s.producer.published
    && s'.cursor == s.cursor && s'.owned == s.owned && s'.home == s.home
    && |s'.slots| == |s.slots|
  }

  lemma PassedOverKept(s: State, s': State)
    requires |s.slots| > 0 && PassedOver(s) && SameScan(s, s')
    requires
      || (s'.producer.attempt == s.producer.attempt && (s'.producer.point.Undo? ==> Excused(s, Current(s))))
      || (s'.producer.attempt == s.producer.attempt + 1 && s'.producer.point.Top? && Excused(s, Current(s)))
    ensures PassedOver(s')
  {
    forall a: nat | 1 <= a < s'.producer.attempt ensures Excused(s', Visited(s', a)) {
      assert Visited(s', a) == Visited(s, a);
      assert Excused(s, Visited(s, a));
    }
  }

  lemma PassedOverStep(s: State, a: Step)
    requires Inv(s) && ScanOk(s) && Can(s, a) && Honest(s, a)
    ensures |Do(s, a).slots| > 0 && PassedOver(Do(s, a))
  {
    match a
    case ByProducer(p) => ProducerPassesOver(s, p);
    case ByConsumer(c, k) =>
      ConsumerStepFrame(s, c, k);
      if s.producer.Scanning? {
        PassedOverKept(s, ConsumerDo(s, c, k));
      }
  }

  lemma ProducerPassesOver(s: State, p: ProducerStep)
    requires Inv(s) && ScanOk(s) && ProducerCan(s, p) && Honest(s, ByProducer(p))
    ensures |ProducerDo(s, p).slots| > 0 && PassedOver(ProducerDo(s, p))
  {
    var s' := ProducerDo(s, p);
    assert |s'.slots| == |s.slots|;
    if s.producer.Scanning? && s'.producer.Scanning? {
      assert SameScan(s, s');
      if s.slots[Current(s)].refcount != 0 {
        BusyIsExcused(s, Current(s));
      }
      PassedOverKept(s, s');
    }
  }

  // The modular scan meets every slot in its |slots| attempts.
  lemma ScanMeetsEverySlot(s: State, j: nat) returns (a: nat)
    requires |s.slots| > 0 && j < |s.slots|
    ensures 1 <= a <= |s.slots| && Visited(s, a) == j
  {
    var n := |s.slots|;
    var q, d := s.cursor / n, s.cursor % n;
    if j > d {
      a := j - d;
      Remainder(s.cursor + a, q, j, n);
    } else {
      a := j - d + n;
      assert (q + 1) * n == q * n + n;
      Remainder(s.cursor + a, q + 1, j, n);
    }
  }

  lemma Remainder(x: nat, q: nat, r: nat, n: nat)
    requires r < n && x == q * n + r
    ensures x % n == r
  {
    var q', r' := x / n, x % n;
    assert x == n * q' + r';
    UniqueRemainder(q, r, q', r', n);
  }

  lemma UniqueRemainder(q: int, r: int, q': int, r': int, n: int)
    requires 0 <= r < n && 0 <= r' < n && q * n + r == n * q' + r'
    ensures r == r'
  {
    var k := q - q';
    assert k * n == r' - r by { assert k * n == q * n - q' * n; }
    if k >= 1 { AtLeastOnce(k, n); }
    assert (-k) * n == -(k * n);
    if k <= -1 { AtLeastOnce(-k, n); }
  }

  lemma AtLeastOnce(k: int, n: int)
    requires k >= 1 && n >= 0
    ensures k * n >= n
  {
  }

  // The slots that consumers were on when the scan began.
  ghost function Homes(home: seq<Option<nat>>): (r: set<nat>)
    ensures forall j: nat :: j in r <==> exists c :: 0 <= c < |home| && home[c] == Some(j)
    ensures |r| <= |home|
  {
    if home == [] then {}
    else
      var r := Homes(home[1..]) + (if home[0].Some? then {home[0].value} else {});
      assert forall j: nat :: (exists c :: 0 <= c < |home| && home[c] == Some(j)) <==>
        home[0] == Some(j) || exists c :: 0 <= c < |home[1..]| && home[1..][c] == Some(j);
      r
  }

  lemma {:induction false} Below(n: nat, r: set<nat>)
    requires forall j: nat :: j < n ==> j in r
    ensures n <= |r|
  {
    if n > 0 {
      Below(n - 1, r - {n - 1});
    }
  }

  // A scan that finds nothing has one slot published, the others owned by the
  // producer or held by a distinct consumer each.
  lemma StarvedIsCrowded(s: State)
    requires Inv(s) && ScanOk(s) && Starved(s)
    ensures |s.slots| <= 1 + |s.owned| + |s.consumers|
  {
    var published := if s.producer.published.Some? then {s.producer.published.value} else {};
    var excused := published + s.owned + Homes(s.home);
    forall j: nat | j < |s.slots| ensures j in excused {
      var a := ScanMeetsEverySlot(s, j);
      assert Excused(s, Visited(s, a));
    }
    Below(|s.slots|, excused);
    assert |published| <= 1;
    assert |published + s.owned| <= |published| + |s.owned|;
    assert |excused| <= |published + s.owned| + |Homes(s.home)|;
  }

  ghost predicate HonestRun(ss: seq<State>, acts: seq<Step>) {
    Run(ss, acts) && forall m :: 0 <= m < |acts| ==> Honest(ss[m], acts[m])
  }

  lemma {:induction false} RunScan(ss: seq<State>, acts: seq<Step>, m: nat)
    requires HonestRun(ss, acts) && m < |ss|
    ensures Inv(ss[m]) && ScanOk(ss[m])
  {
    RunInv(ss, acts, m);
    if m > 0 {
      RunScan(ss, acts, m - 1);
      StayHomeStep(ss[m - 1], acts[m - 1]);
      PassedOverStep(ss[m - 1], acts[m - 1]);
    }
  }

  // With two slots more than there are consumers and in-flight slots,
  // shm_ring_acquire_slot never returns -1.
  lemma NoStarvation(ss: seq<State>, acts: seq<Step>, m: nat)
    requires HonestRun(ss, acts) && m < |ss|
    requires |ss[m].slots| >= |ss[m].consumers| + |ss[m].owned| + 2
    ensures !Starved(ss[m])
  {
    RunScan(ss, acts, m);
    if Starved(ss[m]) {
      StarvedIsCrowded(ss[m]);
    }
  }
}
