/**
  What every step of the frame ring keeps, whatever the interleaving.
*/
module RingInvariant {
  import opened Options
  import opened RingModel

  // The consumers whose increment of slot i's refcount has not been undone.
  function Claimants(cs: seq<Consumer>, i: nat): set<nat> {
    set c | 0 <= c < |cs| && cs[c].Claims(i)
  }

  predicate Shaped(s: State) {
    && |s.slots| >= 2
    && (forall i :: i in s.owned ==> i < |s.slots|)
    && (s.lastReady.Some? ==> s.lastReady.value < |s.slots|)
    && (s.producer.Publishing? ==> s.producer.slot < |s.slots|)
    && (s.producer.Scanning? ==>
          && s.producer.published == s.lastReady
          && 1 <= s.producer.attempt <= |s.slots| + 1
          && (s.producer.point.Top? || s.producer.attempt <= |s.slots|))
    && (forall c :: 0 <= c < |s.consumers| && s.consumers[c].Target().Some? ==>
          s.consumers[c].idx < |s.slots|)
  }

  // Every refcount is the number of consumers claiming or holding the slot.
  predicate Counted(s: State) {
    forall i :: 0 <= i < |s.slots| ==> s.slots[i].refcount == |Claimants(s.consumers, i)|
  }

  // Slot i carries the WRITING mark of an acquire that may still back off.
  predicate Marked(s: State, i: nat)
    requires |s.slots| > 0
  {
    && s.producer.Scanning? && (s.producer.point.Claimed? || s.producer.point.Undo?)
    && Current(s) == i
  }

  predicate WritingIsOwned(s: State)
    requires |s.slots| > 0
  {
    forall i :: 0 <= i < |s.slots| ==>
      (s.slots[i].phase == Writing <==> i in s.owned || Marked(s, i))
  }

  predicate ScanConsistent(s: State)
    requires |s.slots| > 0
  {
    s.producer.Scanning? && !s.producer.point.Top? ==>
      && Some(Current(s)) != s.lastReady
      && (!s.producer.point.Filtered? ==>
            && Current(s) !in s.owned
            && s.producer.prev != Writing
            && (s.producer.point.Loaded? ==> s.slots[Current(s)].phase == s.producer.prev))
  }

  // Slot i shows a whole published frame, or will once the mark is taken back.
  predicate Offers(s: State, i: nat)
    requires |s.slots| > 0 && i < |s.slots|
  {
    s.slots[i].phase == Ready || (Marked(s, i) && s.producer.prev == Ready)
  }

  predicate OffersWhole(s: State)
    requires |s.slots| > 0
  {
    forall i :: 0 <= i < |s.slots| && Offers(s, i) ==>
      s.slots[i].frame < |s.frames| && s.slots[i].payload == s.frames[s.slots[i].frame]
  }

  // last_ready names a READY slot that holds the newest landed frame.
  predicate LastReadyNewest(s: State)
    requires Shaped(s)
  {
    && |s.frames| == s.landed + (if s.producer.Publishing? then 1 else 0)
    && (s.lastReady.None? <==> s.landed == 0)
    && (s.lastReady.Some? ==>
          s.slots[s.lastReady.value].phase == Ready &&
          s.slots[s.lastReady.value].frame == s.landed - 1)
    && (s.producer.Publishing? ==>
          s.slots[s.producer.slot].phase == Ready &&
          s.slots[s.producer.slot].frame == s.landed &&
          s.lastReady != Some(s.producer.slot))
  }

  predicate ConsumerOk(s: State, me: Consumer)
    requires Shaped(s)
    requires me.Target().Some? ==> me.idx < |s.slots|
  {
    && me.seen <= s.landed
    && (!me.pc.Resting? && !me.pc.Holding? ==>
          me.called <= s.landed && me.tries <= RETAIN_TRIES)
    && (me.pc.Trying? ==> me.called + me.tries <= s.landed)
    && (me.pc.Aimed? || me.pc.Staked? || me.pc.Backing? ==>
          && me.tries < RETAIN_TRIES
          && me.called + me.tries <= me.loaded <= s.landed
          && me.seen <= me.loaded
          && 0 < me.loaded
          && me.loaded - 1 <= s.slots[me.idx].frame
          && (me.loaded == s.landed ==> s.lastReady == Some(me.idx)))
    && (me.pc.Backing? ==> me.loaded < s.landed)
    && (me.pc.Holding? ==>
          && Offers(s, me.idx)
          && s.slots[me.idx].frame == me.seen)
    && (me.pc.Failed? ==> me.called == 0 || me.called + RETAIN_TRIES <= s.landed)
  }

  predicate ConsumersOk(s: State)
    requires Shaped(s)
  {
    forall c :: 0 <= c < |s.consumers| ==> ConsumerOk(s, s.consumers[c])
  }

  predicate Inv(s: State) {
    && Shaped(s)
    && Counted(s)
    && WritingIsOwned(s)
    && ScanConsistent(s)
    && OffersWhole(s)
    && LastReadyNewest(s)
    && ConsumersOk(s)
  }

  lemma InitInv(s: State)
    requires Init(s)
    ensures Inv(s)
  {
    forall i | 0 <= i < |s.slots| ensures Claimants(s.consumers, i) == {} {}
  }

  // ---- counting -------------------------------------------------------------

  lemma ClaimantsAfter(cs: seq<Consumer>, c: nat, x: Consumer, i: nat)
    requires c < |cs|
    ensures |Claimants(cs[c := x], i)| ==
            |Claimants(cs, i)| - (if cs[c].Claims(i) then 1 else 0) + (if x.Claims(i) then 1 else 0)
  {
    var before, after := Claimants(cs, i), Claimants(cs[c := x], i);
    var others := before - {c};
    assert after == if x.Claims(i) then others + {c} else others;
    assert before == if cs[c].Claims(i) then others + {c} else others;
  }

  // A step that moves consumer c and shifts one refcount accordingly keeps the count.
  lemma CountedAfter(s: State, s': State, c: nat, x: Consumer)
    requires Counted(s) && c < |s.consumers| && s'.consumers == s.consumers[c := x]
    requires |s'.slots| == |s.slots|
    requires forall i :: 0 <= i < |s.slots| ==>
      s'.slots[i].refcount == s.slots[i].refcount
        - (if s.consumers[c].Claims(i) then 1 else 0) + (if x.Claims(i) then 1 else 0)
    ensures Counted(s')
  {
    forall i | 0 <= i < |s'.slots|
      ensures s'.slots[i].refcount == |Claimants(s'.consumers, i)|
    {
      ClaimantsAfter(s.consumers, c, x, i);
    }
  }

  // A slot with refcount 0 has no claimant.
  lemma UncountedIsUnclaimed(s: State, i: nat, c: nat)
    requires Counted(s) && i < |s.slots| && c < |s.consumers| && s.slots[i].refcount == 0
    ensures !s.consumers[c].Claims(i)
  {
    assert Claimants(s.consumers, i) == {};
    assert c !in Claimants(s.consumers, i);
  }

  // ---- steps of a consumer ----------------------------------------------------

  // Nothing but refcounts and consumers differs.
  predicate SameButCounts(s: State, s': State) {
    && |s'.slots| == |s.slots|
    && (forall i :: 0 <= i < |s.slots| ==> s'.slots[i] == s.slots[i].(refcount := s'.slots[i].refcount))
    && s' == s.(slots := s'.slots, consumers := s'.consumers)
  }

  lemma ConsumerStepFrame(s: State, c: nat, k: ConsumerStep)
    requires ConsumerCan(s, c, k)
    ensures SameButCounts(s, ConsumerDo(s, c, k))
    ensures ConsumerDo(s, c, k).consumers == s.consumers[c := ConsumerDo(s, c, k).consumers[c]]
  {
  }

  lemma ConsumerStepShape(s: State, c: nat, k: ConsumerStep)
    requires Shaped(s) && ConsumerCan(s, c, k)
    ensures Shaped(ConsumerDo(s, c, k))
  {
    var s' := ConsumerDo(s, c, k);
    ConsumerStepFrame(s, c, k);
    forall d | 0 <= d < |s'.consumers| && s'.consumers[d].Target().Some? ensures s'.consumers[d].idx < |s'.slots| {
      if d != c {
        assert s'.consumers[d] == s.consumers[d];
      }
    }
  }

  lemma ConsumerStepOk(s: State, c: nat, k: ConsumerStep)
    requires Inv(s) && ConsumerCan(s, c, k) && Shaped(ConsumerDo(s, c, k))
    ensures var s' := ConsumerDo(s, c, k);
            ConsumerOk(s', s'.consumers[c])
  {
    assert ConsumerOk(s, s.consumers[c]);
  }

  // What does not speak of refcounts or consumers.
  lemma RestKept(s: State, s': State)
    requires Shaped(s) && Shaped(s') && SameButCounts(s, s')
    requires WritingIsOwned(s) && ScanConsistent(s) && OffersWhole(s) && LastReadyNewest(s)
    ensures WritingIsOwned(s') && ScanConsistent(s') && OffersWhole(s') && LastReadyNewest(s')
  {
    forall i | 0 <= i < |s'.slots| && Offers(s', i)
      ensures s'.slots[i].frame < |s'.frames| && s'.slots[i].payload == s'.frames[s'.slots[i].frame]
    {
      assert Offers(s, i);
    }
  }

  lemma ConsumerStepCounted(s: State, c: nat, k: ConsumerStep)
    requires Counted(s) && ConsumerCan(s, c, k)
    ensures Counted(ConsumerDo(s, c, k))
  {
    var s' := ConsumerDo(s, c, k);
    ConsumerStepFrame(s, c, k);
    CountedAfter(s, s', c, s'.consumers[c]);
  }

  lemma OtherConsumerOk(s: State, s': State, me: Consumer)
    requires Shaped(s) && Shaped(s') && SameButCounts(s, s')
    requires me.Target().Some? ==> me.idx < |s.slots|
    requires ConsumerOk(s, me)
    ensures ConsumerOk(s', me)
  {
  }

  lemma ConsumerStepInv(s: State, c: nat, k: ConsumerStep)
    requires Inv(s) && ConsumerCan(s, c, k)
    ensures Inv(ConsumerDo(s, c, k))
  {
    var s' := ConsumerDo(s, c, k);
    ConsumerStepFrame(s, c, k);
    ConsumerStepShape(s, c, k);
    ConsumerStepCounted(s, c, k);
    RestKept(s, s');
    forall d | 0 <= d < |s'.consumers|
      ensures ConsumerOk(s', s'.consumers[d])
    {
      if d == c {
        ConsumerStepOk(s, c, k);
      } else {
        OtherConsumerOk(s, s', s.consumers[d]);
      }
    }
  }

  // ---- steps of the producer --------------------------------------------------

  // What a producer step may do to a slot some consumer is counted on or aims at.
  lemma ProducerStepConsumer(s: State, p: ProducerStep, c: nat)
    requires Inv(s) && ProducerCan(s, p) && c < |s.consumers|
    requires Shaped(ProducerDo(s, p))
    ensures ConsumerOk(ProducerDo(s, p), s.consumers[c])
  {
    var me := s.consumers[c];
    assert ConsumerOk(s, me);
    if p.Recheck? && s.slots[Current(s)].refcount == 0 {
      UncountedIsUnclaimed(s, Current(s), c);
    }
  }

  lemma ProducerStepShape(s: State, p: ProducerStep)
    requires Inv(s) && ProducerCan(s, p)
    ensures Shaped(ProducerDo(s, p)) && Counted(ProducerDo(s, p))
  {
    var s' := ProducerDo(s, p);
    assert s'.consumers == s.consumers;
    assert |s'.slots| == |s.slots|;
    assert forall i :: 0 <= i < |s.slots| ==> s'.slots[i].refcount == s.slots[i].refcount;
  }

  lemma ProducerStepMarks(s: State, p: ProducerStep)
    requires Inv(s) && ProducerCan(s, p)
    ensures |ProducerDo(s, p).slots| == |s.slots|
    ensures WritingIsOwned(ProducerDo(s, p))
  {
    var s' := ProducerDo(s, p);
    forall i | 0 <= i < |s'.slots| ensures s'.slots[i].phase == Writing <==> i in s'.owned || Marked(s', i) {
      assert s.slots[i].phase == Writing <==> i in s.owned || Marked(s, i);
    }
  }

  lemma ProducerStepScan(s: State, p: ProducerStep)
    requires Inv(s) && ProducerCan(s, p) && Shaped(ProducerDo(s, p))
    ensures ScanConsistent(ProducerDo(s, p)) && LastReadyNewest(ProducerDo(s, p))
  {
  }

  lemma ProducerStepWhole(s: State, p: ProducerStep)
    requires Inv(s) && ProducerCan(s, p)
    ensures |ProducerDo(s, p).slots| == |s.slots|
    ensures OffersWhole(ProducerDo(s, p))
  {
    var s' := ProducerDo(s, p);
    forall i | 0 <= i < |s'.slots| && Offers(s', i)
      ensures s'.slots[i].frame < |s'.frames| && s'.slots[i].payload == s'.frames[s'.slots[i].frame]
    {
      assert Offers(s, i) || p == StoreReady(i);
    }
  }

  lemma ProducerStepInv(s: State, p: ProducerStep)
    requires Inv(s) && ProducerCan(s, p)
    ensures Inv(ProducerDo(s, p))
  {
    var s' := ProducerDo(s, p);
    ProducerStepShape(s, p);
    ProducerStepMarks(s, p);
    ProducerStepScan(s, p);
    ProducerStepWhole(s, p);
    assert ConsumersOk(s') by {
      forall c | 0 <= c < |s'.consumers|
        ensures ConsumerOk(s', s'.consumers[c])
      {
        ProducerStepConsumer(s, p, c);
      }
    }
  }

  lemma StepInv(s: State, a: Step)
    requires Inv(s) && Can(s, a)
    ensures Inv(Do(s, a))
  {
    match a
    case ByProducer(p) => ProducerStepInv(s, p);
    case ByConsumer(c, k) => ConsumerStepInv(s, c, k);
  }
}
