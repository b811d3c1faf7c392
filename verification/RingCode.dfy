/**
  The five operations of src/shm_ring.c as the code has them: loops over local
  variables, one shared access at a time, with other threads running between
  any two accesses.
*/
module RingCode {
  import opened Options
  import opened RingModel
  import opened RingInvariant
  import opened RingRuns

  class Ring {
    var s: State
    // The scheduler's script: at each preemption point the next entry tells
    // which steps the other threads take. Every interleaving has a script.
    var script: seq<seq<Step>>

    ghost predicate Valid()
      reads this
    {
      Inv(s) && ScanOk(s)
    }

    // One access, by whichever thread is at that point of its code.
    method Perform(a: Step)
      requires Valid() && Can(s, a) && Honest(s, a)
      modifies this`s
      ensures Valid() && s == Do(old(s), a)
    {
      StepInv(s, a);
      StayHomeStep(s, a);
      PassedOverStep(s, a);
      s := Do(s, a);
    }

    // Consumers run while the producer stands between two of its accesses.
    method PreemptProducer()
      requires Valid()
      modifies this
      ensures Valid() && SameButCounts(old(s), s) && |s.consumers| == |old(s).consumers|
    {
      if script == [] {
        return;
      }
      var steps := script[0];
      script := script[1..];
      for m := 0 to |steps|
        invariant Valid() && SameButCounts(old(s), s) && |s.consumers| == |old(s).consumers|
      {
        if steps[m].ByConsumer? && Can(s, steps[m]) {
          ConsumerStepFrame(s, steps[m].c, steps[m].k);
          Perform(steps[m]);
        }
      }
    }

    // The producer and the other consumers run while consumer c stands between
    // two of its accesses.
    method PreemptConsumer(c: nat)
      requires Valid() && c < |s.consumers|
      modifies this
      ensures Valid() && c < |s.consumers| && s.consumers[c] == old(s.consumers[c])
      ensures old(s.landed) <= s.landed && old(s.frames) <= s.frames
      ensures |s.slots| == old(|s.slots|)
    {
      if script == [] {
        return;
      }
      var steps := script[0];
      script := script[1..];
      for m := 0 to |steps|
        invariant Valid() && c < |s.consumers| && s.consumers[c] == old(s.consumers[c])
        invariant old(s.landed) <= s.landed && old(s.frames) <= s.frames
        invariant |s.slots| == old(|s.slots|)
      {
        var a := steps[m];
        if !(a.ByConsumer? && a.c == c) && Can(s, a) && Honest(s, a) {
          StepGrows(s, a);
          OthersMove(s, a, c);
          Perform(a);
        }
      }
    }

    // What a round of the scan that finds nothing leaves as it was.
    static predicate Unaltered(s0: State, s: State) {
      && |s.slots| == |s0.slots| && |s.consumers| == |s0.consumers|
      && s.lastReady == s0.lastReady && s.frames == s0.frames && s.landed == s0.landed
      && s.owned == s0.owned && s.cursor == s0.cursor
      && forall i :: 0 <= i < |s.slots| ==>
           s.slots[i] == s0.slots[i].(refcount := s.slots[i].refcount)
    }

    // The producer is at the head of its scan loop.
    ghost predicate AtTop(published: Option<nat>, attempt: nat)
      reads this
    {
      && Valid() && s.producer.Scanning? && s.producer.point.Top?
      && s.producer.attempt == attempt && s.producer.published == published
    }

    // The producer is inside a round of its scan, working on slot idx.
    ghost predicate At(point: Point, idx: nat, published: Option<nat>, attempt: nat)
      reads this
    {
      && Valid() && s.producer.Scanning? && s.producer.point == point
      && s.producer.attempt == attempt <= |s.slots| && s.producer.published == published
      && Current(s) == idx
    }

    static lemma StillThere(s0: State, s: State)
      requires SameButCounts(s0, s) && |s.consumers| == |s0.consumers|
      ensures Unaltered(s0, s) && s.producer == s0.producer
      ensures |s0.slots| > 0 && s0.producer.Scanning? ==> Current(s) == Current(s0)
    {
    }

    static lemma UnalteredChain(s0: State, s1: State, s: State)
      requires Unaltered(s0, s1) && Unaltered(s1, s)
      ensures Unaltered(s0, s)
    {
    }

    static lemma LoadStateDoes(s: State)
      requires ProducerCan(s, LoadState) && WritingIsOwned(s)
      ensures var s', i := ProducerDo(s, LoadState), Current(s);
              && Unaltered(s, s') && s'.producer.Scanning? && s'.producer.published == s.producer.published
              && if s.slots[i].phase == Writing
                 then s'.producer.point.Top? && s'.producer.attempt == s.producer.attempt + 1
                 else
                   && s'.producer == s.producer.(point := Loaded, prev := s.slots[i].phase)
                   && Current(s') == i && i !in s'.owned
    {
      assert ProducerDo(s, LoadState).slots == s.slots;
    }

    static lemma ClaimDoes(s: State)
      requires ProducerCan(s, Claim)
      ensures var s', i := ProducerDo(s, Claim), Current(s);
              && Unaltered(SetPhase(s, i, Writing), s') && s'.producer == s.producer.(point := Claimed)
              && Current(s') == i
    {
    }

    // Each access of a round, with the other threads running just before it.

    method ReadCount(idx: nat, published: Option<nat>, attempt: nat) returns (count: int)
      requires At(Top, idx, published, attempt) && Some(idx) != published
      modifies this
      ensures Unaltered(old(s), s)
      ensures count == 0 ==> At(Filtered, idx, published, attempt)
      ensures count != 0 ==> AtTop(published, attempt + 1)
    {
      PreemptProducer();
      count := s.slots[idx].refcount;
      Perform(ByProducer(Filter(count)));
    }

    method ReadState(idx: nat, published: Option<nat>, attempt: nat) returns (prev: Phase)
      requires At(Filtered, idx, published, attempt)
      modifies this
      ensures Unaltered(old(s), s)
      ensures prev == Writing ==> AtTop(published, attempt + 1)
      ensures prev != Writing ==>
        At(Loaded, idx, published, attempt) && idx !in s.owned && s.slots[idx].phase == s.producer.prev == prev
    {
      PreemptProducer();
      ghost var s1 := s;
      StillThere(old(s), s1);
      prev := s.slots[idx].phase;
      LoadStateDoes(s);
      Perform(ByProducer(LoadState));
      UnalteredChain(old(s), s1, s);
    }

    method StoreWriting(idx: nat, published: Option<nat>, attempt: nat)
      requires At(Loaded, idx, published, attempt)
      modifies this
      ensures At(Claimed, idx, published, attempt) && s.producer.prev == old(s.producer.prev)
      ensures Unaltered(SetPhase(old(s), idx, Writing), s)
    {
      PreemptProducer();
      StillThere(old(s), s);
      ClaimDoes(s);
      Perform(ByProducer(Claim));
    }

    method ReadCountAgain(idx: nat, published: Option<nat>, attempt: nat) returns (count: int)
      requires At(Claimed, idx, published, attempt)
      modifies this
      ensures count != 0 ==> At(Undo, idx, published, attempt) && s.producer.prev == old(s.producer.prev)
      ensures count != 0 ==> Unaltered(old(s), s)
      ensures count == 0 ==> Valid() && s.producer.Idle?
      ensures count == 0 ==> Unaltered(old(s).(owned := old(s.owned) + {idx}, cursor := idx), s)
    {
      PreemptProducer();
      count := s.slots[idx].refcount;
      Perform(ByProducer(Recheck));
    }

    method StorePrevious(idx: nat, published: Option<nat>, attempt: nat, prev: Phase)
      requires At(Undo, idx, published, attempt) && s.producer.prev == prev
      modifies this
      ensures AtTop(published, attempt + 1)
      ensures Unaltered(SetPhase(old(s), idx, prev), s)
    {
      PreemptProducer();
      Perform(ByProducer(Restore));
    }

    // The seq_cst half of a round: claim, re-check, back off if a consumer slipped in.
    method ClaimOrUndo(idx: nat, published: Option<nat>, attempt: nat, prev: Phase) returns (won: bool)
      requires At(Loaded, idx, published, attempt) && s.producer.prev == prev == s.slots[idx].phase
      modifies this
      ensures |s.slots| == old(|s.slots|)
      ensures !won ==> AtTop(published, attempt + 1) && Unaltered(old(s), s)
      ensures won ==> Valid() && s.producer.Idle? && Unaltered(
        SetPhase(old(s), idx, Writing).(owned := old(s.owned) + {idx}, cursor := idx), s)
    {
      StoreWriting(idx, published, attempt);
      var count := ReadCountAgain(idx, published, attempt);
      if count == 0 {
        return true;
      }
      StorePrevious(idx, published, attempt, prev);
      return false;
    }

    // One turn of the scan: skip the published slot, a counted one and one being
    // written; try to claim any other.
    method Visit(published: Option<nat>, attempt: nat) returns (won: bool, idx: nat)
      requires AtTop(published, attempt) && 1 <= attempt <= |s.slots|
      modifies this
      ensures |s.slots| == old(|s.slots|) && idx < |s.slots|
      ensures !won ==> AtTop(published, attempt + 1) && Unaltered(old(s), s)
      ensures won ==>
        && Valid() && s.producer.Idle? && idx !in old(s.owned) && Some(idx) != published
        && Unaltered(SetPhase(old(s), idx, Writing).(owned := old(s.owned) + {idx}, cursor := idx), s)
    {
      won, idx := false, (s.cursor + attempt) % |s.slots|;
      if Some(idx) == published {
        Perform(ByProducer(Filter(s.slots[idx].refcount)));
        return;
      }
      var count := ReadCount(idx, published, attempt);
      if count != 0 {
        return;
      }
      var prev := ReadState(idx, published, attempt);
      if prev == Writing {
        return;
      }
      won := ClaimOrUndo(idx, published, attempt, prev);
    }

    // shm_ring_acquire_slot
    method AcquireSlot() returns (r: int)
      requires Valid() && s.producer.Idle?
      modifies this
      ensures Valid() && s.producer.Idle?
      ensures -1 <= r < |s.slots|
      // starved: one slot is published and every other one is in flight or held
      ensures r == -1 ==> Unaltered(old(s), s) && |s.slots| <= 1 + |s.owned| + |s.consumers|
      // acquired: the slot is the producer's, and no consumer holds or is offered it;
      // nothing else changed hands, and no payload changed at all
      ensures r >= 0 ==> |s.slots| == old(|s.slots|)
      ensures r >= 0 ==>
        && r !in old(s.owned) && s.lastReady != Some(r)
        && Unaltered(SetPhase(old(s), r, Writing).(owned := old(s.owned) + {r as nat}, cursor := r), s)
        && forall c :: 0 <= c < |s.consumers| ==> !(s.consumers[c].pc.Holding? && s.consumers[c].idx == r)
    {
      var n := |s.slots|;
      var published := s.lastReady;
      Perform(ByProducer(BeginAcquire));

      var attempt := 1;
      while attempt <= n
        invariant 1 <= attempt <= n + 1 && |s.slots| == n
        invariant AtTop(published, attempt)
        invariant Unaltered(old(s), s)
      {
        var won, idx := Visit(published, attempt);
        if won {
          NobodyHolds(idx);
          return idx;
        }
        attempt := attempt + 1;
      }

      StarvedIsCrowded(s);
      Perform(ByProducer(Filter(0)));
      return -1;
    }

    // A slot the producer owns is held by nobody.
    lemma NobodyHolds(idx: nat)
      requires Valid() && s.producer.Idle? && idx in s.owned
      ensures forall c :: 0 <= c < |s.consumers| ==> !(s.consumers[c].pc.Holding? && s.consumers[c].idx == idx)
    {
      forall c | 0 <= c < |s.consumers|
        ensures !(s.consumers[c].pc.Holding? && s.consumers[c].idx == idx)
      {
        assert ConsumerOk(s, s.consumers[c]);
      }
    }

    // shm_ring_publish_slot
    method PublishSlot(idx: nat)
      requires Valid() && s.producer.Idle? && idx in s.owned
      modifies this
      ensures Valid() && s.producer.Idle?
      ensures s.lastReady == Some(idx) && s.owned == old(s.owned) - {idx}
      ensures s.frames == old(s.frames) + [old(s.slots[idx].payload)]
      ensures s.landed == old(s.landed) + 1
      ensures |s.slots| == old(|s.slots|) && s.slots[idx].phase == Ready
    {
      Perform(ByProducer(StoreReady(idx)));
      PreemptProducer();
      Perform(ByProducer(StoreLast));
    }

    // shm_ring_abandon_slot
    method AbandonSlot(idx: nat)
      requires Valid() && s.producer.Idle? && idx in s.owned
      modifies this
      ensures Valid() && s == old(SetPhase(s, idx, Free)).(owned := old(s.owned) - {idx})
    {
      Perform(ByProducer(Abandon(idx)));
    }

    // One try of the retain loop: load last_ready, stake a claim, verify it.
    method TryRetain(c: nat) returns (r: Option<int>)
      requires Valid() && c < |s.consumers| && s.consumers[c].pc.Trying?
      requires s.consumers[c].tries < RETAIN_TRIES
      modifies this
      ensures Valid() && c < |s.consumers| && |s.slots| == old(|s.slots|) && old(s.landed) <= s.landed
      ensures s.consumers[c].called == old(s.consumers[c].called)
      ensures r == None ==>
        s.consumers[c].pc.Trying? && s.consumers[c].tries == old(s.consumers[c].tries) + 1
        && s.consumers[c].seen == old(s.consumers[c].seen)
      ensures r.Some? ==>
        && -1 <= r.value < |s.slots|
        && (r.value == -1 ==> s.consumers[c].pc.Failed?)
        && (r.value >= 0 ==>
              && s.consumers[c].pc.Holding? && s.consumers[c].idx == r.value
              && old(s.landed) - 1 <= s.consumers[c].seen
              && old(s.consumers[c].seen) - 1 <= s.consumers[c].seen)
    {
      PreemptConsumer(c);
      var last := s.lastReady;
      Perform(ByConsumer(c, LoadLast));
      if last.None? || last.value >= |s.slots| {
        return Some(-1);
      }
      var idx := last.value;
      PreemptConsumer(c);
      Perform(ByConsumer(c, Stake));
      PreemptConsumer(c);
      assert ConsumerOk(s, s.consumers[c]);
      var phase := s.slots[idx].phase;
      Perform(ByConsumer(c, Check));
      if phase == Ready {
        return Some(idx);
      }
      PreemptConsumer(c);
      Perform(ByConsumer(c, BackOff));
      return None;
    }

    // shm_ring_retain_latest, called by consumer c
    method RetainLatest(c: nat) returns (r: int)
      requires Valid() && c < |s.consumers| && s.consumers[c].pc.Resting?
      modifies this
      ensures Valid() && c < |s.consumers| && |s.slots| == old(|s.slots|)
      ensures -1 <= r < |s.slots|
      // a returned slot is held, at least as fresh as last_ready when the call
      // began, and at most one frame back from what c retained before
      ensures r >= 0 ==>
        && s.consumers[c].pc.Holding? && s.consumers[c].idx == r
        && old(s.landed) - 1 <= s.consumers[c].seen <= s.landed
        && old(s.consumers[c].seen) - 1 <= s.consumers[c].seen < |s.frames|
        && s.slots[r].payload == s.frames[s.consumers[c].seen]
      // a failure means nothing was published yet, or publishes kept landing
      ensures r == -1 ==>
        && s.consumers[c].pc.Resting?
        && (old(s.landed) == 0 || s.landed >= old(s.landed) + RETAIN_TRIES)
    {
      Perform(ByConsumer(c, Call));
      var tries := 0;
      while tries < RETAIN_TRIES
        invariant Valid() && c < |s.consumers| && |s.slots| == old(|s.slots|)
        invariant tries <= RETAIN_TRIES && old(s.landed) <= s.landed
        invariant s.consumers[c].pc.Trying? && s.consumers[c].tries == tries
        invariant s.consumers[c].called == old(s.landed) && s.consumers[c].seen == old(s.consumers[c].seen)
      {
        var outcome := TryRetain(c);
        if outcome.Some? {
          assert ConsumerOk(s, s.consumers[c]);
          if outcome.value == -1 {
            Perform(ByConsumer(c, Return));
          }
          return outcome.value;
        }
        tries := tries + 1;
      }
      Perform(ByConsumer(c, LoadLast));
      assert ConsumerOk(s, s.consumers[c]);
      Perform(ByConsumer(c, Return));
      return -1;
    }

    // shm_ring_release_slot
    method ReleaseSlot(c: nat)
      requires Valid() && c < |s.consumers| && s.consumers[c].pc.Holding?
      modifies this
      ensures Valid() && |s.consumers| == old(|s.consumers|) && |s.slots| == old(|s.slots|)
      ensures s.consumers[c] == old(s.consumers[c]).(pc := Resting)
      ensures forall i :: 0 <= i < |s.slots| ==>
        s.slots[i] == old(s.slots[i]).(refcount :=
          old(s.slots[i].refcount) - (if i == old(s.consumers[c].idx) then 1 else 0))
    {
      Perform(ByConsumer(c, Release));
    }
  }
}
