/**
  Successive retains of the frame ring: when exactly they can go back by a frame,
  and a run in which they do.
*/
module RingOrder {
  import opened Options
  import opened RingModel
  import opened RingInvariant
  import opened RingRuns

  // The retain returned the frame of a publish between its two stores: the slot is READY
  // but last_ready does not designate it yet.
  ghost predicate Ahead(ss: seq<State>, c: nat, check: nat)
    requires check + 1 < |ss| && c < |ss[check + 1].consumers|
  {
    Returned(ss, c, check) == ss[check].landed
  }

  lemma AheadIsMidPublish(ss: seq<State>, acts: seq<Step>, c: nat, load: nat, check: nat)
    requires Retains(ss, acts, c, load, check)
    ensures Ahead(ss, c, check) ==> ss[check].producer.Publishing?
  {
    RunInv(ss, acts, check);
    RunInv(ss, acts, check + 1);
    assert ConsumerOk(ss[check + 1], ss[check + 1].consumers[c]);
  }

  // Slot i takes a new frame in one of these steps.
  predicate Republished(acts: seq<Step>, i: nat, start: nat, end: nat)
    requires end <= |acts|
  {
    exists m :: start <= m < end && acts[m] == ByProducer(StoreReady(i))
  }

  lemma FrameStep(s: State, a: Step, i: nat)
    requires Can(s, a) && i < |s.slots|
    ensures |Do(s, a).slots| == |s.slots|
    ensures Do(s, a).slots[i].frame ==
            if a == ByProducer(StoreReady(i)) then |s.frames| else s.slots[i].frame
  {
  }

  // A slot keeps its frame until it takes a new one, which is newer than all before.
  lemma {:induction false} FrameOfSlot(ss: seq<State>, acts: seq<Step>, i: nat, start: nat, end: nat)
    requires Run(ss, acts) && start <= end < |ss| && i < |ss[start].slots|
    ensures i < |ss[end].slots|
    ensures if Republished(acts, i, start, end) then ss[end].slots[i].frame >= |ss[start].frames|
            else ss[end].slots[i].frame == ss[start].slots[i].frame
    decreases end
  {
    if start < end {
      FrameOfSlot(ss, acts, i, start, end - 1);
      assert ss[end] == Do(ss[end - 1], acts[end - 1]);
      FrameStep(ss[end - 1], acts[end - 1], i);
      RunGrows(ss, acts, start, end - 1);
      if acts[end - 1] != ByProducer(StoreReady(i)) && Republished(acts, i, start, end) {
        var m :| start <= m < end && acts[m] == ByProducer(StoreReady(i));
        assert m < end - 1;
      }
    }
  }

  lemma {:induction false} TargetIsRemembered(ss: seq<State>, acts: seq<Step>, c: nat, i: nat, j: nat)
    requires Run(ss, acts) && i <= j < |ss| && c < |ss[i].consumers|
    requires Avoids(acts, c, LoadLast, i, j)
    ensures c < |ss[j].consumers| && ss[j].consumers[c].idx == ss[i].consumers[c].idx
    decreases j
  {
    if i < j {
      TargetIsRemembered(ss, acts, c, i, j - 1);
      assert ss[j] == Do(ss[j - 1], acts[j - 1]);
    }
  }

  // Which frame a retain returns: the one last_ready designated at its winning load, unless
  // that slot has taken a newer one before the validation.
  lemma RetainReturns(ss: seq<State>, acts: seq<Step>, c: nat, load: nat, check: nat)
    requires Retains(ss, acts, c, load, check)
    ensures ss[load].lastReady.Some?
    ensures if Republished(acts, ss[load].lastReady.value, load, check)
            then Returned(ss, c, check) >= ss[load].landed
            else Returned(ss, c, check) == ss[load].landed - 1
  {
    RunInv(ss, acts, load);
    assert ss[load + 1] == Do(ss[load], acts[load]);
    if ss[load + 1].consumers[c].pc.Failed? {
      StaysFailed(ss, acts, c, load + 1, check);
    }
    var i := ss[load].lastReady.value;
    TargetIsRemembered(ss, acts, c, load + 1, check);
    FrameOfSlot(ss, acts, i, load, check);
    assert ss[check + 1] == Do(ss[check], acts[check]);
    assert Returned(ss, c, check) == ss[check].slots[i].frame;
  }

  // A later retain returns an older frame exactly if the earlier one was ahead of
  // last_ready, last_ready has not moved until the later one loads it, and the slot it then
  // designates takes no new frame before the later one validates it.
  lemma RetainsGoBackOnlyWhenAhead(ss: seq<State>, acts: seq<Step>,
      c: nat, load: nat, check: nat, d: nat, load': nat, check': nat)
    requires Retains(ss, acts, c, load, check) && Retains(ss, acts, d, load', check')
    requires check < load'
    ensures ss[load'].lastReady.Some?
    ensures Returned(ss, d, check') < Returned(ss, c, check) <==>
            && Ahead(ss, c, check)
            && ss[check].landed == ss[load'].landed
            && !Republished(acts, ss[load'].lastReady.value, load', check')
  {
    RetainIsFresh(ss, acts, c, load, check);
    RetainReturns(ss, acts, d, load', check');
    RunGrows(ss, acts, check, load');
  }

  // ---- a run that goes back ---------------------------------------------------------------

  ghost predicate Path(ss: seq<State>, acts: seq<Step>) {
    && |ss| == |acts| + 1
    && forall m {:trigger acts[m]} :: 0 <= m < |acts| ==> Can(ss[m], acts[m]) && ss[m + 1] == Do(ss[m], acts[m])
  }

  function End(ss: seq<State>): State
    requires ss != []
  {
    ss[|ss| - 1]
  }

  lemma Extend(ss: seq<State>, acts: seq<Step>, a: Step) returns (ss': seq<State>, acts': seq<Step>)
    requires Path(ss, acts) && Can(End(ss), a)
    ensures Path(ss', acts') && acts' == acts + [a] && ss' == ss + [Do(End(ss), a)]
  {
    acts', ss' := acts + [a], ss + [Do(End(ss), a)];
    forall m | 0 <= m < |acts'| ensures Can(ss'[m], acts'[m]) && ss'[m + 1] == Do(ss'[m], acts'[m]) {
      if m < |acts| {
        assert ss'[m] == ss[m] && ss'[m + 1] == ss[m + 1] && acts'[m] == acts[m];
      }
    }
  }

  // A slot that the next scan will take at its first attempt.
  predicate Ripe(s: State, i: nat) {
    && |s.slots| > 0 && i < |s.slots| && Visited(s, 1) == i && s.producer.Idle? && i !in s.owned
    && s.slots[i].refcount == 0 && s.slots[i].phase != Writing && s.lastReady != Some(i)
  }

  // It is acquired and made READY; last_ready is still to be stored.
  function Offered(s: State, i: nat): State
    requires i < |s.slots|
  {
    s.(slots := s.slots[i := s.slots[i].(phase := Ready, frame := |s.frames|)],
       frames := s.frames + [s.slots[i].payload], cursor := i, producer := Publishing(i),
       home := Targets(s.consumers))
  }

  predicate ProducerOnly(acts: seq<Step>) {
    forall m :: 0 <= m < |acts| ==> acts[m].ByProducer?
  }

  lemma Offer(ss: seq<State>, acts: seq<Step>, i: nat) returns (ss': seq<State>, acts': seq<Step>, more: seq<Step>)
    requires Path(ss, acts) && Ripe(End(ss), i)
    ensures Path(ss', acts') && ss <= ss' && acts' == acts + more && |more| == 6 && ProducerOnly(more)
    ensures End(ss') == Offered(End(ss), i)
  {
    var s := End(ss);
    var s1, a1 := Extend(ss, acts, ByProducer(BeginAcquire));
    var s2, a2 := Extend(s1, a1, ByProducer(Filter(0)));
    var s3, a3 := Extend(s2, a2, ByProducer(LoadState));
    var s4, a4 := Extend(s3, a3, ByProducer(Claim));
    var s5, a5 := Extend(s4, a4, ByProducer(Recheck));
    assert i in End(s5).owned && End(s5).producer.Idle?;
    assert End(s5).owned - {i} == s.owned;
    ss', acts' := Extend(s5, a5, ByProducer(StoreReady(i)));
    more := [ByProducer(BeginAcquire), ByProducer(Filter(0)), ByProducer(LoadState), ByProducer(Claim),
             ByProducer(Recheck), ByProducer(StoreReady(i))];
    assert acts' == acts + more;
    assert End(ss').slots == Offered(s, i).slots;
  }

  // Two empty frames, offered from either slot in turn.
  const EMPTY_SLOT := Slot(Free, 0, [], 0)
  const NOBODY := Consumer(Resting, 0, 0, 0, 0, 0)

  // Frame 0 is published in slot 1, frame 1 in slot 0, and frame 2 in slot 1 up to its first
  // store. Meanwhile consumer 0 has loaded last_ready while it designated slot 1.
  const STALE := NOBODY.(pc := Aimed, idx := 1, called := 1, loaded := 1)
  const TWO_PUBLISHED := State([Slot(Ready, 0, [], 1), Slot(Ready, 0, [], 2)], Some(0), 1, Publishing(1), {},
    [STALE, NOBODY], [[], [], []], 2, [Some(1), None])

  lemma StaleLoad() returns (ss: seq<State>, acts: seq<Step>)
    ensures Run(ss, acts) && 9 < |ss| && End(ss) == TWO_PUBLISHED
    ensures acts[8] == ByConsumer(0, LoadLast) && Avoids(acts, 0, LoadLast, 9, |acts|)
    ensures forall m :: 0 <= m < |ss| ==> |ss[m].consumers| == 2
  {
    ss, acts := FirstLoad();
    var upTo := acts;
    var more, again;
    ss, acts, more := Offer(ss, acts, 0);
    ss, acts := Extend(ss, acts, ByProducer(StoreLast));
    assert Ripe(End(ss), 1);
    ss, acts, again := Offer(ss, acts, 1);
    assert acts == upTo + more + [ByProducer(StoreLast)] + again;
    forall m | 0 <= m < |ss| ensures |ss[m].consumers| == 2 {
      RunGrows(ss, acts, 0, m);
    }
  }

  const ONE_PUBLISHED := State([EMPTY_SLOT, Slot(Ready, 0, [], 0)], Some(1), 1, Idle, {},
    [STALE, NOBODY], [[]], 1, [None, None])

  lemma FirstLoad() returns (ss: seq<State>, acts: seq<Step>)
    ensures Run(ss, acts) && |acts| == 9 && acts[8] == ByConsumer(0, LoadLast)
    ensures End(ss) == ONE_PUBLISHED && |ss[0].consumers| == 2
  {
    var start := State([EMPTY_SLOT, EMPTY_SLOT], None, 0, Idle, {}, [NOBODY, NOBODY], [], 0, []);
    var more;
    ss, acts, more := Offer([start], [], 1);
    ss, acts := Extend(ss, acts, ByProducer(StoreLast));
    ss, acts := Extend(ss, acts, ByConsumer(0, Call));
    ss, acts := Extend(ss, acts, ByConsumer(0, LoadLast));
  }

  // Consumer 0 validates the frame that is still being published.
  const HELD := NOBODY.(pc := Holding, idx := 1, called := 1, loaded := 1, seen := 2)
  const AHEAD := TWO_PUBLISHED.(slots := [Slot(Ready, 0, [], 1), Slot(Ready, 1, [], 2)], consumers := [HELD, NOBODY])

  lemma RetainsAhead() returns (ss: seq<State>, acts: seq<Step>, check: nat)
    ensures Retains(ss, acts, 0, 8, check) && |acts| == check + 1 && End(ss) == AHEAD && Returned(ss, 0, check) == 2
    ensures forall m :: 0 <= m < |ss| ==> |ss[m].consumers| == 2
  {
    ss, acts := StaleLoad();
    var ss0, acts0 := ss, acts;
    ss, acts := Extend(ss, acts, ByConsumer(0, Stake));
    check := |acts|;
    ss, acts := Extend(ss, acts, ByConsumer(0, Check));
    assert End(ss) == AHEAD;
    assert ss0 <= ss && acts0 <= acts;
  }

  lemma StillRetains(ss: seq<State>, acts: seq<Step>, ss': seq<State>, acts': seq<Step>, c: nat, load: nat, check: nat)
    requires Retains(ss, acts, c, load, check) && Path(ss', acts') && ss <= ss' && acts <= acts'
    ensures Retains(ss', acts', c, load, check) && Returned(ss', c, check) == Returned(ss, c, check)
  {
  }

  // Consumer 1 then starts, and gets the one before it.
  lemma RetainsBehind(ss: seq<State>, acts: seq<Step>)
    returns (ss': seq<State>, acts': seq<Step>, load: nat, check: nat)
    requires Run(ss, acts) && End(ss) == AHEAD
    ensures Path(ss', acts') && ss <= ss' && acts <= acts' && |acts| < load
    ensures Retains(ss', acts', 1, load, check) && Returned(ss', 1, check) == 1
  {
    ss', acts' := Extend(ss, acts, ByConsumer(1, Call));
    load := |acts'|;
    ss', acts' := Extend(ss', acts', ByConsumer(1, LoadLast));
    assert ss'[load] == End(ss'[..load + 1]);
    ss', acts' := Extend(ss', acts', ByConsumer(1, Stake));
    check := |acts'|;
    ss', acts' := Extend(ss', acts', ByConsumer(1, Check));
    assert End(ss').consumers[1].pc.Holding? && End(ss').consumers[1].seen == 1;
  }

  lemma RetainsCanGoBack() returns (ss: seq<State>, acts: seq<Step>, load: nat, check: nat, load': nat, check': nat)
    ensures Retains(ss, acts, 0, load, check) && Retains(ss, acts, 1, load', check') && check < load'
    ensures Returned(ss, 0, check) == 2 && Returned(ss, 1, check') == 1
  {
    load := 8;
    var ss0, acts0;
    ss0, acts0, check := RetainsAhead();
    ss, acts, load', check' := RetainsBehind(ss0, acts0);
    StillRetains(ss0, acts0, ss, acts, 0, load, check);
  }
}
