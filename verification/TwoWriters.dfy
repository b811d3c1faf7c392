/**
  Why a forwarded key needs one owner: whatever two values the two devices write at
  the same time, there is a run that ends with the values swapped for good.
*/
module TwoWriters {
  import opened Options
  import opened KvStore
  import opened LinkDevice
  import opened TwoDevices

  // ---- one device ------------------------------------------------------------------------

  function Fresh(k: Key): Device {
    Device({k}, EMPTY, [], [Get(k, 0)], [], multiset{}, [], [], [], [])
  }

  // A device whose link watches k, where `mine` was written by a client and everything
  // else is as given.
  function Holding(k: Key, kv: map<Key, Value>, down: seq<Push>, log: seq<Event>): Device {
    Device({k}, Store(kv, map[], map[k := {LINK}]), down, [], [], multiset{}, [], log, [], [])
  }

  lemma StartsUp(k: Key)
    ensures var d := Do(Fresh(k), DaemonTakes(0, 0)).0;
            && d == Holding(k, map[], [Reply(0, k, None)], [])
            && Do(d, LinkHears) == (Holding(k, map[], [], []), [])
  {
    var gone, reply := ExpiryTo(EMPTY, k, 0, LINK), Reply(0, k, None);
    assert Sent(EMPTY, LINK, Get(k, 0), 0, LINK) == gone + [reply] == [reply];
    assert Heard([reply]) == [] by { assert [reply][1..] == []; }
    assert Watching(EMPTY, k) == {} && {} + {LINK} == {LINK};
    assert Watch(EMPTY, k, LINK).watchers == map[k := {LINK}];
    assert [reply][1..] == [];
  }

  lemma WritesAndForwards(k: Key, mine: Value)
    ensures var d := Do(Holding(k, map[], [], []), Local(1, Set(k, mine), 0, 0)).0;
            && d == Holding(k, map[k := mine], [Update(k, mine)], [Assign(k, mine)])
            && Do(d, LinkHears) ==
               (Holding(k, map[k := mine], [], [Assign(k, mine)]).(forwarded := [Assign(k, mine)]), [Assign(k, mine)])
  {
    var update := Update(k, mine);
    assert [update][1..] == [] && [] + [update] == [update];
    assert Heard([update]) == [Assign(k, mine)];
    assert [] + [Assign(k, mine)] == [Assign(k, mine)];
    assert map[][k := mine] == map[k := mine];
  }

  // The device has forwarded its own value and has yet to fetch the other's.
  function Crossing(k: Key, mine: Value, other: Value): Device {
    Holding(k, map[k := mine], [], [Assign(k, mine)]).(forwarded := [Assign(k, mine)], inbox := [Assign(k, other)])
  }

  function Crossed(k: Key, mine: Value, other: Value): Device {
    Holding(k, map[k := other], [], [Assign(k, mine)])
      .(forwarded := [Assign(k, mine)], applied := [Assign(k, other)])
  }

  // Its link applies it, hears the echo and keeps it to itself.
  lemma TakesTheOther(k: Key, mine: Value, other: Value)
    ensures var d1 := Do(Crossing(k, mine, other), LinkFetches).0;
            && d1.holding == [Assign(k, other)]
            && var d2 := Do(d1, LinkSends).0;
            && d2.up == [Set(k, other)]
            && var d3 := Do(d2, DaemonTakes(0, 0)).0;
            && d3.down == [Update(k, other)]
            && Do(d3, LinkHears) == (Crossed(k, mine, other), [])
  {
    var e, d0 := Assign(k, other), Crossing(k, mine, other);
    var d1 := Do(d0, LinkFetches).0;
    assert d1 == d0.(inbox := [], echoes := multiset{e}, holding := [e]);
    var d2 := Do(d1, LinkSends).0;
    assert d2 == d0.(inbox := [], echoes := multiset{e}, up := [Set(k, other)]);
    assert Requested(d2.up[0]) == [e];
    var d3 := Do(d2, DaemonTakes(0, 0)).0;
    assert map[k := mine][k := other] == map[k := other] && d0.store.expires - {k} == map[];
    assert Sent(d2.store, LINK, Set(k, other), 0, LINK) == [Update(k, other)];
    assert d3 == Crossed(k, mine, other).(echoes := multiset{e}, down := [Update(k, other)]);
    assert multiset{e} - multiset{e} == multiset{} && d3.down[1..] == [] && Carried(d3.down[0]) == [e];
    assert Hear(d3) == (Crossed(k, mine, other), []);
  }

  // ---- the pair --------------------------------------------------------------------------

  // One more move at the end of a run that has come to p.
  lemma Extend(ps: seq<Pair>, ms: seq<Move>, p: Pair, m: Move) returns (ps': seq<Pair>, ms': seq<Move>)
    requires Run(ps, ms) && ps[|ps| - 1] == p && CanMove(p, m) && !m.step.SweepAt?
    ensures Run(ps', ms') && ps'[|ps'| - 1] == Made(p, m) && ps'[0] == ps[0] && ms' == ms + [m]
  {
    ms', ps' := ms + [m], ps + [Made(p, m)];
    forall i: nat | i < |ms'| ensures MoveAt(ps', ms', i) {
      if i < |ms| {
        assert MoveAt(ps, ms, i);
      }
    }
  }

  lemma BothStart(k: Key) returns (ps: seq<Pair>, ms: seq<Move>)
    ensures Run(ps, ms) && ps[|ps| - 1] == Pair(Holding(k, map[], [], []), Holding(k, map[], [], []))
  {
    StartsUp(k);
    var d, heard, ready := Fresh(k), Holding(k, map[], [Reply(0, k, None)], []), Holding(k, map[], [], []);
    assert Deliver(ready, []) == ready && Deliver(d, []) == d;
    assert Started(d) by { assert d.up[0] == Get(k, 0); }
    ps, ms := [Pair(d, d)], [];
    ps, ms := Extend(ps, ms, Pair(d, d), Move(true, DaemonTakes(0, 0)));
    ps, ms := Extend(ps, ms, Pair(heard, d), Move(true, LinkHears));
    ps, ms := Extend(ps, ms, Pair(ready, d), Move(false, DaemonTakes(0, 0)));
    ps, ms := Extend(ps, ms, Pair(ready, heard), Move(false, LinkHears));
  }

  lemma BothWrite(k: Key, x: Value, y: Value) returns (ps: seq<Pair>, ms: seq<Move>)
    ensures Run(ps, ms) && ps[|ps| - 1] == Pair(Crossing(k, x, y), Crossing(k, y, x))
  {
    WritesAndForwards(k, x);
    WritesAndForwards(k, y);
    var ready := Holding(k, map[], [], []);
    var wx := Holding(k, map[k := x], [Update(k, x)], [Assign(k, x)]);
    var wy := Holding(k, map[k := y], [Update(k, y)], [Assign(k, y)]);
    var fx := Holding(k, map[k := x], [], [Assign(k, x)]).(forwarded := [Assign(k, x)]);
    ps, ms := BothStart(k);
    ps, ms := Extend(ps, ms, Pair(ready, ready), Move(true, Local(1, Set(k, x), 0, 0)));
    ps, ms := Extend(ps, ms, Pair(wx, ready), Move(false, Local(1, Set(k, y), 0, 0)));
    ps, ms := Extend(ps, ms, Pair(wx, wy), Move(true, LinkHears));
    ps, ms := Extend(ps, ms, Pair(fx, Deliver(wy, [Assign(k, x)])), Move(false, LinkHears));
    HearIgnoresInbox(wy, [Assign(k, x)]);
  }

  lemma HearIgnoresInbox(d: Device, es: seq<Event>)
    requires d.down != []
    ensures Hear(Deliver(d, es)) == (Deliver(Hear(d).0, es), Hear(d).1)
  {
  }

  // Four moves of one device, the other standing still.
  lemma OneSettles(ps: seq<Pair>, ms: seq<Move>, left: bool, k: Key, mine: Value, other: Value, still: Device)
    returns (ps': seq<Pair>, ms': seq<Move>)
    requires Run(ps, ms)
    requires ps[|ps| - 1] ==
             if left then Pair(Crossing(k, mine, other), still) else Pair(still, Crossing(k, mine, other))
    ensures Run(ps', ms')
    ensures ps'[|ps'| - 1] ==
            if left then Pair(Crossed(k, mine, other), still) else Pair(still, Crossed(k, mine, other))
  {
    TakesTheOther(k, mine, other);
    var d0 := Crossing(k, mine, other);
    var d1 := Do(d0, LinkFetches).0;
    var d2 := Do(d1, LinkSends).0;
    var d3 := Do(d2, DaemonTakes(0, 0)).0;
    assert Deliver(still, []) == still by { assert still.inbox + [] == still.inbox; }
    ps', ms' := Extend(ps, ms, Side(left, d0, still), Move(left, LinkFetches));
    ps', ms' := Extend(ps', ms', Side(left, d1, still), Move(left, LinkSends));
    ps', ms' := Extend(ps', ms', Side(left, d2, still), Move(left, DaemonTakes(0, 0)));
    ps', ms' := Extend(ps', ms', Side(left, d3, still), Move(left, LinkHears));
  }

  function Side(left: bool, d: Device, still: Device): Pair {
    if left then Pair(d, still) else Pair(still, d)
  }

  // Both devices write k at the same time: A ends with B's value and B with A's, and with
  // nothing on its way that could change it.
  lemma WritersCanSwap(k: Key, x: Value, y: Value) returns (ps: seq<Pair>, ms: seq<Move>)
    ensures Run(ps, ms) && Quiet(ps[|ps| - 1])
    ensures Lookup(ps[|ps| - 1].a.store.kv, k) == Some(y)
    ensures Lookup(ps[|ps| - 1].b.store.kv, k) == Some(x)
  {
    ps, ms := BothWrite(k, x, y);
    ps, ms := OneSettles(ps, ms, true, k, x, y, Crossing(k, y, x));
    ps, ms := OneSettles(ps, ms, false, k, y, x, Crossed(k, x, y));
  }
}
