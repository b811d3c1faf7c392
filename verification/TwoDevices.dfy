/**
  Two devices joined by a pair of links (include/link.hpp): what one link sends
  is, in order, what the other one fetches. Any interleaving of the two daemons,
  the two links and everybody else is a run.
*/
module TwoDevices {
  import opened Options
  import opened KvStore
  import opened LinkDevice

  datatype Pair = Pair(a: Device, b: Device)
  datatype Move = Move(left: bool, step: Step)

  function Acting(p: Pair, m: Move): Device {
    if m.left then p.a else p.b
  }

  function Deliver(d: Device, es: seq<Event>): Device {
    d.(inbox := d.inbox + es)
  }

  predicate CanMove(p: Pair, m: Move) {
    Can(Acting(p, m), m.step)
  }

  function Made(p: Pair, m: Move): Pair
    requires CanMove(p, m)
  {
    var (d, out) := Do(Acting(p, m), m.step);
    if m.left then Pair(d, Deliver(p.b, out)) else Pair(Deliver(p.a, out), d)
  }

  ghost predicate Follows(p: Pair, m: Move, p': Pair) {
    CanMove(p, m) && SweepsDue(Acting(p, m), m.step) && p' == Made(p, m)
  }

  ghost predicate MoveAt(ps: seq<Pair>, ms: seq<Move>, i: nat)
    requires |ps| == |ms| + 1 && i < |ms|
  {
    Follows(ps[i], ms[i], ps[i + 1])
  }

  // A run from the moment both links have connected.
  ghost predicate Run(ps: seq<Pair>, ms: seq<Move>) {
    && |ps| == |ms| + 1
    && Started(ps[0].a) && Started(ps[0].b)
    && forall i: nat :: i < |ms| ==> MoveAt(ps, ms, i)
  }

  // ---- what crosses the link, and in which order ------------------------------------

  // The part of es that is about k.
  function OnKey(es: seq<Event>, k: Key): seq<Event> {
    if es == [] then [] else (if es[0].key == k then [es[0]] else []) + OnKey(es[1..], k)
  }

  lemma {:induction false} OnKeyConcat(a: seq<Event>, b: seq<Event>, k: Key)
    ensures OnKey(a + b, k) == OnKey(a, k) + OnKey(b, k)
    decreases |a|
  {
    if a == [] {
      assert a + b == b;
    } else {
      assert (a + b)[1..] == a[1..] + b;
      OnKeyConcat(a[1..], b, k);
      Regroup(if a[0].key == k then [a[0]] else [], OnKey(a[1..], k), OnKey(b, k));
    }
  }

  lemma OnKeyOne(e: Event, k: Key)
    ensures OnKey([e], k) == if e.key == k then [e] else []
  {
    assert [e][1..] == [];
  }

  // Everything that came from the peer, by how far it got: handled by the daemon,
  // sent to it, about to be sent, still to be fetched.
  function Received(d: Device): seq<Event> {
    d.applied + Asked(d.up) + d.holding + d.inbox
  }

  // No step loses, adds or reorders what was received for a key this link carries.
  lemma StepKeepsReceived(d: Device, s: Step, k: Key)
    requires GetsFirst(d) && Can(d, s) && k in d.keys
    ensures OnKey(Received(Do(d, s).0), k) == OnKey(Received(d), k)
  {
    match s
    case DaemonTakes(now, later) => TakingKeepsReceived(d, now, later);
    case LinkFetches => FetchKeepsReceived(d, k);
    case LinkSends => SendKeepsReceived(d);
    case _ => assert Received(Do(d, s).0) == Received(d);
  }

  lemma TakingKeepsReceived(d: Device, now: Time, later: Time)
    requires d.up != []
    ensures Received(Do(d, DaemonTakes(now, later)).0) == Received(d)
  {
    var d' := Do(d, DaemonTakes(now, later)).0;
    var asked := Requested(d.up[0]);
    assert Asked(d.up) == asked + Asked(d.up[1..]);
    assert d'.applied == d.applied + asked;
    assert d.applied + (asked + Asked(d.up[1..])) == (d.applied + asked) + Asked(d.up[1..]);
  }

  lemma Regrouped(done: seq<Event>, asked: seq<Event>, e: Event, rest: seq<Event>)
    ensures done + (asked + [e]) + [] + rest == done + asked + [e] + rest
  {
    assert done + (asked + [e]) + [] == done + asked + [e];
  }

  lemma SendKeepsReceived(d: Device)
    requires |d.holding| == 1
    ensures Received(Do(d, LinkSends).0) == Received(d)
  {
    var d', e := Do(d, LinkSends).0, d.holding[0];
    assert Asked(d'.up) == Asked(d.up) + [e] by {
      AskedConcat(d.up, [VerbOf(e)]);
      assert Asked([VerbOf(e)]) == [e] by { assert [VerbOf(e)][1..] == []; }
    }
    Regrouped(d.applied, Asked(d.up), e, d.inbox);
    assert d.holding == [e] && d'.holding == [];
  }

  lemma FetchKeepsReceived(d: Device, k: Key)
    requires Can(d, LinkFetches) && k in d.keys
    ensures OnKey(Received(Do(d, LinkFetches).0), k) == OnKey(Received(d), k)
  {
    var d', e, done := Do(d, LinkFetches).0, d.inbox[0], d.applied + Asked(d.up);
    assert d.inbox == [e] + d'.inbox;
    if e.key in d.keys {
      assert Received(d') == Received(d);
    } else {
      assert Received(d) == done + ([e] + d'.inbox);
      assert Received(d') == done + d'.inbox;
      OnKeyConcat(done, [e] + d'.inbox, k);
      OnKeyConcat(done, d'.inbox, k);
      OnKeyConcat([e], d'.inbox, k);
      OnKeyOne(e, k);
    }
  }

  lemma StepForwards(d: Device, s: Step)
    requires Can(d, s)
    ensures var (d', out) := Do(d, s);
            d'.forwarded == d.forwarded + out && d'.keys == d.keys
  {
  }

  // What `to` received of key k is what `from` forwarded of it, in the same order.
  ghost predicate Transit(from: Device, to: Device) {
    forall k :: k in to.keys ==> OnKey(from.forwarded, k) == OnKey(Received(to), k)
  }

  ghost predicate PairInv(p: Pair) {
    Inv(p.a) && Inv(p.b) && Transit(p.a, p.b) && Transit(p.b, p.a)
  }

  lemma StepTransit(d: Device, s: Step, peer: Device)
    requires Inv(d) && Can(d, s) && Transit(d, peer) && Transit(peer, d)
    ensures var (d', out) := Do(d, s);
            Transit(d', Deliver(peer, out)) && Transit(peer, d')
  {
    var (d', out) := Do(d, s);
    StepForwards(d, s);
    forall k | k in peer.keys ensures OnKey(d'.forwarded, k) == OnKey(Received(Deliver(peer, out)), k) {
      OnKeyConcat(d.forwarded, out, k);
      OnKeyConcat(Received(peer), out, k);
      assert Received(Deliver(peer, out)) == Received(peer) + out;
    }
    forall k | k in d.keys ensures OnKey(peer.forwarded, k) == OnKey(Received(d'), k) {
      StepKeepsReceived(d, s, k);
    }
  }

  lemma MoveInv(p: Pair, m: Move)
    requires PairInv(p) && CanMove(p, m)
    ensures PairInv(Made(p, m))
  {
    var out := Do(Acting(p, m), m.step).1;
    StepInv(Acting(p, m), m.step);
    if m.left {
      ArriveInv(p.b, out);
      StepTransit(p.a, m.step, p.b);
    } else {
      ArriveInv(p.a, out);
      StepTransit(p.b, m.step, p.a);
    }
  }

  lemma StartInv(p: Pair)
    requires Started(p.a) && Started(p.b)
    ensures PairInv(p)
  {
    StartedInv(p.a);
    StartedInv(p.b);
    AskedGets(p.a.up);
    AskedGets(p.b.up);
  }

  lemma {:induction false} RunInv(ps: seq<Pair>, ms: seq<Move>, i: nat)
    requires Run(ps, ms) && i < |ps|
    ensures PairInv(ps[i])
  {
    if i == 0 {
      StartInv(ps[0]);
    } else {
      RunInv(ps, ms, i - 1);
      assert MoveAt(ps, ms, i - 1);
      MoveInv(ps[i - 1], ms[i - 1]);
    }
  }

  // ---- no ping-pong ---------------------------------------------------------------------

  // Nothing is on its way in or out of the device's link.
  predicate Still(d: Device) {
    d.down == [] && d.up == [] && d.holding == [] && d.inbox == []
  }

  predicate Quiet(p: Pair) {
    Still(p.a) && Still(p.b)
  }

  // At every point of every run, on either device and for every event: no more
  // forwards than arrivals that were somebody else's doing. Once traffic has
  // ended no echo is still expected and the two are equal.
  lemma ForwardsAreArrivals(ps: seq<Pair>, ms: seq<Move>, i: nat, left: bool, e: Event)
    requires Run(ps, ms) && i < |ps|
    ensures var d := if left then ps[i].a else ps[i].b;
            && Count(d.forwarded, e) <= Count(d.log, e)
            && (Still(d) ==> d.echoes == multiset{} && Count(d.forwarded, e) == Count(d.log, e))
  {
    RunInv(ps, ms, i);
    var d := if left then ps[i].a else ps[i].b;
    assert Balanced(d, e);
    if Still(d) {
      forall x ensures d.echoes[x] == 0 {
        assert Balanced(d, x);
      }
    }
  }

  // A change made on one device is, once traffic has ended, applied on the other
  // exactly as often as it happened, if both links carry its key.
  lemma EveryChangeArrivesOnce(ps: seq<Pair>, ms: seq<Move>, i: nat, e: Event)
    requires Run(ps, ms) && i < |ps| && Quiet(ps[i])
    ensures var a, b := ps[i].a, ps[i].b;
            && (e.key in b.keys ==> Count(b.applied, e) == Count(a.log, e))
            && (e.key in a.keys ==> Count(a.applied, e) == Count(b.log, e))
  {
    RunInv(ps, ms, i);
    ForwardsAreArrivals(ps, ms, i, true, e);
    ForwardsAreArrivals(ps, ms, i, false, e);
    AllApplied(ps[i].a, ps[i].b, e);
    AllApplied(ps[i].b, ps[i].a, e);
  }

  lemma AllApplied(from: Device, to: Device, e: Event)
    requires Transit(from, to) && Still(to)
    ensures e.key in to.keys ==> Count(to.applied, e) == Count(from.forwarded, e)
  {
    assert Received(to) == to.applied;
    CountOnKey(from.forwarded, e);
    CountOnKey(to.applied, e);
  }

  lemma {:induction false} CountOnKey(es: seq<Event>, e: Event)
    ensures Count(es, e) == Count(OnKey(es, e.key), e)
  {
    if es != [] {
      var first := if es[0].key == e.key then [es[0]] else [];
      CountOnKey(es[1..], e);
      CountConcat(first, OnKey(es[1..], e.key), e);
      CountOne(es[0], e);
    }
  }

  ghost function PairMass(p: Pair): int {
    Mass(p.a) + Mass(p.b)
  }

  // A move that only carries traffic along.
  predicate Quietly(p: Pair, m: Move)
    requires CanMove(p, m)
  {
    Internal(Acting(p, m), m.step)
  }

  // How many frames a move makes the daemon send the link on another's account.
  function Stirred(p: Pair, m: Move): nat {
    var d := Acting(p, m);
    match m.step
    case Local(c, v, now, _) => |Sent(d.store, c, v, now, LINK)|
    case SweepAt(_, order) => |SweptTo(d.store, order, LINK)|
    case DaemonTakes(now, _) =>
      if d.up != [] && d.up[0].Get? then |Sent(d.store, LINK, d.up[0], now, LINK)| else 0
    case _ => 0
  }

  lemma MoveWeighs(p: Pair, m: Move)
    requires PairInv(p) && CanMove(p, m)
    ensures PairMass(Made(p, m)) + (if Quietly(p, m) then 1 else 0) <= PairMass(p) + 5 * Stirred(p, m)
  {
    var d, s := Acting(p, m), m.step;
    if Quietly(p, m) {
      InternalLightens(d, s);
    } else {
      StirringWeighs(d, m, p);
    }
  }

  lemma StirringWeighs(d: Device, m: Move, p: Pair)
    requires d == Acting(p, m) && GetsFirst(d) && CanMove(p, m) && !Quietly(p, m)
    ensures Do(d, m.step).1 == []
    ensures Mass(Do(d, m.step).0) <= Mass(d) + 5 * Stirred(p, m)
  {
    match m.step
    case Local(c, v, now, later) =>
      ForeignWeight(d, After(d.store, c, v, now, later), Sent(d.store, c, v, now, LINK));
    case SweepAt(now, order) =>
      ForeignWeight(d, Swept(d.store, now), SweptTo(d.store, order, LINK));
    case DaemonTakes(now, later) =>
      var store, more := After(d.store, LINK, d.up[0], now, later), Sent(d.store, LINK, d.up[0], now, LINK);
      ForeignWeight(d, store, more);
      assert Asked(d.up) == [] + Asked(d.up[1..]);
    case _ =>
  }

  predicate QuietAt(ps: seq<Pair>, ms: seq<Move>, i: nat)
    requires i < |ms| <= |ps|
  {
    CanMove(ps[i], ms[i]) && Quietly(ps[i], ms[i])
  }

  // The quiet moves among the first i, and the frames all of them stirred up.
  function QuietMoves(ps: seq<Pair>, ms: seq<Move>, i: nat): nat
    requires i <= |ms| <= |ps|
  {
    if i == 0 then 0 else QuietMoves(ps, ms, i - 1) + if QuietAt(ps, ms, i - 1) then 1 else 0
  }

  function AllStirred(ps: seq<Pair>, ms: seq<Move>, i: nat): nat
    requires i <= |ms| <= |ps|
  {
    if i == 0 then 0 else AllStirred(ps, ms, i - 1) + Stirred(ps[i - 1], ms[i - 1])
  }

  lemma MoveOfRunWeighs(ps: seq<Pair>, ms: seq<Move>, i: nat)
    requires Run(ps, ms) && i < |ms|
    ensures PairMass(ps[i + 1]) + (if QuietAt(ps, ms, i) then 1 else 0)
         <= PairMass(ps[i]) + 5 * Stirred(ps[i], ms[i])
    ensures QuietAt(ps, ms, i) ==> Stirred(ps[i], ms[i]) == 0
  {
    RunInv(ps, ms, i);
    assert MoveAt(ps, ms, i);
    MoveWeighs(ps[i], ms[i]);
  }

  lemma MassIsNatural(ps: seq<Pair>, ms: seq<Move>, i: nat)
    requires Run(ps, ms) && i < |ps|
    ensures PairMass(ps[i]) >= 0
  {
    RunInv(ps, ms, i);
    UnforwardedIsNatural(ps[i].a);
    UnforwardedIsNatural(ps[i].b);
  }

  // No ping-pong: over a whole run the traffic moves are bounded by what was there
  // at the start and what everybody else stirred up, however long the run.
  lemma {:induction false} NoPingPong(ps: seq<Pair>, ms: seq<Move>, i: nat)
    requires Run(ps, ms) && i < |ps|
    ensures 0 <= PairMass(ps[i])
    ensures PairMass(ps[i]) + QuietMoves(ps, ms, i) <= PairMass(ps[0]) + 5 * AllStirred(ps, ms, i)
  {
    MassIsNatural(ps, ms, i);
    if i > 0 {
      NoPingPong(ps, ms, i - 1);
      MoveOfRunWeighs(ps, ms, i - 1);
    }
  }

  // With nobody else moving, traffic ends within the mass it has now.
  lemma {:induction false} TrafficEnds(ps: seq<Pair>, ms: seq<Move>, i: nat, j: nat)
    requires Run(ps, ms) && i <= j < |ps|
    requires forall n: nat :: i <= n < j ==> QuietAt(ps, ms, n)
    ensures PairMass(ps[j]) >= 0
    ensures j - i <= PairMass(ps[i]) - PairMass(ps[j])
    decreases j - i
  {
    MassIsNatural(ps, ms, j);
    if i < j {
      TrafficEnds(ps, ms, i, j - 1);
      assert QuietAt(ps, ms, j - 1);
      MoveOfRunWeighs(ps, ms, j - 1);
    }
  }

  // And it ends only when everything has been carried: short of a startup get,
  // something can always move while anything is on its way.
  lemma NothingIsStuck(p: Pair)
    requires !Quiet(p)
    ensures exists m :: CanMove(p, m) && (Quietly(p, m) || m.step.DaemonTakes?)
  {
    var left := !Still(p.a);
    var d := if left then p.a else p.b;
    var s := if d.down != [] then LinkHears else if d.up != [] then DaemonTakes(0, 0)
             else if d.holding != [] then LinkSends else LinkFetches;
    assert CanMove(p, Move(left, s));
  }
}
