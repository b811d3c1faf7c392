/**
  What a key that only one device writes needs besides: that the other one does not
  hold it when the links connect. A value left there from before is forwarded like any
  other, and takes the place of the owner's.
*/
module Leftovers {
  import opened Options
  import opened KvStore
  import opened LinkDevice
  import opened TwoDevices
  import opened Replication
  import opened TwoWriters

  // ---- runs made longer -------------------------------------------------------------------

  // The later moves are only those of the daemons for the links, and of the links.
  predicate OnlyCarried(ms: seq<Move>, ms': seq<Move>) {
    && ms <= ms'
    && forall i :: |ms| <= i < |ms'| ==> !ms'[i].step.Local? && !ms'[i].step.SweepAt? && !ms'[i].step.Depart?
  }

  lemma CarriedOn(a: seq<Move>, b: seq<Move>, c: seq<Move>)
    requires OnlyCarried(a, b) && OnlyCarried(b, c)
    ensures OnlyCarried(a, c)
  {
  }

  function End(ps: seq<Pair>): Pair
    requires ps != []
  {
    ps[|ps| - 1]
  }

  function Mine(p: Pair, left: bool): Device {
    if left then p.a else p.b
  }

  // One more step of one device.
  lemma Go(ps: seq<Pair>, ms: seq<Move>, left: bool, s: Step) returns (ps': seq<Pair>, ms': seq<Move>)
    requires Run(ps, ms) && Can(Mine(End(ps), left), s) && !s.Local? && !s.SweepAt? && !s.Depart?
    ensures Run(ps', ms') && ps'[0] == ps[0] && OnlyCarried(ms, ms')
    ensures var (d, out) := Do(Mine(End(ps), left), s);
            End(ps') == Side(left, d, Deliver(Mine(End(ps), !left), out))
  {
    ps', ms' := Extend(ps, ms, End(ps), Move(left, s));
  }

  // ---- the startup gets -------------------------------------------------------------------

  // Every change of k in these frames is the same assignment.
  predicate OnlyTells(down: seq<Push>, k: Key, v: Value) {
    forall i :: 0 <= i < |OnKey(Heard(down), k)| ==> OnKey(Heard(down), k)[i] == Assign(k, v)
  }

  predicate AsksFor(up: seq<Verb>, k: Key) {
    exists i :: 0 <= i < |up| && up[i].Get? && up[i].key == k
  }

  // A device whose link has sent only gets so far, and been told of k nothing but v.
  predicate Starting(d: Device, k: Key, v: Value, now: Time) {
    && (forall i :: 0 <= i < |d.up| ==> d.up[i].Get?)
    && d.holding == [] && d.echoes == multiset{}
    && Lookup(d.store.kv, k) == Some(v) && !Expired(d.store, k, now)
    && OnlyTells(d.down, k, v)
    && (AsksFor(d.up, k) || OnKey(Heard(d.down), k) != [])
  }

  lemma GetTellsValue(s: Store, g: Verb, now: Time, k: Key, v: Value)
    requires g.Get? && Lookup(s.kv, k) == Some(v) && !Expired(s, k, now)
    ensures OnKey(Heard(Sent(s, LINK, g, now, LINK)), k) == if g.key == k then [Assign(k, v)] else []
    ensures var s' := After(s, LINK, g, now, now);
            Lookup(s'.kv, k) == Some(v) && !Expired(s', k, now)
  {
    if g.key == k {
      var reply := Reply(g.ask, k, Some(v));
      assert Sent(s, LINK, g, now, LINK) == [reply] && [reply][1..] == [];
      OnKeyOne(Assign(k, v), k);
    } else {
      NoneOfIt(s, LINK, g, now, k);
    }
  }

  lemma TakesGet(d: Device, k: Key, v: Value, now: Time)
    requires Starting(d, k, v, now) && d.up != []
    ensures var (d', out) := Do(d, DaemonTakes(now, now));
            && out == [] && Starting(d', k, v, now) && d'.up == d.up[1..]
            && d'.inbox == d.inbox && d'.keys == d.keys
  {
    var g := d.up[0];
    var more := Sent(d.store, LINK, g, now, LINK);
    GetTellsValue(d.store, g, now, k, v);
    TellsMore(d.down, more, k, v);
    if AsksFor(d.up, k) {
      AsksForRest(d.up, k);
    }
    assert Requested(g) == [];
  }

  lemma TellsMore(down: seq<Push>, more: seq<Push>, k: Key, v: Value)
    requires OnlyTells(down, k, v) && OnKey(Heard(more), k) in {[], [Assign(k, v)]}
    ensures OnlyTells(down + more, k, v)
    ensures OnKey(Heard(down + more), k) == [] <==> OnKey(Heard(down), k) == [] && OnKey(Heard(more), k) == []
  {
    HeardConcat(down, more);
    OnKeyConcat(Heard(down), Heard(more), k);
  }

  lemma AsksForRest(up: seq<Verb>, k: Key)
    requires AsksFor(up, k)
    ensures AsksFor(up[1..], k) || (up[0].Get? && up[0].key == k)
  {
    var i :| 0 <= i < |up| && up[i].Get? && up[i].key == k;
    assert i > 0 ==> up[1..][i - 1] == up[i];
  }

  lemma {:induction false} TakesGets(ps: seq<Pair>, ms: seq<Move>, left: bool, k: Key, v: Value, now: Time)
    returns (ps': seq<Pair>, ms': seq<Move>)
    requires Run(ps, ms) && Starting(Mine(End(ps), left), k, v, now)
    ensures Run(ps', ms') && ps'[0] == ps[0] && OnlyCarried(ms, ms')
    ensures Mine(End(ps'), !left) == Mine(End(ps), !left)
    ensures var d, d' := Mine(End(ps), left), Mine(End(ps'), left);
            Starting(d', k, v, now) && d'.up == [] && d'.inbox == d.inbox && d'.keys == d.keys
    decreases |Mine(End(ps), left).up|
  {
    var d := Mine(End(ps), left);
    if d.up == [] {
      ps', ms' := ps, ms;
    } else {
      TakesGet(d, k, v, now);
      var ps1, ms1 := Go(ps, ms, left, DaemonTakes(now, now));
      assert Deliver(Mine(End(ps), !left), []) == Mine(End(ps), !left) by {
        assert Mine(End(ps), !left).inbox + [] == Mine(End(ps), !left).inbox;
      }
      ps', ms' := TakesGets(ps1, ms1, left, k, v, now);
      CarriedOn(ms, ms1, ms');
    }
  }

  // ---- everything is forwarded ------------------------------------------------------------

  lemma {:induction false} HearsAll(ps: seq<Pair>, ms: seq<Move>, left: bool) returns (ps': seq<Pair>, ms': seq<Move>)
    requires Run(ps, ms) && Mine(End(ps), left).echoes == multiset{}
    ensures Run(ps', ms') && ps'[0] == ps[0] && OnlyCarried(ms, ms')
    ensures var d, d' := Mine(End(ps), left), Mine(End(ps'), left);
            && d' == d.(down := [], forwarded := d'.forwarded)
            && Mine(End(ps'), !left) == Deliver(Mine(End(ps), !left), Heard(d.down))
    decreases |Mine(End(ps), left).down|
  {
    var d, e := Mine(End(ps), left), Mine(End(ps), !left);
    if d.down == [] {
      assert e.inbox + [] == e.inbox;
      ps', ms' := ps, ms;
    } else {
      var ps1, ms1 := Go(ps, ms, left, LinkHears);
      var out := Carried(d.down[0]);
      assert Hear(d).1 == out;
      ps', ms' := HearsAll(ps1, ms1, left);
      assert Heard(d.down) == out + Heard(d.down[1..]);
      Regroup(e.inbox, out, Heard(d.down[1..]));
      CarriedOn(ms, ms1, ms');
    }
  }

  // ---- and applied ------------------------------------------------------------------------

  // Nothing on its way but what the peer sent.
  predicate Waiting(d: Device) {
    d.down == [] && d.up == [] && d.holding == [] && d.echoes == multiset{}
  }

  function Effect(kv: map<Key, Value>, e: Event): map<Key, Value> {
    match e
    case Assign(k, v) => kv[k := v]
    case Erase(k) => kv - {k}
  }

  // Fetched, sent, handled, and its echo heard.
  lemma AppliesOne(ps: seq<Pair>, ms: seq<Move>, left: bool) returns (ps': seq<Pair>, ms': seq<Move>)
    requires Run(ps, ms) && Waiting(Mine(End(ps), left)) && Mine(End(ps), left).inbox != []
    ensures Run(ps', ms') && ps'[0] == ps[0] && OnlyCarried(ms, ms')
    ensures Mine(End(ps'), !left) == Mine(End(ps), !left)
    ensures var d, d' := Mine(End(ps), left), Mine(End(ps'), left);
            && Waiting(d') && d'.inbox == d.inbox[1..] && d'.keys == d.keys
            && d'.store.kv == if d.inbox[0].key in d.keys then Effect(d.store.kv, d.inbox[0]) else d.store.kv
  {
    var d, e := Mine(End(ps), left), Mine(End(ps), !left);
    assert Deliver(e, []) == e by { assert e.inbox + [] == e.inbox; }
    RunInv(ps, ms, |ps| - 1);
    AppliesEvent(d);
    ps', ms' := Go(ps, ms, left, LinkFetches);
    if d.inbox[0].key in d.keys {
      var ms1 := ms';
      ps', ms' := Go(ps', ms', left, LinkSends);
      CarriedOn(ms, ms1, ms');
      ms1 := ms';
      ps', ms' := Go(ps', ms', left, DaemonTakes(0, 0));
      CarriedOn(ms, ms1, ms');
      ms1 := ms';
      ps', ms' := Go(ps', ms', left, LinkHears);
      CarriedOn(ms, ms1, ms');
    }
  }

  lemma AppliesEvent(d: Device)
    requires Waiting(d) && d.inbox != [] && GetsFirst(d)
    ensures d.inbox[0].key in d.keys ==>
      var d1 := Do(d, LinkFetches).0;
      && d1.holding == [d.inbox[0]]
      && var d2 := Do(d1, LinkSends).0;
      && d2.up == [VerbOf(d.inbox[0])]
      && var d3 := Do(d2, DaemonTakes(0, 0)).0;
      && d3.down != []
      && var (d4, out) := Do(d3, LinkHears);
      && out == [] && Waiting(d4) && d4.inbox == d.inbox[1..] && d4.keys == d.keys
      && d4.store.kv == Effect(d.store.kv, d.inbox[0])
  {
    var e := d.inbox[0];
    if e.key in d.keys {
      var d1 := Do(d, LinkFetches).0;
      assert d1 == d.(inbox := d.inbox[1..], echoes := multiset{e}, holding := [e]);
      var d2 := Do(d1, LinkSends).0;
      assert d2 == d.(inbox := d.inbox[1..], echoes := multiset{e}, up := [VerbOf(e)]);
      assert Requested(d2.up[0]) == [e];
      var push := if e.Assign? then Update(e.key, e.value) else Gone(e.key);
      assert LINK in Watching(d.store, e.key);
      assert Sent(d2.store, LINK, VerbOf(e), 0, LINK) == [push];
      var d3 := Do(d2, DaemonTakes(0, 0)).0;
      assert d3.down == [push] && d3.echoes == multiset{e} && Carried(push) == [e] && [push][1..] == [];
      assert d3.store.kv == Effect(d.store.kv, e) && d3.up == [] && d3.holding == [];
      assert multiset{e} - multiset{e} == multiset{};
    }
  }

  lemma {:induction false} AppliesAll(ps: seq<Pair>, ms: seq<Move>, left: bool, k: Key)
    returns (ps': seq<Pair>, ms': seq<Move>)
    requires Run(ps, ms) && Waiting(Mine(End(ps), left)) && k in Mine(End(ps), left).keys
    ensures Run(ps', ms') && ps'[0] == ps[0] && OnlyCarried(ms, ms')
    ensures Mine(End(ps'), !left) == Mine(End(ps), !left) && Still(Mine(End(ps'), left))
    ensures var d, d' := Mine(End(ps), left), Mine(End(ps'), left);
            Lookup(d'.store.kv, k) == Latest(Lookup(d.store.kv, k), OnKey(d.inbox, k))
    decreases |Mine(End(ps), left).inbox|
  {
    var d := Mine(End(ps), left);
    if d.inbox == [] {
      ps', ms' := ps, ms;
    } else {
      var ps1, ms1 := AppliesOne(ps, ms, left);
      ps', ms' := AppliesAll(ps1, ms1, left, k);
      CarriedOn(ms, ms1, ms');
      EffectIsLatest(d.store.kv, d.inbox[0], d.inbox[1..], k);
    }
  }

  lemma EffectIsLatest(kv: map<Key, Value>, e: Event, rest: seq<Event>, k: Key)
    ensures Latest(if e.key == k then Lookup(Effect(kv, e), k) else Lookup(kv, k), OnKey(rest, k)) ==
            Latest(Lookup(kv, k), OnKey([e] + rest, k))
    ensures e.key != k ==> Lookup(Effect(kv, e), k) == Lookup(kv, k)
  {
    OnKeyConcat([e], rest, k);
    OnKeyOne(e, k);
    assert [e] + OnKey(rest, k) == OnKey([e], k) + OnKey(rest, k) || e.key != k;
  }

  // ---- two devices that both hold the key when the links connect --------------------------

  // A moment at which k has not expired.
  function Before(s: Store, k: Key): Time {
    if k in s.expires then s.expires[k] - 1 else 0
  }

  lemma AllTellsLatest(d: Device, k: Key, v: Value, now: Time, x: Option<Value>)
    requires Starting(d, k, v, now) && d.up == []
    ensures Latest(x, OnKey(Heard(d.down), k)) == Some(v)
  {
  }

  lemma Swaps(ps: seq<Pair>, ms: seq<Move>, k: Key, x: Value, y: Value, now: Time, now': Time)
    returns (ps': seq<Pair>, ms': seq<Move>)
    requires Run(ps, ms) && Starting(End(ps).a, k, x, now) && Starting(End(ps).b, k, y, now')
    requires k in End(ps).a.keys && k in End(ps).b.keys && End(ps).a.inbox == [] && End(ps).b.inbox == []
    ensures Run(ps', ms') && ps'[0] == ps[0] && OnlyCarried(ms, ms') && Quiet(End(ps'))
    ensures Lookup(End(ps').a.store.kv, k) == Some(y) && Lookup(End(ps').b.store.kv, k) == Some(x)
  {
    var ps1, ms1 := TakesGets(ps, ms, true, k, x, now);
    var ps2, ms2 := TakesGets(ps1, ms1, false, k, y, now');
    CarriedOn(ms, ms1, ms2);
    var a, b := End(ps2).a, End(ps2).b;
    AllTellsLatest(a, k, x, now, Lookup(b.store.kv, k));
    AllTellsLatest(b, k, y, now', Lookup(a.store.kv, k));
    assert [] + Heard(a.down) == Heard(a.down) && [] + Heard(b.down) == Heard(b.down);
    ps', ms' := Exchange(ps2, ms2, k);
    CarriedOn(ms, ms2, ms');
  }

  // Both links forward what they were told, and both apply what they get.
  lemma Exchange(ps: seq<Pair>, ms: seq<Move>, k: Key) returns (ps': seq<Pair>, ms': seq<Move>)
    requires Run(ps, ms)
    requires var p := End(ps);
             && k in p.a.keys && k in p.b.keys && p.a.inbox == [] && p.b.inbox == []
             && p.a.up == [] && p.a.holding == [] && p.a.echoes == multiset{}
             && p.b.up == [] && p.b.holding == [] && p.b.echoes == multiset{}
    ensures Run(ps', ms') && ps'[0] == ps[0] && OnlyCarried(ms, ms') && Quiet(End(ps'))
    ensures var p, p' := End(ps), End(ps');
            && Lookup(p'.a.store.kv, k) == Latest(Lookup(p.a.store.kv, k), OnKey([] + Heard(p.b.down), k))
            && Lookup(p'.b.store.kv, k) == Latest(Lookup(p.b.store.kv, k), OnKey([] + Heard(p.a.down), k))
  {
    var ps1, ms1 := HearsAll(ps, ms, true);
    var ps2, ms2 := HearsAll(ps1, ms1, false);
    CarriedOn(ms, ms1, ms2);
    var ps3, ms3 := AppliesAll(ps2, ms2, true, k);
    CarriedOn(ms, ms2, ms3);
    ps', ms' := AppliesAll(ps3, ms3, false, k);
    CarriedOn(ms, ms3, ms');
  }

  lemma StartsStarting(d: Device, k: Key, v: Value)
    requires Started(d) && k in d.keys && Lookup(d.store.kv, k) == Some(v)
    ensures Starting(d, k, v, Before(d.store, k)) && d.inbox == []
  {
  }

  // Nobody writes k, or anything else: the links connect while A holds x and B holds y, and
  // when all is quiet A holds y and B holds x.
  lemma LeftoverIsSwapped(p: Pair, k: Key, x: Value, y: Value) returns (ps: seq<Pair>, ms: seq<Move>)
    requires Started(p.a) && Started(p.b) && k in p.a.keys && k in p.b.keys
    requires Lookup(p.a.store.kv, k) == Some(x) && Lookup(p.b.store.kv, k) == Some(y)
    ensures Run(ps, ms) && ps[0] == p && OnlyCarried([], ms) && Quiet(End(ps))
    ensures Lookup(End(ps).a.store.kv, k) == Some(y) && Lookup(End(ps).b.store.kv, k) == Some(x)
  {
    StartsStarting(p.a, k, x);
    StartsStarting(p.b, k, y);
    ps, ms := Swaps([p], [], k, x, y, Before(p.a.store, k), Before(p.b.store, k));
  }

  // ---- the condition ----------------------------------------------------------------------

  // A run from p in which nobody on B writes k.
  ghost predicate OwnedRun(ps: seq<Pair>, ms: seq<Move>, p: Pair, k: Key) {
    Run(ps, ms) && ps[0] == p && forall i: nat :: i < |ms| ==> AllowedAt(ms, k, i)
  }

  predicate Agree(p: Pair, k: Key) {
    Lookup(p.a.store.kv, k) == Lookup(p.b.store.kv, k)
  }

  // A's client writes some other value than B has left, before anything else happens.
  lemma WriteDiffers(p: Pair, k: Key) returns (ps: seq<Pair>, ms: seq<Move>)
    requires Started(p.a) && Started(p.b) && k in p.a.keys && k in p.b.keys && k in p.b.store.kv
    ensures OwnedRun(ps, ms, p, k) && Quiet(End(ps)) && !Agree(End(ps), k)
  {
    var y := p.b.store.kv[k];
    var x: Value := if y == [] then [0] else [];
    var m := Move(true, Local(1, Set(k, x), 0, 0));
    var a := p.a.(store := Put(p.a.store, k, x, 0, 0));
    assert Heard([]) == [] && p.a.down + [] == p.a.down && p.a.log + [] == p.a.log && p.b.inbox + [] == p.b.inbox;
    assert Do(p.a, m.step) == (a, []);
    ps, ms := Extend([p], [], p, m);
    assert End(ps) == Pair(a, p.b);
    StartsStarting(p.b, k, y);
    assert Starting(a, k, x, 0);
    var ms1 := ms;
    ps, ms := Swaps(ps, ms, k, x, y, 0, Before(p.b.store, k));
    forall i: nat | i < |ms| ensures AllowedAt(ms, k, i) {
      assert i == 0 ==> ms[i] == ms1[i];
    }
  }

  // The stores of a key that only A writes agree at rest, in every run from these devices, if
  // and only if B does not hold it when the links connect.
  lemma OwnedStoresAgreeIffAbsent(p: Pair, k: Key)
    requires Started(p.a) && Started(p.b) && k in p.a.keys && k in p.b.keys && DeadlinesHaveKeys(p.b.store)
    ensures (forall ps, ms :: OwnedRun(ps, ms, p, k) && Quiet(End(ps)) ==> Agree(End(ps), k)) <==>
            k !in p.b.store.kv
  {
    if k in p.b.store.kv {
      var ps, ms := WriteDiffers(p, k);
    } else {
      forall ps, ms | OwnedRun(ps, ms, p, k) && Quiet(End(ps)) ensures Agree(End(ps), k) {
        SettledStoresAgree(ps, ms, k, |ps| - 1);
      }
    }
  }
}
