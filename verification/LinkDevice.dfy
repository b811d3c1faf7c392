/**
  One device of a linked pair: its daemon's store, the link process of
  include/link.hpp with its expected echoes, and the queues between the two.
  What one link sends to the other is the other device's inbox.
*/
module LinkDevice {
  import opened Options
  import opened KvStore

  // The link's connection to its own daemon.
  const LINK: Id := 0

  // A change of a key as it crosses the link: MSG_KV_SET or MSG_KV_DEL.
  datatype Event = Assign(key: Key, value: Value) | Erase(key: Key)

  // What a frame from the daemon asks the link to forward.
  function Carried(p: Push): seq<Event> {
    match p
    case Update(k, v) => [Assign(k, v)]
    case Reply(_, k, Some(v)) => [Assign(k, v)]
    case Gone(k) => [Erase(k)]
    case _ => []
  }

  // The events in frames from the daemon, and in frames to it.
  function Heard(ps: seq<Push>): seq<Event> {
    if ps == [] then [] else Carried(ps[0]) + Heard(ps[1..])
  }

  function Requested(v: Verb): seq<Event> {
    match v
    case Set(k, val) => [Assign(k, val)]
    case Del(k) => [Erase(k)]
    case _ => []
  }

  function Asked(vs: seq<Verb>): seq<Event> {
    if vs == [] then [] else Requested(vs[0]) + Asked(vs[1..])
  }

  function VerbOf(e: Event): Verb {
    match e
    case Assign(k, v) => Set(k, v)
    case Erase(k) => Del(k)
  }

  lemma {:induction false} HeardConcat(a: seq<Push>, b: seq<Push>)
    ensures Heard(a + b) == Heard(a) + Heard(b)
    decreases |a|
  {
    if a == [] {
      assert a + b == b;
    } else {
      assert (a + b)[1..] == a[1..] + b;
      HeardConcat(a[1..], b);
      Regroup(Carried(a[0]), Heard(a[1..]), Heard(b));
    }
  }

  lemma {:induction false} AskedConcat(a: seq<Verb>, b: seq<Verb>)
    ensures Asked(a + b) == Asked(a) + Asked(b)
    decreases |a|
  {
    if a == [] {
      assert a + b == b;
    } else {
      assert (a + b)[1..] == a[1..] + b;
      AskedConcat(a[1..], b);
      Regroup(Requested(a[0]), Asked(a[1..]), Asked(b));
    }
  }

  // down: frames from the daemon to the link; up: from the link to the daemon.
  // holding: a peer frame whose echo is already expected and that is about to be
  // sent up. inbox: frames from the peer link.
  // log: every event the daemon sent the link that was not the link's own doing,
  // in order. applied: the link's own writes the daemon has handled, in order.
  // forwarded: everything sent to the peer, in order.
  datatype Device = Device(
    keys: set<Key>,
    store: Store,
    down: seq<Push>,
    up: seq<Verb>,
    holding: seq<Event>,
    echoes: multiset<Event>,
    inbox: seq<Event>,
    log: seq<Event>,
    applied: seq<Event>,
    forwarded: seq<Event>)

  datatype Step =
    | Local(c: Id, v: Verb, now: Time, later: Time) // a verb of another client
    | SweepAt(now: Time, order: seq<Key>)
    | Depart(c: Id)
    | DaemonTakes(now: Time, later: Time)           // the daemon handles the link's next frame
    | LinkHears                                     // local_loop takes a frame
    | LinkFetches                                   // peer_loop takes a frame, expect_echo
    | LinkSends                                     // ... and sends it to the daemon

  predicate Can(d: Device, a: Step) {
    match a
    case Local(c, _, _, _) => c != LINK
    case SweepAt(_, _) => true
    case Depart(c) => c != LINK
    case DaemonTakes(_, _) => d.up != []
    case LinkHears => d.down != []
    case LinkFetches => d.inbox != [] && d.holding == []
    case LinkSends => d.holding != []
  }

  // A sweep meets exactly the due keys, in some order.
  ghost predicate SweepsDue(d: Device, a: Step) {
    a.SweepAt? ==> Enumerates(a.order, Due(d.store, a.now))
  }

  // The daemon's store moved on and the link was told, on another's account.
  function Foreign(d: Device, store: Store, more: seq<Push>): Device {
    d.(store := store, down := d.down + more, log := d.log + Heard(more))
  }

  // consume_echo, and what is sent to the peer if it finds none
  function Hear(d: Device): (r: (Device, seq<Event>))
    requires d.down != []
    ensures |r.1| <= 1
  {
    var rest := d.(down := d.down[1..]);
    var es := Carried(d.down[0]);
    if es == [] then (rest, [])
    else if es[0] in d.echoes then (rest.(echoes := d.echoes - multiset{es[0]}), [])
    else (rest.(forwarded := d.forwarded + [es[0]]), [es[0]])
  }

  // The device after a step, and what its link sends to the peer.
  function Do(d: Device, a: Step): (r: (Device, seq<Event>))
    requires Can(d, a)
    ensures |r.1| <= 1
  {
    match a
    case Local(c, v, now, later) =>
      (Foreign(d, After(d.store, c, v, now, later), Sent(d.store, c, v, now, LINK)), [])
    case SweepAt(now, order) =>
      (Foreign(d, Swept(d.store, now), SweptTo(d.store, order, LINK)), [])
    case Depart(c) => (d.(store := Left(d.store, c)), [])
    case DaemonTakes(now, later) =>
      var v := d.up[0];
      var store, more := After(d.store, LINK, v, now, later), Sent(d.store, LINK, v, now, LINK);
      if Requested(v) == [] then (Foreign(d, store, more).(up := d.up[1..]), [])
      else (d.(store := store, down := d.down + more, up := d.up[1..], applied := d.applied + Requested(v)), [])
    case LinkHears => Hear(d)
    case LinkFetches =>
      var e := d.inbox[0];
      var rest := d.(inbox := d.inbox[1..]);
      if e.key in d.keys
      then (rest.(echoes := d.echoes + multiset{e}, holding := [e]), [])
      else (rest, [])
    case LinkSends => (d.(up := d.up + [VerbOf(d.holding[0])], holding := []), [])
  }

  // The link has just connected: its startup gets are on their way, in order.
  ghost predicate Started(d: Device) {
    && (forall k :: k in d.keys ==> exists i :: 0 <= i < |d.up| && d.up[i].Get? && d.up[i].key == k)
    && (forall i :: 0 <= i < |d.up| ==> d.up[i].Get? && d.up[i].key in d.keys)
    && (forall k :: LINK !in Watching(d.store, k))
    && d.down == [] && d.holding == [] && d.inbox == [] && d.log == [] && d.applied == []
    && d.forwarded == [] && d.echoes == multiset{}
  }

  // ---- conservation -----------------------------------------------------------------

  function Count(es: seq<Event>, e: Event): nat {
    if es == [] then 0 else One(es[0], e) + Count(es[1..], e)
  }

  function One(x: Event, e: Event): nat {
    if x == e then 1 else 0
  }

  lemma {:induction false} CountConcat(a: seq<Event>, b: seq<Event>, e: Event)
    ensures Count(a + b, e) == Count(a, e) + Count(b, e)
    decreases |a|
  {
    if a == [] {
      assert a + b == b;
    } else {
      assert (a + b)[1..] == a[1..] + b;
      CountConcat(a[1..], b, e);
    }
  }

  lemma CountOne(x: Event, e: Event)
    ensures Count([x], e) == One(x, e)
  {
    assert [x][1..] == [];
  }

  lemma {:induction false} CountIsMultiplicity(es: seq<Event>, e: Event)
    ensures Count(es, e) == multiset(es)[e]
  {
    if es != [] {
      assert es == [es[0]] + es[1..];
      CountIsMultiplicity(es[1..], e);
    }
  }

  // How often e is on its way through the link's connection: told, asked for, or held.
  function InFlight(d: Device, e: Event): nat {
    Count(Heard(d.down), e) + Count(Asked(d.up), e) + Count(d.holding, e)
  }

  // The startup gets are ahead of every write, and cover the keys not yet watched.
  ghost predicate GetsFirst(d: Device) {
    && (forall i :: 0 <= i < |d.up| ==> d.up[i].key in d.keys && (d.up[i].Get? || d.up[i].Set? || d.up[i].Del?))
    && (forall i, j :: 0 <= i < j < |d.up| && d.up[j].Get? ==> d.up[i].Get?)
    && (forall k :: k in d.keys ==>
          LINK in Watching(d.store, k) || exists i :: 0 <= i < |d.up| && d.up[i].Get? && d.up[i].key == k)
    && (forall k :: LINK in Watching(d.store, k) ==> k in d.keys)
    && |d.holding| <= 1 && (d.holding != [] ==> d.holding[0].key in d.keys)
  }

  // Nothing is forwarded that did not arrive from elsewhere, nothing is lost, and
  // every expected echo is still on its way.
  predicate Balanced(d: Device, e: Event) {
    && Count(d.forwarded, e) + InFlight(d, e) == Count(d.log, e) + d.echoes[e]
    && d.echoes[e] <= InFlight(d, e)
  }

  ghost predicate Conserved(d: Device) {
    forall e :: Balanced(d, e)
  }

  ghost predicate Inv(d: Device) {
    GetsFirst(d) && Conserved(d)
  }

  lemma StartedInv(d: Device)
    requires Started(d)
    ensures Inv(d)
  {
    AskedGets(d.up);
  }

  lemma {:induction false} AskedGets(vs: seq<Verb>)
    requires forall i :: 0 <= i < |vs| ==> vs[i].Get?
    ensures Asked(vs) == []
    decreases |vs|
  {
    if vs != [] {
      AskedGets(vs[1..]);
    }
  }

  // A write of the link's own comes straight back as one frame.
  lemma OwnWriteEchoes(d: Device, now: Time)
    requires GetsFirst(d) && d.up != [] && Requested(d.up[0]) != []
    ensures LINK in Watching(d.store, d.up[0].key)
    ensures Heard(Sent(d.store, LINK, d.up[0], now, LINK)) == Requested(d.up[0])
    ensures |Sent(d.store, LINK, d.up[0], now, LINK)| == 1
  {
    assert LINK in Watching(d.store, d.up[0].key);
    var sent := Sent(d.store, LINK, d.up[0], now, LINK);
    assert sent == [sent[0]] && sent[1..] == [];
  }

  lemma ForeignBalanced(d: Device, store: Store, more: seq<Push>, e: Event)
    requires Balanced(d, e)
    ensures Balanced(Foreign(d, store, more), e)
  {
    HeardConcat(d.down, more);
    CountConcat(Heard(d.down), Heard(more), e);
    CountConcat(d.log, Heard(more), e);
  }

  lemma TakesBalanced(d: Device, now: Time, later: Time, e: Event)
    requires GetsFirst(d) && Balanced(d, e) && d.up != []
    ensures Balanced(Do(d, DaemonTakes(now, later)).0, e)
  {
    var v := d.up[0];
    var more := Sent(d.store, LINK, v, now, LINK);
    var store := After(d.store, LINK, v, now, later);
    assert Asked(d.up) == Requested(v) + Asked(d.up[1..]);
    if Requested(v) == [] {
      assert Asked(d.up) == Asked(d.up[1..]);
      ForeignBalanced(d, store, more, e);
      SameFlight(Foreign(d, store, more), Do(d, DaemonTakes(now, later)).0, e);
    } else {
      var d' := Do(d, DaemonTakes(now, later)).0;
      CountConcat(Requested(v), Asked(d.up[1..]), e);
      OwnWriteEchoes(d, now);
      HeardConcat(d.down, more);
      CountConcat(Heard(d.down), Heard(more), e);
      SameFlight(d, d', e);
    }
  }

  lemma SameFlight(d: Device, d': Device, e: Event)
    requires Balanced(d, e)
    requires InFlight(d', e) == InFlight(d, e) && d'.forwarded == d.forwarded
    requires d'.log == d.log && d'.echoes == d.echoes
    ensures Balanced(d', e)
  {
  }

  lemma HearBalanced(d: Device, e: Event)
    requires Balanced(d, e) && d.down != []
    ensures Balanced(Hear(d).0, e)
  {
    var d', es := Hear(d).0, Carried(d.down[0]);
    if es == [] {
      assert Heard(d.down) == Heard(d'.down);
      SameFlight(d, d', e);
    } else {
      var x := es[0];
      HeardOne(d.down, x, e);
      assert InFlight(d, e) == One(x, e) + InFlight(d', e);
      if x in d.echoes {
        assert d'.echoes[e] == d.echoes[e] - One(x, e) && d'.forwarded == d.forwarded;
      } else {
        CountConcat(d.forwarded, [x], e);
        CountOne(x, e);
        assert x == e ==> d.echoes[e] == 0;
      }
    }
  }

  lemma HeardOne(ps: seq<Push>, x: Event, e: Event)
    requires ps != [] && Carried(ps[0]) == [x]
    ensures Count(Heard(ps), e) == One(x, e) + Count(Heard(ps[1..]), e)
  {
    assert Heard(ps) == [x] + Heard(ps[1..]);
    CountConcat([x], Heard(ps[1..]), e);
    CountOne(x, e);
  }

  lemma FetchBalanced(d: Device, e: Event)
    requires Balanced(d, e) && d.inbox != [] && d.holding == []
    ensures Balanced(Do(d, LinkFetches).0, e)
  {
    var d', x := Do(d, LinkFetches).0, d.inbox[0];
    CountOne(x, e);
    if x.key in d.keys {
      assert InFlight(d', e) == InFlight(d, e) + One(x, e);
      assert d'.echoes[e] == d.echoes[e] + One(x, e);
    } else {
      SameFlight(d, d', e);
    }
  }

  lemma SendBalanced(d: Device, e: Event)
    requires Balanced(d, e) && |d.holding| == 1
    ensures Balanced(Do(d, LinkSends).0, e)
  {
    var x := d.holding[0];
    assert d.holding == [x];
    AskedConcat(d.up, [VerbOf(x)]);
    assert Asked([VerbOf(x)]) == [x] by { assert [VerbOf(x)][1..] == []; }
    CountConcat(Asked(d.up), [x], e);
    SameFlight(d, Do(d, LinkSends).0, e);
  }

  lemma WatchingAfter(d: Device, c: Id, v: Verb, now: Time, later: Time, k: Key)
    ensures var store := After(d.store, c, v, now, later);
            LINK in Watching(store, k) <==> LINK in Watching(d.store, k) || (c == LINK && v.Get? && v.key == k)
  {
  }

  lemma StepGetsFirst(d: Device, a: Step)
    requires GetsFirst(d) && Can(d, a)
    ensures GetsFirst(Do(d, a).0)
  {
    var d' := Do(d, a).0;
    match a {
      case Local(c, v, now, later) =>
        forall k ensures LINK in Watching(d'.store, k) <==> LINK in Watching(d.store, k) {
          WatchingAfter(d, c, v, now, later, k);
        }
      case DaemonTakes(now, later) => TakesGetsFirst(d, now, later);
      case Depart(c) =>
        assert forall k :: LINK in Watching(d'.store, k) <==> LINK in Watching(d.store, k);
      case LinkSends =>
        forall k | k in d.keys && LINK !in Watching(d.store, k)
          ensures exists i :: 0 <= i < |d'.up| && d'.up[i].Get? && d'.up[i].key == k
        {
          var i :| 0 <= i < |d.up| && d.up[i].Get? && d.up[i].key == k;
          assert d'.up[i] == d.up[i];
        }
      case _ =>
        assert d'.up == d.up;
        assert forall k :: Watching(d'.store, k) == Watching(d.store, k);
    }
  }

  lemma TakesGetsFirst(d: Device, now: Time, later: Time)
    requires GetsFirst(d) && d.up != []
    ensures GetsFirst(Do(d, DaemonTakes(now, later)).0)
  {
    var d', v := Do(d, DaemonTakes(now, later)).0, d.up[0];
    assert d'.up == d.up[1..];
    forall k
      ensures LINK in Watching(d'.store, k) <==> LINK in Watching(d.store, k) || (v.Get? && v.key == k)
    {
      WatchingAfter(d, LINK, v, now, later, k);
    }
    forall k | k in d.keys && LINK !in Watching(d'.store, k)
      ensures exists i :: 0 <= i < |d'.up| && d'.up[i].Get? && d'.up[i].key == k
    {
      var i :| 0 <= i < |d.up| && d.up[i].Get? && d.up[i].key == k;
      assert i > 0 && d'.up[i - 1] == d.up[i];
    }
  }

  lemma StepBalanced(d: Device, a: Step, e: Event)
    requires GetsFirst(d) && Balanced(d, e) && Can(d, a)
    ensures Balanced(Do(d, a).0, e)
  {
    match a
    case Local(c, v, now, later) =>
      ForeignBalanced(d, After(d.store, c, v, now, later), Sent(d.store, c, v, now, LINK), e);
    case SweepAt(now, order) => ForeignBalanced(d, Swept(d.store, now), SweptTo(d.store, order, LINK), e);
    case Depart(c) =>
    case DaemonTakes(now, later) => TakesBalanced(d, now, later, e);
    case LinkHears => HearBalanced(d, e);
    case LinkFetches => FetchBalanced(d, e);
    case LinkSends => SendBalanced(d, e);
  }

  lemma StepInv(d: Device, a: Step)
    requires Inv(d) && Can(d, a)
    ensures Inv(Do(d, a).0)
  {
    StepGetsFirst(d, a);
    forall e ensures Balanced(Do(d, a).0, e) {
      assert Balanced(d, e);
      StepBalanced(d, a, e);
    }
  }

  // A frame arrives from the peer.
  lemma ArriveInv(d: Device, es: seq<Event>)
    requires Inv(d)
    ensures Inv(d.(inbox := d.inbox + es))
  {
    forall e ensures Balanced(d.(inbox := d.inbox + es), e) {
      assert Balanced(d, e);
    }
  }

  // ---- the measure --------------------------------------------------------------------

  // Arrivals the link has yet to forward: on their way and not expected back.
  ghost function Unforwarded(d: Device): int {
    |Heard(d.down)| + |Asked(d.up)| + |d.holding| - |d.echoes|
  }

  ghost function Mass(d: Device): int {
    4 * Unforwarded(d) + 4 * |d.inbox| + 3 * |d.holding| + 2 * |d.up| + |d.down|
  }

  lemma UnforwardedIsNatural(d: Device)
    requires Conserved(d)
    ensures Unforwarded(d) >= 0 && Mass(d) >= 0
  {
    var all := Heard(d.down) + Asked(d.up) + d.holding;
    forall e ensures d.echoes[e] <= multiset(all)[e] {
      assert Balanced(d, e);
      CountConcat(Heard(d.down) + Asked(d.up), d.holding, e);
      CountConcat(Heard(d.down), Asked(d.up), e);
      CountIsMultiplicity(all, e);
    }
    var rest := multiset(all) - d.echoes;
    assert multiset(all) == d.echoes + rest;
    assert |multiset(all)| == |all|;
  }

  // A step that only moves traffic along: no other client's verb, no expiry, no
  // startup get.
  predicate Internal(d: Device, a: Step)
    requires Can(d, a)
  {
    a.LinkHears? || a.LinkFetches? || a.LinkSends? || (a.DaemonTakes? && !d.up[0].Get?)
  }

  // Moving traffic along takes something off the mass, counting what is sent to
  // the peer at the weight it has there.
  lemma InternalLightens(d: Device, a: Step)
    requires Inv(d) && Can(d, a) && Internal(d, a)
    ensures var (d', out) := Do(d, a);
            Mass(d') + 4 * |out| < Mass(d)
  {
    match a
    case DaemonTakes(now, later) =>
      assert Requested(d.up[0]) != [];
      OwnWriteEchoes(d, now);
      HeardConcat(d.down, Sent(d.store, LINK, d.up[0], now, LINK));
      assert Asked(d.up) == Requested(d.up[0]) + Asked(d.up[1..]);
    case LinkHears =>
      assert Heard(d.down) == Carried(d.down[0]) + Heard(d.down[1..]);
    case LinkFetches =>
    case LinkSends =>
      AskedConcat(d.up, [VerbOf(d.holding[0])]);
      assert Asked([VerbOf(d.holding[0])]) == [d.holding[0]] by { assert [VerbOf(d.holding[0])][1..] == []; }
  }

  // What anyone else does adds at most five per frame it sends the link.
  lemma ForeignWeight(d: Device, store: Store, more: seq<Push>)
    ensures Mass(Foreign(d, store, more)) <= Mass(d) + 5 * |more|
  {
    HeardConcat(d.down, more);
    HeardIsShort(more);
  }

  lemma {:induction false} HeardIsShort(ps: seq<Push>)
    ensures |Heard(ps)| <= |ps|
  {
    if ps != [] {
      HeardIsShort(ps[1..]);
    }
  }
}
