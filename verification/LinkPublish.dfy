/**
  Publishes across a pair of links: the two daemons route (include/server.hpp),
  the two links relay (include/link.hpp), and everything else a daemon sends may
  be interleaved. From the moment both links' subscriptions have been taken.
*/
module LinkPublish {
  import opened Options
  import opened Framing
  import opened Topics
  import opened KvStore
  import opened Server
  import LinkDevice

  const LINK := LinkDevice.LINK

  datatype Post = Post(topic: Name, payload: Bytes)
  datatype Routing = Routing(from: Id, post: Post)

  // cfg: the patterns of the device's link. heard: how many of the daemon's frames
  // the link has read. up: from the link to the daemon. inbox: from the peer link.
  // log: everything the daemon has routed, in order.
  datatype Bus = Bus(
    cfg: set<Name>,
    clients: map<Id, Client>,
    heard: nat,
    up: seq<Post>,
    inbox: seq<Post>,
    log: seq<Routing>)

  datatype Step =
    | Publishes(c: Id, post: Post)
    | Joins(c: Id)
    | Leaves(c: Id)
    | Subscribes(c: Id, name: Name)
    | Unsubscribes(c: Id, name: Name)
    | Tells(c: Id, p: Push)          // the daemon sends anything but a publish
    | LinkHears                      // local_loop takes a frame
    | LinkFetches                    // peer_loop takes a frame
    | DaemonTakes                    // the daemon routes the link's next publish

  ghost predicate Covers(names: set<Name>, topic: Name) {
    exists s :: s in names && Matches(s, topic)
  }

  function Names(c: Client): set<Name> {
    c.topics + c.patterns
  }

  // route_publish on the client table
  ghost function Route(m: map<Id, Client>, from: Id, post: Post): map<Id, Client> {
    map w | w in m :: w :=
      if w != from && Covers(Names(m[w]), post.topic)
      then m[w].(out := m[w].out + [Published(post.topic, post.payload)])
      else m[w]
  }

  // It is what the daemon's route_publish is proved to do.
  lemma RouteIsRouted(m: map<Id, Client>, m': map<Id, Client>, from: Id, post: Post)
    ensures Routed(m, m', from, post.topic, post.payload) <==> m' == Route(m, from, post)
  {
    var r := Route(m, from, post);
    forall w | w in m
      ensures r[w].out == m[w].out +
              (if w != from && Wants(m, w, post.topic) then [Published(post.topic, post.payload)] else [])
    {
      assert m[w].out + [] == m[w].out;
      assert Wants(m, w, post.topic) <==> Covers(Names(m[w]), post.topic);
    }
    assert Routed(m, r, from, post.topic, post.payload);
    if Routed(m, m', from, post.topic, post.payload) {
      forall w | w in m ensures m'[w] == r[w] {
        assert m'[w] == m[w].(out := m'[w].out) && r[w] == m[w].(out := r[w].out);
      }
      assert m' == r;
    }
  }

  predicate Can(b: Bus, s: Step) {
    match s
    case Joins(c) => c !in b.clients
    case Tells(c, p) => c in b.clients && !p.Published?
    case LinkHears => LINK in b.clients && b.heard < |b.clients[LINK].out|
    case LinkFetches => b.inbox != []
    case DaemonTakes => b.up != []
    case _ => s.c in b.clients && s.c != LINK
  }

  ghost function Relayed(p: Push, cfg: set<Name>): seq<Post> {
    if p.Published? && Covers(cfg, p.topic) then [Post(p.topic, p.payload)] else []
  }

  // The device after a step, and what its link sends to the peer.
  ghost function Do(b: Bus, s: Step): (Bus, seq<Post>)
    requires Can(b, s)
  {
    match s
    case Publishes(c, post) =>
      (b.(clients := Route(b.clients, c, post), log := b.log + [Routing(c, post)]), [])
    case Joins(c) => (b.(clients := b.clients[c := NEWCOMER]), [])
    case Leaves(c) => (b.(clients := b.clients - {c}), [])
    case Subscribes(c, name) => (b.(clients := Subscribed(b.clients, c, name, map[])), [])
    case Unsubscribes(c, name) => (b.(clients := Unsubscribed(b.clients, c, name)), [])
    case Tells(c, p) => (b.(clients := b.clients[c := b.clients[c].(out := b.clients[c].out + [p])]), [])
    case LinkHears => (b.(heard := b.heard + 1), Relayed(b.clients[LINK].out[b.heard], b.cfg))
    case LinkFetches =>
      var post := b.inbox[0];
      (b.(inbox := b.inbox[1..], up := b.up + if Covers(b.cfg, post.topic) then [post] else []), [])
    case DaemonTakes =>
      (b.(clients := Route(b.clients, LINK, b.up[0]), log := b.log + [Routing(LINK, b.up[0])], up := b.up[1..]), [])
  }

  // ---- parts of what was routed, sent and carried ------------------------------------

  // The posts among what a client was sent.
  function Posts(ps: seq<Push>): seq<Post> {
    if ps == [] then []
    else (if ps[0].Published? then [Post(ps[0].topic, ps[0].payload)] else []) + Posts(ps[1..])
  }

  ghost function Through(ps: seq<Post>, names: set<Name>): seq<Post> {
    if ps == [] then [] else (if Covers(names, ps[0].topic) then [ps[0]] else []) + Through(ps[1..], names)
  }

  // Routed on account of this device's own clients other than c; and of its link.
  function NotFrom(rs: seq<Routing>, c: Id): seq<Post> {
    if rs == [] then [] else (if rs[0].from != c then [rs[0].post] else []) + NotFrom(rs[1..], c)
  }

  function FromLink(rs: seq<Routing>): seq<Post> {
    if rs == [] then [] else (if rs[0].from == LINK then [rs[0].post] else []) + FromLink(rs[1..])
  }

  lemma {:induction false} PostsConcat(a: seq<Push>, b: seq<Push>)
    ensures Posts(a + b) == Posts(a) + Posts(b)
    decreases |a|
  {
    if a == [] {
      assert a + b == b;
    } else {
      assert (a + b)[1..] == a[1..] + b;
      PostsConcat(a[1..], b);
      Regroup(if a[0].Published? then [Post(a[0].topic, a[0].payload)] else [], Posts(a[1..]), Posts(b));
    }
  }

  lemma {:induction false} ThroughConcat(a: seq<Post>, b: seq<Post>, names: set<Name>)
    ensures Through(a + b, names) == Through(a, names) + Through(b, names)
    decreases |a|
  {
    if a == [] {
      assert a + b == b;
    } else {
      assert (a + b)[1..] == a[1..] + b;
      ThroughConcat(a[1..], b, names);
      Regroup(if Covers(names, a[0].topic) then [a[0]] else [], Through(a[1..], names), Through(b, names));
    }
  }

  lemma {:induction false} ThroughTwice(a: seq<Post>, names: set<Name>)
    ensures Through(Through(a, names), names) == Through(a, names)
  {
    if a != [] {
      var first := if Covers(names, a[0].topic) then [a[0]] else [];
      ThroughConcat(first, Through(a[1..], names), names);
      ThroughOne(a[0], names);
      ThroughTwice(a[1..], names);
    }
  }

  lemma ThroughOne(p: Post, names: set<Name>)
    ensures Through([p], names) == if Covers(names, p.topic) then [p] else []
  {
    assert [p][1..] == [];
  }

  lemma {:induction false} NotFromConcat(a: seq<Routing>, b: seq<Routing>, c: Id)
    ensures NotFrom(a + b, c) == NotFrom(a, c) + NotFrom(b, c)
    decreases |a|
  {
    if a == [] {
      assert a + b == b;
    } else {
      assert (a + b)[1..] == a[1..] + b;
      NotFromConcat(a[1..], b, c);
      Regroup(if a[0].from != c then [a[0].post] else [], NotFrom(a[1..], c), NotFrom(b, c));
    }
  }

  lemma {:induction false} FromLinkConcat(a: seq<Routing>, b: seq<Routing>)
    ensures FromLink(a + b) == FromLink(a) + FromLink(b)
    decreases |a|
  {
    if a == [] {
      assert a + b == b;
    } else {
      assert (a + b)[1..] == a[1..] + b;
      FromLinkConcat(a[1..], b);
      Regroup(if a[0].from == LINK then [a[0].post] else [], FromLink(a[1..]), FromLink(b));
    }
  }

  lemma NotFromSnoc(rs: seq<Routing>, r: Routing, c: Id)
    ensures NotFrom(rs + [r], c) == NotFrom(rs, c) + if r.from != c then [r.post] else []
  {
    NotFromConcat(rs, [r], c);
    assert [r][1..] == [];
  }

  lemma FromLinkSnoc(rs: seq<Routing>, r: Routing)
    ensures FromLink(rs + [r]) == FromLink(rs) + if r.from == LINK then [r.post] else []
  {
    FromLinkConcat(rs, [r]);
    assert [r][1..] == [];
  }

  lemma PostsOne(p: Push)
    ensures Posts([p]) == if p.Published? then [Post(p.topic, p.payload)] else []
  {
    assert [p][1..] == [];
  }

  // ---- one client ---------------------------------------------------------------------

  // What a client with these names is owed of what was routed.
  ghost function Owed(rs: seq<Routing>, c: Id, names: set<Name>): seq<Post> {
    Through(NotFrom(rs, c), names)
  }

  lemma OwedSnoc(rs: seq<Routing>, r: Routing, c: Id, names: set<Name>)
    ensures Owed(rs + [r], c, names) ==
            Owed(rs, c, names) + if r.from != c && Covers(names, r.post.topic) then [r.post] else []
  {
    NotFromSnoc(rs, r, c);
    var last := if r.from != c then [r.post] else [];
    ThroughConcat(NotFrom(rs, c), last, names);
    ThroughOne(r.post, names);
  }

  // Client c is there and subscribed to just these names.
  predicate Subscriber(b: Bus, c: Id, names: set<Name>) {
    c in b.clients && Names(b.clients[c]) == names
  }

  function Got(b: Bus, c: Id): seq<Post> {
    if c in b.clients then Posts(b.clients[c].out) else []
  }

  // While a client's subscriptions stand still, each step gives it exactly what the
  // step adds to what it is owed.
  lemma StepGives(b: Bus, s: Step, c: Id, names: set<Name>)
    requires Can(b, s) && Subscriber(b, c, names) && Subscriber(Do(b, s).0, c, names)
    ensures var b' := Do(b, s).0;
            && b.log <= b'.log
            && Got(b', c) == Got(b, c) + Owed(b'.log[|b.log|..], c, names)
  {
    var b' := Do(b, s).0;
    match s
    case Publishes(from, post) => RoutingGives(b, from, post, c, names);
    case DaemonTakes => RoutingGives(b, LINK, b.up[0], c, names);
    case Tells(w, p) =>
      assert b'.log[|b.log|..] == [];
      PostsConcat(b.clients[w].out, [p]);
      PostsOne(p);
    case Subscribes(w, name) =>
      assert b.clients[w].out + [] == b.clients[w].out;
      assert b'.log[|b.log|..] == [];
    case _ =>
      assert b'.log[|b.log|..] == [];
  }

  lemma RoutingGives(b: Bus, from: Id, post: Post, c: Id, names: set<Name>)
    requires Subscriber(b, c, names)
    ensures Posts(Route(b.clients, from, post)[c].out) ==
            Got(b, c) + Owed((b.log + [Routing(from, post)])[|b.log|..], c, names)
  {
    var r := Routing(from, post);
    assert (b.log + [r])[|b.log|..] == [] + [r];
    OwedSnoc([], r, c, names);
    PostsConcat(b.clients[c].out, [Published(post.topic, post.payload)]);
    PostsOne(Published(post.topic, post.payload));
  }

  // ---- the link -----------------------------------------------------------------------

  // The link is a client that subscribed to its patterns and has been sent just what
  // its device's own clients published on them: never its own publishes.
  ghost predicate LinkServed(b: Bus) {
    && Subscriber(b, LINK, b.cfg)
    && b.heard <= |b.clients[LINK].out|
    && Got(b, LINK) == Owed(b.log, LINK, b.cfg)
  }

  // What the link has sent to its peer so far.
  ghost function Crossed(b: Bus): seq<Post>
    requires LINK in b.clients && b.heard <= |b.clients[LINK].out|
  {
    Through(Posts(b.clients[LINK].out[..b.heard]), b.cfg)
  }

  lemma StepServed(b: Bus, s: Step)
    requires LinkServed(b) && Can(b, s)
    ensures LinkServed(Do(b, s).0)
  {
    var b' := Do(b, s).0;
    assert Subscriber(b', LINK, b.cfg);
    StepGives(b, s, LINK, b.cfg);
    var more := b'.log[|b.log|..];
    assert b'.log == b.log + more;
    assert |more| <= 1;
    if more == [] {
      assert b'.log == b.log;
    } else {
      assert more == [] + [more[0]];
      OwedSnoc(b.log, more[0], LINK, b.cfg);
      OwedSnoc([], more[0], LINK, b.cfg);
    }
  }

  // What a step's link sends is what it adds to what has crossed.
  lemma StepCrosses(b: Bus, s: Step)
    requires LinkServed(b) && Can(b, s)
    ensures LinkServed(Do(b, s).0)
    ensures Crossed(Do(b, s).0) == Crossed(b) + Do(b, s).1
  {
    StepServed(b, s);
    var (b', sent) := Do(b, s);
    var was, now := b.clients[LINK].out, b'.clients[LINK].out;
    if s.LinkHears? {
      var p := was[b.heard];
      assert was[..b.heard + 1] == was[..b.heard] + [p];
      PostsConcat(was[..b.heard], [p]);
      PostsOne(p);
      ThroughConcat(Posts(was[..b.heard]), Posts([p]), b.cfg);
      if p.Published? {
        ThroughOne(Post(p.topic, p.payload), b.cfg);
      }
    } else {
      assert was <= now;
      assert now[..b.heard] == was[..b.heard];
    }
  }

  // How far a post from the peer got: routed, sent to the daemon, still to be fetched.
  ghost function Arrived(b: Bus): seq<Post> {
    FromLink(b.log) + b.up + Through(b.inbox, b.cfg)
  }

  lemma StepArrived(b: Bus, s: Step)
    requires Can(b, s)
    ensures Arrived(Do(b, s).0) == Arrived(b)
  {
    var b' := Do(b, s).0;
    match s
    case Publishes(c, post) =>
      FromLinkSnoc(b.log, Routing(c, post));
    case DaemonTakes =>
      FromLinkSnoc(b.log, Routing(LINK, b.up[0]));
      assert b.up == [b.up[0]] + b'.up;
      assert FromLink(b'.log) + b'.up == FromLink(b.log) + b.up;
    case LinkFetches =>
      var post := b.inbox[0];
      ThroughConcat([post], b'.inbox, b.cfg);
      ThroughOne(post, b.cfg);
      assert b.inbox == [post] + b'.inbox;
      assert Arrived(b') == FromLink(b.log) + (b.up + Through([post], b.cfg)) + Through(b'.inbox, b.cfg);
    case _ =>
  }

  // ---- the pair -----------------------------------------------------------------------

  datatype Pair = Pair(a: Bus, b: Bus)
  datatype Move = Move(left: bool, step: Step)

  function Acting(p: Pair, m: Move): Bus {
    if m.left then p.a else p.b
  }

  function Deliver(b: Bus, posts: seq<Post>): Bus {
    b.(inbox := b.inbox + posts)
  }

  ghost function Made(p: Pair, m: Move): Pair
    requires Can(Acting(p, m), m.step)
  {
    var (d, sent) := Do(Acting(p, m), m.step);
    if m.left then Pair(d, Deliver(p.b, sent)) else Pair(Deliver(p.a, sent), d)
  }

  ghost predicate Follows(p: Pair, m: Move, p': Pair) {
    Can(Acting(p, m), m.step) && p' == Made(p, m)
  }

  ghost predicate Connected(b: Bus) {
    && Subscriber(b, LINK, b.cfg) && Got(b, LINK) == []
    && b.heard == 0 && b.up == [] && b.inbox == [] && b.log == []
  }

  ghost predicate Run(ps: seq<Pair>, ms: seq<Move>) {
    && |ps| == |ms| + 1 && Connected(ps[0].a) && Connected(ps[0].b)
    && forall i {:trigger ms[i]} :: 0 <= i < |ms| ==> Follows(ps[i], ms[i], ps[i + 1])
  }

  // What arrived at `to` is what crossed from `from` and `to` agreed to carry.
  ghost predicate Transit(from: Bus, to: Bus)
    requires LinkServed(from)
  {
    Arrived(to) == Through(Crossed(from), to.cfg)
  }

  ghost predicate PairInv(p: Pair) {
    LinkServed(p.a) && LinkServed(p.b) && Transit(p.a, p.b) && Transit(p.b, p.a)
  }

  lemma StepTransit(b: Bus, s: Step, peer: Bus)
    requires LinkServed(b) && LinkServed(peer) && Can(b, s) && Transit(b, peer) && Transit(peer, b)
    ensures var (b', sent) := Do(b, s);
            && LinkServed(b') && LinkServed(Deliver(peer, sent))
            && Transit(b', Deliver(peer, sent)) && Transit(Deliver(peer, sent), b')
  {
    var (b', sent) := Do(b, s);
    StepCrosses(b, s);
    StepArrived(b, s);
    DeliverArrives(peer, sent);
    ThroughConcat(Crossed(b), sent, peer.cfg);
    var peer' := Deliver(peer, sent);
    assert peer'.clients == peer.clients && peer'.heard == peer.heard && peer'.cfg == peer.cfg && b'.cfg == b.cfg;
    assert Crossed(peer') == Crossed(peer);
  }

  lemma DeliverArrives(b: Bus, posts: seq<Post>)
    ensures Arrived(Deliver(b, posts)) == Arrived(b) + Through(posts, b.cfg)
  {
    ThroughConcat(b.inbox, posts, b.cfg);
    assert FromLink(b.log) + b.up + (Through(b.inbox, b.cfg) + Through(posts, b.cfg))
        == Arrived(b) + Through(posts, b.cfg);
  }

  lemma MoveInv(p: Pair, m: Move)
    requires PairInv(p) && Can(Acting(p, m), m.step)
    ensures PairInv(Made(p, m))
  {
    if m.left {
      StepTransit(p.a, m.step, p.b);
    } else {
      StepTransit(p.b, m.step, p.a);
    }
  }

  lemma {:induction false} RunInv(ps: seq<Pair>, ms: seq<Move>, i: nat)
    requires Run(ps, ms) && i < |ps|
    ensures PairInv(ps[i])
  {
    if i > 0 {
      RunInv(ps, ms, i - 1);
      assert Follows(ps[i - 1], ms[i - 1], ps[i]);
      MoveInv(ps[i - 1], ms[i - 1]);
    }
  }

  predicate Still(b: Bus) {
    LINK in b.clients && b.heard == |b.clients[LINK].out| && b.up == [] && b.inbox == []
  }

  // What device A's own clients have published, in order.
  function Native(b: Bus): seq<Post> {
    NotFrom(b.log, LINK)
  }

  predicate Prefix(a: seq<Post>, b: seq<Post>) {
    |a| <= |b| && a == b[..|a|]
  }

  // What one device's own clients published on topics both links carry.
  ghost function Bound(from: Bus, to: Bus): seq<Post> {
    Through(Through(Native(from), from.cfg), to.cfg)
  }

  lemma CrossesExactly(from: Bus, to: Bus)
    requires LinkServed(from) && Transit(from, to)
    ensures Prefix(FromLink(to.log), Bound(from, to))
    ensures Still(from) && Still(to) ==> FromLink(to.log) == Bound(from, to)
  {
    var out := from.clients[LINK].out;
    var read, rest := Posts(out[..from.heard]), Posts(out[from.heard..]);
    assert out == out[..from.heard] + out[from.heard..];
    PostsConcat(out[..from.heard], out[from.heard..]);
    ThroughTwice(Native(from), from.cfg);
    ThroughConcat(read, rest, from.cfg);
    ThroughConcat(Through(read, from.cfg), Through(rest, from.cfg), to.cfg);
    assert FromLink(to.log) <= Arrived(to);
    if Still(from) && Still(to) {
      assert out[..from.heard] == out;
      assert Arrived(to) == FromLink(to.log);
    }
  }

  // What either daemon routes for its link is what the other device's own clients
  // published on topics both links carry, in their order and without repetition: so
  // nothing a device published ever returns to it. Once traffic has ended it is all of it.
  lemma PublishesCrossExactly(ps: seq<Pair>, ms: seq<Move>, i: nat)
    requires Run(ps, ms) && i < |ps|
    ensures var a, b := ps[i].a, ps[i].b;
            && Prefix(FromLink(b.log), Bound(a, b)) && Prefix(FromLink(a.log), Bound(b, a))
            && (Still(a) && Still(b) ==> FromLink(b.log) == Bound(a, b) && FromLink(a.log) == Bound(b, a))
  {
    RunInv(ps, ms, i);
    CrossesExactly(ps[i].a, ps[i].b);
    CrossesExactly(ps[i].b, ps[i].a);
  }

  // A client whose subscriptions stood still from state i to state j got exactly what
  // it was owed of what its daemon routed meanwhile, its own publishes excepted.
  lemma {:induction false} ClientsGetWhatTheyAreOwed(ps: seq<Pair>, ms: seq<Move>, c: Id, names: set<Name>, i: nat, j: nat)
    requires Run(ps, ms) && i <= j < |ps|
    requires forall n :: i <= n <= j ==> Subscriber(ps[n].b, c, names)
    ensures ps[i].b.log <= ps[j].b.log
    ensures Got(ps[j].b, c) == Got(ps[i].b, c) + Owed(ps[j].b.log[|ps[i].b.log|..], c, names)
    decreases j
  {
    if i == j {
      assert ps[j].b.log[|ps[i].b.log|..] == [];
    } else {
      ClientsGetWhatTheyAreOwed(ps, ms, c, names, i, j - 1);
      assert Follows(ps[j - 1], ms[j - 1], ps[j]);
      assert Subscriber(ps[j - 1].b, c, names) && Subscriber(ps[j].b, c, names);
      MoveGives(ps[j - 1], ms[j - 1], ps[j], c, names);
      GotMore(Got(ps[i].b, c), ps[i].b.log, ps[j - 1].b.log, ps[j].b.log, c, names);
    }
  }

  lemma MoveGives(p: Pair, m: Move, p': Pair, c: Id, names: set<Name>)
    requires Follows(p, m, p') && Subscriber(p.b, c, names) && Subscriber(p'.b, c, names)
    ensures p.b.log <= p'.b.log && Got(p'.b, c) == Got(p.b, c) + Owed(p'.b.log[|p.b.log|..], c, names)
  {
    if m.left {
      assert p'.b.log[|p.b.log|..] == [];
    } else {
      StepGives(p.b, m.step, c, names);
    }
  }

  lemma GotMore(got: seq<Post>, start: seq<Routing>, now: seq<Routing>, next: seq<Routing>, c: Id, names: set<Name>)
    requires start <= now <= next
    ensures start <= next
    ensures (got + Owed(now[|start|..], c, names)) + Owed(next[|now|..], c, names) ==
            got + Owed(next[|start|..], c, names)
  {
    assert next[|start|..] == now[|start|..] + next[|now|..];
    OwedConcat(now[|start|..], next[|now|..], c, names);
  }

  lemma {:induction false} OwedConcat(a: seq<Routing>, b: seq<Routing>, c: Id, names: set<Name>)
    ensures Owed(a + b, c, names) == Owed(a, c, names) + Owed(b, c, names)
    decreases |b|
  {
    if b == [] {
      assert a + b == a;
    } else {
      var front, last := b[..|b| - 1], b[|b| - 1];
      assert b == front + [last] && a + b == (a + front) + [last];
      OwedConcat(a, front, c, names);
      OwedSnoc(a + front, last, c, names);
      OwedSnoc(front, last, c, names);
    }
  }

  // Routed for clients other than c and the link.
  function Others(rs: seq<Routing>, c: Id): seq<Post> {
    if rs == [] then [] else (if rs[0].from != c && rs[0].from != LINK then [rs[0].post] else []) + Others(rs[1..], c)
  }

  lemma {:induction false} OwedSplits(rs: seq<Routing>, c: Id, names: set<Name>)
    requires c != LINK
    ensures multiset(Owed(rs, c, names)) ==
            multiset(Through(FromLink(rs), names)) + multiset(Through(Others(rs, c), names))
  {
    if rs != [] {
      var r, rest := rs[0], rs[1..];
      var any := if r.from != c then [r.post] else [];
      var link := if r.from == LINK then [r.post] else [];
      var other := if r.from != c && r.from != LINK then [r.post] else [];
      OwedSplits(rest, c, names);
      ThroughConcat(any, NotFrom(rest, c), names);
      ThroughConcat(link, FromLink(rest), names);
      ThroughConcat(other, Others(rest, c), names);
      SplitFirst(Through(any, names), Through(link, names), Through(other, names), Through(NotFrom(rest, c), names),
                 Through(FromLink(rest), names), Through(Others(rest, c), names));
    }
  }

  lemma SplitFirst(a: seq<Post>, b: seq<Post>, c: seq<Post>, rest: seq<Post>, restB: seq<Post>, restC: seq<Post>)
    requires multiset(a) == multiset(b) + multiset(c) && multiset(rest) == multiset(restB) + multiset(restC)
    ensures multiset(a + rest) == multiset(b + restB) + multiset(c + restC)
  {
  }

  // Nothing is on its way across the links: at the start, or once traffic has ended.
  ghost predicate Settled(ps: seq<Pair>, i: nat)
    requires i < |ps|
  {
    i == 0 || (Still(ps[i].a) && Still(ps[i].b))
  }

  lemma SettledHasCrossed(ps: seq<Pair>, ms: seq<Move>, i: nat)
    requires Run(ps, ms) && i < |ps| && Settled(ps, i)
    ensures FromLink(ps[i].b.log) == Bound(ps[i].a, ps[i].b)
  {
    PublishesCrossExactly(ps, ms, i);
  }

  lemma {:induction false} LogsGrow(ps: seq<Pair>, ms: seq<Move>, i: nat, j: nat)
    requires Run(ps, ms) && i <= j < |ps|
    ensures ps[i].a.log <= ps[j].a.log && ps[i].b.log <= ps[j].b.log
    ensures ps[i].a.cfg == ps[j].a.cfg && ps[i].b.cfg == ps[j].b.cfg
    decreases j
  {
    if i < j {
      LogsGrow(ps, ms, i, j - 1);
      assert Follows(ps[j - 1], ms[j - 1], ps[j]);
    }
  }

  // Of what a device routed meanwhile, what its own clients published on topics both
  // links carry.
  ghost function Meanwhile(routed: seq<Routing>, from: set<Name>, to: set<Name>): seq<Post> {
    Through(Through(NotFrom(routed, LINK), from), to)
  }

  // Between two settled states just that has crossed.
  lemma CrossedMeanwhile(ps: seq<Pair>, ms: seq<Move>, i: nat, j: nat)
    requires Run(ps, ms) && i <= j < |ps| && Settled(ps, i) && Settled(ps, j)
    ensures ps[i].a.log <= ps[j].a.log && ps[i].b.log <= ps[j].b.log
    ensures FromLink(ps[j].b.log[|ps[i].b.log|..]) ==
            Meanwhile(ps[j].a.log[|ps[i].a.log|..], ps[j].a.cfg, ps[j].b.cfg)
  {
    LogsGrow(ps, ms, i, j);
    SettledHasCrossed(ps, ms, i);
    SettledHasCrossed(ps, ms, j);
    var a, b, a', b' := ps[i].a, ps[i].b, ps[j].a, ps[j].b;
    var moreA, moreB := a'.log[|a.log|..], b'.log[|b.log|..];
    assert a'.log == a.log + moreA && b'.log == b.log + moreB;
    FromLinkConcat(b.log, moreB);
    NotFromConcat(a.log, moreA, LINK);
    ThroughConcat(Native(a), NotFrom(moreA, LINK), a.cfg);
    ThroughConcat(Through(Native(a), a.cfg), Through(NotFrom(moreA, LINK), a.cfg), b.cfg);
    SameTail(FromLink(b.log), FromLink(moreB), Meanwhile(moreA, a.cfg, b.cfg));
  }

  lemma SameTail(a: seq<Post>, b: seq<Post>, c: seq<Post>)
    requires a + b == a + c
    ensures b == c
  {
    assert b == (a + b)[|a|..] && c == (a + c)[|a|..];
  }

  // Exactly one copy each: between two settled states through which a client of B other
  // than the link kept its subscriptions, it was sent one copy of each publish of A's own
  // clients on a topic both links carry and it wants, one of each publish of B's other
  // clients that it wants, and no other.
  lemma OneCopyEach(ps: seq<Pair>, ms: seq<Move>, c: Id, names: set<Name>, i: nat, j: nat)
    requires Run(ps, ms) && i <= j < |ps| && c != LINK && Settled(ps, i) && Settled(ps, j)
    requires forall n :: i <= n <= j ==> Subscriber(ps[n].b, c, names)
    ensures ps[i].a.log <= ps[j].a.log && ps[i].b.log <= ps[j].b.log
    ensures var a, b := ps[j].a, ps[j].b;
            var moreA, moreB := a.log[|ps[i].a.log|..], b.log[|ps[i].b.log|..];
            multiset(Got(b, c)) == multiset(Got(ps[i].b, c))
              + multiset(Through(Meanwhile(moreA, a.cfg, b.cfg), names))
              + multiset(Through(Others(moreB, c), names))
  {
    CrossedMeanwhile(ps, ms, i, j);
    ClientsGetWhatTheyAreOwed(ps, ms, c, names, i, j);
    OwedSplits(ps[j].b.log[|ps[i].b.log|..], c, names);
  }
}
