/**
  The daemon's store, the connections to it and the caches of the nodes at their
  other ends, as one machine: include/server.hpp on one side of each connection,
  include/node.hpp on the other. A connection is a queue each way; it may break
  at any time, after which either side still reads a prefix and then end of file.
*/
module Cluster {
  import opened Options
  import opened Framing
  import opened KvStore
  import opened Wire

  // ---- state --------------------------------------------------------------------

  // asked: the requests written by the node, of which the daemon has handled the
  // first `handled`. stream: the frames sent to the node, of which it has read the
  // first `read`. A break cuts off the end of both.
  datatype Conn = Conn(node: nat, up: bool, asked: seq<Request>, handled: nat, stream: seq<Push>, read: nat)

  // Where the node's reader thread stands (run()): reading connection c, having
  // closed it, or having also dropped what it learned from it.
  datatype Phase = Reading(c: Id) | Closed(c: Id) | Down

  datatype Node = Node(phase: Phase, fd: Option<Id>, cache: map<Key, Value>, watched: set<Key>)

  datatype System = System(store: Store, conns: map<Id, Conn>, nodes: map<nat, Node>)

  // What the reader thread does with one frame.
  function Learn(n: Node, p: Push): Node {
    n.(cache := CacheAfter(n.cache, p), watched := WatchedAfter(n.watched, p))
  }

  // ---- steps --------------------------------------------------------------------

  datatype Step =
    | Write(n: nat, r: Request)              // an application thread sends a frame
    | Handle(c: Id, now: Time, later: Time, status: Bytes) // the daemon handles the next frame of c
    | SweepAt(now: Time, order: seq<Key>)
    | Route(c: Id, topic: Bytes, payload: Bytes) // a publish routed to c
    | Read(n: nat)                           // the reader thread takes a frame
    | Break(c: Id, i: nat, j: nat)           // the link dies; prefixes stay readable
    | Remove(c: Id)                          // the daemon sees end of file
    | Close(n: nat)                          // the reader thread sees it, and closes the fd
    | Forget(n: nat)                         // ... and drops its cache
    | Connect(n: nat, c: Id)

  // The connection the node's reader thread is reading.
  predicate Reads(s: System, n: nat) {
    n in s.nodes && s.nodes[n].phase.Reading? && s.nodes[n].phase.c in s.conns
  }

  predicate Can(s: System, a: Step) {
    match a
    case Write(n, _) => n in s.nodes && s.nodes[n].fd.Some? && s.nodes[n].fd.value in s.conns
    case Handle(c, _, _, _) => c in s.conns && s.conns[c].handled < |s.conns[c].asked|
    case SweepAt(_, _) => true
    case Route(c, _, _) => c in s.conns
    case Read(n) => Reads(s, n) && s.conns[s.nodes[n].phase.c].read < |s.conns[s.nodes[n].phase.c].stream|
    case Break(c, i, j) =>
      && c in s.conns && s.conns[c].up
      && s.conns[c].handled <= i <= |s.conns[c].asked| && s.conns[c].read <= j <= |s.conns[c].stream|
    case Remove(c) => c in s.conns && !s.conns[c].up && s.conns[c].handled == |s.conns[c].asked|
    case Close(n) =>
      Reads(s, n) && var conn := s.conns[s.nodes[n].phase.c]; !conn.up && conn.read == |conn.stream|
    case Forget(n) => n in s.nodes && s.nodes[n].phase.Closed?
    case Connect(n, c) => n in s.nodes && s.nodes[n].phase.Down? && c !in s.conns
  }

  // A sweep meets exactly the due keys, in some order.
  ghost predicate SweepsDue(s: System, a: Step) {
    a.SweepAt? ==> Enumerates(a.order, Due(s.store, a.now))
  }

  // The next request of c.
  function Next(s: System, c: Id): Request
    requires c in s.conns && s.conns[c].handled < |s.conns[c].asked|
  {
    s.conns[c].asked[s.conns[c].handled]
  }

  // The frames a step makes the daemon send to connection w, if it still takes any.
  function Frames(s: System, a: Step, w: Id): seq<Push>
    requires Can(s, a)
  {
    match a
    case Handle(c, now, _, status) =>
      (match Next(s, c)
       case Ask(v) => Sent(s.store, c, v, now, w)
       case Ping(name, token) => Only(c, Pong(name, token), w)
       case Info(ask) => Only(c, Status(ask, status), w)
       case _ => [])
    case SweepAt(_, order) => SweptTo(s.store, order, w)
    case Route(c, topic, payload) => Only(c, Published(topic, payload), w)
    case _ => []
  }

  // The store after a step.
  function Stored(s: System, a: Step): Store
    requires Can(s, a)
  {
    match a
    case Handle(c, now, later, _) =>
      var r := Next(s, c);
      if r.Ask? then After(s.store, c, r.verb, now, later) else s.store
    case SweepAt(now, _) => Swept(s.store, now)
    case Remove(c) => Left(s.store, c)
    case _ => s.store
  }

  function Sending(conn: Conn, more: seq<Push>): Conn {
    if conn.up then conn.(stream := conn.stream + more) else conn
  }

  // Connection w after a step.
  function ConnAfter(s: System, a: Step, w: Id): Conn
    requires Can(s, a) && w in s.conns
  {
    var conn := Sending(s.conns[w], Frames(s, a, w));
    match a
    case Write(n, r) =>
      if s.nodes[n].fd.value == w && conn.up then conn.(asked := conn.asked + [r]) else conn
    case Handle(c, _, _, _) => if w == c then conn.(handled := conn.handled + 1) else conn
    case Read(n) => if s.nodes[n].phase.c == w then conn.(read := conn.read + 1) else conn
    case Break(c, i, j) =>
      if w == c then conn.(up := false, asked := conn.asked[..i], stream := conn.stream[..j]) else conn
    case _ => conn
  }

  function ConnsAfter(s: System, a: Step): map<Id, Conn>
    requires Can(s, a)
  {
    map w | w in s.conns :: ConnAfter(s, a, w)
  }

  function Do(s: System, a: Step): System
    requires Can(s, a)
  {
    var s' := s.(store := Stored(s, a), conns := ConnsAfter(s, a));
    match a
    case Read(n) =>
      var conn := s.conns[s.nodes[n].phase.c];
      s'.(nodes := s.nodes[n := Learn(s.nodes[n], conn.stream[conn.read])])
    case Close(n) => s'.(nodes := s.nodes[n := s.nodes[n].(phase := Closed(s.nodes[n].phase.c), fd := None)])
    case Forget(n) => s'.(nodes := s.nodes[n := Node(Down, None, map[], {})])
    case Connect(n, c) =>
      s'.(conns := s'.conns[c := Conn(n, true, [], 0, [], 0)],
          nodes := s.nodes[n := s.nodes[n].(phase := Reading(c), fd := Some(c))])
    case _ => s'
  }

  predicate Init(s: System) {
    && s.store == EMPTY && s.conns == map[]
    && forall n :: n in s.nodes ==> s.nodes[n] == Node(Down, None, map[], {})
  }

  // ---- invariant ----------------------------------------------------------------

  // Everything sent on c so far says what the store now holds for every key c
  // watches, and is about no other key.
  ghost predicate Agrees(st: Store, c: Id, stream: seq<Push>) {
    && (forall i, k :: 0 <= i < |stream| && About(stream[i], k) ==> c in Watching(st, k))
    && (forall k :: c in Watching(st, k) ==> Replay(None, k, stream) == Lookup(st.kv, k))
  }

  // The value or the absence of k is told somewhere in these frames.
  predicate Marks(frames: seq<Push>, k: Key) {
    exists i :: 0 <= i < |frames| && About(frames[i], k) && !frames[i].Gone?
  }

  // The node knows what these frames say, from nothing, and nothing else.
  ghost predicate Knows(cache: map<Key, Value>, watched: set<Key>, frames: seq<Push>) {
    && (forall k :: Lookup(cache, k) == Replay(None, k, frames))
    && (forall k :: k in watched <==> Marks(frames, k))
  }

  predicate ConnOk(s: System, c: Id)
    requires c in s.conns
  {
    var conn := s.conns[c];
    && conn.node in s.nodes && (conn.up ==> s.nodes[conn.node].phase == Reading(c))
    && conn.handled <= |conn.asked| && conn.read <= |conn.stream|
  }

  ghost predicate NodeOk(s: System, n: nat)
    requires n in s.nodes
  {
    var me := s.nodes[n];
    if me.phase.Down? then me.fd == None && me.cache == map[] && me.watched == {}
    else
      var c := me.phase.c;
      && me.fd == (if me.phase.Reading? then Some(c) else None)
      && c in s.conns && s.conns[c].node == n && s.conns[c].read <= |s.conns[c].stream|
      && Knows(me.cache, me.watched, s.conns[c].stream[..s.conns[c].read])
  }

  ghost predicate Inv(s: System) {
    && (forall k, w :: w in Watching(s.store, k) ==> w in s.conns)
    && (forall n :: n in s.nodes ==> NodeOk(s, n))
    && (forall c :: c in s.conns ==> ConnOk(s, c))
    && (forall c :: c in s.conns && s.conns[c].up ==> Agrees(s.store, c, s.conns[c].stream))
  }

  lemma InitInv(s: System)
    requires Init(s)
    ensures Inv(s)
  {
  }

  // ---- the store moves on and every live connection is told --------------------------

  // The store moves to st' and connection c is sent `more` on that account.
  ghost predicate Tells(st: Store, st': Store, c: Id, more: seq<Push>) {
    && (forall k :: c in Watching(st, k) ==> c in Watching(st', k))
    && (forall i, k :: 0 <= i < |more| && About(more[i], k) ==> c in Watching(st', k))
    && (forall k, x :: (c in Watching(st, k) ==> x == Lookup(st.kv, k)) && c in Watching(st', k) ==>
          Replay(x, k, more) == Lookup(st'.kv, k))
  }

  lemma AgreesAppend(st: Store, st': Store, c: Id, stream: seq<Push>, more: seq<Push>)
    requires Agrees(st, c, stream) && Tells(st, st', c, more)
    ensures Agrees(st', c, stream + more)
  {
    forall k | c in Watching(st', k)
      ensures Replay(None, k, stream + more) == Lookup(st'.kv, k)
    {
      ReplayConcat(None, k, stream, more);
    }
    forall i, k | 0 <= i < |stream + more| && About((stream + more)[i], k)
      ensures c in Watching(st', k)
    {
      if i < |stream| {
        assert About(stream[i], k);
      } else {
        assert About(more[i - |stream|], k);
      }
    }
  }

  lemma VerbTells(st: Store, c: Id, v: Verb, now: Time, later: Time, w: Id)
    ensures Tells(st, After(st, c, v, now, later), w, Sent(st, c, v, now, w))
  {
    var st', more := After(st, c, v, now, later), Sent(st, c, v, now, w);
    forall k | w in Watching(st, k) ensures w in Watching(st', k) {
      WatchesStay(st, c, v, now, later, k);
    }
    forall i, k | 0 <= i < |more| && About(more[i], k) ensures w in Watching(st', k) {
      OnlyWatchersHear(st, c, v, now, later, w, more[i], k);
    }
    forall k, x | (w in Watching(st, k) ==> x == Lookup(st.kv, k)) && w in Watching(st', k)
      ensures Replay(x, k, more) == Lookup(st'.kv, k)
    {
      PushesTellAll(st, c, v, now, later, w, k, x);
    }
  }

  lemma SweepTells(st: Store, now: Time, order: seq<Key>, w: Id)
    requires Enumerates(order, Due(st, now))
    ensures Tells(st, Swept(st, now), w, SweptTo(st, order, w))
  {
    var more := SweptTo(st, order, w);
    forall i, k | 0 <= i < |more| && About(more[i], k) ensures w in Watching(st, k) {
      OnlyWatchersSwept(st, order, w, i, k);
    }
    forall k, x | w in Watching(st, k) && x == Lookup(st.kv, k)
      ensures Replay(x, k, more) == Lookup(Swept(st, now).kv, k)
    {
      SweepTellsAll(st, order, w, k, x);
      assert k in order <==> k in Due(st, now);
    }
  }

  lemma {:induction false} OnlyWatchersSwept(st: Store, order: seq<Key>, w: Id, i: nat, k: Key)
    requires i < |SweptTo(st, order, w)| && About(SweptTo(st, order, w)[i], k)
    ensures w in Watching(st, k)
    decreases |order|
  {
    var first := GoneTo(st, order[0], w);
    if i >= |first| {
      OnlyWatchersSwept(st, order[1..], w, i - |first|, k);
    }
  }

  // A frame that is about no key goes out while the store stands still.
  lemma AsideTells(st: Store, w: Id, more: seq<Push>)
    requires forall i :: 0 <= i < |more| ==> more[i].Published? || more[i].Status? || more[i].Pong?
    ensures Tells(st, st, w, more)
  {
    forall k, x ensures Replay(x, k, more) == x {
      Unrelated(x, k, more);
    }
  }

  lemma LeftTells(st: Store, c: Id, w: Id)
    requires w != c
    ensures Tells(st, Left(st, c), w, [])
  {
    assert forall k :: Watching(Left(st, c), k) == Watching(st, k) - {c};
  }

  // Whatever the step, a connection that is still up is told what it needs.
  lemma StepTells(s: System, a: Step, w: Id)
    requires Can(s, a) && SweepsDue(s, a) && w in s.conns && (a.Remove? ==> a.c != w)
    ensures Tells(s.store, Stored(s, a), w, Frames(s, a, w))
  {
    match a
    case Handle(c, now, later, _) =>
      if Next(s, c).Ask? {
        VerbTells(s.store, c, Next(s, c).verb, now, later, w);
      } else {
        AsideTells(s.store, w, Frames(s, a, w));
      }
    case SweepAt(now, order) => SweepTells(s.store, now, order, w);
    case Remove(c) => LeftTells(s.store, c, w);
    case _ => AsideTells(s.store, w, Frames(s, a, w));
  }

  // ---- every step keeps the invariant ----------------------------------------------------

  // A connection after a step: its owner is the same, and what the node has read of
  // it is untouched.
  lemma ConnFrame(s: System, a: Step, w: Id)
    requires Can(s, a) && w in s.conns
    ensures w in Do(s, a).conns && Do(s, a).conns[w] == ConnAfter(s, a, w)
    ensures var conn, conn' := s.conns[w], ConnAfter(s, a, w);
            && conn'.node == conn.node && (conn'.up ==> conn.up)
            && (conn'.up ==> conn'.stream == conn.stream + Frames(s, a, w))
            && (a.Read? && s.nodes[a.n].phase.c == w ==> conn'.stream == conn.stream && conn'.read == conn.read + 1)
            && (!(a.Read? && s.nodes[a.n].phase.c == w) ==> conn'.read == conn.read)
  {
    if a.Read? || a.Write? {
      assert Frames(s, a, w) == [] && s.conns[w].stream + [] == s.conns[w].stream;
    }
  }

  lemma ReadPartKept(s: System, a: Step, w: Id)
    requires Can(s, a) && w in s.conns && s.conns[w].read <= |s.conns[w].stream|
    ensures var conn, conn' := s.conns[w], ConnAfter(s, a, w);
            conn.read <= |conn'.stream| && conn'.stream[..conn.read] == conn.stream[..conn.read]
  {
    var conn, conn' := s.conns[w], ConnAfter(s, a, w);
    if a.Break? && a.c == w {
      assert conn.stream + [] == conn.stream;
      assert conn.stream[..a.j][..conn.read] == conn.stream[..conn.read];
    } else if conn.up {
      assert (conn.stream + Frames(s, a, w))[..conn.read] == conn.stream[..conn.read];
    }
  }

  lemma StepConn(s: System, a: Step, w: Id)
    requires Can(s, a) && w in s.conns && ConnOk(s, w) && (a.Close? || a.Forget? || a.Connect? ==> NodeOk(s, a.n))
    ensures w in Do(s, a).conns && ConnOk(Do(s, a), w)
  {
    ConnFrame(s, a, w);
    ReadPartKept(s, a, w);
  }

  lemma StepAgrees(s: System, a: Step, w: Id)
    requires Can(s, a) && SweepsDue(s, a) && w in s.conns
    requires s.conns[w].up ==> Agrees(s.store, w, s.conns[w].stream)
    requires ConnAfter(s, a, w).up
    ensures Agrees(Stored(s, a), w, ConnAfter(s, a, w).stream)
  {
    ConnFrame(s, a, w);
    StepTells(s, a, w);
    AgreesAppend(s.store, Stored(s, a), w, s.conns[w].stream, Frames(s, a, w));
  }

  lemma KnowsMore(n: Node, stream: seq<Push>, r: nat)
    requires r < |stream| && Knows(n.cache, n.watched, stream[..r])
    ensures Knows(Learn(n, stream[r]).cache, Learn(n, stream[r]).watched, stream[..r + 1])
  {
    var n', p := Learn(n, stream[r]), stream[r];
    assert stream[..r + 1] == stream[..r] + [p];
    forall k ensures Lookup(n'.cache, k) == Replay(None, k, stream[..r + 1]) {
      ReplayConcat(None, k, stream[..r], [p]);
      ReplayOne(Replay(None, k, stream[..r]), k, p);
    }
    forall k ensures k in n'.watched <==> Marks(stream[..r + 1], k) {
      MarksSnoc(stream[..r], p, k);
    }
  }

  lemma MarksSnoc(frames: seq<Push>, p: Push, k: Key)
    ensures Marks(frames + [p], k) <==> Marks(frames, k) || (About(p, k) && !p.Gone?)
  {
    var all := frames + [p];
    if Marks(frames, k) {
      var i :| 0 <= i < |frames| && About(frames[i], k) && !frames[i].Gone?;
      assert About(all[i], k) && !all[i].Gone?;
    }
    if About(p, k) && !p.Gone? {
      assert About(all[|frames|], k) && !all[|frames|].Gone?;
    }
  }

  // The node's own step.
  lemma ReadNode(s: System, n: nat)
    requires Can(s, Read(n)) && NodeOk(s, n)
    ensures NodeOk(Do(s, Read(n)), n)
  {
    var c := s.nodes[n].phase.c;
    ConnFrame(s, Read(n), c);
    KnowsMore(s.nodes[n], s.conns[c].stream, s.conns[c].read);
  }

  lemma PhaseNode(s: System, a: Step)
    requires Can(s, a) && (a.Close? || a.Forget? || a.Connect?) && NodeOk(s, a.n)
    ensures NodeOk(Do(s, a), a.n)
  {
    if a.Close? {
      var c := s.nodes[a.n].phase.c;
      ConnFrame(s, a, c);
      ReadPartKept(s, a, c);
    }
  }

  // A node that the step is not about.
  lemma OtherNode(s: System, a: Step, n: nat)
    requires Can(s, a) && n in s.nodes && NodeOk(s, n)
    requires !((a.Read? || a.Close? || a.Forget? || a.Connect?) && a.n == n)
    requires a.Read? ==> s.nodes[a.n].phase.Reading? && NodeOk(s, a.n)
    ensures n in Do(s, a).nodes && NodeOk(Do(s, a), n)
  {
    assert Do(s, a).nodes[n] == s.nodes[n];
    if !s.nodes[n].phase.Down? {
      var c := s.nodes[n].phase.c;
      ConnFrame(s, a, c);
      ReadPartKept(s, a, c);
    }
  }

  lemma StepNode(s: System, a: Step, n: nat)
    requires Can(s, a) && n in s.nodes && NodeOk(s, n) && (a.Read? ==> NodeOk(s, a.n))
    ensures n in Do(s, a).nodes && NodeOk(Do(s, a), n)
  {
    if a.Read? && a.n == n {
      ReadNode(s, n);
    } else if (a.Close? || a.Forget? || a.Connect?) && a.n == n {
      PhaseNode(s, a);
    } else {
      OtherNode(s, a, n);
    }
  }

  lemma StepWatching(s: System, a: Step)
    requires Can(s, a) && forall k, w :: w in Watching(s.store, k) ==> w in s.conns
    ensures forall k, w :: w in Watching(Stored(s, a), k) ==> w in s.conns
  {
    forall k, w | w in Watching(Stored(s, a), k) ensures w in s.conns {
      assert w in Watching(s.store, k) || w in s.conns by {
        match a
        case Handle(c, now, later, _) =>
          if Next(s, c).Ask? {
            WatchesStay(s.store, c, Next(s, c).verb, now, later, k);
          }
        case Remove(c) => assert Watching(Stored(s, a), k) == Watching(s.store, k) - {c};
        case _ =>
      }
    }
  }

  // The newcomer of a Connect watches nothing and has been told nothing.
  lemma NewConn(s: System, n: nat, c: Id)
    requires Inv(s) && Can(s, Connect(n, c))
    ensures var s' := Do(s, Connect(n, c));
            ConnOk(s', c) && Agrees(s'.store, c, s'.conns[c].stream)
  {
  }

  lemma StepInv(s: System, a: Step)
    requires Inv(s) && Can(s, a) && SweepsDue(s, a)
    ensures Inv(Do(s, a))
  {
    var s' := Do(s, a);
    StepWatching(s, a);
    forall n | n in s'.nodes ensures NodeOk(s', n) {
      assert NodeOk(s, n) && (a.Read? ==> NodeOk(s, a.n));
      StepNode(s, a, n);
    }
    forall c | c in s'.conns
      ensures ConnOk(s', c) && (s'.conns[c].up ==> Agrees(s'.store, c, s'.conns[c].stream))
    {
      if c in s.conns {
        StepOld(s, a, c);
      } else {
        NewConn(s, a.n, c);
      }
    }
  }

  lemma StepOld(s: System, a: Step, c: Id)
    requires Inv(s) && Can(s, a) && SweepsDue(s, a) && c in s.conns
    ensures var s' := Do(s, a);
            && c in s'.conns && ConnOk(s', c)
            && (s'.conns[c].up ==> Agrees(s'.store, c, s'.conns[c].stream))
  {
    assert ConnOk(s, c) && (a.Close? || a.Forget? || a.Connect? ==> NodeOk(s, a.n));
    StepConn(s, a, c);
    ConnFrame(s, a, c);
    if ConnAfter(s, a, c).up {
      StepAgrees(s, a, c);
    }
  }

  // ---- whole runs -------------------------------------------------------------------------

  ghost predicate Follows(s: System, a: Step, s': System) {
    Can(s, a) && SweepsDue(s, a) && s' == Do(s, a)
  }

  ghost predicate Run(ss: seq<System>, acts: seq<Step>) {
    && |ss| == |acts| + 1
    && Init(ss[0])
    && forall m {:trigger acts[m]} :: 0 <= m < |acts| ==> Follows(ss[m], acts[m], ss[m + 1])
  }

  lemma {:induction false} RunInv(ss: seq<System>, acts: seq<Step>, m: nat)
    requires Run(ss, acts) && m < |ss|
    ensures Inv(ss[m])
  {
    if m == 0 {
      InitInv(ss[0]);
    } else {
      RunInv(ss, acts, m - 1);
      assert Follows(ss[m - 1], acts[m - 1], ss[m]);
      StepInv(ss[m - 1], acts[m - 1]);
    }
  }

  // The frames on their way to the node.
  function InFlight(conn: Conn): seq<Push>
    requires conn.read <= |conn.stream|
  {
    conn.stream[conn.read..]
  }

  // For every live connection that watches k, the frames in flight bring the
  // node's cached value to the daemon's present one; a node never counts on a key
  // the daemon is not watching for it.
  lemma CachesAreCoherent(ss: seq<System>, acts: seq<Step>, m: nat, c: Id, k: Key)
    requires Run(ss, acts) && m < |ss| && c in ss[m].conns && ss[m].conns[c].up
    ensures var s, conn := ss[m], ss[m].conns[c];
            && conn.read <= |conn.stream| && conn.node in s.nodes
            && var n := s.nodes[conn.node];
            && n.phase == Reading(c)
            && (k in n.watched ==> c in Watching(s.store, k))
            && (c in Watching(s.store, k) ==>
                  Replay(Lookup(n.cache, k), k, InFlight(conn)) == Lookup(s.store.kv, k))
  {
    RunInv(ss, acts, m);
    var s, conn := ss[m], ss[m].conns[c];
    assert ConnOk(s, c) && NodeOk(s, conn.node) && Agrees(s.store, c, conn.stream);
    assert conn.stream == conn.stream[..conn.read] + InFlight(conn);
    ReplayConcat(None, k, conn.stream[..conn.read], InFlight(conn));
    if k in s.nodes[conn.node].watched {
      MarkedIsWatched(s.store, c, conn.stream, conn.read, k);
    }
  }

  lemma MarkedIsWatched(st: Store, c: Id, stream: seq<Push>, r: nat, k: Key)
    requires Agrees(st, c, stream) && r <= |stream| && Marks(stream[..r], k)
    ensures c in Watching(st, k)
  {
    var i :| 0 <= i < r && About(stream[..r][i], k);
    assert About(stream[i], k);
  }

  // So a warm get() reads the daemon's own value once nothing about k is in flight.
  lemma SettledCacheIsTheStore(ss: seq<System>, acts: seq<Step>, m: nat, c: Id, k: Key)
    requires Run(ss, acts) && m < |ss| && c in ss[m].conns && ss[m].conns[c].up
    requires var conn := ss[m].conns[c];
             forall i :: 0 <= conn.read <= i < |conn.stream| ==> !About(conn.stream[i], k)
    requires ss[m].conns[c].node in ss[m].nodes && k in ss[m].nodes[ss[m].conns[c].node].watched
    ensures Lookup(ss[m].nodes[ss[m].conns[c].node].cache, k) == Lookup(ss[m].store.kv, k)
  {
    CachesAreCoherent(ss, acts, m, c, k);
    Unrelated(Lookup(ss[m].nodes[ss[m].conns[c].node].cache, k), k, InFlight(ss[m].conns[c]));
  }

  // What a node serves is what the frames it read on one connection say, starting
  // from nothing: the connection whose fd it holds, or has just closed. Between that
  // and the next connection nothing at all is served.
  lemma NothingOutlivesItsLink(ss: seq<System>, acts: seq<Step>, m: nat, n: nat, k: Key)
    requires Run(ss, acts) && m < |ss| && n in ss[m].nodes
    ensures var s, me := ss[m], ss[m].nodes[n];
            if me.phase.Down? then k !in me.watched && k !in me.cache
            else
              && me.phase.c in s.conns && s.conns[me.phase.c].node == n
              && (me.phase.Reading? ==> me.fd == Some(me.phase.c))
              && var conn := s.conns[me.phase.c];
              && conn.read <= |conn.stream|
              && Lookup(me.cache, k) == Replay(None, k, conn.stream[..conn.read])
              && (k in me.watched <==> Marks(conn.stream[..conn.read], k))
  {
    RunInv(ss, acts, m);
    assert NodeOk(ss[m], n);
  }
}
