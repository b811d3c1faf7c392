/**
  The node of include/node.hpp: its cache, its pending requests and its
  subscriptions, as the reader thread and the application mutate them.
*/
module NodeClient {
  import opened Options
  import opened Framing
  import opened Topics
  import opened KvStore
  import opened Wire
  import opened FrameReader
  import Cluster
  import Req = Requests
  import Sub = Resubscribe

  // The pushes among the frames of a stream, as the reader thread takes them.
  function Pushes(fs: seq<Frame>): seq<Push> {
    if fs == [] then []
    else
      var p := ParsePush(fs[0]);
      (if p.Some? then [p.value] else []) + Pushes(fs[1..])
  }

  function Encoded(ps: seq<Push>): (fs: seq<Frame>)
    ensures |fs| == |ps| && forall i :: 0 <= i < |ps| ==> fs[i] == EncodePush(ps[i])
  {
    seq(|ps|, i requires 0 <= i < |ps| => EncodePush(ps[i]))
  }

  // What the daemon can put on the wire: u32 ids, the tokens of full requests, names that
  // came in with a request, and lengths that a u32 can hold.
  predicate Sendable(p: Push) {
    && (p.Reply? || p.Result? || p.Status? ==> p.ask < U32)
    && (p.Pong? ==> |p.token| >= 4)
    && |EncodePush(p).name| <= MAX_FRAME_BYTES && |EncodePush(p).payload| < U32
  }

  // The pushes before the first one whose payload is too long to be read.
  function Readable(ps: seq<Push>): (r: seq<Push>)
    ensures r <= ps
    ensures r == ps <==> forall i :: 0 <= i < |ps| ==> Fits(EncodePush(ps[i]))
  {
    if ps == [] || !Fits(EncodePush(ps[0])) then [] else [ps[0]] + Readable(ps[1..])
  }

  lemma {:induction false} PushesConcat(a: seq<Frame>, b: seq<Frame>)
    ensures Pushes(a + b) == Pushes(a) + Pushes(b)
    decreases |a|
  {
    if a == [] {
      assert a + b == b;
    } else {
      assert (a + b)[1..] == a[1..] + b;
      PushesConcat(a[1..], b);
      Regroup(if ParsePush(a[0]).Some? then [ParsePush(a[0]).value] else [], Pushes(a[1..]), Pushes(b));
    }
  }

  // ---- the machines a node runs ----------------------------------------------------------

  // The promises of a node, as the machine of Requests has them.
  ghost predicate Promised(s: Req.State, pending: set<nat>, done: set<nat>, open: bool) {
    && s.pending == pending && s.fd.Some? == open
    && done <= s.settled.Keys
    && (forall id :: id in s.settled ==> (id in done <==> s.settled[id] > 0))
  }

  // fulfill() as the reader thread calls it, and as a caller that gives up does.
  function Replied(s: Req.State, id: nat): Req.State
    requires Req.Can(s, Req.TakeReply(id)) && s.pending <= s.settled.Keys
  {
    var took := Req.Do(s, Req.TakeReply(id));
    if took.taken.Some? then Req.Do(took, Req.ReaderSets) else took
  }

  function GivenUp(s: Req.State, id: nat): Req.State
    requires Req.Can(s, Req.GiveUp(id)) && s.pending <= s.settled.Keys
  {
    var took := Req.Do(s, Req.GiveUp(id));
    if took.callers[id].Setting? then Req.Do(took, Req.CallerSets(id)) else took
  }

  // The subscription frames among the requests written on a link.
  function Wires(sent: seq<Request>): seq<Sub.Wire> {
    if sent == [] then []
    else
      Wires(sent[..|sent| - 1]) +
      match sent[|sent| - 1]
      case Subscribe(n) => [Sub.Sub(n)]
      case Unsubscribe(n) => [Sub.Unsub(n)]
      case _ => []
  }

  predicate EndsWith(all: seq<Sub.Wire>, tail: seq<Sub.Wire>) {
    |tail| <= |all| && all[|all| - |tail|..] == tail
  }

  // The subscriptions of a node, as the machine of Resubscribe has them: while the link
  // lives, what the daemon has yet to handle is the last part of what was written.
  ghost predicate HasSubscriptions(s: Sub.State, topics: set<Name>, patterns: set<Name>, open: bool,
      intact: bool, sent: seq<Request>)
  {
    && s.exact == topics && s.patterns == patterns && s.open == open
    && (s.alive ==> intact && open && EndsWith(Wires(sent), s.queue))
  }

  // Writing a frame keeps the machine in step.
  lemma WrittenTracks(s: Sub.State, topics: set<Name>, patterns: set<Name>, open: bool, intact: bool,
      sent: seq<Request>, r: Request)
    requires HasSubscriptions(s, topics, patterns, open, intact, sent) && (r.Subscribe? || r.Unsubscribe?)
    ensures var w := if r.Subscribe? then Sub.Sub(r.name) else Sub.Unsub(r.name);
            HasSubscriptions(Sub.Sent(s, w), topics, patterns, open, intact,
                       if open && intact then sent + [r] else sent)
  {
    assert (sent + [r])[..|sent|] == sent;
    if s.alive {
      var w := if r.Subscribe? then Sub.Sub(r.name) else Sub.Unsub(r.name);
      assert Wires(sent + [r]) == Wires(sent) + [w];
      var all, tail := Wires(sent), s.queue;
      assert (all + [w])[|all| - |tail|..] == all[|all| - |tail|..] + [w];
    }
  }

  class Node {
    var fd: Option<Id>
    var intact: bool                   // the socket behind fd still takes whole frames
    var sent: seq<Request>             // written on the present link
    var kvCache: map<Key, Value>
    var kvWatched: set<Key>
    var pending: set<nat>
    var outcome: map<nat, Option<Value>> // what each promise was set to
    var subs: map<Name, nat>           // handlers per topic
    var patternSubs: map<Name, nat>    // handlers per pattern

    // A promise is pending or set, and an entry without handlers is not kept.
    ghost predicate Valid()
      reads this
    {
      && pending !! outcome.Keys
      && (forall n :: n in subs ==> subs[n] > 0)
      && (forall n :: n in patternSubs ==> patternSubs[n] > 0)
    }

    ghost predicate Runs(s: Req.State)
      reads this
    {
      Promised(s, pending, outcome.Keys, fd.Some?)
    }

    ghost predicate Tracks(s: Sub.State)
      reads this
    {
      HasSubscriptions(s, subs.Keys, patternSubs.Keys, fd.Some?, intact, sent)
    }

    constructor ()
      ensures Valid() && fd == None && sent == [] && kvCache == map[] && kvWatched == {}
      ensures pending == {} && outcome == map[] && subs == map[] && patternSubs == map[]
    {
      fd, sent, kvCache, kvWatched := None, [], map[], {};
      pending, outcome, subs, patternSubs := {}, map[], map[], map[];
    }

    // ---- requests -----------------------------------------------------------------

    // register_pending: a new promise under this id
    method RegisterPending(id: nat)
      requires Valid() && id !in pending
      modifies this`pending, this`outcome
      ensures Valid() && pending == old(pending) + {id} && outcome == old(outcome) - {id}
      ensures forall s: Req.State :: old(Runs(s)) && Req.Can(s, Req.Register(id)) ==>
        Runs(Req.Do(s, Req.Register(id)))
    {
      pending := pending + {id};
      outcome := outcome - {id};
    }

    // The first half of fulfill, under the lock: whoever takes the promise out sets it.
    method TakePromise(id: nat) returns (mine: bool)
      requires Valid()
      modifies this`pending
      ensures Valid() && pending == old(pending) - {id} && mine == (id in old(pending))
      ensures forall s: Req.State :: old(Runs(s)) && Req.Can(s, Req.TakeReply(id)) ==>
        Runs(Req.Do(s, Req.TakeReply(id)))
      ensures forall s: Req.State :: old(Runs(s)) && Req.Can(s, Req.GiveUp(id)) ==>
        Runs(Req.Do(s, Req.GiveUp(id)))
    {
      mine := id in pending;
      pending := pending - {id};
    }

    // The second half: a promise may be set only once.
    method SetValue(id: nat, val: Option<Value>)
      requires Valid() && id !in pending && id !in outcome
      modifies this`outcome
      ensures Valid() && outcome == old(outcome)[id := val]
      ensures forall s: Req.State ::
        old(Runs(s)) && Req.Can(s, Req.ReaderSets) && s.taken == Some(id) ==>
        Runs(Req.Do(s, Req.ReaderSets))
      ensures forall s: Req.State :: old(Runs(s)) && Req.Can(s, Req.CallerSets(id)) ==>
        Runs(Req.Do(s, Req.CallerSets(id)))
    {
      outcome := outcome[id := val];
    }

    // By the machine's invariant a promise in a thread's hands is never set already: so
    // the reader and a caller may each run TakePromise, and then SetValue, in any order.
    lemma InHandIsUnset(s: Req.State, id: nat)
      requires Runs(s) && Req.Inv(s) && Req.InHand(s, id) && id in s.settled
      ensures id !in pending && id !in outcome
    {
      assert Req.PromiseOk(s, id);
    }

    // fulfill
    method Fulfill(id: nat, val: Option<Value>)
      requires Valid()
      modifies this`pending, this`outcome
      ensures Valid() && pending == old(pending) - {id}
      ensures outcome == if id in old(pending) then old(outcome)[id := val] else old(outcome)
      ensures forall s: Req.State ::
        old(Runs(s)) && Req.Inv(s) && Req.Can(s, Req.TakeReply(id)) ==> Runs(Replied(s, id))
      ensures forall s: Req.State ::
        old(Runs(s)) && Req.Inv(s) && Req.Can(s, Req.GiveUp(id)) ==> Runs(GivenUp(s, id))
    {
      var mine := TakePromise(id);
      if mine {
        SetValue(id, val);
      }
    }

    // fail_pending: every pending promise is set to nothing, and no other is touched.
    method FailPending()
      requires Valid()
      modifies this`pending, this`outcome
      ensures Valid() && pending == {}
      ensures outcome.Keys == old(outcome.Keys) + old(pending)
      ensures forall id :: id in outcome ==>
        outcome[id] == if id in old(pending) then None else old(outcome)[id]
      ensures forall s: Req.State ::
        old(Runs(s)) && Req.Inv(s) && Req.Can(s, Req.FailPending) ==>
        Runs(Req.Do(s, Req.FailPending))
    {
      var rest := pending;
      while rest != {}
        invariant rest <= pending == old(pending)
        invariant outcome.Keys == old(outcome.Keys) + (pending - rest)
        invariant forall id :: id in outcome ==>
          outcome[id] == if id in old(pending) then None else old(outcome)[id]
        decreases rest
      {
        var id :| id in rest;
        outcome := outcome[id := None];
        rest := rest - {id};
      }
      pending := {};
    }

    // ---- the reader thread ----------------------------------------------------------

    // One frame in read_until_closed. Only replies and updates touch the cache; a
    // reply or result also settles the request it answers.
    method HandlePush(p: Push)
      requires Valid()
      modifies this`kvCache, this`kvWatched, this`pending, this`outcome
      ensures Valid()
      ensures kvCache == CacheAfter(old(kvCache), p) && kvWatched == WatchedAfter(old(kvWatched), p)
      ensures match AnswerIn(p)
              case Some((id, val)) =>
                && pending == old(pending) - {id}
                && outcome == (if id in old(pending) then old(outcome)[id := val] else old(outcome))
                && (forall s: Req.State ::
                      old(Runs(s)) && Req.Inv(s) && Req.Can(s, Req.TakeReply(id)) ==> Runs(Replied(s, id)))
              case None => pending == old(pending) && outcome == old(outcome)
    {
      match p
      case Update(k, v) =>
        kvWatched := kvWatched + {k};
        kvCache := kvCache[k := v];
      case Gone(k) =>
        kvCache := kvCache - {k};
      case Reply(id, k, found) =>
        kvWatched := kvWatched + {k};
        match found {
          case Some(v) => kvCache := kvCache[k := v];
          case None => kvCache := kvCache - {k};
        }
        Fulfill(id, found);
      case Result(id, _, ok, v) =>
        Fulfill(id, if ok then Some(v) else None);
      case Published(_, _) =>
      case Pong(_, token) =>
        if |token| >= 4 {
          Fulfill(DecodeU32(token), None);
        }
      case Status(id, text) =>
        Fulfill(id, Some(text));
    }

    // From nothing, the cache and the watch marks are what these frames say.
    ghost predicate Replayed(frames: seq<Frame>)
      reads this
    {
      Cluster.Knows(kvCache, kvWatched, Pushes(frames))
    }

    method HandleFrame(f: Frame, ghost seen: seq<Frame>)
      requires Valid() && Replayed(seen)
      modifies this`kvCache, this`kvWatched, this`pending, this`outcome
      ensures Valid() && Replayed(seen + [f])
    {
      PushesConcat(seen, [f]);
      assert [f][1..] == [];
      var p := ParsePush(f);
      if p.Some? {
        assert Pushes(seen + [f]) == Pushes(seen) + [p.value];
        KnowsNext(kvCache, kvWatched, Pushes(seen), p.value);
        HandlePush(p.value);
      } else {
        assert Pushes(seen) + [] == Pushes(seen);
      }
    }

    static lemma KnowsNext(cache: map<Key, Value>, watched: set<Key>, seen: seq<Push>, p: Push)
      requires Cluster.Knows(cache, watched, seen)
      ensures Cluster.Knows(CacheAfter(cache, p), WatchedAfter(watched, p), seen + [p])
    {
      var all := seen + [p];
      assert all[..|seen|] == seen && all[..|seen| + 1] == all;
      Cluster.KnowsMore(Cluster.Node(Cluster.Down, None, cache, watched), all, |seen|);
    }

    // One turn of the read loop: take a frame off the reader and handle it.
    method TakeFrame(reader: Reader, ghost seen: seq<Frame>, ghost all: seq<Frame>)
      returns (open: bool, ghost seen': seq<Frame>)
      requires Valid() && reader.Valid() && Replayed(seen) && YetToCome(seen, reader.Unread(), all)
      modifies this`kvCache, this`kvWatched, this`pending, this`outcome
      modifies reader`pos, reader`end, reader`buf, reader.buf, reader.fd
      ensures Valid() && reader.Valid() && (reader.buf == old(reader.buf) || fresh(reader.buf))
      ensures Replayed(seen')
      ensures !open ==> seen' == all
      ensures open ==>
        YetToCome(seen', reader.Unread(), all) && |reader.Unread()| < |old(reader.Unread())|
    {
      ghost var before := reader.Unread();
      var f := reader.Next();
      if f.None? {
        NoneToCome(seen, before, all);
        return false, seen;
      }
      OneLess(seen, before, f.value, reader.Unread(), all);
      HandleFrame(f.value, seen);
      return true, seen + [f.value];
    }

    // read_until_closed, on a node that has forgotten its last link: after this one has
    // ended, the node knows just what the pushes of the stream say, however its bytes
    // were cut up.
    method ReadUntilClosed(socket: Socket)
      requires Valid() && kvCache == map[] && kvWatched == {} && NoEmptyData(socket.events)
      modifies this`kvCache, this`kvWatched, this`pending, this`outcome, socket
      ensures Valid()
      ensures Replayed(DecodeAll(old(Pending(socket.events))))
    {
      ghost var all := DecodeAll(Pending(socket.events));
      var reader := new Reader(socket);
      ghost var seen: seq<Frame> := [];
      var open := true;
      while open
        invariant Valid() && reader.Valid() && reader.fd == socket
        invariant fresh(reader) && fresh(reader.buf)
        invariant if open then YetToCome(seen, reader.Unread(), all) else seen == all
        invariant Replayed(seen)
        decreases open, |reader.Unread()|
      {
        open, seen := TakeFrame(reader, seen, all);
      }
    }

    // run(), once the link is down: the fd, everything learned and every request go.
    method Teardown()
      requires Valid()
      modifies this
      ensures Valid() && fd == None && kvCache == map[] && kvWatched == {} && pending == {}
      ensures outcome.Keys == old(outcome.Keys) + old(pending)
      ensures subs == old(subs) && patternSubs == old(patternSubs) && sent == old(sent) && intact == old(intact)
      ensures forall s: Req.State ::
        old(Runs(s)) && Req.Inv(s) && Req.Can(s, Req.LinkDown) ==>
        Runs(Req.Do(Req.Do(s, Req.LinkDown), Req.FailPending))
      ensures forall s: Sub.State :: old(Tracks(s)) && Sub.Can(s, Sub.Close) ==>
        Tracks(Sub.Do(s, Sub.Close))
    {
      DropLink();
      label Dropped:
      FailPending();
      forall s: Req.State | old(Runs(s)) && Req.Inv(s) && Req.Can(s, Req.LinkDown)
        ensures Runs(Req.Do(Req.Do(s, Req.LinkDown), Req.FailPending))
      {
        var down := Req.Do(s, Req.LinkDown);
        Req.StepInv(s, Req.LinkDown);
        assert old@Dropped(Runs(down)) && Req.Can(down, Req.FailPending);
      }
    }

    // The fd and what was learned on it
    method DropLink()
      requires Valid()
      modifies this`fd, this`kvCache, this`kvWatched
      ensures Valid() && fd == None && kvCache == map[] && kvWatched == {}
      ensures forall s: Req.State :: old(Runs(s)) && Req.Can(s, Req.LinkDown) ==> Runs(Req.Do(s, Req.LinkDown))
      ensures forall s: Sub.State :: old(Tracks(s)) && Sub.Can(s, Sub.Close) ==> Tracks(Sub.Do(s, Sub.Close))
    {
      fd := None;
      kvCache, kvWatched := map[], {};
    }

    // run(), once reconnect_backoff has a new link
    method Reconnect(c: Id)
      requires Valid() && fd == None
      modifies this`fd, this`intact, this`sent
      ensures Valid() && fd == Some(c) && intact && sent == []
      ensures forall s: Req.State :: old(Runs(s)) && Req.Can(s, Req.Reconnect) ==> Runs(Req.Do(s, Req.Reconnect))
      ensures forall s: Sub.State :: old(Tracks(s)) && Sub.Can(s, Sub.Connect) ==> Tracks(Sub.Do(s, Sub.Connect))
    {
      fd, intact, sent := Some(c), true, [];
    }

    // ---- the application --------------------------------------------------------------

    // send(): false in a reconnect window, and when the socket takes no more.
    method Send(r: Request) returns (ok: bool)
      modifies this`sent
      ensures ok == (fd.Some? && intact)
      ensures sent == if ok then old(sent) + [r] else old(sent)
      ensures forall s: Req.State, id ::
        old(Runs(s)) && id in s.callers && s.callers[id].Registered? ==>
        Req.Can(s, Req.Send(id, ok)) && Runs(Req.Do(s, Req.Send(id, ok)))
    {
      if fd.None? || !intact {
        return false;
      }
      sent := sent + [r];
      return true;
    }

    // The warm path of get(), None when the daemon has to be asked: a key is answered
    // for exactly if the frames read on this link told of it, and with what they said.
    method GetWarm(k: Key) returns (r: Option<Option<Value>>)
      ensures r.Some? <==> k in kvWatched
      ensures r.Some? ==> r.value == Lookup(kvCache, k)
      ensures forall frames :: Cluster.Knows(kvCache, kvWatched, frames) ==>
        r == if Cluster.Marks(frames, k) then Some(Replay(None, k, frames)) else None
    {
      if k in kvWatched {
        return Some(if k in kvCache then Some(kvCache[k]) else None);
      }
      return None;
    }

    // register_topic: the machine's Subscribe, and AppSends for the first handler
    method Subscribe(name: Name, ghost s: Sub.State) returns (ghost s': Sub.State)
      requires Valid() && Tracks(s) && s.app.Idle?
      modifies this`subs, this`sent
      ensures Valid() && subs == old(subs)[name := (if name in old(subs) then old(subs)[name] else 0) + 1]
      ensures s' == Applied(s, Sub.Subscribe(Sub.Exact, name)) && Tracks(s')
    {
      var first := name !in subs;
      s' := Sub.Do(s, Sub.Subscribe(Sub.Exact, name));
      subs := subs[name := (if first then 0 else subs[name]) + 1];
      if first {
        WrittenTracks(s', subs.Keys, patternSubs.Keys, fd.Some?, intact, sent, Wire.Subscribe(name));
        s' := Sub.Do(s', Sub.AppSends);
        var ok := Send(Wire.Subscribe(name));
      }
    }

    method SubscribePattern(pattern: Name, ghost s: Sub.State) returns (ghost s': Sub.State)
      requires Valid() && Tracks(s) && s.app.Idle?
      modifies this`patternSubs, this`sent
      ensures Valid() &&
        patternSubs == old(patternSubs)[pattern := (if pattern in old(patternSubs) then old(patternSubs)[pattern] else 0) + 1]
      ensures s' == Applied(s, Sub.Subscribe(Sub.Pattern, pattern)) && Tracks(s')
    {
      var first := pattern !in patternSubs;
      s' := Sub.Do(s, Sub.Subscribe(Sub.Pattern, pattern));
      patternSubs := patternSubs[pattern := (if first then 0 else patternSubs[pattern]) + 1];
      if first {
        WrittenTracks(s', subs.Keys, patternSubs.Keys, fd.Some?, intact, sent, Wire.Subscribe(pattern));
        s' := Sub.Do(s', Sub.AppSends);
        var ok := Send(Wire.Subscribe(pattern));
      }
    }

    method Unsubscribe(name: Name, ghost s: Sub.State) returns (ghost s': Sub.State)
      requires Valid() && Tracks(s) && s.app.Idle?
      modifies this`subs, this`sent
      ensures Valid() && subs == old(subs) - {name}
      ensures s' == Applied(s, Sub.Unsubscribe(Sub.Exact, name)) && Tracks(s')
    {
      s' := Sub.Do(s, Sub.Unsubscribe(Sub.Exact, name));
      if name !in subs {
        return;
      }
      subs := subs - {name};
      WrittenTracks(s', subs.Keys, patternSubs.Keys, fd.Some?, intact, sent, Wire.Unsubscribe(name));
      s' := Sub.Do(s', Sub.AppSends);
      var ok := Send(Wire.Unsubscribe(name));
    }

    method UnsubscribePattern(pattern: Name, ghost s: Sub.State) returns (ghost s': Sub.State)
      requires Valid() && Tracks(s) && s.app.Idle?
      modifies this`patternSubs, this`sent
      ensures Valid() && patternSubs == old(patternSubs) - {pattern}
      ensures s' == Applied(s, Sub.Unsubscribe(Sub.Pattern, pattern)) && Tracks(s')
    {
      s' := Sub.Do(s, Sub.Unsubscribe(Sub.Pattern, pattern));
      if pattern !in patternSubs {
        return;
      }
      patternSubs := patternSubs - {pattern};
      WrittenTracks(s', subs.Keys, patternSubs.Keys, fd.Some?, intact, sent, Wire.Unsubscribe(pattern));
      s' := Sub.Do(s', Sub.AppSends);
      var ok := Send(Wire.Unsubscribe(pattern));
    }

    // A call of the application as the machine takes it: the map, then the frame if any.
    static ghost function Applied(s: Sub.State, a: Sub.Step): Sub.State
      requires Sub.Can(s, a)
    {
      var t := Sub.Do(s, a);
      if t.app.Idle? then t else Sub.Do(t, Sub.AppSends)
    }

    // The names of a handler map, in the order in which it is walked.
    static method Collect(m: map<Name, nat>) returns (names: seq<Name>)
      ensures Enumerates(names, m.Keys)
    {
      names := [];
      var rest := m.Keys;
      while rest != {}
        invariant rest <= m.Keys
        invariant forall n :: n in names <==> n in m && n !in rest
        invariant forall i, j :: 0 <= i < j < |names| ==> names[i] != names[j]
        decreases rest
      {
        var n :| n in rest;
        rest := rest - {n};
        names := names + [n];
      }
    }

    // resubscribe: one SUBSCRIBE for every name and every pattern with a handler. The
    // machine's Snapshot, and a Resend for each name.
    method Resubscribe(ghost s: Sub.State) returns (names: seq<Name>, ghost s': Sub.State)
      requires Valid() && Tracks(s) && s.reader.Linked?
      modifies this`sent
      ensures Valid()
      ensures forall n :: multiset(names)[n] == (if n in subs then 1 else 0) + (if n in patternSubs then 1 else 0)
      ensures Sub.Can(s, Sub.Snapshot(names))
      ensures s' == Sub.SendRest(Sub.Do(s, Sub.Snapshot(names)), false) && Tracks(s')
    {
      names := HandledNames();
      s' := Sub.Do(s, Sub.Snapshot(names));
      s' := SendAll(names, s', false);
    }

    // connect(): the link is there, the reader thread starts, and the application's thread
    // runs resubscribe() for what was registered before. The machine's FirstConnect, and
    // an AppSends for each name.
    method Connect(c: Id, ghost s: Sub.State) returns (names: seq<Name>, ghost s': Sub.State)
      requires Valid() && fd == None && Tracks(s) && s.app.Idle? && s.reader.Unstarted?
      modifies this`fd, this`intact, this`sent
      ensures Valid() && fd == Some(c)
      ensures forall n :: multiset(names)[n] == (if n in subs then 1 else 0) + (if n in patternSubs then 1 else 0)
      ensures Sub.Can(s, Sub.FirstConnect(names))
      ensures s' == Sub.SendRest(Sub.Do(s, Sub.FirstConnect(names)), true) && Tracks(s')
    {
      fd, intact, sent := Some(c), true, [];
      names := HandledNames();
      s' := SendAll(names, Sub.Do(s, Sub.FirstConnect(names)), true);
    }

    // The loop of resubscribe(), in either thread
    method SendAll(names: seq<Name>, ghost s: Sub.State, ghost byApp: bool) returns (ghost s': Sub.State)
      requires Valid() && Tracks(s) && Sub.Resubscribing(s, byApp) && Sub.ToSend(s, byApp) == names
      modifies this`sent
      ensures Valid() && s' == Sub.SendRest(s, byApp) && Tracks(s')
    {
      s' := s;
      for i := 0 to |names|
        invariant Valid() && Tracks(s') && Sub.Resubscribing(s', byApp)
        invariant Sub.ToSend(s', byApp) == names[i..] && Sub.SendRest(s', byApp) == Sub.SendRest(s, byApp)
      {
        assert names[i..][0] == names[i] && names[i..][1..] == names[i + 1..];
        s' := SendOne(names[i], s', byApp);
      }
      s' := Sub.SendNext(s', byApp);
    }

    // Everything that has a handler
    method HandledNames() returns (names: seq<Name>)
      ensures forall n :: multiset(names)[n] == (if n in subs then 1 else 0) + (if n in patternSubs then 1 else 0)
      ensures Sub.Lists(names, subs.Keys + patternSubs.Keys)
    {
      var topics := Collect(subs);
      var patterns := Collect(patternSubs);
      names := topics + patterns;
      EachOnce(topics, subs.Keys, patterns, patternSubs.Keys);
    }

    method SendOne(name: Name, ghost s: Sub.State, ghost byApp: bool) returns (ghost s': Sub.State)
      requires Valid() && Tracks(s) && Sub.Resubscribing(s, byApp)
      requires Sub.ToSend(s, byApp) != [] && Sub.ToSend(s, byApp)[0] == name
      modifies this`sent
      ensures Valid() && s' == Sub.SendNext(s, byApp) && Tracks(s')
      ensures Sub.Resubscribing(s', byApp) && Sub.ToSend(s', byApp) == Sub.ToSend(s, byApp)[1..]
      ensures Sub.SendRest(s', byApp) == Sub.SendRest(s, byApp)
    {
      WrittenTracks(s, subs.Keys, patternSubs.Keys, fd.Some?, intact, sent, Wire.Subscribe(name));
      s' := Sub.SendNext(s, byApp);
      var ok := Send(Wire.Subscribe(name));
    }

    static lemma EachOnce(a: seq<Name>, ka: set<Name>, b: seq<Name>, kb: set<Name>)
      requires Enumerates(a, ka) && Enumerates(b, kb)
      ensures forall n :: multiset(a + b)[n] == (if n in ka then 1 else 0) + (if n in kb then 1 else 0)
      ensures Sub.Lists(a + b, ka + kb)
    {
      forall n
        ensures multiset(a + b)[n] == (if n in ka then 1 else 0) + (if n in kb then 1 else 0)
      {
        CountOnce(a, ka, n);
        CountOnce(b, kb, n);
      }
    }

    static lemma {:induction false} CountOnce(names: seq<Name>, keys: set<Name>, n: Name)
      requires Enumerates(names, keys)
      ensures multiset(names)[n] == if n in keys then 1 else 0
      decreases |names|
    {
      if names != [] {
        var rest := names[1..];
        assert names == [names[0]] + rest && names[0] !in rest;
        assert Enumerates(rest, keys - {names[0]});
        CountOnce(rest, keys - {names[0]}, n);
      }
    }
  }

  // End to end: whatever pushes the daemon wrote, and wherever the stream is cut off, the
  // bytes carry exactly those pushes, up to the first one that is too long to be read.
  lemma {:induction false} BytesCarryThePushes(ps: seq<Push>, last: Push, cut: nat)
    requires forall i :: 0 <= i < |ps| ==> Sendable(ps[i])
    requires Sendable(last) && cut < |Build(EncodePush(last))|
    ensures Pushes(DecodeAll(BuildAll(Encoded(ps)) + Build(EncodePush(last))[..cut])) == Readable(ps)
    decreases |ps|
  {
    var tail := Build(EncodePush(last))[..cut];
    if ps == [] {
      CutIsNothing(EncodePush(last), cut);
      assert BuildAll(Encoded(ps)) + tail == tail;
    } else {
      var f, rest := EncodePush(ps[0]), BuildAll(Encoded(ps[1..])) + tail;
      assert Encoded(ps)[1..] == Encoded(ps[1..]);
      assert BuildAll(Encoded(ps)) + tail == Build(f) + rest;
      if Fits(f) {
        RoundTrip(f, rest);
        PushRoundTrip(ps[0]);
        BytesCarryThePushes(ps[1..], last, cut);
        FirstPush(f, rest);
      } else {
        OversizedIsRefused(f, rest);
      }
    }
  }

  lemma FirstPush(f: Frame, rest: Bytes)
    requires Decode(Build(f) + rest) == Some((f, rest)) && ParsePush(f).Some?
    ensures Pushes(DecodeAll(Build(f) + rest)) == [ParsePush(f).value] + Pushes(DecodeAll(rest))
  {
    assert DecodeAll(Build(f) + rest) == [f] + DecodeAll(rest);
    PushesConcat([f], DecodeAll(rest));
    assert [f][1..] == [];
  }

  lemma CutIsNothing(f: Frame, n: nat)
    requires |f.name| <= MAX_FRAME_BYTES && |f.payload| < U32 && n < |Build(f)|
    ensures Decode(Build(f)[..n]) == None
  {
    if Fits(f) {
      TruncatedIsNothing(f, n);
    } else {
      var whole := Build(f);
      assert whole == whole[..n] + whole[n..] == whole + [];
      OversizedIsRefused(f, []);
      if Decode(whole[..n]).Some? {
        MoreInput(whole[..n], whole[n..]);
      }
    }
  }
}
