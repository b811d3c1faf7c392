/**
  What a node may rely on once sync() has returned (include/node.hpp), over whole
  runs of the cluster: everything it wrote before has been applied, and no get()
  from then on, warm or cold, reads a value from before.
*/
module SyncBarrier {
  import opened Options
  import opened KvStore
  import opened Wire
  import opened Cluster

  // ---- how a connection moves along a run ---------------------------------------------

  lemma StepStream(s: System, a: Step, c: Id)
    requires Can(s, a) && c in s.conns
    ensures var conn, conn' := s.conns[c], Do(s, a).conns[c];
            && c in Do(s, a).conns && conn'.node == conn.node
            && (conn'.up ==> conn.up && conn'.stream == conn.stream + Frames(s, a, c))
            && (!conn'.up && conn.up ==> conn'.stream <= conn.stream)
            && (!conn.up ==> !conn'.up && conn'.stream == conn.stream)
  {
    ConnFrame(s, a, c);
    assert s.conns[c].stream + [] == s.conns[c].stream;
  }

  // A connection once made stays on record; while it is up its stream only grows,
  // and once it is down the stream stays what it is.
  lemma {:induction false} StreamGrows(ss: seq<System>, acts: seq<Step>, q: nat, m: nat, c: Id)
    requires Run(ss, acts) && q <= m < |ss| && c in ss[q].conns
    ensures c in ss[m].conns
    ensures var conn, conn' := ss[q].conns[c], ss[m].conns[c];
            && conn'.node == conn.node
            && (conn'.up ==> conn.up && conn.stream <= conn'.stream)
            && (!conn.up ==> !conn'.up && conn'.stream == conn.stream)
            && (conn.stream <= conn'.stream || conn'.stream <= conn.stream)
    decreases m
  {
    if q < m {
      StreamGrows(ss, acts, q, m - 1, c);
      assert Follows(ss[m - 1], acts[m - 1], ss[m]);
      StepStream(ss[m - 1], acts[m - 1], c);
    }
  }

  lemma SamePrefix(a: seq<Push>, b: seq<Push>, r: nat)
    requires (a <= b || b <= a) && r <= |a| && r <= |b|
    ensures a[..r] == b[..r]
  {
  }

  // Step s of the run handles request number i of connection c.
  ghost predicate Handles(ss: seq<System>, acts: seq<Step>, s: nat, c: Id, i: nat) {
    && |ss| == |acts| + 1 && s < |acts| && acts[s].Handle? && acts[s].c == c
    && c in ss[s].conns && ss[s].conns[c].handled == i < |ss[s].conns[c].asked|
  }

  // Request number i was handled before step p.
  ghost predicate HandledBefore(ss: seq<System>, acts: seq<Step>, p: nat, c: Id, i: nat) {
    exists s: nat :: s < p && Handles(ss, acts, s, c, i)
  }

  lemma StepAsked(s: System, a: Step, c: Id, i: nat)
    requires Can(s, a) && c in Do(s, a).conns && i < Do(s, a).conns[c].handled
    requires c in s.conns ==> s.conns[c].handled <= |s.conns[c].asked|
    ensures c in s.conns && i < |s.conns[c].asked| && i < |Do(s, a).conns[c].asked|
    ensures s.conns[c].asked[i] == Do(s, a).conns[c].asked[i]
    ensures i < s.conns[c].handled || (a.Handle? && a.c == c && i == s.conns[c].handled)
  {
  }

  lemma AskedIsThere(ss: seq<System>, acts: seq<Step>, m: nat, c: Id)
    requires Run(ss, acts) && m < |ss|
    ensures c in ss[m].conns ==> ss[m].conns[c].handled <= |ss[m].conns[c].asked|
  {
    RunInv(ss, acts, m);
    assert c in ss[m].conns ==> ConnOk(ss[m], c);
  }

  // Every handled request was handled by one step, in the order of writing.
  lemma {:induction false} HandledBy(ss: seq<System>, acts: seq<Step>, m: nat, c: Id, i: nat) returns (s: nat)
    requires Run(ss, acts) && m < |ss| && c in ss[m].conns && i < ss[m].conns[c].handled
    ensures s < m && Handles(ss, acts, s, c, i)
    ensures i < |ss[m].conns[c].asked| && Next(ss[s], c) == ss[m].conns[c].asked[i]
  {
    if m > 0 {
      assert Follows(ss[m - 1], acts[m - 1], ss[m]);
      AskedIsThere(ss, acts, m - 1, c);
      StepAsked(ss[m - 1], acts[m - 1], c, i);
      if i < ss[m - 1].conns[c].handled {
        s := HandledBy(ss, acts, m - 1, c, i);
      } else {
        s := m - 1;
      }
    }
  }

  lemma {:induction false} HandledGrows(ss: seq<System>, acts: seq<Step>, q: nat, m: nat, c: Id)
    requires Run(ss, acts) && q <= m < |ss| && c in ss[q].conns
    ensures c in ss[m].conns && ss[q].conns[c].handled <= ss[m].conns[c].handled
    decreases m
  {
    if q < m {
      HandledGrows(ss, acts, q, m - 1, c);
      assert Follows(ss[m - 1], acts[m - 1], ss[m]);
      ConnFrame(ss[m - 1], acts[m - 1], c);
    }
  }

  lemma InOrder(ss: seq<System>, acts: seq<Step>, s: nat, t: nat, c: Id, i: nat, j: nat)
    requires Run(ss, acts) && Handles(ss, acts, s, c, i) && Handles(ss, acts, t, c, j) && i < j
    ensures s < t
  {
    if t <= s {
      HandledGrows(ss, acts, t, s, c);
    }
  }

  // ---- what a frame says was true when it was sent ---------------------------------------

  // What a frame about a key says of it.
  function Says(p: Push): Option<Value> {
    match p
    case Update(_, v) => Some(v)
    case Reply(_, _, found) => found
    case _ => None
  }

  // The step is a verb that finds k expired.
  predicate Lapses(s: System, a: Step, k: Key) {
    && a.Handle? && a.c in s.conns && s.conns[a.c].handled < |s.conns[a.c].asked|
    && Next(s, a.c).Ask? && FindsExpired(s.store, Next(s, a.c).verb, a.now, k)
  }

  lemma VerbFrame(st: Store, c: Id, v: Verb, now: Time, later: Time, w: Id, i: nat, k: Key)
    requires i < |Sent(st, c, v, now, w)| && About(Sent(st, c, v, now, w)[i], k)
    ensures var x := Says(Sent(st, c, v, now, w)[i]);
            x == Lookup(After(st, c, v, now, later).kv, k) || (x == None && FindsExpired(st, v, now, k))
  {
    AboutItsKey(st, c, v, now, w, i, k);
    if v.Set? || v.SetEx? || v.Del? {
      PlainFrame(st, c, v, now, later, w, i);
    } else {
      AskFrame(st, c, v, now, later, w, i);
    }
  }

  lemma PlainFrame(st: Store, c: Id, v: Verb, now: Time, later: Time, w: Id, i: nat)
    requires (v.Set? || v.SetEx? || v.Del?) && i < |Sent(st, c, v, now, w)|
    ensures Says(Sent(st, c, v, now, w)[i]) == Lookup(After(st, c, v, now, later).kv, v.key)
  {
  }

  lemma AskFrame(st: Store, c: Id, v: Verb, now: Time, later: Time, w: Id, i: nat)
    requires v.Get? || v.Incr? || v.SetNx?
    requires i < |Sent(st, c, v, now, w)| && About(Sent(st, c, v, now, w)[i], v.key)
    ensures var x := Says(Sent(st, c, v, now, w)[i]);
            x == Lookup(After(st, c, v, now, later).kv, v.key) || (x == None && Expired(st, v.key, now))
  {
    if v.Get? {
      GetFrame(st, c, v, now, later, w, i);
    } else if v.Incr? {
      IncrFrame(st, c, v, now, later, w, i);
    } else {
      SetNxFrame(st, c, v, now, later, w, i);
    }
  }

  lemma GetFrame(st: Store, c: Id, v: Verb, now: Time, later: Time, w: Id, i: nat)
    requires v.Get?
    requires i < |Sent(st, c, v, now, w)| && About(Sent(st, c, v, now, w)[i], v.key)
    ensures var x := Says(Sent(st, c, v, now, w)[i]);
            x == Lookup(After(st, c, v, now, later).kv, v.key) || (x == None && Expired(st, v.key, now))
  {
  }

  lemma IncrFrame(st: Store, c: Id, v: Verb, now: Time, later: Time, w: Id, i: nat)
    requires v.Incr?
    requires i < |Sent(st, c, v, now, w)| && About(Sent(st, c, v, now, w)[i], v.key)
    ensures var x := Says(Sent(st, c, v, now, w)[i]);
            x == Lookup(After(st, c, v, now, later).kv, v.key) || (x == None && Expired(st, v.key, now))
  {
    var gone, sent := ExpiryTo(st, v.key, now, w), Sent(st, c, v, now, w);
    assert i < |gone| ==> sent[i] == gone[i];
  }

  lemma SetNxFrame(st: Store, c: Id, v: Verb, now: Time, later: Time, w: Id, i: nat)
    requires v.SetNx?
    requires i < |Sent(st, c, v, now, w)| && About(Sent(st, c, v, now, w)[i], v.key)
    ensures var x := Says(Sent(st, c, v, now, w)[i]);
            x == Lookup(After(st, c, v, now, later).kv, v.key) || (x == None && Expired(st, v.key, now))
  {
    var gone, sent := ExpiryTo(st, v.key, now, w), Sent(st, c, v, now, w);
    assert i < |gone| ==> sent[i] == gone[i];
  }

  lemma {:induction false} SweepFrame(st: Store, order: seq<Key>, w: Id, i: nat, k: Key)
    requires i < |SweptTo(st, order, w)| && About(SweptTo(st, order, w)[i], k)
    ensures k in order && Says(SweptTo(st, order, w)[i]) == None
    decreases |order|
  {
    var first := GoneTo(st, order[0], w);
    if i >= |first| {
      SweepFrame(st, order[1..], w, i - |first|, k);
    }
  }

  lemma FrameIsCurrent(s: System, a: Step, w: Id, i: nat, k: Key)
    requires Can(s, a) && SweepsDue(s, a) && i < |Frames(s, a, w)| && About(Frames(s, a, w)[i], k)
    ensures var x := Says(Frames(s, a, w)[i]);
            x == Lookup(Do(s, a).store.kv, k) || (x == None && Lapses(s, a, k))
  {
    match a
    case Handle(c, now, later, _) =>
      if Next(s, c).Ask? {
        VerbFrame(s.store, c, Next(s, c).verb, now, later, w, i, k);
      }
    case SweepAt(now, order) => SweepFrame(s.store, order, w, i, k);
    case _ =>
  }

  // A replayed value is what the last frame about the key says, if there is one.
  lemma {:induction false} LastWord(x: Option<Value>, k: Key, frames: seq<Push>)
    ensures || (Replay(x, k, frames) == x && forall i :: 0 <= i < |frames| ==> !About(frames[i], k))
            || exists i :: 0 <= i < |frames| && About(frames[i], k) && Replay(x, k, frames) == Says(frames[i])
    decreases |frames|
  {
    if frames != [] {
      var y, rest := Seen(x, k, frames[0]), frames[1..];
      LastWord(y, k, rest);
      if i :| 0 <= i < |rest| && About(rest[i], k) && Replay(y, k, rest) == Says(rest[i]) {
        assert About(frames[i + 1], k) && Replay(x, k, frames) == Says(frames[i + 1]);
      } else if About(frames[0], k) {
        assert Replay(x, k, frames) == Says(frames[0]);
      } else {
        forall i | 0 <= i < |frames| ensures !About(frames[i], k) {
          assert i > 0 ==> frames[i] == rest[i - 1];
        }
      }
    }
  }

  // ---- every value read was the daemon's, and how recently -------------------------------

  // x was k's value at state j, or in the middle of the verb that led there.
  ghost predicate HadValue(ss: seq<System>, acts: seq<Step>, j: nat, k: Key, x: Option<Value>)
    requires |ss| == |acts| + 1 && j < |ss|
  {
    x == Lookup(ss[j].store.kv, k) || (x == None && j > 0 && Lapses(ss[j - 1], acts[j - 1], k))
  }

  // The last state from p on at which the live stream was no longer than r.
  lemma Reached(ss: seq<System>, acts: seq<Step>, p: nat, m: nat, c: Id, r: nat) returns (q: nat)
    requires Run(ss, acts) && p <= m < |ss| && c in ss[p].conns && ss[p].conns[c].up && |ss[p].conns[c].stream| <= r
    ensures p <= q <= m && c in ss[q].conns && ss[q].conns[c].up && |ss[q].conns[c].stream| <= r
    ensures q < m ==>
      c in ss[q + 1].conns && (ss[q + 1].conns[c].up ==> r < |ss[q + 1].conns[c].stream|)
  {
    q := p;
    while q < m && c in ss[q + 1].conns && ss[q + 1].conns[c].up && |ss[q + 1].conns[c].stream| <= r
      invariant p <= q <= m && c in ss[q].conns && ss[q].conns[c].up && |ss[q].conns[c].stream| <= r
    {
      q := q + 1;
    }
    if q < m {
      StreamGrows(ss, acts, q, q + 1, c);
    }
  }

  // The value at the end of the stream of a live connection is the daemon's.
  lemma WholeIsCurrent(ss: seq<System>, acts: seq<Step>, q: nat, c: Id, k: Key)
    requires Run(ss, acts) && q < |ss| && c in ss[q].conns && ss[q].conns[c].up
    requires Marks(ss[q].conns[c].stream, k)
    ensures Replay(None, k, ss[q].conns[c].stream) == Lookup(ss[q].store.kv, k)
  {
    RunInv(ss, acts, q);
    var stream := ss[q].conns[c].stream;
    assert stream[..|stream|] == stream;
    MarkedIsWatched(ss[q].store, c, stream, |stream|, k);
  }

  // In the middle of the frames one step sends.
  lemma MidwayIsCurrent(ss: seq<System>, acts: seq<Step>, q: nat, c: Id, r: nat, k: Key)
    requires Run(ss, acts) && q < |acts| && c in ss[q].conns && ss[q].conns[c].up
    requires c in ss[q + 1].conns && ss[q + 1].conns[c].up
    requires |ss[q].conns[c].stream| <= r <= |ss[q + 1].conns[c].stream|
    requires Marks(ss[q + 1].conns[c].stream[..r], k)
    ensures var x := Replay(None, k, ss[q + 1].conns[c].stream[..r]);
            HadValue(ss, acts, q, k, x) || HadValue(ss, acts, q + 1, k, x)
  {
    var s, a, stream := ss[q], acts[q], ss[q].conns[c].stream;
    assert Follows(s, a, ss[q + 1]);
    StepStream(s, a, c);
    var more := Frames(s, a, c)[..r - |stream|];
    assert ss[q + 1].conns[c].stream[..r] == stream + more;
    ReplayConcat(None, k, stream, more);
    LastWord(Replay(None, k, stream), k, more);
    if i :| 0 <= i < |more| && About(more[i], k) && Replay(Replay(None, k, stream), k, more) == Says(more[i]) {
      FrameIsCurrent(s, a, c, i, k);
    } else {
      MarksBefore(stream, more, k);
      WholeIsCurrent(ss, acts, q, c, k);
    }
  }

  lemma MarksBefore(stream: seq<Push>, more: seq<Push>, k: Key)
    requires Marks(stream + more, k) && forall i :: 0 <= i < |more| ==> !About(more[i], k)
    ensures Marks(stream, k)
  {
    var i :| 0 <= i < |stream + more| && About((stream + more)[i], k) && !(stream + more)[i].Gone?;
    assert i < |stream|;
    assert About(stream[i], k);
  }

  // Whoever has read r frames of a connection knows, of every key told in them, a value
  // that it had no earlier than the last moment at which only r frames had been sent.
  lemma ReadIsRecent(ss: seq<System>, acts: seq<Step>, p: nat, m: nat, c: Id, r: nat, k: Key) returns (j: nat)
    requires Run(ss, acts) && p <= m < |ss| && c in ss[p].conns && ss[p].conns[c].up && |ss[p].conns[c].stream| <= r
    requires c in ss[m].conns && r <= |ss[m].conns[c].stream| && Marks(ss[m].conns[c].stream[..r], k)
    ensures p <= j <= m && HadValue(ss, acts, j, k, Replay(None, k, ss[m].conns[c].stream[..r]))
  {
    var q := Reached(ss, acts, p, m, c, r);
    StreamGrows(ss, acts, q, m, c);
    if q < m && ss[q + 1].conns[c].up {
      StreamGrows(ss, acts, q + 1, m, c);
      SamePrefix(ss[q + 1].conns[c].stream, ss[m].conns[c].stream, r);
      MidwayIsCurrent(ss, acts, q, c, r, k);
      j := if HadValue(ss, acts, q, k, Replay(None, k, ss[m].conns[c].stream[..r])) then q else q + 1;
    } else {
      if q < m {
        assert Follows(ss[q], acts[q], ss[q + 1]);
        StepStream(ss[q], acts[q], c);
        StreamGrows(ss, acts, q + 1, m, c);
      }
      SamePrefix(ss[q].conns[c].stream, ss[m].conns[c].stream, r);
      assert ss[q].conns[c].stream[..r] == ss[q].conns[c].stream;
      WholeIsCurrent(ss, acts, q, c, k);
      j := q;
    }
  }

  // ---- the barrier ------------------------------------------------------------------------

  // set(k, v), with or without a ttl
  predicate Writes(r: Request, k: Key, v: Value) {
    r.Ask? && (r.verb.Set? || r.verb.SetEx?) && r.verb.key == k && r.verb.value == v
  }

  // Between states s and t some step changed k, or found it expired on the way.
  ghost predicate Touched(ss: seq<System>, acts: seq<Step>, s: nat, t: nat, k: Key)
    requires |ss| == |acts| + 1 && s <= t < |ss|
  {
    exists i :: s <= i < t &&
      (Lookup(ss[i].store.kv, k) != Lookup(ss[i + 1].store.kv, k) || Lapses(ss[i], acts[i], k))
  }

  lemma {:induction false} UntouchedStays(ss: seq<System>, acts: seq<Step>, s: nat, t: nat, k: Key)
    requires |ss| == |acts| + 1 && s <= t < |ss| && !Touched(ss, acts, s, t, k)
    ensures Lookup(ss[t].store.kv, k) == Lookup(ss[s].store.kv, k)
    decreases t
  {
    if s < t {
      assert !Touched(ss, acts, s, t - 1, k);
      UntouchedStays(ss, acts, s, t - 1, k);
      assert Lookup(ss[t - 1].store.kv, k) == Lookup(ss[t - 1 + 1].store.kv, k);
    }
  }

  // Step p of the run answers a PING of connection c.
  ghost predicate Answers(ss: seq<System>, acts: seq<Step>, p: nat, c: Id) {
    && |ss| == |acts| + 1 && p < |acts| && acts[p].Handle? && acts[p].c == c
    && c in ss[p].conns && ss[p].conns[c].handled < |ss[p].conns[c].asked|
    && ss[p].conns[c].up && Next(ss[p], c).Ping?
  }

  // The node has read the PONG that step p sent on connection c.
  predicate PongRead(ss: seq<System>, p: nat, m: nat, c: Id)
    requires p < m < |ss| && c in ss[p].conns
  {
    c in ss[m].conns && |ss[p].conns[c].stream| < ss[m].conns[c].read
  }

  lemma StepPhase(s: System, a: Step, n: nat, c: Id)
    requires Can(s, a) && n in s.nodes && n in Do(s, a).nodes
    requires !Do(s, a).nodes[n].phase.Down? && Do(s, a).nodes[n].phase.c == c
    ensures (!s.nodes[n].phase.Down? && s.nodes[n].phase.c == c) || a == Connect(n, c)
  {
  }

  // A node that has come from one connection to another connected in between.
  lemma {:induction false} ConnectedLater(ss: seq<System>, acts: seq<Step>, p: nat, m: nat, n: nat, c: Id, d: Id)
    returns (t: nat)
    requires Run(ss, acts) && p <= m < |ss| && n in ss[p].nodes && ss[p].nodes[n].phase == Reading(c) && c != d
    requires n in ss[m].nodes && !ss[m].nodes[n].phase.Down? && ss[m].nodes[n].phase.c == d
    ensures p <= t < m && acts[t] == Connect(n, d)
    decreases m
  {
    NodesStay(ss, acts, p, m - 1, n);
    assert Follows(ss[m - 1], acts[m - 1], ss[m]);
    StepPhase(ss[m - 1], acts[m - 1], n, d);
    if acts[m - 1] == Connect(n, d) {
      t := m - 1;
    } else {
      t := ConnectedLater(ss, acts, p, m - 1, n, c, d);
    }
  }

  lemma {:induction false} NodesStay(ss: seq<System>, acts: seq<Step>, p: nat, m: nat, n: nat)
    requires Run(ss, acts) && p <= m < |ss| && n in ss[p].nodes
    ensures n in ss[m].nodes
    decreases m
  {
    if p < m {
      NodesStay(ss, acts, p, m - 1, n);
      assert Follows(ss[m - 1], acts[m - 1], ss[m]);
    }
  }

  lemma FreshlyConnected(ss: seq<System>, acts: seq<Step>, t: nat, n: nat, d: Id)
    requires Run(ss, acts) && t < |acts| && acts[t] == Connect(n, d)
    ensures d in ss[t + 1].conns && ss[t + 1].conns[d] == Conn(n, true, [], 0, [], 0)
  {
    assert Follows(ss[t], acts[t], ss[t + 1]);
  }

  // A key that the node serves after the PONG, on whatever connection it is by then, is
  // served with a value that the key had after the PING was answered. On another
  // connection that holds even if the PONG was lost.
  lemma ServedSince(ss: seq<System>, acts: seq<Step>, p: nat, m: nat, c: Id, n: nat, k: Key) returns (j: nat)
    requires Run(ss, acts) && p < m < |ss| && Answers(ss, acts, p, c) && ss[p].conns[c].node == n
    requires n in ss[m].nodes && k in ss[m].nodes[n].watched
    requires ss[m].nodes[n].phase == Reading(c) || ss[m].nodes[n].phase == Closed(c) ==> PongRead(ss, p, m, c)
    ensures p < j <= m && HadValue(ss, acts, j, k, Lookup(ss[m].nodes[n].cache, k))
  {
    var d := ServedFrom(ss, acts, m, n, k);
    if d == c {
      PongIsThere(ss, acts, p, m, c);
      j := ReadIsRecent(ss, acts, p + 1, m, c, ss[m].conns[c].read, k);
    } else {
      OwnerReads(ss, acts, p, c);
      var t := ConnectedLater(ss, acts, p, m, n, c, d);
      FreshlyConnected(ss, acts, t, n, d);
      j := ReadIsRecent(ss, acts, t + 1, m, d, ss[m].conns[d].read, k);
    }
  }

  // The connection that the node serves k from, and what it serves.
  lemma ServedFrom(ss: seq<System>, acts: seq<Step>, m: nat, n: nat, k: Key) returns (d: Id)
    requires Run(ss, acts) && m < |ss| && n in ss[m].nodes && k in ss[m].nodes[n].watched
    ensures ss[m].nodes[n].phase == Reading(d) || ss[m].nodes[n].phase == Closed(d)
    ensures d in ss[m].conns && ss[m].conns[d].read <= |ss[m].conns[d].stream|
    ensures Marks(ss[m].conns[d].stream[..ss[m].conns[d].read], k)
    ensures Lookup(ss[m].nodes[n].cache, k) == Replay(None, k, ss[m].conns[d].stream[..ss[m].conns[d].read])
  {
    RunInv(ss, acts, m);
    assert NodeOk(ss[m], n);
    d := ss[m].nodes[n].phase.c;
  }

  lemma OwnerReads(ss: seq<System>, acts: seq<Step>, p: nat, c: Id)
    requires Run(ss, acts) && p < |ss| && c in ss[p].conns && ss[p].conns[c].up
    ensures ss[p].conns[c].node in ss[p].nodes && ss[p].nodes[ss[p].conns[c].node].phase == Reading(c)
  {
    RunInv(ss, acts, p);
    assert ConnOk(ss[p], c);
  }

  // At any time after the PONG has been handled: every request written before the PING
  // was applied before it was answered, and whatever the node serves, on this connection
  // or a later one, is a value from after that.
  lemma SyncIsABarrier(ss: seq<System>, acts: seq<Step>, p: nat, m: nat, c: Id, k: Key)
    requires Run(ss, acts) && p < m < |ss| && Answers(ss, acts, p, c) && PongRead(ss, p, m, c)
    ensures var at, ping := |ss[p].conns[c].stream|, Next(ss[p], c);
            at < |ss[m].conns[c].stream| && ss[m].conns[c].stream[at] == Pong(ping.name, ping.token)
    ensures forall i: nat :: i < ss[p].conns[c].handled ==> HandledBefore(ss, acts, p, c, i)
    ensures var n := ss[p].conns[c].node;
            && n in ss[m].nodes
            && (k in ss[m].nodes[n].watched ==>
                  exists j :: p < j <= m && HadValue(ss, acts, j, k, Lookup(ss[m].nodes[n].cache, k)))
  {
    PongIsThere(ss, acts, p, m, c);
    forall i: nat | i < ss[p].conns[c].handled ensures HandledBefore(ss, acts, p, c, i) {
      var s := HandledBy(ss, acts, p, c, i);
    }
    var n := ss[p].conns[c].node;
    OwnerReads(ss, acts, p, c);
    NodesStay(ss, acts, p, m, n);
    if k in ss[m].nodes[n].watched {
      var j := ServedSince(ss, acts, p, m, c, n, k);
    }
  }

  lemma PongIsThere(ss: seq<System>, acts: seq<Step>, p: nat, m: nat, c: Id)
    requires Run(ss, acts) && p < m < |ss| && Answers(ss, acts, p, c)
    requires c in ss[m].conns && |ss[p].conns[c].stream| < ss[m].conns[c].read
    ensures var at, ping := |ss[p].conns[c].stream|, Next(ss[p], c);
            && at < ss[m].conns[c].read <= |ss[m].conns[c].stream|
            && ss[m].conns[c].stream[at] == Pong(ping.name, ping.token)
            && c in ss[p + 1].conns && ss[p + 1].conns[c].up && |ss[p + 1].conns[c].stream| == at + 1
  {
    var s, a := ss[p], acts[p];
    assert Follows(s, a, ss[p + 1]);
    StepStream(s, a, c);
    RunInv(ss, acts, m);
    assert ConnOk(ss[m], c);
    assert ConnAfter(s, a, c).up;
    StreamGrows(ss, acts, p + 1, m, c);
    SamePrefix(ss[p + 1].conns[c].stream, ss[m].conns[c].stream, |s.conns[c].stream| + 1);
    assert ss[m].conns[c].stream[..|s.conns[c].stream| + 1][|s.conns[c].stream|] == Frames(s, a, c)[0];
  }

  lemma WriteIsApplied(ss: seq<System>, acts: seq<Step>, s: nat, c: Id, i: nat, k: Key, v: Value)
    requires Run(ss, acts) && Handles(ss, acts, s, c, i) && Writes(Next(ss[s], c), k, v)
    ensures Lookup(ss[s + 1].store.kv, k) == Some(v)
  {
    assert Follows(ss[s], acts[s], ss[s + 1]);
  }

  // set(k, v); sync(); then, at any time and on whatever connection, a warm get(k): v, or
  // the result of a later operation on k.
  lemma WarmGetAfterSync(ss: seq<System>, acts: seq<Step>, p: nat, m: nat, c: Id, i: nat, n: nat, k: Key, v: Value)
    returns (s: nat, j: nat)
    requires Run(ss, acts) && p < m < |ss| && Answers(ss, acts, p, c) && ss[p].conns[c].node == n
    requires i < ss[p].conns[c].handled && Writes(ss[p].conns[c].asked[i], k, v)
    requires n in ss[m].nodes && k in ss[m].nodes[n].watched
    requires ss[m].nodes[n].phase == Reading(c) || ss[m].nodes[n].phase == Closed(c) ==> PongRead(ss, p, m, c)
    ensures s < p < j <= m && Handles(ss, acts, s, c, i) && Lookup(ss[s + 1].store.kv, k) == Some(v)
    ensures var got := Lookup(ss[m].nodes[n].cache, k);
            HadValue(ss, acts, j, k, got) && (got == Some(v) || Touched(ss, acts, s + 1, j, k))
  {
    j := ServedSince(ss, acts, p, m, c, n, k);
    s := HandledBy(ss, acts, p, c, i);
    WriteIsApplied(ss, acts, s, c, i, k, v);
    if !Touched(ss, acts, s + 1, j, k) {
      UntouchedStays(ss, acts, s + 1, j, k);
    }
  }

  // A GET of anybody, on any connection, handled after k was set to v: its answer, the
  // last frame that step sends the asker, is v or the result of an operation in between.
  lemma LaterGetAnswers(ss: seq<System>, acts: seq<Step>, s: nat, t: nat, c: Id, g: nat, k: Key, v: Value)
    requires Run(ss, acts) && s < t && Handles(ss, acts, t, c, g) && Lookup(ss[s + 1].store.kv, k) == Some(v)
    requires var r := Next(ss[t], c); r.Ask? && r.verb.Get? && r.verb.key == k
    ensures var got := Lookup(ss[t + 1].store.kv, k);
            && (got == Some(v) || Touched(ss, acts, s + 1, t + 1, k))
            && Can(ss[t], acts[t])
            && var sent := Frames(ss[t], acts[t], c);
            sent != [] && sent[|sent| - 1] == Reply(Next(ss[t], c).verb.ask, k, got)
  {
    assert Follows(ss[t], acts[t], ss[t + 1]);
    if !Touched(ss, acts, s + 1, t + 1, k) {
      UntouchedStays(ss, acts, s + 1, t + 1, k);
    }
  }

  // set(k, v), then a cold get(k), with or without a sync() in between: the GET is
  // handled after the set, being written after it on the same connection.
  lemma ColdGetAfterSet(ss: seq<System>, acts: seq<Step>, m: nat, c: Id, i: nat, g: nat, k: Key, v: Value)
    returns (s: nat, t: nat)
    requires Run(ss, acts) && m < |ss| && c in ss[m].conns && i < g < ss[m].conns[c].handled
    requires g < |ss[m].conns[c].asked| && Writes(ss[m].conns[c].asked[i], k, v)
    requires var r := ss[m].conns[c].asked[g]; r.Ask? && r.verb.Get? && r.verb.key == k
    ensures s < t < m && Handles(ss, acts, s, c, i) && Handles(ss, acts, t, c, g)
    ensures Lookup(ss[s + 1].store.kv, k) == Some(v)
    ensures var got := Lookup(ss[t + 1].store.kv, k);
            && (got == Some(v) || Touched(ss, acts, s + 1, t + 1, k))
            && Can(ss[t], acts[t])
            && var sent := Frames(ss[t], acts[t], c);
            sent != [] && sent[|sent| - 1] == Reply(ss[m].conns[c].asked[g].verb.ask, k, got)
  {
    s := HandledBy(ss, acts, m, c, i);
    t := HandledBy(ss, acts, m, c, g);
    InOrder(ss, acts, s, t, c, i, g);
    WriteIsApplied(ss, acts, s, c, i, k, v);
    LaterGetAnswers(ss, acts, s, t, c, g, k, v);
  }
}
