/**
  request() of include/node.hpp, end to end: the frame that sets a promise is the
  daemon's answer to the very request that was sent under its id, and incr() returns
  the sum its own increment led to.
*/
module Answers {
  import opened Options
  import opened Int64
  import opened KvStore
  import opened Wire
  import opened Cluster
  import opened SyncBarrier
  import KvRuns

  // ---- one step ---------------------------------------------------------------------------

  // A verb that is answered is answered once, last, and only to its client.
  lemma VerbAnswer(st: Store, c: Id, v: Verb, now: Time, w: Id, i: nat)
    requires i < |Sent(st, c, v, now, w)| && AnswerIn(Sent(st, c, v, now, w)[i]).Some?
    ensures w == c && i == |Sent(st, c, v, now, w)| - 1
    ensures IdOf(Ask(v)) == Some(AnswerIn(Sent(st, c, v, now, w)[i]).value.0)
  {
  }

  lemma {:induction false} SweepAnswersNothing(st: Store, order: seq<Key>, w: Id, i: nat)
    requires i < |SweptTo(st, order, w)|
    ensures AnswerIn(SweptTo(st, order, w)[i]) == None
    decreases |order|
  {
    var first := GoneTo(st, order[0], w);
    if i >= |first| {
      SweepAnswersNothing(st, order[1..], w, i - |first|);
    }
  }

  lemma StepAnswer(s: System, a: Cluster.Step, w: Id, i: nat)
    requires Can(s, a) && i < |Frames(s, a, w)| && AnswerIn(Frames(s, a, w)[i]).Some?
    ensures a.Handle? && a.c == w && i == |Frames(s, a, w)| - 1
    ensures IdOf(Next(s, w)) == Some(AnswerIn(Frames(s, a, w)[i]).value.0)
  {
    match a
    case Handle(c, now, _, _) =>
      if Next(s, c).Ask? {
        VerbAnswer(s.store, c, Next(s, c).verb, now, w, i);
      }
    case SweepAt(_, order) => SweepAnswersNothing(s.store, order, w, i);
    case _ =>
  }

  // ---- whole runs -------------------------------------------------------------------------

  // Frame number pos of connection c is the last one sent it by step s, which handled
  // request number i.
  ghost predicate AnsweredBy(ss: seq<System>, acts: seq<Cluster.Step>, s: nat, c: Id, i: nat, pos: nat) {
    && Handles(ss, acts, s, c, i) && Can(ss[s], acts[s]) && c in ss[s + 1].conns
    && Frames(ss[s], acts[s], c) != []
    && pos == |ss[s].conns[c].stream| + |Frames(ss[s], acts[s], c)| - 1
    && ss[s + 1].conns[c].stream == ss[s].conns[c].stream + Frames(ss[s], acts[s], c)
  }

  // Step s, handling request number i, answered with what is now frame number pos.
  ghost predicate Explains(ss: seq<System>, acts: seq<Cluster.Step>, m: nat, c: Id, pos: nat, s: nat, i: nat)
    requires m < |ss| && c in ss[m].conns && pos < |ss[m].conns[c].stream|
  {
    && s < m && AnsweredBy(ss, acts, s, c, i, pos)
    && i < ss[m].conns[c].handled <= |ss[m].conns[c].asked|
    && Next(ss[s], c) == ss[m].conns[c].asked[i]
    && AnswerIn(ss[m].conns[c].stream[pos]).Some?
    && IdOf(ss[m].conns[c].asked[i]) == Some(AnswerIn(ss[m].conns[c].stream[pos]).value.0)
    && Frames(ss[s], acts[s], c)[|Frames(ss[s], acts[s], c)| - 1] == ss[m].conns[c].stream[pos]
  }

  // The step that sent the frame.
  lemma {:induction false} SentAt(ss: seq<System>, acts: seq<Cluster.Step>, m: nat, c: Id, pos: nat) returns (s: nat)
    requires Run(ss, acts) && m < |ss| && c in ss[m].conns && pos < |ss[m].conns[c].stream|
    ensures s < m && c in ss[s].conns && c in ss[s + 1].conns
    ensures |ss[s].conns[c].stream| <= pos < |ss[s + 1].conns[c].stream|
    ensures ss[s + 1].conns[c].stream[pos] == ss[m].conns[c].stream[pos]
  {
    StreamBefore(ss, acts, m, c, pos);
    if pos < |ss[m - 1].conns[c].stream| {
      s := SentAt(ss, acts, m - 1, c, pos);
    } else {
      s := m - 1;
    }
  }

  // A handled request keeps its place.
  lemma {:induction false} AskedKept(ss: seq<System>, acts: seq<Cluster.Step>, q: nat, m: nat, c: Id, i: nat)
    requires Run(ss, acts) && q <= m < |ss| && c in ss[q].conns && i < ss[q].conns[c].handled <= |ss[q].conns[c].asked|
    ensures c in ss[m].conns && i < ss[m].conns[c].handled <= |ss[m].conns[c].asked|
    ensures ss[m].conns[c].asked[i] == ss[q].conns[c].asked[i]
    decreases m
  {
    if q < m {
      AskedKept(ss, acts, q, m - 1, c, i);
      assert Follows(ss[m - 1], acts[m - 1], ss[m]);
      AskedIsThere(ss, acts, m, c);
      ConnFrame(ss[m - 1], acts[m - 1], c);
      StepAsked(ss[m - 1], acts[m - 1], c, i);
    }
  }

  lemma WhoAnswered(ss: seq<System>, acts: seq<Cluster.Step>, m: nat, c: Id, pos: nat) returns (s: nat, i: nat)
    requires Run(ss, acts) && m < |ss| && c in ss[m].conns && pos < |ss[m].conns[c].stream|
    requires AnswerIn(ss[m].conns[c].stream[pos]).Some?
    ensures Explains(ss, acts, m, c, pos, s, i)
  {
    s := SentAt(ss, acts, m, c, pos);
    i := ss[s].conns[c].handled;
    ExplainedLater(ss, acts, m, c, pos, s);
  }

  lemma ExplainedLater(ss: seq<System>, acts: seq<Cluster.Step>, m: nat, c: Id, pos: nat, s: nat)
    requires Run(ss, acts) && s < m < |ss| && c in ss[s].conns && c in ss[s + 1].conns && c in ss[m].conns
    requires |ss[s].conns[c].stream| <= pos < |ss[s + 1].conns[c].stream| && pos < |ss[m].conns[c].stream|
    requires ss[s + 1].conns[c].stream[pos] == ss[m].conns[c].stream[pos]
    requires AnswerIn(ss[m].conns[c].stream[pos]).Some?
    ensures Explains(ss, acts, m, c, pos, s, ss[s].conns[c].handled)
  {
    LastExplains(ss, acts, s + 1, c, pos);
    AskedKept(ss, acts, s + 1, m, c, ss[s].conns[c].handled);
  }

  lemma StreamBefore(ss: seq<System>, acts: seq<Cluster.Step>, m: nat, c: Id, pos: nat)
    requires Run(ss, acts) && m < |ss| && c in ss[m].conns && pos < |ss[m].conns[c].stream|
    ensures m > 0 && c in ss[m - 1].conns
    ensures pos < |ss[m - 1].conns[c].stream| ==> ss[m - 1].conns[c].stream[pos] == ss[m].conns[c].stream[pos]
  {
    assert m > 0;
    assert Follows(ss[m - 1], acts[m - 1], ss[m]);
    StreamStep(ss[m - 1], acts[m - 1], c, pos);
  }

  lemma LastExplains(ss: seq<System>, acts: seq<Cluster.Step>, m: nat, c: Id, pos: nat)
    requires Run(ss, acts) && 0 < m < |ss| && c in ss[m - 1].conns && c in ss[m].conns
    requires |ss[m - 1].conns[c].stream| <= pos < |ss[m].conns[c].stream|
    requires AnswerIn(ss[m].conns[c].stream[pos]).Some?
    ensures Explains(ss, acts, m, c, pos, m - 1, ss[m - 1].conns[c].handled)
  {
    var p, a := ss[m - 1], acts[m - 1];
    assert Follows(p, a, ss[m]);
    StreamStep(p, a, c, pos);
    StepAnswer(p, a, c, pos - |p.conns[c].stream|);
    AskedIsThere(ss, acts, m - 1, c);
    AskedIsThere(ss, acts, m, c);
    StepAsked(p, a, c, p.conns[c].handled);
  }

  lemma StreamStep(s: System, a: Cluster.Step, c: Id, pos: nat)
    requires Can(s, a) && c in Do(s, a).conns && pos < |Do(s, a).conns[c].stream|
    ensures c in s.conns
    ensures var before, after := s.conns[c].stream, Do(s, a).conns[c].stream;
            if pos < |before| then after[pos] == before[pos]
            else
              && s.conns[c].up && after == before + Frames(s, a, c)
              && after[pos] == Frames(s, a, c)[pos - |before|]
  {
    ConnFrame(s, a, c);
    assert s.conns[c].stream + [] == s.conns[c].stream;
  }

  // No id is used twice among these requests: next_req_ does not wrap.
  predicate Distinct(rs: seq<Request>) {
    forall i, j :: 0 <= i < j < |rs| && IdOf(rs[i]).Some? ==> IdOf(rs[i]) != IdOf(rs[j])
  }

  lemma SameId(rs: seq<Request>, i: nat, j: nat)
    requires Distinct(rs) && i < |rs| && j < |rs| && IdOf(rs[i]).Some? && IdOf(rs[i]) == IdOf(rs[j])
    ensures i == j
  {
  }

  // The frame that sets the promise under a request's id is the answer to that request.
  lemma OwnAnswer(ss: seq<System>, acts: seq<Cluster.Step>, m: nat, c: Id, pos: nat, i: nat) returns (s: nat)
    requires Run(ss, acts) && m < |ss| && c in ss[m].conns && Distinct(ss[m].conns[c].asked)
    requires i < |ss[m].conns[c].asked| && pos < |ss[m].conns[c].stream|
    requires var answer := AnswerIn(ss[m].conns[c].stream[pos]);
             answer.Some? && IdOf(ss[m].conns[c].asked[i]) == Some(answer.value.0)
    ensures s < m && AnsweredBy(ss, acts, s, c, i, pos) && Next(ss[s], c) == ss[m].conns[c].asked[i]
    ensures Frames(ss[s], acts[s], c)[|Frames(ss[s], acts[s], c)| - 1] == ss[m].conns[c].stream[pos]
  {
    var j;
    s, j := WhoAnswered(ss, acts, m, c, pos);
    SameId(ss[m].conns[c].asked, i, j);
  }

  lemma HandledOnce(ss: seq<System>, acts: seq<Cluster.Step>, s: nat, t: nat, c: Id, i: nat)
    requires Run(ss, acts) && Handles(ss, acts, s, c, i) && Handles(ss, acts, t, c, i)
    ensures s == t
  {
    if s < t {
      HandledNext(ss, acts, s, t, c, i);
    } else if t < s {
      HandledNext(ss, acts, t, s, c, i);
    }
  }

  lemma HandledNext(ss: seq<System>, acts: seq<Cluster.Step>, s: nat, t: nat, c: Id, i: nat)
    requires Run(ss, acts) && Handles(ss, acts, s, c, i) && s < t < |ss|
    ensures c in ss[t].conns && ss[t].conns[c].handled > i
  {
    assert Follows(ss[s], acts[s], ss[s + 1]);
    HandledGrows(ss, acts, s + 1, t, c);
  }

  // And it is the only one: a promise is never offered two answers on one connection.
  lemma AnsweredOnce(ss: seq<System>, acts: seq<Cluster.Step>, m: nat, c: Id, pos: nat, pos': nat, i: nat)
    requires Run(ss, acts) && m < |ss| && c in ss[m].conns && Distinct(ss[m].conns[c].asked)
    requires i < |ss[m].conns[c].asked| && pos < |ss[m].conns[c].stream| && pos' < |ss[m].conns[c].stream|
    requires var id, stream := IdOf(ss[m].conns[c].asked[i]), ss[m].conns[c].stream;
             && AnswerIn(stream[pos]).Some? && id == Some(AnswerIn(stream[pos]).value.0)
             && AnswerIn(stream[pos']).Some? && id == Some(AnswerIn(stream[pos']).value.0)
    ensures pos == pos'
  {
    var s := OwnAnswer(ss, acts, m, c, pos, i);
    var t := OwnAnswer(ss, acts, m, c, pos', i);
    HandledOnce(ss, acts, s, t, c, i);
  }

  // ---- incr -------------------------------------------------------------------------------

  // What a step does to the store.
  function EventAt(s: System, a: Cluster.Step): KvRuns.Event
    requires Can(s, a)
  {
    match a
    case Handle(c, now, later, _) =>
      if Next(s, c).Ask? then KvRuns.Asked(c, Next(s, c).verb, now, later) else KvRuns.Elsewhere
    case SweepAt(now, _) => KvRuns.Sweep(now)
    case Remove(c) => KvRuns.Leave(c)
    case _ => KvRuns.Elsewhere
  }

  function Stores(ss: seq<System>): (r: seq<Store>)
    ensures |r| == |ss| && forall i :: 0 <= i < |ss| ==> r[i] == ss[i].store
  {
    seq(|ss|, i requires 0 <= i < |ss| => ss[i].store)
  }

  ghost function Events(ss: seq<System>, acts: seq<Cluster.Step>): (r: seq<KvRuns.Event>)
    requires Run(ss, acts)
    ensures |r| == |acts|
    ensures forall i :: 0 <= i < |acts| ==> Can(ss[i], acts[i]) && r[i] == EventAt(ss[i], acts[i])
  {
    AllCan(ss, acts);
    seq(|acts|, i requires 0 <= i < |acts| => EventAt(ss[i], acts[i]))
  }

  lemma AllCan(ss: seq<System>, acts: seq<Cluster.Step>)
    requires Run(ss, acts)
    ensures forall i :: 0 <= i < |acts| ==> Can(ss[i], acts[i])
  {
    forall i | 0 <= i < |acts| ensures Can(ss[i], acts[i]) {
      assert Follows(ss[i], acts[i], ss[i + 1]);
    }
  }

  // In the whole run k is only ever incremented, and never expires.
  ghost predicate Counter(ss: seq<System>, acts: seq<Cluster.Step>, k: Key) {
    && Run(ss, acts)
    && forall m: nat :: m < |acts| ==>
         var s, e := ss[m].store, Events(ss, acts)[m];
         !KvRuns.Expires(s, e, k) && (KvRuns.Counts(e, k) || KvRuns.LeavesAlone(s, e, k))
  }

  lemma CounterIsCounted(ss: seq<System>, acts: seq<Cluster.Step>, k: Key)
    requires Counter(ss, acts, k)
    ensures KvRuns.OnlyCounted(Stores(ss), Events(ss, acts), k)
  {
    forall m: nat | m < |acts| ensures KvRuns.CountedAt(Stores(ss), Events(ss, acts), k, m) {
      assert Follows(ss[m], acts[m], ss[m + 1]);
    }
  }

  // The last frame of the step that handles an increment says the sum.
  lemma SumIsSent(ss: seq<System>, acts: seq<Cluster.Step>, s: nat, c: Id, i: nat, k: Key) returns (p: Push)
    requires Counter(ss, acts, k) && Handles(ss, acts, s, c, i)
    requires var r := Next(ss[s], c); r.Ask? && r.verb.Incr? && r.verb.key == k
    ensures Can(ss[s], acts[s]) && var sent := Frames(ss[s], acts[s], c); sent != [] && sent[|sent| - 1] == p
    ensures p.Result? && p.ok && |p.value| == 8
    ensures Signed(Bits(p.value)) == KvRuns.WrappedSum(0, Events(ss, acts), k, s + 1)
  {
    CounterIsCounted(ss, acts, k);
    assert Events(ss, acts)[s] == KvRuns.Asked(c, Next(ss[s], c).verb, acts[s].now, acts[s].later);
    assert ss[0].store == EMPTY && Stores(ss)[0] == EMPTY;
    KvRuns.EveryAnswerIsAPrefixSum(Stores(ss), Events(ss, acts), k, s);
    var sent := Frames(ss[s], acts[s], c);
    p := sent[|sent| - 1];
  }

  // ---- what each call returns -------------------------------------------------------------

  // Frame number pos of connection c sets the promise of request number i to val.
  predicate Settles(s: System, c: Id, pos: nat, i: nat, val: Option<Value>) {
    && c in s.conns && i < |s.conns[c].asked| && pos < |s.conns[c].stream|
    && var answer := AnswerIn(s.conns[c].stream[pos]);
    && answer.Some? && IdOf(s.conns[c].asked[i]) == Some(answer.value.0) && val == answer.value.1
  }

  // A run in which no id is used twice on connection c.
  ghost predicate Numbered(ss: seq<System>, acts: seq<Cluster.Step>, m: nat, c: Id) {
    Run(ss, acts) && m < |ss| && c in ss[m].conns && Distinct(ss[m].conns[c].asked)
  }

  // A cold get() returns what the store holds right after its GET was handled.
  lemma GetReturns(ss: seq<System>, acts: seq<Cluster.Step>, m: nat, c: Id, pos: nat, i: nat, val: Option<Value>)
    returns (s: nat)
    requires Numbered(ss, acts, m, c) && Settles(ss[m], c, pos, i, val)
    requires var r := ss[m].conns[c].asked[i]; r.Ask? && r.verb.Get?
    ensures s < m && Handles(ss, acts, s, c, i) && Next(ss[s], c) == ss[m].conns[c].asked[i]
    ensures val == Lookup(ss[s + 1].store.kv, ss[m].conns[c].asked[i].verb.key)
  {
    s := OwnAnswer(ss, acts, m, c, pos, i);
    assert Follows(ss[s], acts[s], ss[s + 1]);
    LastOfGet(ss[s].store, c, Next(ss[s], c).verb, acts[s].now, acts[s].later);
  }

  lemma LastOfGet(st: Store, c: Id, v: Verb, now: Time, later: Time)
    requires v.Get?
    ensures var sent := Sent(st, c, v, now, c);
            sent != [] && sent[|sent| - 1] == Reply(v.ask, v.key, Lookup(After(st, c, v, now, later).kv, v.key))
  {
  }

  // set(k, v), then a cold get(k): it returns v, or the result of an operation in between.
  lemma ColdGetReturns(ss: seq<System>, acts: seq<Cluster.Step>, m: nat, c: Id, i: nat, pos: nat, g: nat,
      k: Key, v: Value, val: Option<Value>) returns (s: nat, t: nat)
    requires Numbered(ss, acts, m, c) && Settles(ss[m], c, pos, g, val) && i < g
    requires Writes(ss[m].conns[c].asked[i], k, v)
    requires var r := ss[m].conns[c].asked[g]; r.Ask? && r.verb.Get? && r.verb.key == k
    ensures s < t < m && Handles(ss, acts, s, c, i) && Handles(ss, acts, t, c, g)
    ensures val == Some(v) || Touched(ss, acts, s + 1, t + 1, k)
  {
    t := GetReturns(ss, acts, m, c, pos, g, val);
    assert Follows(ss[t], acts[t], ss[t + 1]);
    HandledGrows(ss, acts, t + 1, m, c);
    var t';
    s, t' := ColdGetAfterSet(ss, acts, m, c, i, g, k, v);
    HandledOnce(ss, acts, t, t', c, g);
  }

  // setnx() returns true, its promise being set to something, exactly if it won the key.
  lemma SetNxReturns(ss: seq<System>, acts: seq<Cluster.Step>, m: nat, c: Id, pos: nat, i: nat, val: Option<Value>)
    returns (s: nat)
    requires Numbered(ss, acts, m, c) && Settles(ss[m], c, pos, i, val)
    requires var r := ss[m].conns[c].asked[i]; r.Ask? && r.verb.SetNx?
    ensures s < m && Handles(ss, acts, s, c, i) && Next(ss[s], c) == ss[m].conns[c].asked[i]
    ensures var k := ss[m].conns[c].asked[i].verb.key;
            && Can(ss[s], acts[s])
            && (val.Some? <==> KvRuns.Wins(ss[s].store, EventAt(ss[s], acts[s]), k))
  {
    s := OwnAnswer(ss, acts, m, c, pos, i);
    assert Follows(ss[s], acts[s], ss[s + 1]);
    var v := Next(ss[s], c).verb;
    SetNxSeesOnlyLiveKeys(ss[s].store, c, v.key, v.ask, v.ttl, v.value, acts[s].now);
  }

  // Two setnx() of one key that both return true, whoever calls them: between the two the
  // key was deleted, or it expired.
  lemma WinnersAreApart(ss: seq<System>, acts: seq<Cluster.Step>, m: nat,
      c: Id, pos: nat, i: nat, val: Option<Value>, d: Id, pos': nat, j: nat, val': Option<Value>)
    returns (s: nat, t: nat)
    requires Numbered(ss, acts, m, c) && Settles(ss[m], c, pos, i, val) && val.Some?
    requires Numbered(ss, acts, m, d) && Settles(ss[m], d, pos', j, val') && val'.Some?
    requires var r, r' := ss[m].conns[c].asked[i], ss[m].conns[d].asked[j];
             r.Ask? && r.verb.SetNx? && r'.Ask? && r'.verb.SetNx? && r'.verb.key == r.verb.key
    requires c != d || i != j
    ensures Handles(ss, acts, s, c, i) && Handles(ss, acts, t, d, j) && s != t
    ensures var k, es := ss[m].conns[c].asked[i].verb.key, Events(ss, acts);
            var first, last := if s < t then s else t, if s < t then t else s;
            exists x: nat :: first < x <= last && x < |acts| && Ends(ss, acts, x, k)
  {
    s := SetNxReturns(ss, acts, m, c, pos, i, val);
    t := SetNxReturns(ss, acts, m, d, pos', j, val');
    var k := ss[m].conns[c].asked[i].verb.key;
    var first, last := if s < t then s else t, if s < t then t else s;
    StoresChain(ss, acts);
    KvRuns.LockIsExclusive(Stores(ss), Events(ss, acts), k, first, last);
    var x :| first < x <= last &&
      (KvRuns.Deletes(Events(ss, acts)[x], k) || KvRuns.Expires(Stores(ss)[x], Events(ss, acts)[x], k));
    assert Ends(ss, acts, x, k);
  }

  // Step x deletes k, or finds it expired.
  ghost predicate Ends(ss: seq<System>, acts: seq<Cluster.Step>, x: nat, k: Key)
    requires Run(ss, acts) && x < |acts|
  {
    KvRuns.Deletes(Events(ss, acts)[x], k) || KvRuns.Expires(ss[x].store, Events(ss, acts)[x], k)
  }

  lemma StoresChain(ss: seq<System>, acts: seq<Cluster.Step>)
    requires Run(ss, acts)
    ensures KvRuns.Chain(Stores(ss), Events(ss, acts))
  {
    forall m: nat | m < |acts| ensures KvRuns.LinkAt(Stores(ss), Events(ss, acts), m) {
      assert Follows(ss[m], acts[m], ss[m + 1]);
    }
  }

  // incr() returns nothing exactly if the key holds, alive, what is no counter.
  lemma IncrReturnsNothingIff(ss: seq<System>, acts: seq<Cluster.Step>, m: nat, c: Id, pos: nat, i: nat,
      val: Option<Value>) returns (s: nat)
    requires Numbered(ss, acts, m, c) && Settles(ss[m], c, pos, i, val)
    requires var r := ss[m].conns[c].asked[i]; r.Ask? && r.verb.Incr?
    ensures s < m && Handles(ss, acts, s, c, i) && Next(ss[s], c) == ss[m].conns[c].asked[i]
    ensures var k, st := ss[m].conns[c].asked[i].verb.key, ss[s].store;
            val.None? <==> Live(st, k, acts[s].now) && |st.kv[k]| != 8
  {
    s := OwnAnswer(ss, acts, m, c, pos, i);
    assert Follows(ss[s], acts[s], ss[s + 1]);
    LastOfIncr(ss[s].store, c, Next(ss[s], c).verb, acts[s].now);
  }

  lemma LastOfIncr(st: Store, c: Id, v: Verb, now: Time)
    requires v.Incr?
    ensures var sent := Sent(st, c, v, now, c);
            && sent != [] && sent[|sent| - 1].Result?
            && (AnswerIn(sent[|sent| - 1]).value.1.None? <==> Live(st, v.key, now) && |st.kv[v.key]| != 8)
  {
    IncrSeesOnlyLiveKeys(st, c, v.key, v.ask, v.delta, now);
  }

  // info() returns the text the daemon rendered when it handled the request; sync()
  // returns nothing but that the PING was answered.
  lemma InfoAndSyncReturn(ss: seq<System>, acts: seq<Cluster.Step>, m: nat, c: Id, pos: nat, i: nat,
      val: Option<Value>) returns (s: nat)
    requires Numbered(ss, acts, m, c) && Settles(ss[m], c, pos, i, val)
    requires var r := ss[m].conns[c].asked[i]; r.Info? || r.Ping?
    ensures s < m && Handles(ss, acts, s, c, i) && Next(ss[s], c) == ss[m].conns[c].asked[i]
    ensures val == if ss[m].conns[c].asked[i].Info? then Some(acts[s].status) else None
  {
    s := OwnAnswer(ss, acts, m, c, pos, i);
    assert Follows(ss[s], acts[s], ss[s + 1]);
  }

  // incr() returns the sum of all increments so far, its own included, wrapped to signed 64
  // bits: its promise is set to the value its own request left, however many nodes count.
  lemma IncrReturnsItsSum(ss: seq<System>, acts: seq<Cluster.Step>, m: nat, c: Id, pos: nat, i: nat, k: Key)
    returns (s: nat)
    requires Counter(ss, acts, k) && m < |ss| && c in ss[m].conns && Distinct(ss[m].conns[c].asked)
    requires i < |ss[m].conns[c].asked| && pos < |ss[m].conns[c].stream|
    requires var r := ss[m].conns[c].asked[i]; r.Ask? && r.verb.Incr? && r.verb.key == k
    requires var answer := AnswerIn(ss[m].conns[c].stream[pos]);
             answer.Some? && answer.value.0 == ss[m].conns[c].asked[i].verb.ask
    ensures s < m && Handles(ss, acts, s, c, i)
    ensures var val := AnswerIn(ss[m].conns[c].stream[pos]).value.1;
            && val.Some? && |val.value| == 8
            && Signed(Bits(val.value)) == KvRuns.WrappedSum(0, Events(ss, acts), k, s + 1)
  {
    s := OwnAnswer(ss, acts, m, c, pos, i);
    var sent := SumIsSent(ss, acts, s, c, i, k);
  }
}
