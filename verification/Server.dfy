/**
  The daemon of include/server.hpp: one object whose maps every frame and every
  sweep mutate. Each handler is one critical section; a client's connection is
  the queue `out` of what has been written to it.
*/
module Server {
  import opened Options
  import opened Framing
  import opened Topics
  import opened Int64
  import opened KvStore
  import opened Wire

  datatype Client = Client(topics: set<Name>, patterns: set<Name>, keys: set<Key>, out: seq<Push>)

  const NEWCOMER := Client({}, {}, {}, [])

  function Enter(index: Index, n: Bytes, c: Id): Index {
    index[n := Entry(index, n) + {c}]
  }

  // Take c out of one entry, and drop the entry once nobody is left in it.
  function EraseFrom(index: Index, n: Bytes, c: Id): (r: Index)
    ensures Entry(r, n) == Entry(index, n) - {c}
    ensures forall m :: m != n ==> Entry(r, m) == Entry(index, m)
    ensures NoEmptyEntry(index) ==> NoEmptyEntry(r)
  {
    if n !in index then index
    else if index[n] - {c} == {} then index - {n}
    else index[n := index[n] - {c}]
  }

  predicate NoEmptyEntry(index: Index) {
    forall n :: n in index ==> index[n] != {}
  }

  // The three lists a client record keeps, each with an index of its own.
  datatype List = TopicList | PatternList | KeyList

  function Listed(c: Client, list: List): set<Bytes> {
    match list
    case TopicList => c.topics
    case PatternList => c.patterns
    case KeyList => c.keys
  }

  // The index is the exact inverse of what each client lists.
  ghost predicate Inverse(index: Index, clients: map<Id, Client>, list: List) {
    && NoEmptyEntry(index)
    && forall n, c :: c in Entry(index, n) <==> c in clients && n in Listed(clients[c], list)
  }

  // Between the two nothing changed but what has been written to each client.
  predicate SameLists(before: map<Id, Client>, after: map<Id, Client>) {
    && before.Keys == after.Keys
    && forall w :: w in before ==> after[w] == before[w].(out := after[w].out)
  }

  // Each target that is still there got this frame.
  ghost predicate ToldEach(before: map<Id, Client>, after: map<Id, Client>, targets: set<Id>, p: Push) {
    && SameLists(before, after)
    && forall w :: w in before ==>
         after[w].out == before[w].out + (if w in targets then [p] else [])
  }

  // Each watcher of an expired key was told that it is gone.
  ghost predicate ToldExpiry(before: map<Id, Client>, after: map<Id, Client>, s: Store, k: Key, now: Time) {
    && SameLists(before, after)
    && forall w :: w in before ==> after[w].out == before[w].out + ExpiryTo(s, k, now, w)
  }

  // Every client was sent what c's verb on store s sends it, and nothing else.
  ghost predicate ToldOf(before: map<Id, Client>, after: map<Id, Client>, s: Store, c: Id, v: Verb, now: Time) {
    && SameLists(before, after)
    && forall w :: w in before ==> after[w].out == before[w].out + Sent(s, c, v, now, w)
  }

  // t has subscribed to some name that matches the topic.
  ghost predicate Wants(clients: map<Id, Client>, t: Id, topic: Name) {
    t in clients && exists s :: s in clients[t].topics + clients[t].patterns && Matches(s, topic)
  }

  // A publish on the topic reached exactly the other clients that want it, once each.
  ghost predicate Routed(before: map<Id, Client>, after: map<Id, Client>, c: Id, topic: Name, payload: Bytes) {
    && SameLists(before, after)
    && forall w :: w in before ==>
         after[w].out == before[w].out +
           (if w != c && Wants(before, w, topic) then [Published(topic, payload)] else [])
  }

  // A newly subscribed name joins the list of its kind; an exact one is followed by
  // the value retained for it.
  function Subscribed(m: map<Id, Client>, c: Id, name: Name, retained: map<Name, Bytes>): map<Id, Client>
    requires c in m
  {
    if HasWildcard(name) then m[c := m[c].(patterns := m[c].patterns + {name})]
    else m[c := m[c].(topics := m[c].topics + {name},
                      out := m[c].out + if name in retained then [Published(name, retained[name])] else [])]
  }

  function Unsubscribed(m: map<Id, Client>, c: Id, name: Name): map<Id, Client>
    requires c in m
  {
    if HasWildcard(name) then m[c := m[c].(patterns := m[c].patterns - {name})]
    else m[c := m[c].(topics := m[c].topics - {name})]
  }

  // The last value of each topic that was published retained; an empty one clears it.
  function RetainedAfter(retained: map<Name, Bytes>, topic: Name, payload: Bytes): map<Name, Bytes> {
    if payload == [] then retained - {topic} else retained[topic := payload]
  }

  // The client record of c with k on its watch list.
  function Listing(m: map<Id, Client>, c: Id, k: Key): map<Id, Client>
    requires c in m
  {
    m[c := m[c].(keys := m[c].keys + {k})]
  }

  // What handling client c's request does to the store and to the client table; status
  // is the text that build_info would render.
  ghost predicate Handled(before: map<Id, Client>, after: map<Id, Client>, s: Store, s': Store,
      retained: map<Name, Bytes>, c: Id, r: Request, now: Time, later: Time, status: Bytes)
    requires c in before
  {
    match r
    case Ask(v) =>
      && s' == After(s, c, v, now, later)
      && ToldOf(if v.Get? then Listing(before, c, v.key) else before, after, s, c, v, now)
    case Publish(topic, payload) => s' == s && Routed(before, after, c, topic, payload)
    case PublishRetain(topic, payload) => s' == s && Routed(before, after, c, topic, payload)
    case Subscribe(name) => s' == s && after == Subscribed(before, c, name, retained)
    case Unsubscribe(name) => s' == s && after == Unsubscribed(before, c, name)
    case Ping(name, token) => s' == s && ToldEach(before, after, {c}, Pong(name, token))
    case Info(ask) => s' == s && ToldEach(before, after, {c}, Status(ask, status))
    case Ignored => s' == s && after == before
  }

  class Server {
    var kv: map<Key, Value>
    var expires: map<Key, Time>
    var watchers: Index
    var subs: Index
    var patternSubs: Index
    var retained: map<Name, Bytes>
    var clients: map<Id, Client>

    function Now(): Store
      reads this
    {
      Store(kv, expires, watchers)
    }

    // The bookkeeping invariant.
    ghost predicate Valid()
      reads this
    {
      && Inverse(subs, clients, TopicList)
      && Inverse(patternSubs, clients, PatternList)
      && Inverse(watchers, clients, KeyList)
      && (forall n :: n in subs ==> !HasWildcard(n))
      && (forall n :: n in patternSubs ==> HasWildcard(n))
      && DeadlinesHaveKeys(Now())
    }

    constructor ()
      ensures Valid() && Now() == EMPTY && clients == map[]
      ensures subs == map[] && patternSubs == map[] && retained == map[]
    {
      kv, expires, watchers := map[], map[], map[];
      subs, patternSubs, retained, clients := map[], map[], map[], map[];
    }

    // accept_loop, once the peer is allowed in
    method Accept(c: Id)
      requires Valid() && c !in clients
      modifies this`clients
      ensures Valid() && clients == old(clients)[c := NEWCOMER]
    {
      clients := clients[c := NEWCOMER];
    }

    // send_to: a client that is gone is skipped.
    method SendTo(c: Id, p: Push)
      modifies this`clients
      ensures ToldEach(old(clients), clients, {c}, p)
    {
      if c in clients {
        clients := clients[c := clients[c].(out := clients[c].out + [p])];
      }
    }

    // The loop of push_kv_update, push_kv_del and route_publish: p to each target.
    method SendEach(targets: set<Id>, p: Push)
      modifies this`clients
      ensures ToldEach(old(clients), clients, targets, p)
    {
      var rest := targets;
      while rest != {}
        invariant rest <= targets
        invariant ToldEach(old(clients), clients, targets - rest, p)
        decreases rest
      {
        var t :| t in rest;
        SendTo(t, p);
        rest := rest - {t};
      }
      assert targets - rest == targets;
    }

    // ---- store mutations ----------------------------------------------------------

    method PushUpdate(k: Key, v: Value)
      modifies this`clients
      ensures ToldEach(old(clients), clients, Watching(Now(), k), Update(k, v))
    {
      if k in watchers {
        SendEach(watchers[k], Update(k, v));
      }
    }

    method PushDel(k: Key)
      modifies this`clients
      ensures ToldEach(old(clients), clients, Watching(Now(), k), Gone(k))
    {
      if k in watchers {
        SendEach(watchers[k], Gone(k));
      }
    }

    // store
    method StoreKey(k: Key, v: Value, ttl: nat, later: Time)
      modifies this`kv, this`expires, this`clients
      ensures Now() == Put(old(Now()), k, v, ttl, later)
      ensures ToldEach(old(clients), clients, Watching(old(Now()), k), Update(k, v))
    {
      kv := kv[k := v];
      if ttl > 0 {
        expires := expires[k := later + ttl];
      } else {
        expires := expires - {k};
      }
      PushUpdate(k, v);
    }

    method DropKey(k: Key)
      modifies this`kv, this`expires, this`clients
      ensures Now() == Drop(old(Now()), k)
      ensures ToldEach(old(clients), clients, Watching(old(Now()), k), Gone(k))
    {
      kv := kv - {k};
      expires := expires - {k};
      PushDel(k);
    }

    method DropIfExpired(k: Key, now: Time) returns (dropped: bool)
      modifies this`kv, this`expires, this`clients
      ensures dropped == Expired(old(Now()), k, now)
      ensures Now() == Fresh(old(Now()), k, now)
      ensures ToldExpiry(old(clients), clients, old(Now()), k, now)
    {
      if k !in expires || expires[k] > now {
        return false;
      }
      DropKey(k);
      return true;
    }

    // Sending frames and rewriting the store leave the bookkeeping intact.
    lemma StillIndexed(before: map<Id, Client>)
      requires Inverse(subs, before, TopicList) && Inverse(patternSubs, before, PatternList)
      requires Inverse(watchers, before, KeyList)
      requires SameLists(before, clients)
      ensures Inverse(subs, clients, TopicList) && Inverse(patternSubs, clients, PatternList)
      ensures Inverse(watchers, clients, KeyList)
    {
    }

    // ---- verbs on the store -------------------------------------------------------
    // Each leaves the store, and tells every client, what KvStore says.

    method KvSet(c: Id, k: Key, v: Value, now: Time, later: Time)
      requires Valid()
      modifies this`kv, this`expires, this`clients
      ensures Valid() && Now() == After(old(Now()), c, Set(k, v), now, later)
      ensures ToldOf(old(clients), clients, old(Now()), c, Set(k, v), now)
    {
      StoreKey(k, v, 0, later);
      StillIndexed(old(clients));
    }

    method KvSetEx(c: Id, k: Key, ttl: nat, v: Value, now: Time, later: Time)
      requires Valid()
      modifies this`kv, this`expires, this`clients
      ensures Valid() && Now() == After(old(Now()), c, SetEx(k, ttl, v), now, later)
      ensures ToldOf(old(clients), clients, old(Now()), c, SetEx(k, ttl, v), now)
    {
      StoreKey(k, v, ttl, later);
      StillIndexed(old(clients));
    }

    method KvDel(c: Id, k: Key, now: Time, later: Time)
      requires Valid()
      modifies this`kv, this`expires, this`clients
      ensures Valid() && Now() == After(old(Now()), c, Del(k), now, later)
      ensures ToldOf(old(clients), clients, old(Now()), c, Del(k), now)
    {
      DropKey(k);
      StillIndexed(old(clients));
    }

    // Every target was sent p, and then c was sent q.
    static ghost predicate ToldTwo(before: map<Id, Client>, after: map<Id, Client>, targets: set<Id>, p: Push,
        c: Id, q: Push)
    {
      && SameLists(before, after)
      && forall w :: w in before ==>
           after[w].out == before[w].out + ((if w in targets then [p] else []) + (if w == c then [q] else []))
    }

    static lemma OneThenOther(m0: map<Id, Client>, m1: map<Id, Client>, m2: map<Id, Client>,
        targets: set<Id>, p: Push, c: Id, q: Push)
      requires ToldEach(m0, m1, targets, p) && ToldEach(m1, m2, {c}, q)
      ensures ToldTwo(m0, m2, targets, p, c, q)
    {
      forall w | w in m0
        ensures m2[w].out == m0[w].out + ((if w in targets then [p] else []) + (if w == c then [q] else []))
      {
        Regroup(m0[w].out, if w in targets then [p] else [], if w == c then [q] else []);
      }
    }

    // A handler that drops an expired key, pushes, and answers has sent what the verb says.
    static lemma ToldInOrder(m0: map<Id, Client>, m1: map<Id, Client>, m2: map<Id, Client>,
        s: Store, c: Id, v: Verb, now: Time, targets: set<Id>, p: Push, q: Push)
      requires ToldExpiry(m0, m1, s, v.key, now) && ToldTwo(m1, m2, targets, p, c, q)
      requires forall w :: SentInThree(s, c, v, now, targets, p, q, w)
      ensures ToldOf(m0, m2, s, c, v, now)
    {
      forall w | w in m0 ensures m2[w].out == m0[w].out + Sent(s, c, v, now, w) {
        assert SentInThree(s, c, v, now, targets, p, q, w);
        Regroup(m0[w].out, ExpiryTo(s, v.key, now, w), (if w in targets then [p] else []) + (if w == c then [q] else []));
      }
    }

    static predicate SentInThree(s: Store, c: Id, v: Verb, now: Time, targets: set<Id>, p: Push, q: Push, w: Id) {
      Sent(s, c, v, now, w) ==
      ExpiryTo(s, v.key, now, w) + ((if w in targets then [p] else []) + (if w == c then [q] else []))
    }

    static lemma IncrSent(s: Store, c: Id, v: Verb, now: Time, w: Id)
      requires v.Incr?
      ensures var f := Fresh(s, v.key, now);
              if Countable(f, v.key) then
                var val := Incremented(f, v.key, v.delta);
                SentInThree(s, c, v, now, Watching(f, v.key), Update(v.key, val), Result(v.ask, v.key, true, val), w)
              else
                SentInThree(s, c, v, now, {}, Gone(v.key), Result(v.ask, v.key, false, []), w)
    {
      var answer := Only(c, Result(v.ask, v.key, false, []), w);
      assert [] + answer == answer;
    }

    static lemma SetNxSent(s: Store, c: Id, v: Verb, now: Time, w: Id)
      requires v.SetNx?
      ensures var f := Fresh(s, v.key, now);
              SentInThree(s, c, v, now, if v.key in f.kv then {} else Watching(f, v.key), Update(v.key, v.value),
                          Result(v.ask, v.key, v.key !in f.kv, []), w)
    {
      var f := Fresh(s, v.key, now);
      var told := if v.key in f.kv then [] else UpdateTo(f, v.key, v.value, w);
      Regroup(ExpiryTo(s, v.key, now, w), told, Only(c, Result(v.ask, v.key, v.key !in f.kv, []), w));
    }

    // The sum is stored, pushed and answered.
    method Add(c: Id, k: Key, ask: nat, delta: U64)
      requires Countable(Now(), k)
      modifies this`kv, this`clients
      ensures var val := Incremented(old(Now()), k, delta);
              && Now() == old(Now()).(kv := old(kv)[k := val])
              && ToldTwo(old(clients), clients, Watching(old(Now()), k), Update(k, val), c, Result(ask, k, true, val))
    {
      var cur: U64 := if k in kv then Bits(kv[k]) else 0;
      var val := FromBits(AddBits(cur, delta));
      kv := kv[k := val];
      PushUpdate(k, val);
      ghost var pushed := clients;
      SendTo(c, Result(ask, k, true, val));
      OneThenOther(old(clients), pushed, clients, Watching(Now(), k), Update(k, val), c, Result(ask, k, true, val));
    }

    method KvIncr(c: Id, k: Key, ask: nat, delta: U64, now: Time, later: Time)
      requires Valid()
      modifies this`kv, this`expires, this`clients
      ensures Valid() && Now() == After(old(Now()), c, Incr(k, ask, delta), now, later)
      ensures ToldOf(old(clients), clients, old(Now()), c, Incr(k, ask, delta), now)
    {
      ghost var v, s := Incr(k, ask, delta), Now();
      forall w ensures var f := Fresh(s, k, now);
        if Countable(f, k) then
          var val := Incremented(f, k, delta);
          SentInThree(s, c, v, now, Watching(f, k), Update(k, val), Result(ask, k, true, val), w)
        else SentInThree(s, c, v, now, {}, Gone(k), Result(ask, k, false, []), w)
      {
        IncrSent(s, c, v, now, w);
      }
      var dropped := DropIfExpired(k, now);
      ghost var f, m1 := Now(), clients;
      if k in kv && |kv[k]| != 8 {
        Refuse(c, k, Result(ask, k, false, []));
        ToldInOrder(old(clients), m1, clients, s, c, v, now, {}, Gone(k), Result(ask, k, false, []));
      } else {
        Add(c, k, ask, delta);
        ghost var val := Incremented(f, k, delta);
        ToldInOrder(old(clients), m1, clients, s, c, v, now, Watching(f, k), Update(k, val), Result(ask, k, true, val));
      }
      StillIndexed(old(clients));
    }

    // An answer and no push.
    method Refuse(c: Id, k: Key, q: Push)
      modifies this`clients
      ensures ToldTwo(old(clients), clients, {}, Gone(k), c, q)
    {
      SendTo(c, q);
      assert ToldEach(old(clients), old(clients), {}, Gone(k)) by {
        assert forall w :: w in old(clients) ==> old(clients)[w].out + [] == old(clients)[w].out;
      }
      OneThenOther(old(clients), old(clients), clients, {}, Gone(k), c, q);
    }

    method KvSetNx(c: Id, k: Key, ask: nat, ttl: nat, v: Value, now: Time, later: Time)
      requires Valid()
      modifies this`kv, this`expires, this`clients
      ensures Valid() && Now() == After(old(Now()), c, SetNx(k, ask, ttl, v), now, later)
      ensures ToldOf(old(clients), clients, old(Now()), c, SetNx(k, ask, ttl, v), now)
    {
      ghost var verb, s := SetNx(k, ask, ttl, v), Now();
      var dropped := DropIfExpired(k, now);
      ghost var f, m1 := Now(), clients;
      var acquired := k !in kv;
      if acquired {
        StoreKey(k, v, ttl, later);
      }
      ghost var m2 := clients;
      SendTo(c, Result(ask, k, acquired, []));
      ghost var told := if acquired then Watching(f, k) else {};
      OneThenOther(m1, m2, clients, told, Update(k, v), c, Result(ask, k, acquired, []));
      forall w ensures SentInThree(s, c, verb, now, told, Update(k, v), Result(ask, k, acquired, []), w) {
        SetNxSent(s, c, verb, now, w);
      }
      ToldInOrder(old(clients), m1, clients, s, c, verb, now, told, Update(k, v), Result(ask, k, acquired, []));
      StillIndexed(old(clients));
    }

    static lemma EnterKeepsInverse(index: Index, m: map<Id, Client>, c: Id, k: Key)
      requires Inverse(index, m, KeyList) && c in m
      ensures Inverse(Enter(index, k, c), Listing(m, c, k), KeyList)
    {
      var index', m' := Enter(index, k, c), Listing(m, c, k);
      forall n, d
        ensures d in Entry(index', n) <==> d in m' && n in Listed(m'[d], KeyList)
      {
        assert d in Entry(index, n) <==> d in m && n in Listed(m[d], KeyList);
      }
    }

    static lemma ListingKeepsInverse(index: Index, m: map<Id, Client>, c: Id, k: Key, list: List)
      requires Inverse(index, m, list) && c in m && !list.KeyList?
      ensures Inverse(index, Listing(m, c, k), list)
    {
      var m' := Listing(m, c, k);
      forall n, d
        ensures d in Entry(index, n) <==> d in m' && n in Listed(m'[d], list)
      {
        assert d in Entry(index, n) <==> d in m && n in Listed(m[d], list);
      }
    }

    static lemma ListingTold(m0: map<Id, Client>, m1: map<Id, Client>, s: Store, k: Key, now: Time, c: Id)
      requires ToldExpiry(m0, m1, s, k, now) && c in m0
      ensures ToldExpiry(Listing(m0, c, k), Listing(m1, c, k), s, k, now)
    {
    }

    static lemma WatchKeepsInverse(subs: Index, patternSubs: Index, watchers: Index, m: map<Id, Client>, c: Id, k: Key)
      requires Inverse(subs, m, TopicList) && Inverse(patternSubs, m, PatternList) && Inverse(watchers, m, KeyList)
      requires c in m
      ensures var m' := Listing(m, c, k);
              && Inverse(subs, m', TopicList) && Inverse(patternSubs, m', PatternList)
              && Inverse(Enter(watchers, k, c), m', KeyList)
    {
      EnterKeepsInverse(watchers, m, c, k);
      ListingKeepsInverse(subs, m, c, k, TopicList);
      ListingKeepsInverse(patternSubs, m, c, k, PatternList);
    }

    // The expiry check and the registered watch of MSG_KV_GET.
    method CheckAndWatch(c: Id, k: Key, now: Time)
      requires Valid() && c in clients
      modifies this`kv, this`expires, this`watchers, this`clients
      ensures Now() == Watch(Fresh(old(Now()), k, now), k, c)
      ensures Valid()
      ensures ToldExpiry(Listing(old(clients), c, k), clients, old(Now()), k, now)
    {
      var dropped := DropIfExpired(k, now);
      StillIndexed(old(clients));
      ListingTold(old(clients), clients, old(Now()), k, now, c);
      RegisterWatch(c, k);
    }

    method RegisterWatch(c: Id, k: Key)
      requires Valid() && c in clients
      modifies this`watchers, this`clients
      ensures Valid() && Now() == Watch(old(Now()), k, c) && clients == Listing(old(clients), c, k)
    {
      WatchKeepsInverse(subs, patternSubs, watchers, clients, c, k);
      watchers := Enter(watchers, k, c);
      clients := clients[c := clients[c].(keys := clients[c].keys + {k})];
    }

    method KvGet(c: Id, k: Key, ask: nat, now: Time, later: Time)
      requires Valid() && c in clients
      modifies this`kv, this`expires, this`watchers, this`clients
      ensures Valid() && Now() == After(old(Now()), c, Get(k, ask), now, later)
      ensures ToldOf(Listing(old(clients), c, k), clients, old(Now()), c, Get(k, ask), now)
    {
      ghost var m0 := Listing(clients, c, k);
      CheckAndWatch(c, k, now);
      ghost var m1 := clients;
      var reply := Reply(ask, k, if k in kv then Some(kv[k]) else None);
      SendTo(c, reply);
      GetTold(m0, m1, clients, old(Now()), c, k, ask, now, reply);
      StillIndexed(m1);
    }

    static lemma GetTold(m0: map<Id, Client>, m1: map<Id, Client>, m2: map<Id, Client>,
        s: Store, c: Id, k: Key, ask: nat, now: Time, reply: Push)
      requires ToldExpiry(m0, m1, s, k, now) && ToldEach(m1, m2, {c}, reply)
      requires reply == Reply(ask, k, Lookup(Fresh(s, k, now).kv, k))
      ensures ToldOf(m0, m2, s, c, Get(k, ask), now)
    {
      forall w | w in m0 ensures m2[w].out == m0[w].out + Sent(s, c, Get(k, ask), now, w) {
        var x, y := ExpiryTo(s, k, now, w), if w == c then [reply] else [];
        assert (m0[w].out + x) + y == m0[w].out + (x + y);
      }
    }

    // ---- sweep --------------------------------------------------------------------

    static lemma {:induction false} SweptToSnoc(s: Store, order: seq<Key>, i: nat, w: Id)
      requires i < |order|
      ensures SweptTo(s, order[..i + 1], w) == SweptTo(s, order[..i], w) + GoneTo(s, order[i], w)
      decreases i
    {
      var head := order[..i + 1];
      if i == 0 {
        assert head == [order[0]] && head[1..] == [] && order[..0] == [];
      } else {
        SweptToSnoc(s, order[1..], i - 1, w);
        assert head[1..] == order[1..][..i] && order[..i][1..] == order[1..][..i - 1];
      }
    }

    // The due keys, in the order in which the map is walked.
    method CollectDue(now: Time) returns (due: seq<Key>)
      ensures Enumerates(due, KvStore.Due(Now(), now))
    {
      due := [];
      var rest := expires.Keys;
      while rest != {}
        invariant rest <= expires.Keys
        invariant forall k :: k in due <==> k in expires && k !in rest && expires[k] <= now
        invariant forall i, j :: 0 <= i < j < |due| ==> due[i] != due[j]
        decreases rest
      {
        var k :| k in rest;
        rest := rest - {k};
        if expires[k] <= now {
          due := due + [k];
        }
      }
    }

    static function Elements(keys: seq<Key>): set<Key> {
      set k | k in keys
    }

    // s after the first i of the due keys have been dropped
    static function SweptFirst(s: Store, due: seq<Key>, i: nat): Store
      requires i <= |due|
    {
      s.(kv := s.kv - Elements(due[..i]), expires := s.expires - Elements(due[..i]))
    }

    static lemma DropsNext(s: Store, due: seq<Key>, i: nat, now: Time)
      requires i < |due| && Enumerates(due, KvStore.Due(s, now))
      ensures Fresh(SweptFirst(s, due, i), due[i], now) == SweptFirst(s, due, i + 1)
      ensures forall w :: ExpiryTo(SweptFirst(s, due, i), due[i], now, w) == GoneTo(s, due[i], w)
    {
      assert due[i] in KvStore.Due(s, now) && due[i] !in due[..i];
      assert due[..i + 1] == due[..i] + [due[i]];
      assert Elements(due[..i + 1]) == Elements(due[..i]) + {due[i]};
    }

    // The watchers of those keys have been told, in that order.
    static ghost predicate ToldDue(m: map<Id, Client>, m': map<Id, Client>, s: Store, due: seq<Key>, i: nat)
      requires i <= |due|
    {
      && SameLists(m, m')
      && forall w :: w in m ==> m'[w].out == m[w].out + SweptTo(s, due[..i], w)
    }

    static lemma ToldNext(m: map<Id, Client>, m': map<Id, Client>, m'': map<Id, Client>,
        s: Store, t: Store, due: seq<Key>, i: nat, now: Time)
      requires i < |due| && ToldDue(m, m', s, due, i)
      requires ToldExpiry(m', m'', t, due[i], now)
      requires forall w :: ExpiryTo(t, due[i], now, w) == GoneTo(s, due[i], w)
      ensures ToldDue(m, m'', s, due, i + 1)
    {
      forall w | w in m ensures m''[w].out == m[w].out + SweptTo(s, due[..i + 1], w) {
        SweptToSnoc(s, due, i, w);
        assert m''[w].out == m'[w].out + GoneTo(s, due[i], w);
      }
    }

    // One round of sweep_loop: every due key is dropped, and each of its watchers
    // told once.
    method Sweep(now: Time) returns (due: seq<Key>)
      requires Valid()
      modifies this`kv, this`expires, this`clients
      ensures Valid() && Now() == Swept(old(Now()), now)
      ensures Enumerates(due, KvStore.Due(old(Now()), now))
      ensures SameLists(old(clients), clients)
      ensures forall w :: w in old(clients) ==>
        clients[w].out == old(clients)[w].out + SweptTo(old(Now()), due, w)
    {
      due := CollectDue(now);
      ghost var s, m := Now(), clients;
      var i := 0;
      while i < |due|
        invariant i <= |due| && Now() == SweptFirst(s, due, i) && ToldDue(m, clients, s, due, i)
      {
        DropsNext(s, due, i, now);
        ghost var before := clients;
        var dropped := DropIfExpired(due[i], now);
        ToldNext(m, before, clients, s, SweptFirst(s, due, i), due, i, now);
        i := i + 1;
      }
      assert due[..i] == due;
      assert Elements(due) == KvStore.Due(s, now);
      StillIndexed(old(clients));
    }

    // ---- subscriptions --------------------------------------------------------------

    static lemma ChangedListInverse(index: Index, index': Index, m: map<Id, Client>, m': map<Id, Client>,
        list: List, c: Id, n: Bytes, added: bool)
      requires Inverse(index, m, list) && c in m && m'.Keys == m.Keys && NoEmptyEntry(index')
      requires forall x :: x != n ==> Entry(index', x) == Entry(index, x)
      requires Entry(index', n) == if added then Entry(index, n) + {c} else Entry(index, n) - {c}
      requires forall d :: d in m && d != c ==> Listed(m'[d], list) == Listed(m[d], list)
      requires Listed(m'[c], list) ==
        if added then Listed(m[c], list) + {n} else Listed(m[c], list) - {n}
      ensures Inverse(index', m', list)
    {
      forall x, d
        ensures d in Entry(index', x) <==> d in m' && x in Listed(m'[d], list)
      {
        assert d in Entry(index, x) <==> d in m && x in Listed(m[d], list);
      }
    }

    static lemma OtherListInverse(index: Index, m: map<Id, Client>, m': map<Id, Client>, list: List)
      requires Inverse(index, m, list) && m'.Keys == m.Keys
      requires forall d :: d in m ==> Listed(m'[d], list) == Listed(m[d], list)
      ensures Inverse(index, m', list)
    {
      forall x, d
        ensures d in Entry(index, x) <==> d in m' && x in Listed(m'[d], list)
      {
        assert d in Entry(index, x) <==> d in m && x in Listed(m[d], list);
      }
    }

    static lemma ToldOne(a: map<Id, Client>, b: map<Id, Client>, c: Id, p: Push)
      requires ToldEach(a, b, {c}, p) && c in a
      ensures b == a[c := a[c].(out := a[c].out + [p])]
    {
      forall w | w in a && w != c ensures b[w] == a[w] {
        assert a[w].out + [] == a[w].out;
      }
    }

    // MSG_SUBSCRIBE with a wildcard: no retained replay.
    method SubscribePattern(c: Id, name: Name)
      requires Valid() && c in clients && HasWildcard(name)
      modifies this`patternSubs, this`clients
      ensures Valid() && patternSubs == Enter(old(patternSubs), name, c)
      ensures clients == Subscribed(old(clients), c, name, retained)
    {
      ghost var m, index := clients, patternSubs;
      patternSubs := Enter(patternSubs, name, c);
      clients := clients[c := clients[c].(patterns := clients[c].patterns + {name})];
      ChangedListInverse(index, patternSubs, m, clients, PatternList, c, name, true);
      OtherListInverse(subs, m, clients, TopicList);
      OtherListInverse(watchers, m, clients, KeyList);
    }

    method SubscribeTopic(c: Id, name: Name)
      requires Valid() && c in clients && !HasWildcard(name)
      modifies this`subs, this`clients
      ensures Valid() && subs == Enter(old(subs), name, c)
      ensures clients == Subscribed(old(clients), c, name, retained)
    {
      ghost var m, index := clients, subs;
      subs := Enter(subs, name, c);
      clients := clients[c := clients[c].(topics := clients[c].topics + {name})];
      ChangedListInverse(index, subs, m, clients, TopicList, c, name, true);
      OtherListInverse(patternSubs, m, clients, PatternList);
      OtherListInverse(watchers, m, clients, KeyList);
      ReplayRetained(c, name);
    }

    // What a topic subscription is followed by.
    method ReplayRetained(c: Id, name: Name)
      requires Valid() && c in clients
      modifies this`clients
      ensures Valid()
      ensures clients == old(clients)[c := old(clients)[c].(
        out := old(clients)[c].out + if name in retained then [Published(name, retained[name])] else [])]
    {
      assert clients[c].out + [] == clients[c].out;
      if name in retained {
        SendTo(c, Published(name, retained[name]));
        ToldOne(old(clients), clients, c, Published(name, retained[name]));
        StillIndexed(old(clients));
      }
    }

    method UnsubscribePattern(c: Id, name: Name)
      requires Valid() && c in clients && HasWildcard(name)
      modifies this`patternSubs, this`clients
      ensures Valid() && patternSubs == EraseFrom(old(patternSubs), name, c)
      ensures clients == Unsubscribed(old(clients), c, name)
    {
      ghost var m, index := clients, patternSubs;
      if name in patternSubs {
        var left := patternSubs[name] - {c};
        patternSubs := if left == {} then patternSubs - {name} else patternSubs[name := left];
      }
      clients := clients[c := clients[c].(patterns := clients[c].patterns - {name})];
      ChangedListInverse(index, patternSubs, m, clients, PatternList, c, name, false);
      OtherListInverse(subs, m, clients, TopicList);
      OtherListInverse(watchers, m, clients, KeyList);
    }

    method UnsubscribeTopic(c: Id, name: Name)
      requires Valid() && c in clients && !HasWildcard(name)
      modifies this`subs, this`clients
      ensures Valid() && subs == EraseFrom(old(subs), name, c)
      ensures clients == Unsubscribed(old(clients), c, name)
    {
      ghost var m, index := clients, subs;
      if name in subs {
        var left := subs[name] - {c};
        subs := if left == {} then subs - {name} else subs[name := left];
      }
      clients := clients[c := clients[c].(topics := clients[c].topics - {name})];
      ChangedListInverse(index, subs, m, clients, TopicList, c, name, false);
      OtherListInverse(patternSubs, m, clients, PatternList);
      OtherListInverse(watchers, m, clients, KeyList);
    }

    // ---- routing --------------------------------------------------------------------

    // The targets route_publish collects from the two indexes.
    method CollectTargets(topic: Name) returns (targets: set<Id>)
      requires Valid()
      ensures forall t :: t in targets <==> Wants(clients, t, topic)
    {
      targets := if topic in subs then subs[topic] else {};
      ghost var exact := targets;
      var rest := patternSubs.Keys;
      while rest != {}
        invariant rest <= patternSubs.Keys
        invariant forall t :: t in targets <==>
          t in exact ||
          exists p :: p in patternSubs && p !in rest && t in patternSubs[p] && Matches(p, topic)
        decreases rest
      {
        var p :| p in rest;
        ghost var was := rest;
        rest := rest - {p};
        var hit := TopicMatches(p, topic);
        if hit {
          targets := targets + patternSubs[p];
        }
        assert forall q :: q !in rest <==> q !in was || q == p;
      }
      forall t ensures t in targets <==> Wants(clients, t, topic) {
        ExactOrPattern(t, topic);
      }
    }

    // Looking the topic up among the exact names and scanning the patterns finds
    // just the clients with some matching name.
    lemma ExactOrPattern(t: Id, topic: Name)
      requires Valid()
      ensures Wants(clients, t, topic) <==>
        || t in Entry(subs, topic)
        || exists p :: p in patternSubs && t in patternSubs[p] && Matches(p, topic)
    {
      assert t in Entry(subs, topic) <==> t in clients && topic in Listed(clients[t], TopicList);
      if t in Entry(subs, topic) {
        PlainMatchesOnlyItself(topic, topic);
      }
      if p :| p in patternSubs && t in patternSubs[p] && Matches(p, topic) {
        assert t in Entry(patternSubs, p);
        assert p in Listed(clients[t], PatternList);
      }
      if Wants(clients, t, topic) {
        var s :| s in clients[t].topics + clients[t].patterns && Matches(s, topic);
        if s in clients[t].topics {
          assert s in Listed(clients[t], TopicList);
          assert t in Entry(subs, s);
          PlainMatchesOnlyItself(s, topic);
        } else {
          assert s in Listed(clients[t], PatternList);
          assert t in Entry(patternSubs, s);
        }
      }
    }

    // route_publish
    method RoutePublish(c: Id, topic: Name, payload: Bytes)
      requires Valid()
      modifies this`clients
      ensures Valid() && Routed(old(clients), clients, c, topic, payload)
    {
      var targets := CollectTargets(topic);
      SendEach(targets - {c}, Published(topic, payload));
      StillIndexed(old(clients));
    }

    // MSG_PUBLISH_RETAIN
    method PublishRetained(c: Id, topic: Name, payload: Bytes)
      requires Valid()
      modifies this`retained, this`clients
      ensures Valid() && Routed(old(clients), clients, c, topic, payload)
      ensures retained == RetainedAfter(old(retained), topic, payload)
    {
      RoutePublish(c, topic, payload);
      if payload == [] {
        retained := retained - {topic};
      } else {
        retained := retained[topic := payload];
      }
    }

    // ---- departure ------------------------------------------------------------------

    // Take c out of every entry it lists itself under.
    static method EraseAll(index: Index, names: set<Bytes>, c: Id) returns (r: Index)
      requires NoEmptyEntry(index)
      requires forall n :: c in Entry(index, n) ==> n in names
      ensures r == Without(index, c)
    {
      r := index;
      var rest := names;
      while rest != {}
        invariant rest <= names && NoEmptyEntry(r)
        invariant forall n :: Entry(r, n) == if n in names - rest then Entry(index, n) - {c} else Entry(index, n)
        decreases rest
      {
        var n :| n in rest;
        r := EraseFrom(r, n, c);
        rest := rest - {n};
      }
      forall n ensures Entry(r, n) == Entry(Without(index, c), n) {
        assert n !in names ==> c !in Entry(index, n);
      }
      SameEntries(r, Without(index, c));
    }

    static lemma SameEntries(a: Index, b: Index)
      requires NoEmptyEntry(a) && NoEmptyEntry(b)
      requires forall n :: Entry(a, n) == Entry(b, n)
      ensures a == b
    {
      forall n ensures n in a <==> n in b {
        assert Entry(a, n) == Entry(b, n);
      }
      forall n | n in a ensures a[n] == b[n] {
        assert Entry(a, n) == Entry(b, n);
      }
    }

    static lemma WithoutInverse(index: Index, m: map<Id, Client>, c: Id, list: List)
      requires Inverse(index, m, list)
      ensures Inverse(Without(index, c), m - {c}, list)
      ensures forall n :: c !in Entry(Without(index, c), n)
    {
      forall n, d
        ensures d in Entry(Without(index, c), n) <==> d in m - {c} && n in Listed((m - {c})[d], list)
      {
        assert d in Entry(index, n) <==> d in m && n in Listed(m[d], list);
      }
    }

    // remove_client: afterwards no index mentions the client.
    method RemoveClient(c: Id)
      requires Valid() && c in clients
      modifies this
      ensures Valid() && clients == old(clients) - {c} && retained == old(retained)
      ensures Now() == Left(old(Now()), c)
      ensures subs == Without(old(subs), c) && patternSubs == Without(old(patternSubs), c)
      ensures forall n :: c !in Entry(subs, n) && c !in Entry(patternSubs, n) && c !in Entry(watchers, n)
    {
      WithoutInverse(subs, clients, c, TopicList);
      WithoutInverse(patternSubs, clients, c, PatternList);
      WithoutInverse(watchers, clients, c, KeyList);
      subs := EraseAll(subs, clients[c].topics, c);
      patternSubs := EraseAll(patternSubs, clients[c].patterns, c);
      watchers := EraseAll(watchers, clients[c].keys, c);
      clients := clients - {c};
    }

    // ---- dispatch -------------------------------------------------------------------

    // handle_frame, with the clock readings it takes while it holds the lock and the
    // text that build_info would render
    method HandleFrame(c: Id, f: Frame, now: Time, later: Time, status: Bytes)
      requires Valid() && c in clients
      modifies this
      ensures Valid() && clients.Keys == old(clients.Keys)
      ensures retained == var r := ParseRequest(f);
                          if r.PublishRetain? then RetainedAfter(old(retained), r.name, r.payload) else old(retained)
      ensures Handled(old(clients), clients, old(Now()), Now(), old(retained), c, ParseRequest(f), now, later, status)
    {
      match ParseRequest(f)
      case Ask(v) => HandleVerb(c, v, now, later);
      case Publish(topic, payload) => RoutePublish(c, topic, payload);
      case PublishRetain(topic, payload) => PublishRetained(c, topic, payload);
      case Subscribe(name) => HandleSubscribe(c, name);
      case Unsubscribe(name) => HandleUnsubscribe(c, name);
      case Ping(name, token) => Answer(c, Pong(name, token));
      case Info(ask) => Answer(c, Status(ask, status));
      case Ignored =>
    }

    method HandleSubscribe(c: Id, name: Name)
      requires Valid() && c in clients
      modifies this`subs, this`patternSubs, this`clients
      ensures Valid() && clients == Subscribed(old(clients), c, name, retained)
    {
      if HasWildcard(name) {
        SubscribePattern(c, name);
      } else {
        SubscribeTopic(c, name);
      }
    }

    method HandleUnsubscribe(c: Id, name: Name)
      requires Valid() && c in clients
      modifies this`subs, this`patternSubs, this`clients
      ensures Valid() && clients == Unsubscribed(old(clients), c, name)
    {
      if HasWildcard(name) {
        UnsubscribePattern(c, name);
      } else {
        UnsubscribeTopic(c, name);
      }
    }

    method Answer(c: Id, p: Push)
      requires Valid()
      modifies this`clients
      ensures Valid() && ToldEach(old(clients), clients, {c}, p)
    {
      SendTo(c, p);
      StillIndexed(old(clients));
    }

    method HandleVerb(c: Id, v: Verb, now: Time, later: Time)
      requires Valid() && c in clients
      modifies this`kv, this`expires, this`watchers, this`clients
      ensures Valid() && Now() == After(old(Now()), c, v, now, later)
      ensures ToldOf(if v.Get? then Listing(old(clients), c, v.key) else old(clients),
                     clients, old(Now()), c, v, now)
    {
      match v
      case Set(k, val) => KvSet(c, k, val, now, later);
      case SetEx(k, ttl, val) => KvSetEx(c, k, ttl, val, now, later);
      case Del(k) => KvDel(c, k, now, later);
      case Get(k, ask) => KvGet(c, k, ask, now, later);
      case Incr(k, ask, delta) => KvIncr(c, k, ask, delta, now, later);
      case SetNx(k, ask, ttl, val) => KvSetNx(c, k, ask, ttl, val, now, later);
    }
  }
}
