/**
  The key/value side of the daemon (include/server.hpp) as pure functions: for
  every verb, the store it leaves and the frames it sends to each client. Each
  verb runs under one lock in the daemon, so it is one step here.
*/
module KvStore {
  import opened Options
  import opened Framing
  import opened Int64

  type Key = Bytes
  type Value = Bytes
  type Id = nat   // one per connection
  type Time = int // steady_clock, in milliseconds

  datatype Store = Store(kv: map<Key, Value>, expires: map<Key, Time>, watchers: Index)

  // What a client asks of the store. `ask` is the request id to answer to.
  datatype Verb =
    | Set(key: Key, value: Value)
    | SetEx(key: Key, ttl: nat, value: Value)
    | Del(key: Key)
    | Get(key: Key, ask: nat)
    | Incr(key: Key, ask: nat, delta: U64)
    | SetNx(key: Key, ask: nat, ttl: nat, value: Value)

  // What the daemon sends to a client. Only the first three are about the value
  // of a key; a client never caches what a Result carries.
  datatype Push =
    | Update(key: Key, value: Value)
    | Gone(key: Key)
    | Reply(ask: nat, key: Key, found: Option<Value>)
    | Result(ask: nat, key: Key, ok: bool, value: Bytes)
    | Published(topic: Bytes, payload: Bytes)
    | Pong(name: Bytes, token: Bytes)
    | Status(ask: nat, text: Bytes)

  predicate About(p: Push, k: Key) {
    (p.Update? || p.Gone? || p.Reply?) && p.key == k
  }

  const EMPTY := Store(map[], map[], map[])

  // ---- pieces -----------------------------------------------------------------

  // Subscriptions and watches alike: who is entered under each name.
  type Index = map<Bytes, set<Id>>

  function Entry(index: Index, n: Bytes): set<Id> {
    if n in index then index[n] else {}
  }

  function Watching(s: Store, k: Key): set<Id> {
    Entry(s.watchers, k)
  }

  // store(): a zero ttl clears the deadline the key had.
  function Put(s: Store, k: Key, v: Value, ttl: nat, later: Time): Store {
    s.(kv := s.kv[k := v],
       expires := if ttl > 0 then s.expires[k := later + ttl] else s.expires - {k})
  }

  // drop_key
  function Drop(s: Store, k: Key): Store {
    s.(kv := s.kv - {k}, expires := s.expires - {k})
  }

  predicate Expired(s: Store, k: Key, now: Time) {
    k in s.expires && s.expires[k] <= now
  }

  // The verb asks about k and finds its deadline passed.
  predicate FindsExpired(s: Store, v: Verb, now: Time, k: Key) {
    (v.Get? || v.Incr? || v.SetNx?) && v.key == k && Expired(s, k, now)
  }

  // drop_if_expired
  function Fresh(s: Store, k: Key, now: Time): Store {
    if Expired(s, k, now) then Drop(s, k) else s
  }

  function Watch(s: Store, k: Key, c: Id): Store {
    s.(watchers := s.watchers[k := Watching(s, k) + {c}])
  }

  // Whether INCR finds an absent key or an eight-byte one.
  predicate Countable(s: Store, k: Key) {
    k in s.kv ==> |s.kv[k]| == 8
  }

  // The number stored under k, absent counting as 0.
  function Number(s: Store, k: Key): int
    requires Countable(s, k)
  {
    if k in s.kv then Signed(Bits(s.kv[k])) else 0
  }

  // The value INCR leaves under the key.
  function Incremented(s: Store, k: Key, delta: U64): (v: Value)
    requires Countable(s, k)
    ensures |v| == 8 && Signed(Bits(v)) == Wrap(Number(s, k) + Signed(delta))
  {
    FromBits(AddBits(if k in s.kv then Bits(s.kv[k]) else 0, delta))
  }

  // ---- one verb -----------------------------------------------------------------

  // The store after client c's verb. `now` is the clock reading that expiry is
  // judged by, `later` the one a new deadline is counted from.
  function After(s: Store, c: Id, v: Verb, now: Time, later: Time): Store
  {
    match v
    case Set(k, val) => Put(s, k, val, 0, later)
    case SetEx(k, ttl, val) => Put(s, k, val, ttl, later)
    case Del(k) => Drop(s, k)
    case Get(k, _) => Watch(Fresh(s, k, now), k, c)
    case Incr(k, _, delta) =>
      var f := Fresh(s, k, now);
      if Countable(f, k) then f.(kv := f.kv[k := Incremented(f, k, delta)]) else f
    case SetNx(k, _, ttl, val) =>
      var f := Fresh(s, k, now);
      if k in f.kv then f else Put(f, k, val, ttl, later)
  }

  // push_kv_update and push_kv_del, as one watcher sees them
  function UpdateTo(s: Store, k: Key, v: Value, w: Id): seq<Push> {
    if w in Watching(s, k) then [Update(k, v)] else []
  }

  function GoneTo(s: Store, k: Key, w: Id): seq<Push> {
    if w in Watching(s, k) then [Gone(k)] else []
  }

  function ExpiryTo(s: Store, k: Key, now: Time, w: Id): seq<Push> {
    if Expired(s, k, now) then GoneTo(s, k, w) else []
  }

  function Only(to: Id, p: Push, w: Id): seq<Push> {
    if w == to then [p] else []
  }

  // The frames client w is sent because of client c's verb, in order.
  function Sent(s: Store, c: Id, v: Verb, now: Time, w: Id): seq<Push>
  {
    match v
    case Set(k, val) => UpdateTo(s, k, val, w)
    case SetEx(k, _, val) => UpdateTo(s, k, val, w)
    case Del(k) => GoneTo(s, k, w)
    case Get(k, ask) =>
      ExpiryTo(s, k, now, w) + Only(c, Reply(ask, k, Lookup(Fresh(s, k, now).kv, k)), w)
    case Incr(k, ask, delta) =>
      var f := Fresh(s, k, now);
      ExpiryTo(s, k, now, w) +
      (if Countable(f, k)
       then UpdateTo(f, k, Incremented(f, k, delta), w) +
            Only(c, Result(ask, k, true, Incremented(f, k, delta)), w)
       else Only(c, Result(ask, k, false, []), w))
    case SetNx(k, ask, _, val) =>
      var f := Fresh(s, k, now);
      ExpiryTo(s, k, now, w) +
      (if k in f.kv then [] else UpdateTo(f, k, val, w)) +
      Only(c, Result(ask, k, k !in f.kv, []), w)
  }

  // ---- the sweep and a leaving client -------------------------------------------

  function Due(s: Store, now: Time): set<Key> {
    set k | k in s.expires && s.expires[k] <= now
  }

  // One round of sweep_loop.
  function Swept(s: Store, now: Time): Store {
    s.(kv := s.kv - Due(s, now), expires := s.expires - Due(s, now))
  }

  // The order in which a sweep meets the due keys.
  ghost predicate Enumerates(order: seq<Key>, keys: set<Key>) {
    && (forall i, j :: 0 <= i < j < |order| ==> order[i] != order[j])
    && (forall k :: k in keys <==> k in order)
  }

  // The frames client w is sent by a sweep that meets the due keys in this order.
  function SweptTo(s: Store, order: seq<Key>, w: Id): seq<Push> {
    if order == [] then [] else GoneTo(s, order[0], w) + SweptTo(s, order[1..], w)
  }

  // An index without client c and without the entries that leaves empty.
  function Without(index: Index, c: Id): Index {
    map k | k in index && index[k] - {c} != {} :: index[k] - {c}
  }

  // The watcher part of remove_client.
  function Left(s: Store, c: Id): Store {
    s.(watchers := Without(s.watchers, c))
  }

  // ---- expiry -------------------------------------------------------------------

  // Only a stored key has a deadline.
  ghost predicate DeadlinesHaveKeys(s: Store) {
    forall k :: k in s.expires ==> k in s.kv
  }

  lemma DeadlinesKept(s: Store, c: Id, v: Verb, now: Time, later: Time)
    requires DeadlinesHaveKeys(s)
    ensures DeadlinesHaveKeys(After(s, c, v, now, later))
    ensures DeadlinesHaveKeys(Swept(s, now)) && DeadlinesHaveKeys(Left(s, c))
  {
  }

  // A verb makes a key vanish only by deleting it or by finding its deadline passed.
  lemma VanishesOnlyWhenDue(s: Store, c: Id, v: Verb, now: Time, later: Time, k: Key)
    requires k in s.kv && k !in After(s, c, v, now, later).kv
    ensures v.key == k
    ensures v.Del? || (Expired(s, k, now) && (v.Get? || v.Incr? || v.SetNx?))
  {
  }

  predicate Live(s: Store, k: Key, now: Time) {
    k in s.kv && !Expired(s, k, now)
  }

  // No answer shows a value whose deadline has passed: GET finds a live value or
  // nothing, INCR counts from a live one or from zero, SETNX loses only to a live one.
  lemma GetSeesOnlyLiveKeys(s: Store, c: Id, k: Key, ask: nat, now: Time)
    ensures var sent := Sent(s, c, Get(k, ask), now, c);
            && sent != []
            && sent[|sent| - 1] == Reply(ask, k, if Live(s, k, now) then Some(s.kv[k]) else None)
  {
  }

  lemma IncrSeesOnlyLiveKeys(s: Store, c: Id, k: Key, ask: nat, delta: U64, now: Time)
    ensures var sent := Sent(s, c, Incr(k, ask, delta), now, c);
            && sent != []
            && var answer := sent[|sent| - 1];
            && answer.Result? && answer.ask == ask && answer.key == k
            && answer.ok == (Live(s, k, now) ==> |s.kv[k]| == 8)
            && (answer.ok ==>
                  && |answer.value| == 8
                  && Signed(Bits(answer.value)) ==
                     Wrap((if Live(s, k, now) then Signed(Bits(s.kv[k])) else 0) + Signed(delta)))
  {
    var f := Fresh(s, k, now);
    var answer := if Countable(f, k) then Result(ask, k, true, Incremented(f, k, delta))
                  else Result(ask, k, false, []);
    var sent := Sent(s, c, Incr(k, ask, delta), now, c);
    assert sent[|sent| - 1] == answer;
  }

  lemma SetNxSeesOnlyLiveKeys(s: Store, c: Id, k: Key, ask: nat, ttl: nat, val: Value, now: Time)
    ensures var sent := Sent(s, c, SetNx(k, ask, ttl, val), now, c);
            && sent != []
            && sent[|sent| - 1] == Result(ask, k, !Live(s, k, now), [])
  {
  }

  // After a sweep no deadline up to `now` remains, and no other key changed.
  lemma SweepIsExact(s: Store, now: Time, k: Key)
    requires DeadlinesHaveKeys(s)
    ensures !Expired(Swept(s, now), k, now)
    ensures k in s.kv && k !in Swept(s, now).kv <==> Expired(s, k, now)
    ensures !Expired(s, k, now) ==>
      Lookup(Swept(s, now).kv, k) == Lookup(s.kv, k) &&
      Lookup(Swept(s, now).expires, k) == Lookup(s.expires, k)
  {
  }

  // A sweep sends each watcher exactly one KV_DEL per expired key, and nothing else.
  lemma {:induction false} SweepSendsEachOnce(s: Store, order: seq<Key>, keys: set<Key>, w: Id, p: Push)
    requires Enumerates(order, keys)
    ensures multiset(SweptTo(s, order, w))[p] ==
            if p.Gone? && p.key in keys && w in Watching(s, p.key) then 1 else 0
    decreases |order|
  {
    if order == [] {
    } else {
      var rest := order[1..];
      assert order == [order[0]] + rest;
      assert order[0] !in rest;
      assert Enumerates(rest, keys - {order[0]});
      SweepSendsEachOnce(s, rest, keys - {order[0]}, w, p);
      assert SweptTo(s, order, w) == GoneTo(s, order[0], w) + SweptTo(s, rest, w);
    }
  }

  // ---- pushes tell watchers everything --------------------------------------------

  // A cached value of key k after a client has handled these frames.
  function Replay(x: Option<Value>, k: Key, frames: seq<Push>): Option<Value>
    decreases |frames|
  {
    if frames == [] then x else Replay(Seen(x, k, frames[0]), k, frames[1..])
  }

  function Seen(x: Option<Value>, k: Key, p: Push): Option<Value> {
    match p
    case Update(key, v) => if key == k then Some(v) else x
    case Gone(key) => if key == k then None else x
    case Reply(_, key, found) => if key == k then found else x
    case _ => x
  }

  // All that a client keeps of a frame: the values it caches, and the keys whose
  // cached value, or absence, it takes for the daemon's.
  function CacheAfter(cache: map<Key, Value>, p: Push): map<Key, Value> {
    match p
    case Update(k, v) => cache[k := v]
    case Gone(k) => cache - {k}
    case Reply(_, k, Some(v)) => cache[k := v]
    case Reply(_, k, None) => cache - {k}
    case _ => cache
  }

  function WatchedAfter(watched: set<Key>, p: Push): set<Key> {
    match p
    case Update(k, _) => watched + {k}
    case Reply(_, k, _) => watched + {k}
    case _ => watched
  }

  lemma {:induction false} ReplayConcat(x: Option<Value>, k: Key, a: seq<Push>, b: seq<Push>)
    ensures Replay(x, k, a + b) == Replay(Replay(x, k, a), k, b)
    decreases |a|
  {
    if a == [] {
      assert a + b == b;
    } else {
      assert (a + b)[1..] == a[1..] + b;
      ReplayConcat(Seen(x, k, a[0]), k, a[1..], b);
    }
  }

  lemma ReplayOne(x: Option<Value>, k: Key, p: Push)
    ensures Replay(x, k, [p]) == Seen(x, k, p)
  {
    assert [p][1..] == [];
  }

  // Whoever watches a key after a verb and knew its value before, if it was
  // watching it then, knows its value after handling what the verb sent it.
  lemma PushesTellAll(s: Store, c: Id, v: Verb, now: Time, later: Time, w: Id, k: Key, x: Option<Value>)
    requires w in Watching(s, k) ==> x == Lookup(s.kv, k)
    requires w in Watching(After(s, c, v, now, later), k)
    ensures Replay(x, k, Sent(s, c, v, now, w)) == Lookup(After(s, c, v, now, later).kv, k)
  {
    var sent := Sent(s, c, v, now, w);
    if v.Set? || v.SetEx? || v.Del? {
      if v.key == k {
        ReplayOne(x, k, sent[0]);
      } else {
        Unrelated(x, k, sent);
      }
    } else if v.key != k {
      Unrelated(x, k, sent);
    } else if v.Get? {
      GetTells(s, c, k, v.ask, now, w, x);
    } else if v.Incr? {
      IncrTells(s, c, k, v.ask, v.delta, now, later, w, x);
    } else {
      SetNxTells(s, c, v, now, later, w, x);
    }
  }

  // Frames about other keys leave a cached value alone.
  lemma {:induction false} Unrelated(x: Option<Value>, k: Key, frames: seq<Push>)
    requires forall i :: 0 <= i < |frames| ==> !About(frames[i], k)
    ensures Replay(x, k, frames) == x
    decreases |frames|
  {
    if frames != [] {
      Unrelated(x, k, frames[1..]);
    }
  }

  lemma ExpiryTold(s: Store, k: Key, now: Time, w: Id, x: Option<Value>)
    requires w in Watching(s, k) && x == Lookup(s.kv, k)
    ensures Replay(x, k, ExpiryTo(s, k, now, w)) == Lookup(Fresh(s, k, now).kv, k)
  {
    if Expired(s, k, now) {
      ReplayOne(x, k, Gone(k));
    }
  }

  lemma GetTells(s: Store, c: Id, k: Key, ask: nat, now: Time, w: Id, x: Option<Value>)
    requires w in Watching(s, k) ==> x == Lookup(s.kv, k)
    requires w in Watching(s, k) || w == c
    ensures Replay(x, k, Sent(s, c, Get(k, ask), now, w)) == Lookup(Fresh(s, k, now).kv, k)
  {
    var gone, reply := ExpiryTo(s, k, now, w), Reply(ask, k, Lookup(Fresh(s, k, now).kv, k));
    if w == c {
      ReplayConcat(x, k, gone, [reply]);
      ReplayOne(Replay(x, k, gone), k, reply);
    } else {
      ExpiryTold(s, k, now, w, x);
      assert gone + [] == gone;
    }
  }

  // A watcher that knows the value before k is rewritten, or not, within one verb.
  lemma WriteTells(s: Store, k: Key, now: Time, w: Id, x: Option<Value>, write: Option<Value>, answer: seq<Push>)
    requires w in Watching(s, k) && x == Lookup(s.kv, k)
    requires forall i :: 0 <= i < |answer| ==> answer[i].Result?
    ensures var f := Fresh(s, k, now);
            var pushed := if write.Some? then UpdateTo(f, k, write.value, w) else [];
            Replay(x, k, ExpiryTo(s, k, now, w) + pushed + answer) ==
            if write.Some? then write else Lookup(f.kv, k)
  {
    var f := Fresh(s, k, now);
    var gone, pushed := ExpiryTo(s, k, now, w), if write.Some? then UpdateTo(f, k, write.value, w) else [];
    var y := Replay(x, k, gone);
    ExpiryTold(s, k, now, w, x);
    ReplayConcat(x, k, gone + pushed, answer);
    ReplayConcat(x, k, gone, pushed);
    if write.Some? {
      ReplayOne(y, k, Update(k, write.value));
    }
    Unrelated(Replay(y, k, pushed), k, answer);
  }

  lemma IncrTells(s: Store, c: Id, k: Key, ask: nat, delta: U64, now: Time, later: Time, w: Id, x: Option<Value>)
    requires w in Watching(s, k) && x == Lookup(s.kv, k)
    ensures Replay(x, k, Sent(s, c, Incr(k, ask, delta), now, w)) ==
            Lookup(After(s, c, Incr(k, ask, delta), now, later).kv, k)
  {
    var f := Fresh(s, k, now);
    var sent := Sent(s, c, Incr(k, ask, delta), now, w);
    if Countable(f, k) {
      var v := Incremented(f, k, delta);
      var answer := Only(c, Result(ask, k, true, v), w);
      WriteTells(s, k, now, w, x, Some(v), answer);
      assert sent == ExpiryTo(s, k, now, w) + UpdateTo(f, k, v, w) + answer;
    } else {
      var answer := Only(c, Result(ask, k, false, []), w);
      WriteTells(s, k, now, w, x, None, answer);
      assert sent == ExpiryTo(s, k, now, w) + [] + answer;
    }
  }

  lemma SetNxTells(s: Store, c: Id, v: Verb, now: Time, later: Time, w: Id, x: Option<Value>)
    requires v.SetNx? && w in Watching(s, v.key) && x == Lookup(s.kv, v.key)
    ensures Replay(x, v.key, Sent(s, c, v, now, w)) == Lookup(After(s, c, v, now, later).kv, v.key)
  {
    var f := Fresh(s, v.key, now);
    var answer := Only(c, Result(v.ask, v.key, v.key !in f.kv, []), w);
    WriteTells(s, v.key, now, w, x, if v.key in f.kv then None else Some(v.value), answer);
  }

  // The same for a sweep.
  lemma {:induction false} SweepTellsAll(s: Store, order: seq<Key>, w: Id, k: Key, x: Option<Value>)
    requires w in Watching(s, k)
    ensures Replay(x, k, SweptTo(s, order, w)) == if k in order then None else x
    decreases |order|
  {
    if order != [] {
      var first, rest := GoneTo(s, order[0], w), order[1..];
      ReplayConcat(x, k, first, SweptTo(s, rest, w));
      if first != [] {
        ReplayOne(x, k, first[0]);
      }
      SweepTellsAll(s, rest, w, k, Replay(x, k, first));
      assert order == [order[0]] + rest;
    }
  }

  // A verb tells nobody anything about another key.
  lemma AboutItsKey(s: Store, c: Id, v: Verb, now: Time, w: Id, i: nat, k: Key)
    requires i < |Sent(s, c, v, now, w)| && About(Sent(s, c, v, now, w)[i], k)
    ensures v.key == k
  {
  }

  // Only a watcher of a key is ever told its value.
  lemma OnlyWatchersHear(s: Store, c: Id, v: Verb, now: Time, later: Time, w: Id, p: Push, k: Key)
    requires p in Sent(s, c, v, now, w) && About(p, k)
    ensures w in Watching(After(s, c, v, now, later), k)
  {
  }

  // A watch once registered stays until the client leaves.
  lemma WatchesStay(s: Store, c: Id, v: Verb, now: Time, later: Time, k: Key)
    ensures Watching(s, k) <= Watching(After(s, c, v, now, later), k)
    ensures Watching(After(s, c, v, now, later), k) <= Watching(s, k) + {c}
  {
  }
}
