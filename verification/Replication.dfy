/**
  One key, one owner: a key that only device A's clients write, carried by both
  links and absent on B when the links connect. B follows A and never answers back.
*/
module Replication {
  import opened Options
  import opened KvStore
  import opened LinkDevice
  import opened TwoDevices

  // The value of a key after these changes of it.
  function Latest(x: Option<Value>, es: seq<Event>): Option<Value> {
    if es == [] then x
    else match es[|es| - 1]
      case Assign(_, v) => Some(v)
      case Erase(_) => None
  }

  // ---- what the daemon's frames say about one key -----------------------------------

  lemma {:induction false} NothingAbout(ps: seq<Push>, k: Key)
    requires forall i :: 0 <= i < |ps| ==> !About(ps[i], k)
    ensures OnKey(Heard(ps), k) == []
  {
    if ps != [] {
      NothingAbout(ps[1..], k);
      OnKeyConcat(Carried(ps[0]), Heard(ps[1..]), k);
      CarriedOnKey(ps[0], k);
    }
  }

  lemma CarriedOnKey(p: Push, k: Key)
    ensures OnKey(Carried(p), k) == if About(p, k) then Carried(p) else []
  {
    var es := Carried(p);
    if es != [] {
      assert es == [es[0]];
      OnKeyOne(es[0], k);
    }
  }

  predicate Absence(p: Push, k: Key) {
    p.Reply? && p.key == k && p.found.None?
  }

  // Short of a reply that finds nothing, the events say what the frames say.
  lemma {:induction false} EventsReplay(x: Option<Value>, k: Key, ps: seq<Push>)
    requires forall i :: 0 <= i < |ps| ==> !Absence(ps[i], k)
    ensures Latest(x, OnKey(Heard(ps), k)) == Replay(x, k, ps)
    decreases |ps|
  {
    if ps != [] {
      var first, rest := OnKey(Carried(ps[0]), k), OnKey(Heard(ps[1..]), k);
      OnKeyConcat(Carried(ps[0]), Heard(ps[1..]), k);
      CarriedOnKey(ps[0], k);
      assert Latest(x, first) == Seen(x, k, ps[0]);
      assert Latest(x, first + rest) == Latest(Latest(x, first), rest);
      EventsReplay(Seen(x, k, ps[0]), k, ps[1..]);
    }
  }

  // What the link, having known the value if it watched k and heard nothing of it
  // otherwise, can tell from the events a verb sends it.
  lemma VerbEvents(s: Store, c: Id, v: Verb, now: Time, later: Time, k: Key, x: Option<Value>)
    requires x == if LINK in Watching(s, k) then Lookup(s.kv, k) else None
    requires LINK in Watching(After(s, c, v, now, later), k)
    ensures Latest(x, OnKey(Heard(Sent(s, c, v, now, LINK)), k)) == Lookup(After(s, c, v, now, later).kv, k)
  {
    var sent := Sent(s, c, v, now, LINK);
    if v.Get? && v.key == k && c == LINK && Lookup(Fresh(s, k, now).kv, k).None? {
      AbsenceEvents(s, v, now, x);
    } else {
      forall i | 0 <= i < |sent| ensures !Absence(sent[i], k) {
        OnlyAskerIsTold(s, c, v, now, k, i);
      }
      EventsReplay(x, k, sent);
      PushesTellAll(s, c, v, now, later, LINK, k, x);
    }
  }

  lemma OnlyAskerIsTold(s: Store, c: Id, v: Verb, now: Time, k: Key, i: nat)
    requires i < |Sent(s, c, v, now, LINK)|
    ensures Absence(Sent(s, c, v, now, LINK)[i], k) ==>
      v.Get? && v.key == k && c == LINK && Lookup(Fresh(s, k, now).kv, k) == None
  {
  }

  lemma AbsenceEvents(s: Store, v: Verb, now: Time, x: Option<Value>)
    requires v.Get? && Lookup(Fresh(s, v.key, now).kv, v.key) == None
    requires x == if LINK in Watching(s, v.key) then Lookup(s.kv, v.key) else None
    ensures Latest(x, OnKey(Heard(Sent(s, LINK, v, now, LINK)), v.key)) == None
  {
    var k, sent := v.key, Sent(s, LINK, v, now, LINK);
    var gone, reply := ExpiryTo(s, k, now, LINK), Reply(v.ask, k, None);
    assert sent == gone + [reply];
    HeardConcat(gone, [reply]);
    assert Heard([reply]) == [] by { assert [reply][1..] == []; }
    assert Heard(sent) == Heard(gone);
    if gone != [] {
      assert gone == [Gone(k)] && gone[1..] == [];
      assert Heard(gone) == [Erase(k)];
      OnKeyOne(Erase(k), k);
    }
  }

  // A sweep tells a watcher of k at most one thing about it.
  lemma {:induction false} SweptOnKey(s: Store, order: seq<Key>, k: Key)
    requires forall i, j :: 0 <= i < j < |order| ==> order[i] != order[j]
    ensures OnKey(Heard(SweptTo(s, order, LINK)), k) ==
            if k in order && LINK in Watching(s, k) then [Erase(k)] else []
    decreases |order|
  {
    if order != [] {
      var first, rest := GoneTo(s, order[0], LINK), SweptTo(s, order[1..], LINK);
      HeardConcat(first, rest);
      OnKeyConcat(Heard(first), Heard(rest), k);
      if first != [] {
        assert first[1..] == [] && Heard(first) == [Erase(order[0])];
        OnKeyOne(Erase(order[0]), k);
      }
      SweptOnKey(s, order[1..], k);
      assert order == [order[0]] + order[1..];
    }
  }

  // At most that the key had expired, and what became of it.
  predicate Brief(es: seq<Event>, s: Store, v: Verb, k: Key, now: Time) {
    |es| <= 1 || (|es| == 2 && es[0] == Erase(k) && FindsExpired(s, v, now, k))
  }

  lemma VerbOnKey(s: Store, c: Id, v: Verb, now: Time, k: Key)
    ensures Brief(OnKey(Heard(Sent(s, c, v, now, LINK)), k), s, v, k, now)
  {
    var sent := Sent(s, c, v, now, LINK);
    if v.key != k {
      NoneOfIt(s, c, v, now, k);
    } else {
      match v
      case Get(_, ask) => ExpiryThenValue(s, v, now, Only(c, Reply(ask, k, Lookup(Fresh(s, k, now).kv, k)), LINK));
      case Incr(_, _, _) => IncrOnKey(s, c, v, now);
      case SetNx(_, _, _, _) => SetNxOnKey(s, c, v, now);
      case _ => OneValueTold(sent, k);
    }
  }

  lemma IncrOnKey(s: Store, c: Id, v: Verb, now: Time)
    requires v.Incr?
    ensures Brief(OnKey(Heard(Sent(s, c, v, now, LINK)), v.key), s, v, v.key, now)
  {
    var f := Fresh(s, v.key, now);
    if Countable(f, v.key) {
      var val := Incremented(f, v.key, v.delta);
      ExpiryThenValue(s, v, now,
                      UpdateTo(f, v.key, val, LINK) + Only(c, Result(v.ask, v.key, true, val), LINK));
    } else {
      ExpiryThenValue(s, v, now, Only(c, Result(v.ask, v.key, false, []), LINK));
    }
  }

  lemma SetNxOnKey(s: Store, c: Id, v: Verb, now: Time)
    requires v.SetNx?
    ensures Brief(OnKey(Heard(Sent(s, c, v, now, LINK)), v.key), s, v, v.key, now)
  {
    var gone, f := ExpiryTo(s, v.key, now, LINK), Fresh(s, v.key, now);
    var told, answer := if v.key in f.kv then [] else UpdateTo(f, v.key, v.value, LINK),
                        Only(c, Result(v.ask, v.key, v.key !in f.kv, []), LINK);
    ExpiryThenValue(s, v, now, told + answer);
    assert gone + told + answer == gone + (told + answer);
  }

  lemma ExpiryThenValue(s: Store, v: Verb, now: Time, tail: seq<Push>)
    requires v.Get? || v.Incr? || v.SetNx?
    requires |tail| <= 2 && forall i :: 1 <= i < |tail| ==> tail[i].Result?
    ensures Brief(OnKey(Heard(ExpiryTo(s, v.key, now, LINK) + tail), v.key), s, v, v.key, now)
  {
    var k, gone := v.key, ExpiryTo(s, v.key, now, LINK);
    HeardConcat(gone, tail);
    OnKeyConcat(Heard(gone), Heard(tail), k);
    OneValueTold(tail, k);
    if gone != [] {
      assert gone[1..] == [] && Heard(gone) == [Erase(k)];
      OnKeyOne(Erase(k), k);
    }
  }

  lemma OneValueTold(ps: seq<Push>, k: Key)
    requires |ps| <= 2 && forall i :: 1 <= i < |ps| ==> ps[i].Result?
    ensures |OnKey(Heard(ps), k)| <= 1
  {
    if ps != [] {
      NothingAbout(ps[1..], k);
      OnKeyConcat(Carried(ps[0]), Heard(ps[1..]), k);
      CarriedOnKey(ps[0], k);
    }
  }

  // ---- device A -----------------------------------------------------------------------

  // The log tells A's value, and what of it has not been forwarded is still on its way.
  ghost predicate Owner(a: Device, k: Key) {
    && NotExpected(a.echoes, k)
    && Told(a.store, k, OnKey(a.log, k))
    && OnKey(a.forwarded, k) + OnKey(Heard(a.down), k) == OnKey(a.log, k)
  }

  ghost predicate NotExpected(echoes: multiset<Event>, k: Key) {
    forall e :: e in echoes ==> e.key != k
  }

  predicate Told(s: Store, k: Key, log: seq<Event>) {
    if LINK in Watching(s, k) then Lookup(s.kv, k) == Latest(None, log) else log == []
  }

  lemma OwnerForeign(a: Device, store: Store, more: seq<Push>, k: Key)
    requires Owner(a, k)
    requires LINK in Watching(a.store, k) ==> LINK in Watching(store, k)
    requires LINK in Watching(store, k) ==>
      Latest(if LINK in Watching(a.store, k) then Lookup(a.store.kv, k) else None, OnKey(Heard(more), k))
      == Lookup(store.kv, k)
    requires LINK !in Watching(store, k) ==> OnKey(Heard(more), k) == []
    ensures Owner(Foreign(a, store, more), k)
  {
    HeardConcat(a.down, more);
    OnKeyConcat(Heard(a.down), Heard(more), k);
    OnKeyConcat(a.log, Heard(more), k);
    Lengthened(OnKey(a.forwarded, k), OnKey(Heard(a.down), k), OnKey(a.log, k), OnKey(Heard(more), k));
    ToldMore(a.store, store, k, OnKey(a.log, k), OnKey(Heard(more), k));
  }

  lemma Lengthened(sent: seq<Event>, flying: seq<Event>, log: seq<Event>, more: seq<Event>)
    requires sent + flying == log
    ensures sent + (flying + more) == log + more
  {
    assert sent + (flying + more) == (sent + flying) + more;
  }

  lemma ToldMore(s: Store, s': Store, k: Key, log: seq<Event>, more: seq<Event>)
    requires Told(s, k, log)
    requires LINK in Watching(s, k) ==> LINK in Watching(s', k)
    requires LINK in Watching(s', k) ==>
      Latest(if LINK in Watching(s, k) then Lookup(s.kv, k) else None, more) == Lookup(s'.kv, k)
    requires LINK !in Watching(s', k) ==> more == []
    ensures Told(s', k, log + more)
  {
    assert Latest(None, log + more) == Latest(Latest(None, log), more);
  }

  lemma OwnerHearsVerb(a: Device, c: Id, v: Verb, now: Time, later: Time, k: Key)
    requires Owner(a, k)
    ensures Owner(Foreign(a, After(a.store, c, v, now, later), Sent(a.store, c, v, now, LINK)), k)
  {
    var store, more := After(a.store, c, v, now, later), Sent(a.store, c, v, now, LINK);
    if LINK in Watching(store, k) {
      VerbEvents(a.store, c, v, now, later, k,
                 if LINK in Watching(a.store, k) then Lookup(a.store.kv, k) else None);
    } else {
      forall i | 0 <= i < |more| ensures !About(more[i], k) {
        if About(more[i], k) {
          OnlyWatchersHear(a.store, c, v, now, later, LINK, more[i], k);
        }
      }
      NothingAbout(more, k);
    }
    WatchesStay(a.store, c, v, now, later, k);
    OwnerForeign(a, store, more, k);
  }

  lemma OwnerHearsSweep(a: Device, now: Time, order: seq<Key>, k: Key)
    requires Owner(a, k) && Enumerates(order, Due(a.store, now))
    ensures Owner(Foreign(a, Swept(a.store, now), SweptTo(a.store, order, LINK)), k)
  {
    SweptOnKey(a.store, order, k);
    OwnerForeign(a, Swept(a.store, now), SweptTo(a.store, order, LINK), k);
  }

  // The link's own writes, which are never about k.
  lemma OwnerTakes(a: Device, now: Time, later: Time, k: Key)
    requires Owner(a, k) && a.up != [] && OnKey(Asked(a.up), k) == []
    ensures Owner(Do(a, DaemonTakes(now, later)).0, k)
  {
    var v := a.up[0];
    var store, more := After(a.store, LINK, v, now, later), Sent(a.store, LINK, v, now, LINK);
    var a' := Do(a, DaemonTakes(now, later)).0;
    if Requested(v) == [] {
      OwnerHearsVerb(a, LINK, v, now, later, k);
      OwnerSame(Foreign(a, store, more), a', k);
    } else {
      FirstAsked(a.up, k);
      OtherKeySent(a.store, v, now, later, k);
      OwnerUnmoved(a, a', more, k);
    }
  }

  lemma OtherKeySent(s: Store, v: Verb, now: Time, later: Time, k: Key)
    requires v.key != k
    ensures OnKey(Heard(Sent(s, LINK, v, now, LINK)), k) == []
    ensures var s' := After(s, LINK, v, now, later);
            Watching(s', k) == Watching(s, k) && Lookup(s'.kv, k) == Lookup(s.kv, k)
  {
    NoneOfIt(s, LINK, v, now, k);
    SameElsewhere(s, LINK, v, now, later, k);
  }

  lemma NoneOfIt(s: Store, c: Id, v: Verb, now: Time, k: Key)
    requires v.key != k
    ensures OnKey(Heard(Sent(s, c, v, now, LINK)), k) == []
  {
    var sent := Sent(s, c, v, now, LINK);
    forall i | 0 <= i < |sent| ensures !About(sent[i], k) {
      if About(sent[i], k) {
        AboutItsKey(s, c, v, now, LINK, i, k);
      }
    }
    NothingAbout(sent, k);
  }

  lemma SameElsewhere(s: Store, c: Id, v: Verb, now: Time, later: Time, k: Key)
    requires v.key != k
    ensures var s' := After(s, c, v, now, later);
            Watching(s', k) == Watching(s, k) && Lookup(s'.kv, k) == Lookup(s.kv, k)
  {
  }

  // Frames about other keys come down and the store changes elsewhere.
  lemma OwnerUnmoved(a: Device, a': Device, more: seq<Push>, k: Key)
    requires Owner(a, k) && OnKey(Heard(more), k) == [] && a'.down == a.down + more
    requires a'.echoes == a.echoes && a'.forwarded == a.forwarded && a'.log == a.log
    requires Watching(a'.store, k) == Watching(a.store, k) && Lookup(a'.store.kv, k) == Lookup(a.store.kv, k)
    ensures Owner(a', k)
  {
    HeardConcat(a.down, more);
    OnKeyConcat(Heard(a.down), Heard(more), k);
    assert OnKey(Heard(a'.down), k) == OnKey(Heard(a.down), k) + [];
  }

  lemma FirstAsked(vs: seq<Verb>, k: Key)
    requires vs != [] && OnKey(Asked(vs), k) == [] && Requested(vs[0]) != []
    ensures vs[0].key != k
  {
    OnKeyConcat(Requested(vs[0]), Asked(vs[1..]), k);
    OnKeyOne(Requested(vs[0])[0], k);
    assert Requested(vs[0]) == [Requested(vs[0])[0]];
  }

  lemma OwnerHears(a: Device, k: Key)
    requires Owner(a, k) && a.down != []
    ensures Owner(Hear(a).0, k)
  {
    var (a', out) := Hear(a);
    assert OnKey(Heard(a.down), k) == OnKey(out, k) + OnKey(Heard(a'.down), k) by {
      HeardOnKey(a, k);
    }
    assert a'.forwarded == a.forwarded + out;
    OnKeyConcat(a.forwarded, out, k);
    Shifted(OnKey(a.forwarded, k), OnKey(out, k), OnKey(Heard(a'.down), k));
    assert NotExpected(a'.echoes, k);
  }

  lemma Shifted(sent: seq<Event>, out: seq<Event>, flying: seq<Event>)
    ensures sent + (out + flying) == (sent + out) + flying
  {
  }

  // Of key k, what the link hears is what it forwards.
  lemma HeardOnKey(a: Device, k: Key)
    requires NotExpected(a.echoes, k) && a.down != []
    ensures OnKey(Heard(a.down), k) == OnKey(Hear(a).1, k) + OnKey(Heard(a.down[1..]), k)
  {
    var es := Carried(a.down[0]);
    OnKeyConcat(es, Heard(a.down[1..]), k);
    if es != [] {
      assert es == [es[0]];
      OnKeyOne(es[0], k);
    }
  }

  lemma OwnerFetches(a: Device, k: Key)
    requires Owner(a, k) && Can(a, LinkFetches) && OnKey(a.inbox, k) == []
    ensures Owner(Do(a, LinkFetches).0, k)
  {
    var a' := Do(a, LinkFetches).0;
    FirstOnKey(a.inbox, k);
    StillNotExpected(a.echoes, a.inbox[0], k);
    OwnerSame(a, a', k);
  }

  lemma FirstOnKey(es: seq<Event>, k: Key)
    requires es != [] && OnKey(es, k) == []
    ensures es[0].key != k
  {
  }

  lemma StillNotExpected(echoes: multiset<Event>, e: Event, k: Key)
    requires NotExpected(echoes, k) && e.key != k
    ensures NotExpected(echoes + multiset{e}, k)
  {
  }

  lemma OwnerSame(a: Device, a': Device, k: Key)
    requires Owner(a, k) && NotExpected(a'.echoes, k)
    requires a'.forwarded == a.forwarded && a'.down == a.down && a'.log == a.log && a'.store == a.store
    ensures Owner(a', k)
  {
  }

  lemma OwnerStep(a: Device, s: Step, k: Key)
    requires Owner(a, k) && OnKey(Received(a), k) == [] && Can(a, s) && SweepsDue(a, s)
    ensures Owner(Do(a, s).0, k)
  {
    ReceivedParts(a, k);
    match s
    case Local(c, v, now, later) => OwnerHearsVerb(a, c, v, now, later, k);
    case SweepAt(now, order) => OwnerHearsSweep(a, now, order, k);
    case Depart(c) => assert LINK in Watching(Left(a.store, c), k) <==> LINK in Watching(a.store, k);
    case DaemonTakes(now, later) => OwnerTakes(a, now, later, k);
    case LinkHears => OwnerHears(a, k);
    case LinkFetches => OwnerFetches(a, k);
    case LinkSends =>
  }

  lemma ReceivedParts(d: Device, k: Key)
    ensures OnKey(Received(d), k) ==
            OnKey(d.applied, k) + OnKey(Asked(d.up), k) + OnKey(d.holding, k) + OnKey(d.inbox, k)
  {
    OnKeyConcat(d.applied, Asked(d.up), k);
    OnKeyConcat(d.applied + Asked(d.up), d.holding, k);
    OnKeyConcat(d.applied + Asked(d.up) + d.holding, d.inbox, k);
  }

  // ---- device B -----------------------------------------------------------------------

  // B's value is what its link last wrote, and nobody else has a say.
  ghost predicate Replica(b: Device, k: Key) {
    && OnKey(b.log, k) == []
    && k !in b.store.expires
    && Lookup(b.store.kv, k) == Latest(None, OnKey(b.applied, k))
    && (b.up != [] && b.up[0].Get? ==> b.applied == [])
  }

  // What others may do on B: anything but write k.
  predicate LeavesAlone(s: Step, k: Key) {
    s.Local? && s.v.key == k ==> s.v.Get?
  }

  lemma ReplicaForeign(b: Device, store: Store, more: seq<Push>, k: Key)
    requires Replica(b, k) && OnKey(Heard(more), k) == []
    requires k !in store.expires && Lookup(store.kv, k) == Lookup(b.store.kv, k)
    ensures Replica(Foreign(b, store, more), k)
  {
    OnKeyConcat(b.log, Heard(more), k);
  }

  lemma ReplicaNotTold(s: Store, c: Id, v: Verb, now: Time, k: Key)
    requires k !in s.expires && (v.key == k ==> v.Get?)
    requires c == LINK ==> k !in s.kv
    ensures OnKey(Heard(Sent(s, c, v, now, LINK)), k) == []
  {
    var more := Sent(s, c, v, now, LINK);
    if v.key == k && c == LINK {
      assert more == [Reply(v.ask, k, None)] && more[1..] == [];
    } else {
      NothingAbout(more, k);
    }
  }

  lemma ReplicaUntouched(s: Store, c: Id, v: Verb, now: Time, later: Time, k: Key)
    requires k !in s.expires && (v.key == k ==> v.Get?)
    ensures var s' := After(s, c, v, now, later);
            k !in s'.expires && Lookup(s'.kv, k) == Lookup(s.kv, k)
  {
  }

  // A verb that does not write k says nothing of it unless it is the link's own get.
  lemma ReplicaHearsVerb(b: Device, c: Id, v: Verb, now: Time, later: Time, k: Key)
    requires Replica(b, k) && (v.key == k ==> v.Get?)
    requires c == LINK ==> b.applied == []
    ensures Replica(Foreign(b, After(b.store, c, v, now, later), Sent(b.store, c, v, now, LINK)), k)
  {
    var store, more := After(b.store, c, v, now, later), Sent(b.store, c, v, now, LINK);
    assert c == LINK ==> Lookup(b.store.kv, k) == None;
    ReplicaNotTold(b.store, c, v, now, k);
    ReplicaUntouched(b.store, c, v, now, later, k);
    ReplicaForeign(b, store, more, k);
  }

  lemma ReplicaTakes(b: Device, now: Time, later: Time, k: Key)
    requires Replica(b, k) && GetsFirst(b) && b.up != []
    ensures Replica(Do(b, DaemonTakes(now, later)).0, k)
  {
    var v, b' := b.up[0], Do(b, DaemonTakes(now, later)).0;
    if Requested(v) == [] {
      ReplicaHearsVerb(b, LINK, v, now, later, k);
      assert b'.log == Foreign(b, b'.store, Sent(b.store, LINK, v, now, LINK)).log;
    } else {
      OwnWriteTells(b.store, v, now, later, k, OnKey(b.applied, k));
      OnKeyConcat(b.applied, Requested(v), k);
      if b'.up != [] {
        assert !b'.up[0].Get? by { assert b'.up[0] == b.up[1]; }
      }
    }
  }

  lemma OwnWriteTells(s: Store, v: Verb, now: Time, later: Time, k: Key, applied: seq<Event>)
    requires Requested(v) != [] && k !in s.expires && Lookup(s.kv, k) == Latest(None, applied)
    ensures var s' := After(s, LINK, v, now, later);
            k !in s'.expires && Lookup(s'.kv, k) == Latest(None, applied + OnKey(Requested(v), k))
  {
    OnKeyOne(Requested(v)[0], k);
    assert Requested(v) == [Requested(v)[0]];
    if v.key != k {
      assert applied + [] == applied;
    }
  }

  lemma ReplicaSwept(b: Device, now: Time, order: seq<Key>, k: Key)
    requires Replica(b, k) && Enumerates(order, Due(b.store, now))
    ensures Replica(Foreign(b, Swept(b.store, now), SweptTo(b.store, order, LINK)), k)
  {
    SweptOnKey(b.store, order, k);
    ReplicaForeign(b, Swept(b.store, now), SweptTo(b.store, order, LINK), k);
  }

  lemma ReplicaStep(b: Device, s: Step, k: Key)
    requires Replica(b, k) && GetsFirst(b) && Can(b, s) && SweepsDue(b, s) && LeavesAlone(s, k)
    ensures Replica(Do(b, s).0, k)
  {
    match s
    case Local(c, v, now, later) => ReplicaHearsVerb(b, c, v, now, later, k);
    case SweepAt(now, order) => ReplicaSwept(b, now, order, k);
    case DaemonTakes(now, later) => ReplicaTakes(b, now, later, k);
    case _ =>
  }

  // By conservation alone: what is in nobody else's log is never forwarded.
  lemma ReplicaIsSilent(b: Device, k: Key)
    requires Conserved(b) && OnKey(b.log, k) == []
    ensures OnKey(b.forwarded, k) == []
  {
    var es := OnKey(b.forwarded, k);
    forall e: Event | e.key == k ensures Count(es, e) == 0 {
      CountOnKey(b.forwarded, e);
      CountOnKey(b.log, e);
      assert Balanced(b, e);
    }
    OnlyKey(b.forwarded, k);
    assert es != [] ==> Count(es, es[0]) >= 1;
  }

  lemma {:induction false} OnlyKey(es: seq<Event>, k: Key)
    ensures forall e :: e in OnKey(es, k) ==> e.key == k
  {
    if es != [] {
      OnlyKey(es[1..], k);
    }
  }

  // ---- the pair -------------------------------------------------------------------------

  ghost predicate Owned(p: Pair, k: Key) {
    PairInv(p) && k in p.a.keys && k in p.b.keys && Owner(p.a, k) && Replica(p.b, k)
  }

  lemma NothingComesBack(p: Pair, k: Key)
    requires Owned(p, k)
    ensures OnKey(p.b.forwarded, k) == [] && OnKey(Received(p.a), k) == []
  {
    ReplicaIsSilent(p.b, k);
  }

  lemma MoveOwned(p: Pair, m: Move, p': Pair, k: Key)
    requires Owned(p, k) && Follows(p, m, p') && (m.left || LeavesAlone(m.step, k))
    ensures Owned(p', k)
  {
    MoveInv(p, m);
    StepForwards(Acting(p, m), m.step);
    if m.left {
      NothingComesBack(p, k);
      OwnerStep(p.a, m.step, k);
    } else {
      ReplicaStep(p.b, m.step, k);
    }
  }

  predicate AllowedAt(ms: seq<Move>, k: Key, i: nat)
    requires i < |ms|
  {
    ms[i].left || LeavesAlone(ms[i].step, k)
  }

  // k is A's: nobody on B writes it, and it was not there when the links connected.
  ghost predicate SingleOwner(ps: seq<Pair>, ms: seq<Move>, k: Key) {
    && Run(ps, ms)
    && k in ps[0].a.keys && k in ps[0].b.keys
    && k !in ps[0].b.store.kv && k !in ps[0].b.store.expires
    && forall i: nat :: i < |ms| ==> AllowedAt(ms, k, i)
  }

  lemma StartOwned(p: Pair, k: Key)
    requires Started(p.a) && Started(p.b) && k in p.a.keys && k in p.b.keys
    requires k !in p.b.store.kv && k !in p.b.store.expires
    ensures Owned(p, k)
  {
    StartInv(p);
    assert Told(p.a.store, k, []);
  }

  lemma {:induction false} AlwaysOwned(ps: seq<Pair>, ms: seq<Move>, k: Key, i: nat)
    requires SingleOwner(ps, ms, k) && i < |ps|
    ensures Owned(ps[i], k)
  {
    if i == 0 {
      StartOfRun(ps, ms, k);
    } else {
      AlwaysOwned(ps, ms, k, i - 1);
      MoveOfRun(ps, ms, k, i);
    }
  }

  lemma StartOfRun(ps: seq<Pair>, ms: seq<Move>, k: Key)
    requires SingleOwner(ps, ms, k)
    ensures Owned(ps[0], k)
  {
    StartOwned(ps[0], k);
  }

  lemma MoveOfRun(ps: seq<Pair>, ms: seq<Move>, k: Key, i: nat)
    requires SingleOwner(ps, ms, k) && 0 < i < |ps| && Owned(ps[i - 1], k)
    ensures Owned(ps[i], k)
  {
    assert MoveAt(ps, ms, i - 1);
    assert AllowedAt(ms, k, i - 1);
    MoveOwned(ps[i - 1], ms[i - 1], ps[i], k);
  }

  // B never sends k back: not one frame about it reaches A's link, ever.
  lemma NeverSentBack(ps: seq<Pair>, ms: seq<Move>, k: Key, i: nat)
    requires SingleOwner(ps, ms, k) && i < |ps|
    ensures OnKey(ps[i].b.forwarded, k) == []
    ensures OnKey(ps[i].a.inbox, k) == [] && OnKey(ps[i].a.applied, k) == []
  {
    AlwaysOwned(ps, ms, k, i);
    NothingComesBack(ps[i], k);
    ReceivedParts(ps[i].a, k);
  }

  predicate Prefix(a: seq<Event>, b: seq<Event>) {
    |a| <= |b| && a == b[..|a|]
  }

  // B holds the value of k after some of A's changes, taken in A's order without a gap.
  lemma ReplicaFollowsOwner(ps: seq<Pair>, ms: seq<Move>, k: Key, i: nat)
    requires SingleOwner(ps, ms, k) && i < |ps|
    ensures Prefix(OnKey(ps[i].b.applied, k), OnKey(ps[i].a.log, k))
    ensures Lookup(ps[i].b.store.kv, k) == Latest(None, OnKey(ps[i].b.applied, k))
    ensures LINK in Watching(ps[i].a.store, k) ==>
      Lookup(ps[i].a.store.kv, k) == Latest(None, OnKey(ps[i].a.log, k))
  {
    AlwaysOwned(ps, ms, k, i);
    ReceivedParts(ps[i].b, k);
  }

  // Both only ever grow.
  lemma {:induction false} NeverGoesBack(ps: seq<Pair>, ms: seq<Move>, k: Key, i: nat, j: nat)
    requires Run(ps, ms) && i <= j < |ps|
    ensures Prefix(OnKey(ps[i].a.log, k), OnKey(ps[j].a.log, k))
    ensures Prefix(OnKey(ps[i].b.applied, k), OnKey(ps[j].b.applied, k))
    decreases j
  {
    if i < j {
      NeverGoesBack(ps, ms, k, i, j - 1);
      MoveGrows(ps, ms, k, j);
      PrefixChain(OnKey(ps[i].a.log, k), OnKey(ps[j - 1].a.log, k), OnKey(ps[j].a.log, k));
      PrefixChain(OnKey(ps[i].b.applied, k), OnKey(ps[j - 1].b.applied, k), OnKey(ps[j].b.applied, k));
    }
  }

  lemma PrefixChain(a: seq<Event>, b: seq<Event>, c: seq<Event>)
    requires Prefix(a, b) && Prefix(b, c)
    ensures Prefix(a, c)
  {
  }

  lemma MoveGrows(ps: seq<Pair>, ms: seq<Move>, k: Key, j: nat)
    requires Run(ps, ms) && 0 < j < |ps|
    ensures Prefix(OnKey(ps[j - 1].a.log, k), OnKey(ps[j].a.log, k))
    ensures Prefix(OnKey(ps[j - 1].b.applied, k), OnKey(ps[j].b.applied, k))
  {
    var p, m := ps[j - 1], ms[j - 1];
    assert MoveAt(ps, ms, j - 1);
    HistoryGrows(Acting(p, m), m.step, k);
  }

  lemma HistoryGrows(d: Device, s: Step, k: Key)
    requires Can(d, s)
    ensures Prefix(OnKey(d.log, k), OnKey(Do(d, s).0.log, k))
    ensures Prefix(OnKey(d.applied, k), OnKey(Do(d, s).0.applied, k))
  {
    var d' := Do(d, s).0;
    OnKeyPrefix(d.log, d'.log, k);
    OnKeyPrefix(d.applied, d'.applied, k);
  }

  lemma OnKeyPrefix(a: seq<Event>, b: seq<Event>, k: Key)
    requires a <= b
    ensures Prefix(OnKey(a, k), OnKey(b, k))
  {
    assert b == a + b[|a|..];
    OnKeyConcat(a, b[|a|..], k);
  }

  // The changes of k on device A that its link was told of, up to state i.
  ghost function History(ps: seq<Pair>, k: Key, i: nat): seq<Event>
    requires i < |ps|
  {
    OnKey(ps[i].a.log, k)
  }

  // Move m finds k expired on device A.
  predicate Lapses(p: Pair, m: Move, k: Key) {
    && m.left && VerbIn(p.a, m.step).Some?
    && FindsExpired(p.a.store, VerbIn(p.a, m.step).value, m.step.now, k)
  }

  // The verb the daemon handles in this step, if any.
  function VerbIn(d: Device, s: Step): (r: Option<Verb>)
    ensures r.Some? ==> s.Local? || s.DaemonTakes?
  {
    match s
    case Local(_, v, _, _) => Some(v)
    case DaemonTakes(_, _) => if d.up != [] then Some(d.up[0]) else None
    case _ => None
  }

  // The n-th change happened in the move to state j, and x was k's value then: at the
  // end of the move, or in the middle of one that found k expired.
  ghost predicate WasValue(ps: seq<Pair>, ms: seq<Move>, k: Key, j: nat, n: nat, x: Option<Value>)
    requires Run(ps, ms) && 0 < j < |ps|
  {
    && |History(ps, k, j - 1)| < n <= |History(ps, k, j)|
    && (x == Lookup(ps[j].a.store.kv, k) || (x == None && Lapses(ps[j - 1], ms[j - 1], k)))
  }

  lemma StepNews(d: Device, s: Step, k: Key)
    requires Can(d, s) && SweepsDue(d, s)
    ensures var before, after := OnKey(d.log, k), OnKey(Do(d, s).0.log, k);
            && Prefix(before, after)
            && (|after| <= |before| + 1 ||
                (|after| == |before| + 2 && after[|before|] == Erase(k) &&
                 VerbIn(d, s).Some? && FindsExpired(d.store, VerbIn(d, s).value, s.now, k)))
  {
    HistoryGrows(d, s, k);
    match s
    case Local(c, v, now, _) =>
      VerbOnKey(d.store, c, v, now, k);
      OnKeyConcat(d.log, Heard(Sent(d.store, c, v, now, LINK)), k);
    case SweepAt(now, order) =>
      SweptOnKey(d.store, order, k);
      OnKeyConcat(d.log, Heard(SweptTo(d.store, order, LINK)), k);
    case DaemonTakes(now, _) =>
      VerbOnKey(d.store, LINK, d.up[0], now, k);
      OnKeyConcat(d.log, Heard(Sent(d.store, LINK, d.up[0], now, LINK)), k);
    case _ =>
  }

  lemma {:induction false} EveryChangeWasAValue(ps: seq<Pair>, ms: seq<Move>, k: Key, i: nat, n: nat)
    returns (j: nat)
    requires SingleOwner(ps, ms, k) && i < |ps| && 1 <= n <= |History(ps, k, i)|
    ensures 0 < j <= i && WasValue(ps, ms, k, j, n, Latest(None, History(ps, k, i)[..n]))
  {
    if i > 0 {
      var before, after := History(ps, k, i - 1), History(ps, k, i);
      if n <= |before| {
        HistoryStep(ps, ms, k, i);
        SameStart(before, after, n);
        j := EveryChangeWasAValue(ps, ms, k, i - 1, n);
      } else {
        NewChangeIsAValue(ps, ms, k, i, n);
        j := i;
      }
    }
  }

  lemma SameStart(a: seq<Event>, b: seq<Event>, n: nat)
    requires Prefix(a, b) && n <= |a|
    ensures a[..n] == b[..n]
  {
  }

  lemma NewChangeIsAValue(ps: seq<Pair>, ms: seq<Move>, k: Key, i: nat, n: nat)
    requires SingleOwner(ps, ms, k) && 0 < i < |ps|
    requires |History(ps, k, i - 1)| < n <= |History(ps, k, i)|
    ensures WasValue(ps, ms, k, i, n, Latest(None, History(ps, k, i)[..n]))
  {
    var before, after := History(ps, k, i - 1), History(ps, k, i);
    HistoryStep(ps, ms, k, i);
    if n == |after| {
      assert after[..n] == after;
      HistoryTells(ps, ms, k, i);
    } else {
      ErasedLast(after, n, k);
    }
  }

  lemma ErasedLast(es: seq<Event>, n: nat, k: Key)
    requires 0 < n <= |es| && es[n - 1] == Erase(k)
    ensures Latest(None, es[..n]) == None
  {
  }

  // A change at the end of the history left the value the store now has.
  lemma HistoryTells(ps: seq<Pair>, ms: seq<Move>, k: Key, i: nat)
    requires SingleOwner(ps, ms, k) && i < |ps| && History(ps, k, i) != []
    ensures Latest(None, History(ps, k, i)) == Lookup(ps[i].a.store.kv, k)
  {
    AlwaysOwned(ps, ms, k, i);
    assert Told(ps[i].a.store, k, History(ps, k, i));
  }

  lemma HistoryStep(ps: seq<Pair>, ms: seq<Move>, k: Key, i: nat)
    requires Run(ps, ms) && 0 < i < |ps|
    ensures var before, after := History(ps, k, i - 1), History(ps, k, i);
            && Prefix(before, after)
            && (|after| <= |before| + 1 ||
                (|after| == |before| + 2 && after[|before|] == Erase(k) && Lapses(ps[i - 1], ms[i - 1], k)))
  {
    assert MoveAt(ps, ms, i - 1);
    if ms[i - 1].left {
      StepNews(ps[i - 1].a, ms[i - 1].step, k);
    }
  }

  // Once B has applied anything for k, what it holds is a value k had on A, and what it
  // holds later is a value k had on A no earlier.
  lemma ReplicaHoldsPastValues(ps: seq<Pair>, ms: seq<Move>, k: Key, i: nat, i': nat) returns (j: nat, j': nat)
    requires SingleOwner(ps, ms, k) && i <= i' < |ps| && OnKey(ps[i].b.applied, k) != []
    ensures 0 < j <= i && 0 < j' <= i' && j <= j'
    ensures WasValue(ps, ms, k, j, |OnKey(ps[i].b.applied, k)|, Lookup(ps[i].b.store.kv, k))
    ensures WasValue(ps, ms, k, j', |OnKey(ps[i'].b.applied, k)|, Lookup(ps[i'].b.store.kv, k))
  {
    NeverGoesBack(ps, ms, k, i, i');
    j := ReplicaHoldsPastValue(ps, ms, k, i);
    j' := ReplicaHoldsPastValue(ps, ms, k, i');
    LaterChangesCameLater(ps, ms, k, j, |OnKey(ps[i].b.applied, k)|, j', |OnKey(ps[i'].b.applied, k)|);
  }

  lemma LaterChangesCameLater(ps: seq<Pair>, ms: seq<Move>, k: Key, j: nat, n: nat, j': nat, n': nat)
    requires Run(ps, ms) && 0 < j < |ps| && j' < |ps| && n <= n'
    requires |History(ps, k, j - 1)| < n && n' <= |History(ps, k, j')|
    ensures j <= j'
  {
    if j' < j {
      NeverGoesBack(ps, ms, k, j', j - 1);
    }
  }

  lemma ReplicaHoldsPastValue(ps: seq<Pair>, ms: seq<Move>, k: Key, i: nat) returns (j: nat)
    requires SingleOwner(ps, ms, k) && i < |ps| && OnKey(ps[i].b.applied, k) != []
    ensures 0 < j <= i
    ensures WasValue(ps, ms, k, j, |OnKey(ps[i].b.applied, k)|, Lookup(ps[i].b.store.kv, k))
  {
    ReplicaFollowsOwner(ps, ms, k, i);
    j := EveryChangeWasAValue(ps, ms, k, i, |OnKey(ps[i].b.applied, k)|);
  }

  // Once traffic has ended the two stores agree on k: writes, deletes and expiry alike.
  lemma SettledStoresAgree(ps: seq<Pair>, ms: seq<Move>, k: Key, i: nat)
    requires SingleOwner(ps, ms, k) && i < |ps| && Quiet(ps[i])
    ensures Lookup(ps[i].a.store.kv, k) == Lookup(ps[i].b.store.kv, k)
    ensures OnKey(ps[i].b.applied, k) == OnKey(ps[i].a.log, k)
  {
    AlwaysOwned(ps, ms, k, i);
    ReceivedParts(ps[i].b, k);
    assert LINK in Watching(ps[i].a.store, k);
  }
}
