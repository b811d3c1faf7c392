/**
  The publish/subscribe side of the daemon over whole runs, said by position in the
  history alone: who is sent a publish, and what a late subscriber is sent first.
*/
module DaemonRuns {
  import opened Options
  import opened Framing
  import opened Topics
  import opened KvStore
  import opened Wire
  import opened Server

  datatype Daemon = Daemon(store: Store, clients: map<Id, Client>, retained: map<Name, Bytes>)

  datatype Event =
    | Comes(c: Id)
    | Goes(c: Id)
    | Asks(c: Id, r: Request, now: Time, later: Time, status: Bytes)
    | Sweeps(now: Time)

  // What the handlers of the daemon are proved to do, one critical section each.
  ghost predicate Next(d: Daemon, e: Event, d': Daemon) {
    match e
    case Comes(c) => c !in d.clients && d' == d.(clients := d.clients[c := NEWCOMER])
    case Goes(c) => c in d.clients && d' == d.(store := Left(d.store, c), clients := d.clients - {c})
    case Asks(c, r, now, later, status) =>
      && c in d.clients
      && Handled(d.clients, d'.clients, d.store, d'.store, d.retained, c, r, now, later, status)
      && d'.retained == if r.PublishRetain? then RetainedAfter(d.retained, r.name, r.payload) else d.retained
    case Sweeps(now) =>
      d'.store == Swept(d.store, now) && SameLists(d.clients, d'.clients) && d'.retained == d.retained
  }

  ghost predicate NextAt(ds: seq<Daemon>, es: seq<Event>, m: nat)
    requires |ds| == |es| + 1 && m < |es|
  {
    Next(ds[m], es[m], ds[m + 1])
  }

  ghost predicate Run(ds: seq<Daemon>, es: seq<Event>) {
    && |ds| == |es| + 1 && ds[0] == Daemon(EMPTY, map[], map[])
    && forall m: nat :: m < |es| ==> NextAt(ds, es, m)
  }

  // ---- retained values --------------------------------------------------------------------

  // Event i publishes to topic n, to be retained.
  predicate Retains(e: Event, n: Name) {
    e.Asks? && e.r.PublishRetain? && e.r.name == n
  }

  // Event i is the latest of these before m.
  ghost predicate LastRetained(es: seq<Event>, m: nat, n: Name, i: nat)
    requires m <= |es|
  {
    i < m && Retains(es[i], n) && forall j :: i < j < m ==> !Retains(es[j], n)
  }

  lemma RetainStep(d: Daemon, e: Event, d': Daemon, n: Name)
    requires Next(d, e, d')
    ensures Lookup(d'.retained, n) ==
            if Retains(e, n) then (if e.r.payload == [] then None else Some(e.r.payload)) else Lookup(d.retained, n)
  {
  }

  lemma {:induction false} RetainedIsLast(ds: seq<Daemon>, es: seq<Event>, m: nat, n: Name, i: nat)
    requires Run(ds, es) && m < |ds| && LastRetained(es, m, n, i)
    ensures Lookup(ds[m].retained, n) == if es[i].r.payload == [] then None else Some(es[i].r.payload)
  {
    assert NextAt(ds, es, m - 1);
    RetainStep(ds[m - 1], es[m - 1], ds[m], n);
    if i < m - 1 {
      RetainedIsLast(ds, es, m - 1, n, i);
    }
  }

  lemma {:induction false} NothingRetained(ds: seq<Daemon>, es: seq<Event>, m: nat, n: Name)
    requires Run(ds, es) && m < |ds| && forall i :: 0 <= i < m ==> !Retains(es[i], n)
    ensures n !in ds[m].retained
  {
    if m > 0 {
      assert NextAt(ds, es, m - 1);
      RetainStep(ds[m - 1], es[m - 1], ds[m], n);
      NothingRetained(ds, es, m - 1, n);
    }
  }

  // A SUBSCRIBE to a name without wildcards is followed by exactly the payload that was last
  // published there to be retained, unless that was empty.
  lemma SubscribeReplaysLast(ds: seq<Daemon>, es: seq<Event>, m: nat, n: Name, i: nat)
    requires Run(ds, es) && m < |es| && es[m].Asks? && es[m].r == Subscribe(n) && PLUS !in n && STAR !in n
    requires LastRetained(es, m, n, i)
    ensures var c := es[m].c;
            && c in ds[m].clients && c in ds[m + 1].clients
            && ds[m + 1].clients[c].out ==
               ds[m].clients[c].out + if es[i].r.payload == [] then [] else [Published(n, es[i].r.payload)]
  {
    assert NextAt(ds, es, m);
    RetainedIsLast(ds, es, m, n, i);
  }

  // ... and by nothing if nothing ever was, or if the name is a pattern.
  lemma SubscribeReplaysNothing(ds: seq<Daemon>, es: seq<Event>, m: nat, n: Name)
    requires Run(ds, es) && m < |es| && es[m].Asks? && es[m].r == Subscribe(n)
    requires PLUS in n || STAR in n || forall i :: 0 <= i < m ==> !Retains(es[i], n)
    ensures var c := es[m].c;
            && c in ds[m].clients && c in ds[m + 1].clients && ds[m + 1].clients[c].out == ds[m].clients[c].out
  {
    assert NextAt(ds, es, m);
    if PLUS !in n && STAR !in n {
      NothingRetained(ds, es, m, n);
    }
  }

  // ---- subscriptions ----------------------------------------------------------------------

  predicate Subscribes(e: Event, c: Id, n: Name) {
    e.Asks? && e.c == c && e.r == Subscribe(n)
  }

  predicate Ends(e: Event, c: Id, n: Name) {
    e == Goes(c) || (e.Asks? && e.c == c && e.r == Unsubscribe(n))
  }

  // Client c has subscribed to n before event m, and since then neither unsubscribed nor left.
  ghost predicate SubscribedBy(es: seq<Event>, m: nat, c: Id, n: Name)
    requires m <= |es|
  {
    exists i :: 0 <= i < m && Subscribes(es[i], c, n) && forall j :: i < j < m ==> !Ends(es[j], c, n)
  }

  lemma SubscribedSince(es: seq<Event>, m: nat, c: Id, n: Name)
    requires 0 < m <= |es|
    ensures SubscribedBy(es, m, c, n) <==>
            Subscribes(es[m - 1], c, n) || (SubscribedBy(es, m - 1, c, n) && !Ends(es[m - 1], c, n))
  {
    if SubscribedBy(es, m - 1, c, n) && !Ends(es[m - 1], c, n) {
      var i :| 0 <= i < m - 1 && Subscribes(es[i], c, n) && forall j :: i < j < m - 1 ==> !Ends(es[j], c, n);
      assert forall j :: i < j < m ==> !Ends(es[j], c, n);
    }
  }

  function NamesOf(m: map<Id, Client>, c: Id): set<Name> {
    if c in m then m[c].topics + m[c].patterns else {}
  }

  // A name is listed once, by whether it has a wildcard.
  ghost predicate Sorted(m: map<Id, Client>) {
    forall c, n :: c in m ==> (n in m[c].topics ==> !HasWildcard(n)) && (n in m[c].patterns ==> HasWildcard(n))
  }

  lemma NamesStep(d: Daemon, e: Event, d': Daemon, c: Id, n: Name)
    requires Next(d, e, d') && Sorted(d.clients)
    ensures Sorted(d'.clients)
    ensures n in NamesOf(d'.clients, c) <==> Subscribes(e, c, n) || (n in NamesOf(d.clients, c) && !Ends(e, c, n))
  {
    match e
    case Asks(w, Subscribe(name), _, _, _) => ListsStep(d.clients, d'.clients, w, name, d.retained, c, n);
    case Asks(w, Unsubscribe(name), _, _, _) => ListsStep(d.clients, d'.clients, w, name, d.retained, c, n);
    case Asks(w, Ask(v), _, _, _) =>
      SameNames(if v.Get? then Listing(d.clients, w, v.key) else d.clients, d'.clients, c);
    case Asks(w, _, _, _, _) => SameNames(d.clients, d'.clients, c);
    case Sweeps(_) => SameNames(d.clients, d'.clients, c);
    case _ =>
  }

  lemma SameNames(m: map<Id, Client>, m': map<Id, Client>, c: Id)
    requires SameLists(m, m')
    ensures NamesOf(m', c) == NamesOf(m, c) && (Sorted(m) ==> Sorted(m'))
  {
  }

  lemma ListsStep(m: map<Id, Client>, m': map<Id, Client>, w: Id, name: Name, retained: map<Name, Bytes>, c: Id, n: Name)
    requires w in m && Sorted(m)
    ensures m' == Subscribed(m, w, name, retained) ==>
      Sorted(m') && (n in NamesOf(m', c) <==> (c == w && n == name) || n in NamesOf(m, c))
    ensures m' == Unsubscribed(m, w, name) ==>
      Sorted(m') && (n in NamesOf(m', c) <==> !(c == w && n == name) && n in NamesOf(m, c))
  {
  }

  lemma {:induction false} NamesAreHistory(ds: seq<Daemon>, es: seq<Event>, m: nat, c: Id, n: Name)
    requires Run(ds, es) && m < |ds|
    ensures Sorted(ds[m].clients)
    ensures n in NamesOf(ds[m].clients, c) <==> SubscribedBy(es, m, c, n)
  {
    if m > 0 {
      NamesAreHistory(ds, es, m - 1, c, n);
      assert NextAt(ds, es, m - 1);
      NamesStep(ds[m - 1], es[m - 1], ds[m], c, n);
      SubscribedSince(es, m, c, n);
    }
  }

  // A publish of client c, to be retained or not, is sent once to every other connected client
  // that has subscribed to a name matching the topic and has not unsubscribed it since, and to
  // nobody else.
  lemma PublishReachesSubscribers(ds: seq<Daemon>, es: seq<Event>, m: nat, topic: Name, payload: Bytes, w: Id)
    requires Run(ds, es) && m < |es| && es[m].Asks? && w in ds[m].clients
    requires es[m].r == Publish(topic, payload) || es[m].r == PublishRetain(topic, payload)
    ensures w in ds[m + 1].clients
    ensures ds[m + 1].clients[w].out == ds[m].clients[w].out +
            if w != es[m].c && exists n :: SubscribedBy(es, m, w, n) && Matches(n, topic)
            then [Published(topic, payload)] else []
  {
    assert NextAt(ds, es, m);
    forall n ensures n in NamesOf(ds[m].clients, w) <==> SubscribedBy(es, m, w, n) {
      NamesAreHistory(ds, es, m, w, n);
    }
  }
}
