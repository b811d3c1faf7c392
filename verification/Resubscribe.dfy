/**
  Subscriptions across reconnects (include/node.hpp: register_topic,
  subscribe_pattern, unsubscribe, run, resubscribe) with one application thread
  and the reader thread, against the daemon's table for the present link.
*/
module Resubscribe {
  import opened Topics

  // The two maps of handlers of a node.
  datatype Table = Exact | Pattern

  datatype App =
    | Idle
    | Adding(name: Name)          // handler registered, SUBSCRIBE still to be sent
    | Dropping(name: Name)        // handlers erased, UNSUBSCRIBE still to be sent
    | Flushing(rest: seq<Name>)   // connect(): resubscribing

  datatype Reader =
    | Unstarted
    | Serving                     // reading frames
    | Closed                      // fd_ is -1
    | Linked                      // new fd_, snapshot of the names still to be taken
    | Resending(rest: seq<Name>)

  datatype Wire = Sub(name: Name) | Unsub(name: Name)

  // exact, patterns: names with a local handler. open: fd_ >= 0. alive: the link
  // behind it still carries frames to the daemon. table: what the daemon has for
  // this link.
  datatype State = State(
    exact: set<Name>, patterns: set<Name>,
    app: App, reader: Reader,
    open: bool, alive: bool, queue: seq<Wire>, table: set<Name>)

  function Handled(s: State): set<Name> {
    s.exact + s.patterns
  }

  function Names(s: State, t: Table): set<Name> {
    if t.Exact? then s.exact else s.patterns
  }

  datatype Step =
    | Subscribe(t: Table, name: Name)
    | Unsubscribe(t: Table, name: Name)
    | AppSends
    | FirstConnect(snapshot: seq<Name>)
    | DaemonHandles
    | LinkDies
    | Close
    | Connect
    | Snapshot(snapshot: seq<Name>)
    | Resend

  ghost predicate Lists(snapshot: seq<Name>, names: set<Name>) {
    forall n :: n in names <==> n in snapshot
  }

  ghost predicate Can(s: State, a: Step) {
    match a
    case Subscribe(_, _) => s.app.Idle?
    case Unsubscribe(_, _) => s.app.Idle?
    case AppSends => !s.app.Idle?
    case FirstConnect(snapshot) => s.app.Idle? && s.reader.Unstarted? && Lists(snapshot, Handled(s))
    case DaemonHandles => s.queue != []
    case LinkDies => s.alive
    case Close => s.reader.Serving? && !s.alive
    case Connect => s.reader.Closed?
    case Snapshot(snapshot) => s.reader.Linked? && Lists(snapshot, Handled(s))
    case Resend => s.reader.Resending?
  }

  // send(): nothing without a link, and nothing arrives on a dead one.
  function Sent(s: State, w: Wire): State {
    if s.open && s.alive then s.(queue := s.queue + [w]) else s
  }

  function Taken(table: set<Name>, w: Wire): set<Name> {
    match w
    case Sub(n) => table + {n}
    case Unsub(n) => table - {n}
  }

  // The daemon's table once everything in flight has been handled.
  function Settled(table: set<Name>, queue: seq<Wire>): set<Name> {
    if queue == [] then table
    else Taken(Settled(table, queue[..|queue| - 1]), queue[|queue| - 1])
  }

  function Put(s: State, t: Table, names: set<Name>): State {
    if t.Exact? then s.(exact := names) else s.(patterns := names)
  }

  function AppDo(s: State): State
    requires !s.app.Idle?
  {
    match s.app
    case Adding(n) => Sent(s, Sub(n)).(app := Idle)
    case Dropping(n) => Sent(s, Unsub(n)).(app := Idle)
    case Flushing(rest) =>
      if rest == [] then s.(app := Idle) else Sent(s, Sub(rest[0])).(app := Flushing(rest[1..]))
  }

  ghost function Do(s: State, a: Step): State
    requires Can(s, a)
  {
    match a
    case Subscribe(t, n) =>
      if n in Names(s, t) then s else Put(s, t, Names(s, t) + {n}).(app := Adding(n))
    case Unsubscribe(t, n) =>
      if n !in Names(s, t) then s else Put(s, t, Names(s, t) - {n}).(app := Dropping(n))
    case AppSends => AppDo(s)
    case FirstConnect(snapshot) =>
      s.(open := true, alive := true, queue := [], table := {}, reader := Serving, app := Flushing(snapshot))
    case DaemonHandles => s.(table := Taken(s.table, s.queue[0]), queue := s.queue[1..])
    case LinkDies => s.(alive := false)
    case Close => s.(open := false, reader := Closed)
    case Connect => s.(open := true, alive := true, queue := [], table := {}, reader := Linked)
    case Snapshot(snapshot) => s.(reader := Resending(snapshot))
    case Resend =>
      if s.reader.rest == [] then s.(reader := Serving)
      else Sent(s, Sub(s.reader.rest[0])).(reader := Resending(s.reader.rest[1..]))
  }

  // resubscribe() itself, run by connect() in the application's thread or by run() in the
  // reader's: the names still to be sent, the next send, and all of them.
  predicate Resubscribing(s: State, byApp: bool) {
    if byApp then s.app.Flushing? else s.reader.Resending?
  }

  function ToSend(s: State, byApp: bool): seq<Name>
    requires Resubscribing(s, byApp)
  {
    if byApp then s.app.rest else s.reader.rest
  }

  ghost function SendNext(s: State, byApp: bool): State
    requires Resubscribing(s, byApp)
  {
    Do(s, if byApp then AppSends else Resend)
  }

  ghost function SendRest(s: State, byApp: bool): State
    requires Resubscribing(s, byApp)
    decreases |ToSend(s, byApp)|
  {
    if ToSend(s, byApp) == [] then SendNext(s, byApp) else SendRest(SendNext(s, byApp), byApp)
  }

  predicate Init(s: State) {
    s == State({}, {}, Idle, Unstarted, false, false, [], {})
  }

  // Nothing is mid-flight on a live link.
  predicate Quiet(s: State) {
    s.open && s.alive && s.app.Idle? && s.reader.Serving? && s.queue == []
  }

  function Other(t: Table): Table {
    if t.Exact? then Pattern else Exact
  }

  // No name is unsubscribed from one map while the other holds it too.
  predicate Unshared(s: State, a: Step) {
    a.Unsubscribe? ==> a.name !in Names(s, Other(a.t))
  }

  ghost predicate UnsharedUpTo(ss: seq<State>, acts: seq<Step>, m: nat)
    requires m <= |acts| < |ss|
  {
    forall i :: 0 <= i < m ==> Unshared(ss[i], acts[i])
  }

  // A name with a handler is, or is going to be, in the daemon's table.
  ghost predicate Covered(s: State, n: Name) {
    || n in Settled(s.table, s.queue)
    || s.app == Adding(n)
    || (s.app.Flushing? && n in s.app.rest)
    || s.reader.Linked?
    || (s.reader.Resending? && n in s.reader.rest)
  }

  ghost predicate Inv(s: State) {
    && (s.app.Adding? ==> s.app.name in Handled(s))
    && (s.app.Dropping? ==> s.app.name !in Handled(s))
    && (s.alive ==> s.open)
    && (s.open && s.alive ==> forall n :: n in Handled(s) ==> Covered(s, n))
  }

  lemma {:induction false} SettledPop(table: set<Name>, queue: seq<Wire>)
    requires queue != []
    ensures Settled(Taken(table, queue[0]), queue[1..]) == Settled(table, queue)
    decreases |queue|
  {
    var init := queue[..|queue| - 1];
    if init != [] {
      SettledPop(table, init);
      assert init[1..] == queue[1..][..|queue| - 2];
      assert queue[1..][|queue| - 2] == queue[|queue| - 1];
    } else {
      assert queue[1..] == [] && queue[..0] == [];
    }
  }

  lemma SettledSent(s: State, w: Wire)
    requires s.open && s.alive
    ensures var s' := Sent(s, w);
            Settled(s'.table, s'.queue) == Taken(Settled(s.table, s.queue), w)
  {
    assert (s.queue + [w])[..|s.queue|] == s.queue;
  }

  lemma StepInv(s: State, a: Step)
    requires Inv(s) && Can(s, a) && Unshared(s, a)
    ensures Inv(Do(s, a))
  {
    var s' := Do(s, a);
    match a {
      case AppSends =>
        if s.open && s.alive && !(s.app.Flushing? && s.app.rest == []) {
          SettledSent(s, if s.app.Dropping? then Unsub(s.app.name)
                         else if s.app.Adding? then Sub(s.app.name) else Sub(s.app.rest[0]));
        }
      case Resend =>
        if s.open && s.alive && s.reader.rest != [] {
          SettledSent(s, Sub(s.reader.rest[0]));
        }
      case DaemonHandles => SettledPop(s.table, s.queue);
      case _ =>
    }
    if s'.open && s'.alive {
      forall n | n in Handled(s') ensures Covered(s', n) {
        if n in Handled(s) && s.open && s.alive {
          assert Covered(s, n);
        }
      }
    }
  }

  ghost predicate Run(ss: seq<State>, acts: seq<Step>) {
    && |ss| == |acts| + 1
    && Init(ss[0])
    && forall m {:trigger acts[m]} :: 0 <= m < |acts| ==> Can(ss[m], acts[m]) && ss[m + 1] == Do(ss[m], acts[m])
  }

  lemma {:induction false} RunInv(ss: seq<State>, acts: seq<Step>, m: nat)
    requires Run(ss, acts) && m < |ss| && UnsharedUpTo(ss, acts, m)
    ensures Inv(ss[m])
  {
    if m > 0 {
      RunInv(ss, acts, m - 1);
      StepInv(ss[m - 1], acts[m - 1]);
    }
  }

  // Under any interleaving of subscribe and unsubscribe with link drops and
  // resubscription, once nothing is mid-flight on a live link every name with a
  // local handler is subscribed at the daemon.
  lemma ReconnectIsComplete(ss: seq<State>, acts: seq<Step>, m: nat)
    requires Run(ss, acts) && m < |ss| && UnsharedUpTo(ss, acts, m)
    requires Quiet(ss[m])
    ensures Handled(ss[m]) <= ss[m].table
  {
    RunInv(ss, acts, m);
    forall n | n in Handled(ss[m]) ensures n in ss[m].table {
      assert Covered(ss[m], n);
    }
  }

  // ---- and nothing but those ------------------------------------------------------------

  // No name is unsubscribed while it is still to be resent from a snapshot, short of its
  // being held by the other map.
  predicate Undisturbed(s: State, a: Step) {
    a.Unsubscribe? && s.reader.Resending? && a.name in s.reader.rest ==> a.name in Names(s, Other(a.t))
  }

  ghost predicate UndisturbedUpTo(ss: seq<State>, acts: seq<Step>, m: nat)
    requires m <= |acts| < |ss|
  {
    forall i :: 0 <= i < m ==> Undisturbed(ss[i], acts[i])
  }

  // What the daemon will have, and what is still to be sent, has a handler, but for a name
  // whose UNSUBSCRIBE is about to be sent.
  ghost predicate NoneExtra(s: State) {
    && (s.alive ==> s.open)
    && (s.app.Adding? ==> s.app.name in Handled(s))
    && (s.app.Flushing? ==> forall n :: n in s.app.rest ==> n in Handled(s))
    && (s.reader.Resending? ==> forall n :: n in s.reader.rest ==> n in Handled(s))
    && (s.alive ==> forall n :: n in Settled(s.table, s.queue) ==> n in Handled(s) || s.app == Dropping(n))
  }

  lemma StepNoneExtra(s: State, a: Step)
    requires NoneExtra(s) && Can(s, a) && Undisturbed(s, a)
    ensures NoneExtra(Do(s, a))
  {
    match a {
      case AppSends => AppNoneExtra(s);
      case Resend => ResendNoneExtra(s);
      case DaemonHandles => SettledPop(s.table, s.queue);
      case _ =>
    }
  }

  lemma AppNoneExtra(s: State)
    requires NoneExtra(s) && !s.app.Idle?
    ensures NoneExtra(AppDo(s))
  {
    match s.app
    case Adding(n) => SentNoneExtra(s, Sub(n), s.app);
    case Dropping(n) => SentNoneExtra(s, Unsub(n), s.app);
    case Flushing(rest) =>
      if rest != [] {
        assert rest[0] in rest && forall n :: n in rest[1..] ==> n in rest;
        SentNoneExtra(s, Sub(rest[0]), s.app);
      }
  }

  lemma ResendNoneExtra(s: State)
    requires NoneExtra(s) && s.reader.Resending?
    ensures NoneExtra(Do(s, Resend))
  {
    var rest := s.reader.rest;
    if rest != [] {
      assert rest[0] in rest && forall n :: n in rest[1..] ==> n in rest;
      SentNoneExtra(s, Sub(rest[0]), s.app);
    }
  }

  // A name that has a handler is sent as subscribed, or any as unsubscribed.
  lemma SentNoneExtra(s: State, w: Wire, app: App)
    requires NoneExtra(s) && s.app == app && (w.Sub? ==> w.name in Handled(s))
    ensures var s' := Sent(s, w);
            s'.alive ==> forall n :: n in Settled(s'.table, s'.queue) ==>
              n in Handled(s) || (app == Dropping(n) && w != Unsub(n))
  {
    if s.alive {
      SettledSent(s, w);
    }
  }

  lemma {:induction false} RunNoneExtra(ss: seq<State>, acts: seq<Step>, m: nat)
    requires Run(ss, acts) && m < |ss| && UndisturbedUpTo(ss, acts, m)
    ensures NoneExtra(ss[m])
  {
    if m > 0 {
      RunNoneExtra(ss, acts, m - 1);
      assert ss[m] == Do(ss[m - 1], acts[m - 1]);
      StepNoneExtra(ss[m - 1], acts[m - 1]);
    }
  }

  // With both kinds of unsubscription excluded the daemon ends up with exactly the names
  // that have a handler.
  lemma TableIsExact(ss: seq<State>, acts: seq<Step>, m: nat)
    requires Run(ss, acts) && m < |ss| && UndisturbedUpTo(ss, acts, m) && Quiet(ss[m])
    ensures ss[m].table <= Handled(ss[m])
    ensures UnsharedUpTo(ss, acts, m) ==> ss[m].table == Handled(ss[m])
  {
    RunNoneExtra(ss, acts, m);
    if UnsharedUpTo(ss, acts, m) {
      ReconnectIsComplete(ss, acts, m);
    }
  }

  lemma {:induction false} RestIsSent(s: State)
    requires s.open && s.alive && s.reader.Resending?
    ensures var s' := SendRest(s, false);
            && s'.open && s'.alive && Handled(s') == Handled(s)
            && Settled(s'.table, s'.queue) == Settled(s.table, s.queue) + Elements(s.reader.rest)
    decreases |s.reader.rest|
  {
    if s.reader.rest != [] {
      SettledSent(s, Sub(s.reader.rest[0]));
      RestIsSent(SendNext(s, false));
      assert Elements(s.reader.rest) == {s.reader.rest[0]} + Elements(s.reader.rest[1..]);
    }
  }

  function Elements(names: seq<Name>): set<Name> {
    set n | n in names
  }

  // A name unsubscribed in the middle of a resubscription that would otherwise end exact
  // leaves it exact if and only if it was not still to be resent.
  lemma UnsubscribeIsExactIffNotResent(s: State, t: Table, n: Name)
    requires s.open && s.alive && s.app.Idle? && s.reader.Resending?
    requires Settled(s.table, s.queue) + Elements(s.reader.rest) == Handled(s)
    requires n in Names(s, t) && n !in Names(s, Other(t))
    ensures var s1 := Do(s, Unsubscribe(t, n));
            var s2 := Do(s1, AppSends);
            var s3 := SendRest(s2, false);
            Settled(s3.table, s3.queue) == Handled(s3) <==> n !in s.reader.rest
  {
    var s1 := Do(s, Unsubscribe(t, n));
    var s2 := Do(s1, AppSends);
    SettledSent(s1, Unsub(n));
    RestIsSent(s2);
    assert Handled(s2) == Handled(s) - {n};
  }

  // The daemon knows a name only once, so dropping it from one of the two maps
  // keeps every handler served exactly when the other map does not hold it too.
  lemma UnsubscribeIsCompleteIffUnshared(s: State, t: Table, n: Name)
    requires Quiet(s) && Handled(s) <= s.table && n in Names(s, t)
    ensures var s1 := Do(s, Unsubscribe(t, n));
            Can(s1, AppSends) && Can(Do(s1, AppSends), DaemonHandles) &&
            var s3 := Do(Do(s1, AppSends), DaemonHandles);
            Quiet(s3) && (Handled(s3) <= s3.table <==> n !in Names(s, Other(t)))
  {
    var s1 := Do(s, Unsubscribe(t, n));
    var s2 := Do(s1, AppSends);
    assert s2.queue == [Unsub(n)];
    assert [Unsub(n)][1..] == [];
    var s3 := Do(s2, DaemonHandles);
    if n in Names(s, Other(t)) {
      assert n in Handled(s3) && n !in s3.table;
    }
  }

  // ---- a name in both maps -------------------------------------------------------------

  lemma Extend(ss: seq<State>, acts: seq<Step>, s: State, a: Step) returns (ss': seq<State>, acts': seq<Step>)
    requires Run(ss, acts) && ss[|ss| - 1] == s && Can(s, a)
    ensures Run(ss', acts') && ss' == ss + [Do(s, a)] && acts' == acts + [a]
  {
    acts', ss' := acts + [a], ss + [Do(s, a)];
    forall m | 0 <= m < |acts'| ensures Can(ss'[m], acts'[m]) && ss'[m + 1] == Do(ss'[m], acts'[m]) {
      if m < |acts| {
        assert ss'[m] == ss[m] && ss'[m + 1] == ss[m + 1] && acts'[m] == acts[m];
      }
    }
  }

  // Whatever the name: subscribed as a topic and as a pattern before connect(), it is served.
  lemma SharedIsServed(n: Name) returns (ss: seq<State>, acts: seq<Step>)
    ensures Run(ss, acts) && ss[|ss| - 1] == State({n}, {n}, Idle, Serving, true, true, [], {n})
  {
    var s := State({}, {}, Idle, Unstarted, false, false, [], {});
    ss, acts := [s], [];
    ss, acts := Extend(ss, acts, s, Subscribe(Exact, n));
    ss, acts := Extend(ss, acts, s.(exact := {n}, app := Adding(n)), AppSends);
    ss, acts := Extend(ss, acts, s.(exact := {n}), Subscribe(Pattern, n));
    ss, acts := Extend(ss, acts, s.(exact := {n}, patterns := {n}, app := Adding(n)), AppSends);
    ss, acts := Extend(ss, acts, s.(exact := {n}, patterns := {n}), FirstConnect([n]));
    var c := State({n}, {n}, Flushing([n]), Serving, true, true, [], {});
    ss, acts := Extend(ss, acts, c, AppSends);
    assert [n][1..] == [] && [] + [Sub(n)] == [Sub(n)];
    ss, acts := Extend(ss, acts, c.(app := Flushing([]), queue := [Sub(n)]), AppSends);
    ss, acts := Extend(ss, acts, c.(app := Idle, queue := [Sub(n)]), DaemonHandles);
    assert [Sub(n)][1..] == [] && {} + {n} == {n};
  }

  // Then its topic handlers are dropped, and its pattern handlers are served no longer.
  lemma SharedIsLost(n: Name) returns (ss: seq<State>, acts: seq<Step>)
    ensures Run(ss, acts)
    ensures var s := ss[|ss| - 1]; Quiet(s) && n in Handled(s) && n !in s.table
  {
    ss, acts := SharedIsServed(n);
    var s := ss[|ss| - 1];
    UnsubscribeIsCompleteIffUnshared(s, Exact, n);
    var s1 := Do(s, Unsubscribe(Exact, n));
    var s2 := Do(s1, AppSends);
    ss, acts := Extend(ss, acts, s, Unsubscribe(Exact, n));
    ss, acts := Extend(ss, acts, s1, AppSends);
    ss, acts := Extend(ss, acts, s2, DaemonHandles);
  }

  // A name dropped after the snapshot of a reconnect and before its resend: the daemon is
  // left with a subscription that nobody handles.
  lemma DroppedIsResent(n: Name) returns (ss: seq<State>, acts: seq<Step>)
    ensures Run(ss, acts) && UnsharedUpTo(ss, acts, |acts|)
    ensures var s := ss[|ss| - 1]; Quiet(s) && n !in Handled(s) && n in s.table
  {
    var s := State({}, {}, Idle, Unstarted, false, false, [], {});
    ss, acts := [s], [];
    ss, acts := ExtendUnshared(ss, acts, s, Subscribe(Exact, n));
    ss, acts := ExtendUnshared(ss, acts, s.(exact := {n}, app := Adding(n)), AppSends);
    ss, acts := ExtendUnshared(ss, acts, s.(exact := {n}), FirstConnect([n]));
    var c := State({n}, {}, Flushing([n]), Serving, true, true, [], {});
    ss, acts := ExtendUnshared(ss, acts, c, LinkDies);
    ss, acts := ExtendUnshared(ss, acts, c.(alive := false), AppSends);
    assert [n][1..] == [];
    ss, acts := ExtendUnshared(ss, acts, c.(alive := false, app := Flushing([])), AppSends);
    ss, acts := ExtendUnshared(ss, acts, c.(alive := false, app := Idle), Close);
    ss, acts := ExtendUnshared(ss, acts, c.(alive := false, app := Idle, open := false, reader := Closed), Connect);
    var d := State({n}, {}, Idle, Linked, true, true, [], {});
    ss, acts := ExtendUnshared(ss, acts, d, Snapshot([n]));
    ss, acts := DropThenResend(ss, acts, n);
  }

  lemma DropThenResend(ss: seq<State>, acts: seq<Step>, n: Name) returns (ss': seq<State>, acts': seq<Step>)
    requires Run(ss, acts) && UnsharedUpTo(ss, acts, |acts|)
    requires ss[|ss| - 1] == State({n}, {}, Idle, Resending([n]), true, true, [], {})
    ensures Run(ss', acts') && UnsharedUpTo(ss', acts', |acts'|)
    ensures ss'[|ss'| - 1] == State({}, {}, Idle, Serving, true, true, [], {n})
  {
    var e := State({}, {}, Dropping(n), Resending([n]), true, true, [], {});
    assert {n} - {n} == {};
    ss', acts' := ExtendUnshared(ss, acts, ss[|ss| - 1], Unsubscribe(Exact, n));
    ss', acts' := ExtendUnshared(ss', acts', e, AppSends);
    assert [] + [Unsub(n)] == [Unsub(n)] && [n][1..] == [];
    ss', acts' := ExtendUnshared(ss', acts', e.(app := Idle, queue := [Unsub(n)]), Resend);
    var f := e.(app := Idle, reader := Resending([]), queue := [Unsub(n), Sub(n)]);
    assert [Unsub(n)] + [Sub(n)] == [Unsub(n), Sub(n)];
    ss', acts' := ExtendUnshared(ss', acts', f, Resend);
    ss', acts' := ExtendUnshared(ss', acts', f.(reader := Serving), DaemonHandles);
    assert [Unsub(n), Sub(n)][1..] == [Sub(n)] && {} - {n} == {};
    ss', acts' := ExtendUnshared(ss', acts', f.(reader := Serving, queue := [Sub(n)]), DaemonHandles);
    assert [Sub(n)][1..] == [] && {} + {n} == {n};
  }

  lemma ExtendUnshared(ss: seq<State>, acts: seq<Step>, s: State, a: Step) returns (ss': seq<State>, acts': seq<Step>)
    requires Run(ss, acts) && UnsharedUpTo(ss, acts, |acts|) && ss[|ss| - 1] == s && Can(s, a) && Unshared(s, a)
    ensures Run(ss', acts') && UnsharedUpTo(ss', acts', |acts'|) && ss'[|ss'| - 1] == Do(s, a)
  {
    ss', acts' := Extend(ss, acts, s, a);
    forall i | 0 <= i < |acts'| ensures Unshared(ss'[i], acts'[i]) {
      if i < |acts| {
        assert Unshared(ss[i], acts[i]);
      }
    }
  }
}
