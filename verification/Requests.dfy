/**
  Request/reply of a node (include/node.hpp: request, register_pending, fulfill,
  fail_pending, run) as a machine of its threads: any number of callers, one
  reader. Taking a promise out of pending_ and setting its value are separate
  steps, as they are in fulfill().
*/
module Requests {
  import opened Options

  // Where a caller of request() stands.
  datatype Caller =
    | Registered      // promise parked, frame not yet sent
    | GivingUp        // send failed or the wait timed out: about to fulfill(nullopt)
    | Setting         // fulfill took the promise, the value is still to be set
    | Waiting
    | Done

  // Where the reader thread stands; links are numbered.
  datatype Reader =
    | Reading(link: nat)
    | Closed(link: nat)   // fd_ is -1, requests are still pending
    | Torn(link: nat)     // fail_pending has run

  // settled: how often the latest promise under each id has been set. written: the link a request's
  // frame went out on. taken: the promise the reader took out and has yet to set.
  datatype State = State(
    pending: set<nat>,
    settled: map<nat, nat>,
    callers: map<nat, Caller>,
    written: map<nat, nat>,
    fd: Option<nat>,
    reader: Reader,
    taken: Option<nat>)

  datatype Step =
    | Register(id: nat)
    | Send(id: nat, ok: bool)
    | TimeOut(id: nat)
    | GiveUp(id: nat)
    | CallerSets(id: nat)
    | GetValue(id: nat)
    | TakeReply(id: nat) // a reply with this id arrives, whether asked for or not
    | ReaderSets
    | LinkDown
    | FailPending
    | Reconnect

  // The promise is in the hands of the thread that is about to set it.
  predicate InHand(s: State, id: nat) {
    s.taken == Some(id) || (id in s.callers && s.callers[id].Setting?)
  }

  // An id comes round again only when nothing is left of its last use.
  predicate Outstanding(s: State, id: nat) {
    id in s.pending || InHand(s, id) || (id in s.callers && !s.callers[id].Done?)
  }

  predicate Can(s: State, a: Step) {
    match a
    case Register(id) => !Outstanding(s, id)
    case Send(id, ok) => id in s.callers && s.callers[id].Registered? && (ok ==> s.fd.Some?)
    case TimeOut(id) => id in s.callers && s.callers[id].Waiting?
    case GiveUp(id) => id in s.callers && s.callers[id].GivingUp?
    case CallerSets(id) => id in s.callers && s.callers[id].Setting? && id in s.settled
    case GetValue(id) => id in s.callers && s.callers[id].Waiting? && id in s.settled && s.settled[id] > 0
    case TakeReply(_) => s.reader.Reading? && s.taken.None?
    case ReaderSets => s.taken.Some? && s.taken.value in s.settled
    case LinkDown => s.reader.Reading? && s.taken.None?
    case FailPending => s.reader.Closed?
    case Reconnect => s.reader.Torn?
  }

  function Move(s: State, id: nat, to: Caller): State {
    s.(callers := s.callers[id := to])
  }

  function Settle(s: State, id: nat): State
    requires id in s.settled
  {
    s.(settled := s.settled[id := s.settled[id] + 1])
  }

  function Do(s: State, a: Step): State
    requires Can(s, a)
  {
    match a
    case Register(id) =>
      Move(s, id, Registered).(pending := s.pending + {id}, settled := s.settled[id := 0], written := s.written - {id})
    case Send(id, ok) =>
      if ok then Move(s, id, Waiting).(written := s.written[id := s.fd.value]) else Move(s, id, GivingUp)
    case TimeOut(id) => Move(s, id, GivingUp)
    case GiveUp(id) =>
      if id in s.pending then Move(s, id, Setting).(pending := s.pending - {id}) else Move(s, id, Done)
    case CallerSets(id) => Move(Settle(s, id), id, Done)
    case GetValue(id) => Move(s, id, Done)
    case TakeReply(id) =>
      if id in s.pending then s.(pending := s.pending - {id}, taken := Some(id)) else s
    case ReaderSets => Settle(s, s.taken.value).(taken := None)
    case LinkDown => s.(fd := None, reader := Closed(s.reader.link))
    case FailPending =>
      s.(settled := map id | id in s.settled :: s.settled[id] + (if id in s.pending then 1 else 0),
         pending := {}, reader := Torn(s.reader.link))
    case Reconnect => s.(fd := Some(s.reader.link + 1), reader := Reading(s.reader.link + 1))
  }

  predicate Init(s: State) {
    s == State({}, map[], map[], map[], Some(0), Reading(0), None)
  }

  // Every promise is pending, in one thread's hands, or set once and for all; and
  // one that is pending after its frame went out on a link is on the present link,
  // or on one whose teardown has not reached fail_pending.
  predicate PromiseOk(s: State, id: nat)
    requires id in s.settled && id in s.callers
  {
    && s.settled[id] == (if id in s.pending || InHand(s, id) then 0 else 1)
    && (id in s.pending ==> !InHand(s, id))
    && (s.taken == Some(id) ==> !s.callers[id].Setting?)
    && (s.callers[id].Registered? ==> id !in s.written)
    && (s.callers[id].Done? ==> id !in s.pending)
    && (id in s.written ==> s.written[id] <= s.reader.link)
    && (id in s.pending && id in s.written ==> s.written[id] == s.reader.link && !s.reader.Torn?)
  }

  ghost predicate Inv(s: State) {
    && s.pending <= s.settled.Keys && s.callers.Keys == s.settled.Keys
    && s.written.Keys <= s.settled.Keys
    && (s.taken.Some? ==> s.taken.value in s.settled)
    && s.fd == (if s.reader.Reading? then Some(s.reader.link) else None)
    && forall id :: id in s.settled ==> PromiseOk(s, id)
  }

  lemma StepInv(s: State, a: Step)
    requires Inv(s) && Can(s, a)
    ensures Inv(Do(s, a))
  {
    var s' := Do(s, a);
    forall id | id in s'.settled ensures id in s'.callers && PromiseOk(s', id) {
      StepPromise(s, a, id);
    }
  }

  lemma StepPromise(s: State, a: Step, id: nat)
    requires Inv(s) && Can(s, a) && id in Do(s, a).settled
    ensures id in Do(s, a).callers && PromiseOk(Do(s, a), id)
  {
    if id in s.settled {
      assert PromiseOk(s, id);
      match a
      case Register(_) => CallerPromise(s, a, id);
      case Send(_, _) => CallerPromise(s, a, id);
      case TimeOut(_) => CallerPromise(s, a, id);
      case GiveUp(_) => CallerPromise(s, a, id);
      case CallerSets(_) => CallerPromise(s, a, id);
      case GetValue(_) => CallerPromise(s, a, id);
      case _ => ReaderPromise(s, a, id);
    }
  }

  // Steps of a caller, and of the reader thread.
  lemma CallerPromise(s: State, a: Step, id: nat)
    requires Inv(s) && Can(s, a) && id in s.settled && PromiseOk(s, id)
    requires a.Register? || a.Send? || a.TimeOut? || a.GiveUp? || a.CallerSets? || a.GetValue?
    ensures id in Do(s, a).settled && id in Do(s, a).callers && PromiseOk(Do(s, a), id)
  {
    if a.id != id {
      assert Do(s, a).callers[id] == s.callers[id] && Do(s, a).settled[id] == s.settled[id];
    }
  }

  lemma ReaderPromise(s: State, a: Step, id: nat)
    requires Inv(s) && Can(s, a) && id in s.settled && PromiseOk(s, id)
    requires a.TakeReply? || a.ReaderSets? || a.LinkDown? || a.FailPending? || a.Reconnect?
    ensures id in Do(s, a).settled && id in Do(s, a).callers && PromiseOk(Do(s, a), id)
  {
    assert Do(s, a).callers == s.callers && Do(s, a).written == s.written;
  }

  ghost predicate Run(ss: seq<State>, acts: seq<Step>) {
    && |ss| == |acts| + 1
    && Init(ss[0])
    && forall m {:trigger acts[m]} :: 0 <= m < |acts| ==> Can(ss[m], acts[m]) && ss[m + 1] == Do(ss[m], acts[m])
  }

  lemma {:induction false} RunInv(ss: seq<State>, acts: seq<Step>, m: nat)
    requires Run(ss, acts) && m < |ss|
    ensures Inv(ss[m])
  {
    if m > 0 {
      RunInv(ss, acts, m - 1);
      StepInv(ss[m - 1], acts[m - 1]);
    }
  }

  // No promise is ever set twice, whatever the race between the reply, the timeout,
  // the failed send and the teardown.
  lemma SetAtMostOnce(ss: seq<State>, acts: seq<Step>, m: nat, id: nat)
    requires Run(ss, acts) && m < |ss| && id in ss[m].settled
    ensures ss[m].settled[id] <= 1
    ensures ss[m].settled[id] == 1 <==> id !in ss[m].pending && !InHand(ss[m], id)
  {
    RunInv(ss, acts, m);
    assert PromiseOk(ss[m], id);
  }

  // Once the teardown of a link has finished, no request whose frame was written
  // on it is pending: its promise is set, or in the hands of a thread setting it.
  lemma TeardownCompletes(ss: seq<State>, acts: seq<Step>, m: nat, id: nat)
    requires Run(ss, acts) && m < |ss| && id in ss[m].written
    requires ss[m].written[id] < ss[m].reader.link || ss[m].reader.Torn?
    ensures id !in ss[m].pending && id in ss[m].settled
    ensures ss[m].settled[id] == 1 || InHand(ss[m], id)
  {
    RunInv(ss, acts, m);
    assert PromiseOk(ss[m], id);
  }

  // When request() returns, nobody keeps its promise waiting in pending_.
  lemma DoneMeansUnregistered(ss: seq<State>, acts: seq<Step>, m: nat, id: nat)
    requires Run(ss, acts) && m < |ss| && id in ss[m].callers && ss[m].callers[id].Done?
    ensures id !in ss[m].pending
  {
    RunInv(ss, acts, m);
    assert PromiseOk(ss[m], id);
  }
}
