/**
  The reader's limit on a frame against what the daemon of include/server.hpp puts in
  one: which answers are too long to be read although the request was not.
*/
module Limits {
  import opened Options
  import opened Framing
  import opened Topics
  import opened KvStore
  import opened Wire
  import opened Server
  import Cluster

  // A reply puts five bytes in front of the value, and an INFO answer four in front of its
  // text, so the longest ones cannot be read.
  const REPLY_HEAD := 5
  const STATUS_HEAD := 4

  // What client w is sent because of c's request r, if it wants the topic of a publish.
  function Caused(r: Request, c: Id, s: Store, retained: map<Name, Bytes>, now: Time, status: Bytes, w: Id): seq<Push> {
    match r
    case Ask(v) => Sent(s, c, v, now, w)
    case Publish(topic, payload) => if w != c then [Published(topic, payload)] else []
    case PublishRetain(topic, payload) => if w != c then [Published(topic, payload)] else []
    case Subscribe(name) =>
      if w == c && !HasWildcard(name) && name in retained then [Published(name, retained[name])] else []
    case Ping(name, token) => Only(c, Pong(name, token), w)
    case Info(ask) => Only(c, Status(ask, status), w)
    case _ => []
  }

  // Every handled frame sends each client just that, or in case of a publish nothing.
  lemma HandledSendsCaused(before: map<Id, Client>, after: map<Id, Client>, s: Store, s': Store,
      retained: map<Name, Bytes>, c: Id, r: Request, now: Time, later: Time, status: Bytes, w: Id)
    requires c in before && w in before && w in after && Handled(before, after, s, s', retained, c, r, now, later, status)
    ensures var more := Caused(r, c, s, retained, now, status, w);
            || after[w].out == before[w].out + more
            || ((r.Publish? || r.PublishRetain?) && after[w].out == before[w].out)
  {
    assert before[w].out + [] == before[w].out;
  }

  // They are what the daemon of Cluster sends when it handles the request, publishes apart.
  lemma ClusterSendsCaused(s: Cluster.System, c: Id, now: Time, later: Time, retained: map<Name, Bytes>,
      status: Bytes, w: Id)
    requires Cluster.Can(s, Cluster.Handle(c, now, later, status))
    requires var r := Cluster.Next(s, c); r.Ask? || r.Ping? || r.Info?
    ensures Cluster.Frames(s, Cluster.Handle(c, now, later, status), w) ==
            Caused(Cluster.Next(s, c), c, s.store, retained, now, status, w)
  {
  }

  // The one exception for each of the two requests that are answered at length.
  predicate TooLong(r: Request, s: Store, now: Time, status: Bytes) {
    match r
    case Ask(Get(k, _)) => Live(s, k, now) && |s.kv[k]| > MAX_FRAME_BYTES - REPLY_HEAD
    case Info(_) => |status| > MAX_FRAME_BYTES - STATUS_HEAD
    case _ => false
  }

  ghost predicate RetainedFits(retained: map<Name, Bytes>) {
    forall n :: n in retained ==> |n| <= MAX_FRAME_BYTES && |retained[n]| <= MAX_FRAME_BYTES
  }

  // What is retained was published in a frame that fits.
  lemma RetainedStillFits(retained: map<Name, Bytes>, f: Frame)
    requires RetainedFits(retained) && Fits(f) && ParseRequest(f).PublishRetain?
    ensures RetainedFits(RetainedAfter(retained, ParseRequest(f).name, ParseRequest(f).payload))
  {
  }

  // Whatever frame a client can send, every frame it makes the daemon send to anybody can
  // be read, if and only if it is neither a GET that finds so long a value nor an INFO
  // whose answer is so long.
  lemma FramesFitIff(f: Frame, c: Id, s: Store, retained: map<Name, Bytes>, now: Time, status: Bytes)
    requires Fits(f) && RetainedFits(retained)
    ensures var r := ParseRequest(f);
            (forall w, p :: p in Caused(r, c, s, retained, now, status, w) ==> Fits(EncodePush(p))) <==>
            !TooLong(r, s, now, status)
  {
    var r := ParseRequest(f);
    if r.Ask? {
      VerbFits(f);
      forall w ensures VerbFramesFit(s, c, r.verb, now, w) <==> !(w == c && TooLong(r, s, now, status)) {
        VerbFramesFitIff(s, c, r.verb, now, w);
      }
      assert VerbFramesFit(s, c, r.verb, now, c) <==> !TooLong(r, s, now, status);
      if !TooLong(r, s, now, status) {
        forall w, p | p in Caused(r, c, s, retained, now, status, w) ensures Fits(EncodePush(p)) {
          assert VerbFramesFit(s, c, r.verb, now, w);
        }
      } else {
        var i :| 0 <= i < |Sent(s, c, r.verb, now, c)| && !Fits(EncodePush(Sent(s, c, r.verb, now, c)[i]));
        assert Sent(s, c, r.verb, now, c)[i] in Caused(r, c, s, retained, now, status, c);
      }
    } else {
      if TooLong(r, s, now, status) {
        var p := Status(r.ask, status);
        assert p in Caused(r, c, s, retained, now, status, c);
        OtherFrameFitsIff(f, c, s, retained, now, status, c, p);
        assert !Fits(EncodePush(p));
      }
      forall w, p | p in Caused(r, c, s, retained, now, status, w)
        ensures Fits(EncodePush(p)) <==> !TooLong(r, s, now, status)
      {
        OtherFrameFitsIff(f, c, s, retained, now, status, w, p);
      }
    }
  }

  lemma OtherFrameFitsIff(f: Frame, c: Id, s: Store, retained: map<Name, Bytes>, now: Time, status: Bytes, w: Id, p: Push)
    requires Fits(f) && RetainedFits(retained) && !ParseRequest(f).Ask?
    requires p in Caused(ParseRequest(f), c, s, retained, now, status, w)
    ensures Fits(EncodePush(p)) <==> !TooLong(ParseRequest(f), s, now, status)
  {
    match ParseRequest(f)
    case Info(ask) => assert p == Status(ask, status) && |EncodePush(p).payload| == STATUS_HEAD + |status|;
    case Ping(name, token) => assert p == Pong(name, token);
    case Subscribe(name) => assert p == Published(name, retained[name]);
    case _ =>
  }

  // A verb asks for no more than its frame holds.
  lemma VerbFits(f: Frame)
    requires Fits(f) && ParseRequest(f).Ask?
    ensures Fits(EncodeRequest(ParseRequest(f)))
  {
  }

  predicate VerbFramesFit(s: Store, c: Id, v: Verb, now: Time, w: Id) {
    forall i :: 0 <= i < |Sent(s, c, v, now, w)| ==> Fits(EncodePush(Sent(s, c, v, now, w)[i]))
  }

  lemma VerbFramesFitIff(s: Store, c: Id, v: Verb, now: Time, w: Id)
    requires Fits(EncodeRequest(Ask(v)))
    ensures VerbFramesFit(s, c, v, now, w) <==>
            !(w == c && v.Get? && Live(s, v.key, now) && |s.kv[v.key]| > MAX_FRAME_BYTES - REPLY_HEAD)
  {
    var sent := Sent(s, c, v, now, w);
    if v.Get? && w == c {
      var last := sent[|sent| - 1];
      GetSeesOnlyLiveKeys(s, c, v.key, v.ask, now);
      assert last == Reply(v.ask, v.key, if Live(s, v.key, now) then Some(s.kv[v.key]) else None);
      assert forall i :: 0 <= i < |sent| - 1 ==> sent[i] == Gone(v.key);
    } else {
      forall i | 0 <= i < |sent| ensures Fits(EncodePush(sent[i])) {
        OtherPushFits(s, c, v, now, w, i);
      }
    }
  }

  lemma OtherPushFits(s: Store, c: Id, v: Verb, now: Time, w: Id, i: nat)
    requires Fits(EncodeRequest(Ask(v))) && i < |Sent(s, c, v, now, w)| && !(v.Get? && w == c)
    ensures Fits(EncodePush(Sent(s, c, v, now, w)[i]))
  {
    ShortPush(s, c, v, now, w, i);
    var p := Sent(s, c, v, now, w)[i];
    if p.Result? {
      assert |EncodePush(p).payload| == 5 + |p.value|;
    }
  }

  // A push is about the verb's key and carries the verb's value, a number, or nothing.
  lemma ShortPush(s: Store, c: Id, v: Verb, now: Time, w: Id, i: nat)
    requires i < |Sent(s, c, v, now, w)| && !(v.Get? && w == c)
    ensures match Sent(s, c, v, now, w)[i]
            case Update(k, x) => k == v.key && (|x| == 8 || ((v.Set? || v.SetEx? || v.SetNx?) && x == v.value))
            case Gone(k) => k == v.key
            case Result(_, k, _, x) => k == v.key && |x| <= 8
            case _ => false
  {
  }

  // And such a value can be stored: the SET and the GET fit, the reply does not, and the
  // reader of the node that asked takes nothing more from its link.
  lemma LongValueCannotBeRead(s: Store, c: Id, k: Key, v: Value, ask: nat, now: Time, later: Time, rest: Bytes)
    requires |k| <= MAX_FRAME_BYTES && MAX_FRAME_BYTES - REPLY_HEAD < |v| <= MAX_FRAME_BYTES && ask < U32
    ensures Fits(EncodeRequest(Ask(Set(k, v)))) && Fits(EncodeRequest(Ask(Get(k, ask))))
    ensures var reply := Reply(ask, k, Some(v));
            && Sent(After(s, c, Set(k, v), now, later), c, Get(k, ask), now, c) == [reply]
            && Decode(Build(EncodePush(reply)) + rest) == None
  {
    var stored := After(s, c, Set(k, v), now, later);
    assert !Expired(stored, k, now) && Lookup(stored.kv, k) == Some(v);
    OversizedIsRefused(EncodePush(Reply(ask, k, Some(v))), rest);
  }

  // The same for INFO: its text names every subscribed topic. A topic of nearly the
  // greatest length can be subscribed to in a frame that fits, and from then on no node can
  // read the answer to an INFO.
  lemma LongTopicHidesStatus(m: map<Id, Client>, c: Id, retained: map<Name, Bytes>,
      topic: Name, before: Bytes, after: Bytes, ask: nat, rest: Bytes)
    requires c in m && MAX_FRAME_BYTES - STATUS_HEAD < |topic| <= MAX_FRAME_BYTES && !HasWildcard(topic) && ask < U32
    requires |before + topic + after| + STATUS_HEAD < U32
    ensures Fits(EncodeRequest(Subscribe(topic))) && Fits(EncodeRequest(Info(ask)))
    ensures topic in Subscribed(m, c, topic, retained)[c].topics
    ensures Decode(Build(EncodePush(Status(ask, before + topic + after))) + rest) == None
  {
    OversizedIsRefused(EncodePush(Status(ask, before + topic + after)), rest);
  }
}
