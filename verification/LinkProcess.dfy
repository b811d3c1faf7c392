/**
  The link process of include/link.hpp as it runs: the two tables of expected
  echoes, changed in place under one mutex, and the bodies of its two reader
  loops. Proved to take the steps of LinkDevice and LinkPublish.
*/
module LinkProcess {
  import opened Options
  import opened Framing
  import opened Topics
  import opened KvStore
  import opened Wire
  import opened LinkDevice
  import LinkPublish

  // The frame that carries an event, to the peer and to the daemon alike.
  function FrameOf(e: Event): Frame {
    EncodeRequest(Ask(VerbOf(e)))
  }

  function FramesOf(es: seq<Event>): seq<Frame> {
    if es == [] then [] else [FrameOf(es[0])] + FramesOf(es[1..])
  }

  // What a frame from the daemon asks the link to forward.
  function EventsIn(f: Frame): seq<Event> {
    var p := ParsePush(f);
    if p.Some? then Carried(p.value) else []
  }

  // The change a frame from the peer asks for, if it is one.
  function EventOf(f: Frame): Option<Event> {
    if f.kind == MSG_KV_SET then Some(Assign(f.name, f.payload))
    else if f.kind == MSG_KV_DEL then Some(Erase(f.name))
    else None
  }

  // What one link forwards, the other reads as the same event and its daemon as the
  // same change.
  lemma EventRoundTrip(e: Event)
    ensures EventOf(FrameOf(e)) == Some(e)
    ensures ParseRequest(FrameOf(e)) == Ask(VerbOf(e))
  {
  }

  lemma FetchExpects(d: Device)
    requires Can(d, LinkFetches) && d.inbox[0].key in d.keys
    ensures var d' := Do(d, LinkFetches).0;
            && d'.holding == [d.inbox[0]] && d'.keys == d.keys && d'.up == d.up
            && forall e :: d'.echoes[e] == d.echoes[e] + One(d.inbox[0], e)
  {
  }

  lemma HearConsumes(d: Device, x: Event)
    requires d.down != [] && Carried(d.down[0]) == [x]
    ensures var (d', out) := Hear(d);
            && d'.keys == d.keys && out == (if d.echoes[x] > 0 then [] else [x])
            && forall e :: d'.echoes[e] == d.echoes[e] - if d.echoes[x] > 0 then One(x, e) else 0
  {
  }

  class Link {
    const topics: seq<Name>
    const keys: seq<Key>
    var echoSet: map<(Key, Value), nat>
    var echoDel: map<Key, nat>
    var toPeer: seq<Frame>
    var toDaemon: seq<Frame>

    // No entry is kept for an echo that is not expected.
    ghost predicate Valid()
      reads this
    {
      && (forall kv :: kv in echoSet ==> echoSet[kv] > 0)
      && (forall k :: k in echoDel ==> echoDel[k] > 0)
    }

    // How many echoes of e are expected.
    function Expected(e: Event): nat
      reads this
    {
      match e
      case Assign(k, v) => if (k, v) in echoSet then echoSet[(k, v)] else 0
      case Erase(k) => if k in echoDel then echoDel[k] else 0
    }

    // This object is the link process of device d.
    ghost predicate Runs(d: Device)
      reads this
    {
      && Valid()
      && (forall k :: k in keys <==> k in d.keys)
      && (forall e :: Expected(e) == d.echoes[e])
    }

    // The constructor up to the start of the threads: subscribe, then get each key
    // under its index.
    constructor (topics: seq<Name>, keys: seq<Key>)
      ensures this.topics == topics && this.keys == keys
      ensures Valid() && toPeer == [] && forall e :: Expected(e) == 0
      ensures |toDaemon| == |topics| + |keys|
      ensures forall i :: 0 <= i < |topics| ==> toDaemon[i] == EncodeRequest(Subscribe(topics[i]))
      ensures forall i :: 0 <= i < |keys| ==>
        toDaemon[|topics| + i] == EncodeRequest(Ask(Get(keys[i], i)))
    {
      this.topics, this.keys := topics, keys;
      echoSet, echoDel, toPeer, toDaemon := map[], map[], [], [];
      new;
      var i := 0;
      while i < |topics|
        invariant i <= |topics| && |toDaemon| == i && echoSet == map[] && echoDel == map[] && toPeer == []
        invariant forall j :: 0 <= j < i ==> toDaemon[j] == EncodeRequest(Subscribe(topics[j]))
      {
        toDaemon := toDaemon + [Frame(MSG_SUBSCRIBE, topics[i], [])];
        i := i + 1;
      }
      i := 0;
      while i < |keys|
        invariant i <= |keys| && |toDaemon| == |topics| + i && echoSet == map[] && echoDel == map[] && toPeer == []
        invariant forall j :: 0 <= j < |topics| ==> toDaemon[j] == EncodeRequest(Subscribe(topics[j]))
        invariant forall j :: 0 <= j < i ==> toDaemon[|topics| + j] == EncodeRequest(Ask(Get(keys[j], j)))
      {
        toDaemon := toDaemon + [Frame(MSG_KV_GET, keys[i], EncodeU32(i))];
        i := i + 1;
      }
    }

    function Patterns(): set<Name> {
      set t | t in topics
    }

    // forwards_topic
    method ForwardsTopic(t: Name) returns (r: bool)
      ensures r <==> LinkPublish.Covers(Patterns(), t)
    {
      var i := 0;
      while i < |topics|
        invariant i <= |topics| && forall j :: 0 <= j < i ==> !Matches(topics[j], t)
      {
        var hit := TopicMatches(topics[i], t);
        if hit {
          assert topics[i] in Patterns();
          return true;
        }
        i := i + 1;
      }
      return false;
    }

    // forwards_key
    method ForwardsKey(k: Key) returns (r: bool)
      ensures r <==> k in keys
    {
      var i := 0;
      while i < |keys|
        invariant i <= |keys| && k !in keys[..i]
      {
        if keys[i] == k {
          return true;
        }
        i := i + 1;
      }
      assert keys[..i] == keys;
      return false;
    }

    // expect_echo
    method ExpectEcho(x: Event)
      requires Valid()
      modifies this`echoSet, this`echoDel
      ensures Valid() && forall e :: Expected(e) == old(Expected(e)) + One(x, e)
    {
      match x
      case Assign(k, v) => echoSet := echoSet[(k, v) := Expected(x) + 1];
      case Erase(k) => echoDel := echoDel[k := Expected(x) + 1];
    }

    // consume_echo
    method ConsumeEcho(x: Event) returns (found: bool)
      requires Valid()
      modifies this`echoSet, this`echoDel
      ensures Valid() && found == (old(Expected(x)) > 0)
      ensures forall e :: Expected(e) == old(Expected(e)) - if found then One(x, e) else 0
    {
      match x
      case Erase(k) =>
        if k !in echoDel {
          return false;
        }
        if echoDel[k] == 1 {
          echoDel := echoDel - {k};
        } else {
          echoDel := echoDel[k := echoDel[k] - 1];
        }
        return true;
      case Assign(k, v) =>
        if (k, v) !in echoSet {
          return false;
        }
        if echoSet[(k, v)] == 1 {
          echoSet := echoSet - {(k, v)};
        } else {
          echoSet := echoSet[(k, v) := echoSet[(k, v)] - 1];
        }
        return true;
    }

    // forward_kv, and the MSG_KV_DEL branch of local_loop
    method Forward(x: Event)
      requires Valid()
      modifies this`echoSet, this`echoDel, this`toPeer
      ensures Valid()
      ensures old(Expected(x)) > 0 ==>
        toPeer == old(toPeer) && forall e :: Expected(e) == old(Expected(e)) - One(x, e)
      ensures old(Expected(x)) == 0 ==>
        toPeer == old(toPeer) + [FrameOf(x)] && forall e :: Expected(e) == old(Expected(e))
    {
      var own := ConsumeEcho(x);
      if !own {
        toPeer := toPeer + [FrameOf(x)];
      }
    }

    // local_loop's switch, on a key/value frame: the step LinkHears of device d.
    method LocalKvFrame(f: Frame, ghost d: Device)
      requires Runs(d) && d.down != [] && f.kind != MSG_PUBLISH
      requires Carried(d.down[0]) == EventsIn(f)
      modifies this`echoSet, this`echoDel, this`toPeer
      ensures Runs(Hear(d).0)
      ensures toPeer == old(toPeer) + FramesOf(Hear(d).1)
    {
      if f.kind == MSG_KV_REPLY {
        if |f.payload| >= 5 && f.payload[4] != 0 {
          ForwardHeard(Assign(f.name, f.payload[5..]), d);
        }
      } else if f.kind == MSG_KV_UPDATE {
        ForwardHeard(Assign(f.name, f.payload), d);
      } else if f.kind == MSG_KV_DEL {
        ForwardHeard(Erase(f.name), d);
      }
    }

    method ForwardHeard(x: Event, ghost d: Device)
      requires Runs(d) && d.down != [] && Carried(d.down[0]) == [x]
      modifies this`echoSet, this`echoDel, this`toPeer
      ensures Runs(Hear(d).0)
      ensures toPeer == old(toPeer) + FramesOf(Hear(d).1)
    {
      HearConsumes(d, x);
      Forward(x);
      OneFrame(x);
    }

    static lemma OneFrame(e: Event)
      ensures FramesOf([e]) == [FrameOf(e)]
    {
      assert [e][1..] == [];
    }

    // ... and on a publish: the step LinkHears of LinkPublish.
    method LocalPublish(f: Frame)
      requires f.kind == MSG_PUBLISH
      modifies this`toPeer
      ensures var posts := LinkPublish.Relayed(Published(f.name, f.payload), Patterns());
              toPeer == old(toPeer) + if posts == [] then [] else [f]
    {
      var carried := ForwardsTopic(f.name);
      if carried {
        toPeer := toPeer + [Frame(MSG_PUBLISH, f.name, f.payload)];
      }
    }

    // peer_loop's switch, on a change of a key: first expect the echo, then send. The
    // two are the steps LinkFetches and LinkSends of device d.
    method PeerKvFrame(f: Frame, ghost d: Device) returns (ghost d': Device)
      requires Runs(d) && d.holding == [] && d.inbox != [] && EventOf(f) == Some(d.inbox[0])
      modifies this`echoSet, this`echoDel, this`toDaemon
      ensures var fetched := Do(d, LinkFetches).0;
              d' == if fetched.holding == [] then fetched else Do(fetched, LinkSends).0
      ensures Runs(d')
      ensures toDaemon == old(toDaemon) +
              if f.name in keys then [EncodeRequest(Ask(VerbOf(d.inbox[0])))] else []
      ensures f.name in keys ==> d'.up == d.up + [VerbOf(d.inbox[0])]
    {
      var carried := ForwardsKey(f.name);
      if carried {
        d' := PassOn(if f.kind == MSG_KV_SET then Assign(f.name, f.payload) else Erase(f.name), d);
      } else {
        d' := Do(d, LinkFetches).0;
      }
    }

    method PassOn(x: Event, ghost d: Device) returns (ghost d': Device)
      requires Runs(d) && d.holding == [] && d.inbox != [] && d.inbox[0] == x && x.key in d.keys
      modifies this`echoSet, this`echoDel, this`toDaemon
      ensures Runs(d') && d'.up == d.up + [VerbOf(x)]
      ensures var fetched := Do(d, LinkFetches).0;
              fetched.holding == [x] && d' == Do(fetched, LinkSends).0
      ensures toDaemon == old(toDaemon) + [FrameOf(x)]
    {
      FetchExpects(d);
      ExpectEcho(x);
      toDaemon := toDaemon + [FrameOf(x)];
      d' := Do(Do(d, LinkFetches).0, LinkSends).0;
    }

    // ... and on a publish: the step LinkFetches of LinkPublish.
    method PeerPublish(f: Frame)
      requires f.kind == MSG_PUBLISH
      modifies this`toDaemon
      ensures toDaemon == old(toDaemon) + if LinkPublish.Covers(Patterns(), f.name) then [f] else []
    {
      var carried := ForwardsTopic(f.name);
      if carried {
        toDaemon := toDaemon + [Frame(MSG_PUBLISH, f.name, f.payload)];
      }
    }
  }
}
