/**
  Which frame stands for which request or push: what the clients encode and the
  daemon parses (include/server.hpp, handle_frame), and the other way round
  (include/node.hpp, read_until_closed).
*/
module Wire {
  import opened Options
  import opened Framing
  import opened Int64
  import opened KvStore

  const MSG_SUBSCRIBE: byte := 0
  const MSG_UNSUBSCRIBE: byte := 1
  const MSG_PUBLISH: byte := 2
  const MSG_KV_SET: byte := 3
  const MSG_KV_GET: byte := 4
  const MSG_KV_REPLY: byte := 5
  const MSG_KV_UPDATE: byte := 6
  const MSG_PING: byte := 7
  const MSG_PONG: byte := 8
  const MSG_PUBLISH_RETAIN: byte := 9
  const MSG_INFO: byte := 10
  const MSG_KV_DEL: byte := 11
  const MSG_KV_SETEX: byte := 12
  const MSG_KV_INCR: byte := 13
  const MSG_KV_SETNX: byte := 14
  const MSG_KV_RESULT: byte := 15

  datatype Request =
    | Subscribe(name: Bytes)
    | Unsubscribe(name: Bytes)
    | Publish(name: Bytes, payload: Bytes)
    | PublishRetain(name: Bytes, payload: Bytes)
    | Ask(verb: Verb)
    | Ping(name: Bytes, token: Bytes)
    | Info(ask: nat)
    | Ignored // too short or of an unknown kind

  // How handle_frame reads a frame.
  function ParseRequest(f: Frame): Request {
    if f.kind == MSG_SUBSCRIBE then Subscribe(f.name)
    else if f.kind == MSG_UNSUBSCRIBE then Unsubscribe(f.name)
    else if f.kind == MSG_PUBLISH then Publish(f.name, f.payload)
    else if f.kind == MSG_PUBLISH_RETAIN then PublishRetain(f.name, f.payload)
    else if f.kind == MSG_KV_SET then Ask(Set(f.name, f.payload))
    else if f.kind == MSG_KV_SETEX then
      if |f.payload| < 4 then Ignored
      else Ask(SetEx(f.name, DecodeU32(f.payload), f.payload[4..]))
    else if f.kind == MSG_KV_DEL then Ask(Del(f.name))
    else if f.kind == MSG_KV_GET then
      if |f.payload| < 4 then Ignored else Ask(Get(f.name, DecodeU32(f.payload)))
    else if f.kind == MSG_KV_INCR then
      if |f.payload| < 12 then Ignored
      else Ask(Incr(f.name, DecodeU32(f.payload), Bits(f.payload[4..12])))
    else if f.kind == MSG_KV_SETNX then
      if |f.payload| < 8 then Ignored
      else Ask(SetNx(f.name, DecodeU32(f.payload), DecodeU32(f.payload[4..]), f.payload[8..]))
    else if f.kind == MSG_PING then Ping(f.name, f.payload)
    else if f.kind == MSG_INFO then
      if |f.payload| < 4 then Ignored else Info(DecodeU32(f.payload))
    else Ignored
  }

  // The frame a client sends for a request.
  function EncodeRequest(r: Request): (f: Frame)
    requires !r.Ignored?
  {
    match r
    case Subscribe(n) => Frame(MSG_SUBSCRIBE, n, [])
    case Unsubscribe(n) => Frame(MSG_UNSUBSCRIBE, n, [])
    case Publish(n, p) => Frame(MSG_PUBLISH, n, p)
    case PublishRetain(n, p) => Frame(MSG_PUBLISH_RETAIN, n, p)
    case Ping(n, t) => Frame(MSG_PING, n, t)
    case Info(id) => Frame(MSG_INFO, [], EncodeU32(id))
    case Ask(Set(k, v)) => Frame(MSG_KV_SET, k, v)
    case Ask(SetEx(k, ttl, v)) => Frame(MSG_KV_SETEX, k, EncodeU32(ttl) + v)
    case Ask(Del(k)) => Frame(MSG_KV_DEL, k, [])
    case Ask(Get(k, id)) => Frame(MSG_KV_GET, k, EncodeU32(id))
    case Ask(Incr(k, id, d)) => Frame(MSG_KV_INCR, k, EncodeU32(id) + FromBits(d))
    case Ask(SetNx(k, id, ttl, v)) => Frame(MSG_KV_SETNX, k, EncodeU32(id) + EncodeU32(ttl) + v)
  }

  // Request ids and ttls are u32 on the wire.
  predicate Narrow(v: Verb) {
    match v
    case Set(_, _) => true
    case SetEx(_, ttl, _) => ttl < U32
    case Del(_) => true
    case Get(_, id) => id < U32
    case Incr(_, id, _) => id < U32
    case SetNx(_, id, ttl, _) => id < U32 && ttl < U32
  }

  lemma U32Head(n: nat, rest: Bytes)
    requires n < U32
    ensures DecodeU32(EncodeU32(n) + rest) == n && (EncodeU32(n) + rest)[4..] == rest
  {
    U32RoundTrip(n);
    assert DecodeU32(EncodeU32(n) + rest) == DecodeU32(EncodeU32(n));
  }

  // The daemon reads back exactly the request that was sent.
  lemma RequestRoundTrip(r: Request)
    requires !r.Ignored? && (r.Ask? ==> Narrow(r.verb)) && (r.Info? ==> r.ask < U32)
    ensures ParseRequest(EncodeRequest(r)) == r
  {
    match r
    case Ask(SetEx(k, ttl, v)) => U32Head(ttl, v);
    case Ask(Get(k, id)) =>
      U32Head(id, []);
      assert EncodeU32(id) + [] == EncodeU32(id);
    case Info(id) =>
      U32Head(id, []);
      assert EncodeU32(id) + [] == EncodeU32(id);
    case Ask(Incr(k, id, d)) => IncrRoundTrip(k, id, d);
    case Ask(SetNx(k, id, ttl, v)) => SetNxRoundTrip(k, id, ttl, v);
    case _ =>
  }

  lemma IncrRoundTrip(k: Key, id: nat, d: U64)
    requires id < U32
    ensures ParseRequest(EncodeRequest(Ask(Incr(k, id, d)))) == Ask(Incr(k, id, d))
  {
    var bytes := FromBits(d);
    U32Head(id, bytes);
    assert (EncodeU32(id) + bytes)[4..12] == bytes;
  }

  lemma SetNxRoundTrip(k: Key, id: nat, ttl: nat, v: Value)
    requires id < U32 && ttl < U32
    ensures ParseRequest(EncodeRequest(Ask(SetNx(k, id, ttl, v)))) == Ask(SetNx(k, id, ttl, v))
  {
    var payload := EncodeU32(id) + EncodeU32(ttl) + v;
    assert payload == EncodeU32(id) + (EncodeU32(ttl) + v);
    U32Head(id, EncodeU32(ttl) + v);
    U32Head(ttl, v);
    assert payload[8..] == v;
  }

  // The frame the daemon sends for a push.
  function EncodePush(p: Push): Frame {
    match p
    case Update(k, v) => Frame(MSG_KV_UPDATE, k, v)
    case Gone(k) => Frame(MSG_KV_DEL, k, [])
    case Reply(id, k, None) => Frame(MSG_KV_REPLY, k, EncodeU32(id) + [0])
    case Reply(id, k, Some(v)) => Frame(MSG_KV_REPLY, k, EncodeU32(id) + [1] + v)
    case Result(id, k, ok, v) => Frame(MSG_KV_RESULT, k, EncodeU32(id) + [if ok then 1 else 0] + v)
    case Published(t, m) => Frame(MSG_PUBLISH, t, m)
    case Pong(n, t) => Frame(MSG_PONG, n, t)
    case Status(id, text) => Frame(MSG_INFO, [], EncodeU32(id) + text)
  }

  // How a node reads a frame; None for the frames it skips.
  function ParsePush(f: Frame): Option<Push> {
    if f.kind == MSG_PUBLISH then Some(Published(f.name, f.payload))
    else if f.kind == MSG_KV_REPLY then
      if |f.payload| < 5 then None
      else Some(Reply(DecodeU32(f.payload), f.name,
                      if f.payload[4] != 0 then Some(f.payload[5..]) else None))
    else if f.kind == MSG_KV_UPDATE then Some(Update(f.name, f.payload))
    else if f.kind == MSG_KV_RESULT then
      if |f.payload| < 5 then None
      else Some(Result(DecodeU32(f.payload), f.name, f.payload[4] != 0, f.payload[5..]))
    else if f.kind == MSG_KV_DEL then Some(Gone(f.name))
    else if f.kind == MSG_PONG then
      if |f.payload| < 4 then None else Some(Pong(f.name, f.payload))
    else if f.kind == MSG_INFO then
      if |f.payload| < 4 then None else Some(Status(DecodeU32(f.payload), f.payload[4..]))
    else None
  }

  // The request a frame answers, and the value its promise is set to.
  function AnswerIn(p: Push): Option<(nat, Option<Value>)> {
    match p
    case Reply(id, _, found) => Some((id, found))
    case Result(id, _, ok, v) => Some((id, if ok then Some(v) else None))
    case Pong(_, token) => if |token| >= 4 then Some((DecodeU32(token), None)) else None
    case Status(id, text) => Some((id, Some(text)))
    case _ => None
  }

  // The id under which a request waits for an answer.
  function IdOf(r: Request): Option<nat> {
    match r
    case Ask(Get(_, id)) => Some(id)
    case Ask(Incr(_, id, _)) => Some(id)
    case Ask(SetNx(_, id, _, _)) => Some(id)
    case Ping(_, token) => if |token| >= 4 then Some(DecodeU32(token)) else None
    case Info(id) => Some(id)
    case _ => None
  }

  // A node reads back exactly the push that was sent.
  lemma PushRoundTrip(p: Push)
    requires p.Reply? || p.Result? || p.Status? ==> p.ask < U32
    requires p.Pong? ==> |p.token| >= 4
    ensures ParsePush(EncodePush(p)) == Some(p)
  {
    match p
    case Status(id, text) =>
      U32Head(id, text);
    case Reply(id, k, None) =>
      U32Head(id, [0]);
    case Reply(id, k, Some(v)) =>
      assert EncodeU32(id) + [1] + v == EncodeU32(id) + ([1] + v);
      U32Head(id, [1] + v);
      assert (EncodeU32(id) + [1] + v)[5..] == v;
    case Result(id, k, ok, v) =>
      var flag: Bytes := [if ok then 1 else 0];
      assert EncodeU32(id) + flag + v == EncodeU32(id) + (flag + v);
      U32Head(id, flag + v);
      assert (EncodeU32(id) + flag + v)[5..] == v;
    case _ =>
  }
}
