/**
  The buffered reader and the partial-write loop of include/ipc/transport.hpp
  over a socket that delivers its bytes in any pieces.
*/
module FrameReader {
  import opened Options
  import opened Framing

  // What recv() will answer, call by call: some bytes, or EINTR. A socket whose
  // events are used up is closed or broken: recv() answers 0 or an error for good.
  datatype Event = Data(bytes: Bytes) | Interrupted

  function Pending(events: seq<Event>): Bytes {
    if events == [] then []
    else (if events[0].Data? then events[0].bytes else []) + Pending(events[1..])
  }

  predicate NoEmptyData(events: seq<Event>) {
    forall i :: 0 <= i < |events| && events[i].Data? ==> events[i].bytes != []
  }

  // Bytes and calls still to come; every recv() that is not the last one lowers it.
  function Budget(events: seq<Event>): nat {
    if events == [] then 0
    else 1 + (if events[0].Data? then |events[0].bytes| else 0) + Budget(events[1..])
  }

  // The head of the first piece taken, the rest of it stays first.
  lemma PartlyTaken(events: seq<Event>, bytes: Bytes, n: nat)
    requires NoEmptyData(events) && events != [] && events[0] == Data(bytes) && 0 < n < |bytes|
    ensures var left := [Data(bytes[n..])] + events[1..];
            && NoEmptyData(left) && Budget(left) < Budget(events)
            && bytes[..n] + Pending(left) == Pending(events)
  {
    var left := [Data(bytes[n..])] + events[1..];
    assert left[1..] == events[1..];
    assert bytes == bytes[..n] + bytes[n..];
    assert bytes[..n] + (bytes[n..] + Pending(events[1..])) == bytes + Pending(events[1..]);
  }

  datatype Received = Got(n: nat) | Retry | Closed

  class Socket {
    var events: seq<Event>

    constructor (events: seq<Event>)
      requires NoEmptyData(events)
      ensures this.events == events
    {
      this.events := events;
    }

    // recv(fd, buf + at, room): as much of the next event as there is room for.
    method Recv(buf: array<byte>, at: nat, room: nat) returns (r: Received)
      requires at + room <= buf.Length && room > 0 && NoEmptyData(events)
      modifies this, buf
      ensures NoEmptyData(events)
      ensures buf[..at] == old(buf[..at])
      ensures r.Closed? ==> old(Pending(events)) == [] && events == [] && buf[..] == old(buf[..])
      ensures r.Retry? ==> Pending(events) == old(Pending(events)) && buf[..] == old(buf[..])
      ensures r.Got? ==> 0 < r.n <= room && buf[at..at + r.n] + Pending(events) == old(Pending(events))
      ensures !r.Closed? ==> Budget(events) < old(Budget(events))
    {
      if events == [] {
        return Closed;
      }
      match events[0]
      case Interrupted =>
        events := events[1..];
        return Retry;
      case Data(bytes) =>
        var n := if |bytes| <= room then |bytes| else room;
        forall i | 0 <= i < n {
          buf[at + i] := bytes[i];
        }
        assert buf[at..at + n] == bytes[..n];
        if n == |bytes| {
          events := events[1..];
          assert bytes[..n] == bytes;
        } else {
          PartlyTaken(events, bytes, n);
          events := [Data(bytes[n..])] + events[1..];
        }
        return Got(n);
    }
  }

  lemma TakenOff(window: Bytes, coming: Bytes, n: nat)
    requires n <= |window|
    ensures (window + coming)[..n] == window[..n] && (window + coming)[n..] == window[n..] + coming
  {
  }

  const FIRST_BUFFER: nat := 4096

  class Reader {
    const fd: Socket
    var buf: array<byte>
    var pos: nat // where parsing goes on
    var end: nat // where the received bytes stop

    ghost predicate Valid()
      reads this, fd
    {
      && pos <= end <= buf.Length
      && FIRST_BUFFER <= buf.Length <= MAX_FRAME_BYTES
      && NoEmptyData(fd.events)
    }

    // Everything received or still to be received that no frame has consumed.
    ghost function Unread(): Bytes
      reads this, buf, fd
      requires Valid()
    {
      buf[pos..end] + Pending(fd.events)
    }

    constructor (fd: Socket)
      requires NoEmptyData(fd.events)
      ensures Valid() && this.fd == fd && fresh(buf)
      ensures Unread() == Pending(fd.events)
    {
      this.fd := fd;
      buf := new byte[FIRST_BUFFER](_ => 0);
      pos, end := 0, 0;
    }

    // resize(size): a longer buffer with the same valid bytes.
    method Grow(size: nat)
      requires end <= buf.Length <= size
      modifies this`buf
      ensures fresh(buf) && buf.Length == size && buf[..end] == old(buf[..end])
    {
      var bigger := new byte[size](_ => 0);
      forall i | 0 <= i < end {
        bigger[i] := buf[i];
      }
      buf := bigger;
    }

    // Move the unparsed bytes to the front.
    method Compact()
      requires pos <= end <= buf.Length
      modifies this`pos, this`end, buf
      ensures pos == 0 && end == old(end - pos)
      ensures buf[..end] == old(buf[pos..end])
    {
      if pos > 0 {
        var rem := end - pos;
        forall i | 0 <= i < rem {
          buf[i] := buf[pos + i];
        }
        pos, end := 0, rem;
      }
    }

    // Room for `need` bytes and for at least one more than the unparsed ones.
    method MakeRoom(need: nat)
      requires pos == 0 && end <= buf.Length && 0 < buf.Length
      modifies this`buf
      ensures end < buf.Length && (buf == old(buf) || fresh(buf))
      ensures buf[..end] == old(buf[..end])
      ensures
        var wanted := if old(buf.Length) < need then need else old(buf.Length);
        buf.Length == if wanted == end then 2 * wanted else wanted
    {
      if buf.Length < need {
        Grow(need);
      }
      if buf.Length == end {
        Grow(2 * buf.Length);
      }
    }

    // One recv() into the room behind the unparsed bytes.
    method Receive() returns (ok: bool)
      requires pos == 0 && end < buf.Length && NoEmptyData(fd.events)
      modifies this`end, buf, fd
      ensures end <= buf.Length && NoEmptyData(fd.events)
      ensures buf[..end] + Pending(fd.events) == old(buf[..end] + Pending(fd.events))
      ensures !ok ==> Pending(fd.events) == [] && end == old(end)
      ensures ok ==> Budget(fd.events) < old(Budget(fd.events))
    {
      ghost var kept := buf[..end];
      var k := fd.Recv(buf, end, buf.Length - end);
      match k
      case Retry =>
        assert buf[..end] == kept;
        ok := true;
      case Closed =>
        assert buf[..end] == kept;
        ok := false;
      case Got(n) =>
        assert buf[..end + n] == kept + buf[end..end + n];
        end := end + n;
        ok := true;
    }

    // fill, whose one recv() may bring any part of what is pending. The doubling is for a
    // full buffer, which `require` never lets happen.
    method Fill(need: nat) returns (ok: bool)
      requires pos <= end <= buf.Length && 0 < buf.Length && NoEmptyData(fd.events)
      modifies this`pos, this`end, this`buf, buf, fd
      ensures pos == 0 && end <= buf.Length && NoEmptyData(fd.events)
      ensures buf == old(buf) || fresh(buf)
      ensures
        var wanted := if old(buf.Length) < need then need else old(buf.Length);
        buf.Length == if wanted == old(end - pos) then 2 * wanted else wanted
      ensures buf[..end] + Pending(fd.events) == old(buf[pos..end] + Pending(fd.events))
      ensures !ok ==> Pending(fd.events) == [] && end == old(end - pos)
      ensures ok ==> Budget(fd.events) < old(Budget(fd.events))
    {
      Compact();
      MakeRoom(need);
      ok := Receive();
    }

    // require: keep filling until n bytes are in hand or no more will come.
    method Require(n: nat) returns (ok: bool)
      requires Valid() && n <= MAX_FRAME_BYTES
      modifies this`pos, this`end, this`buf, buf, fd
      ensures Valid() && (buf == old(buf) || fresh(buf))
      ensures Unread() == old(Unread())
      ensures ok <==> n <= |Unread()|
      ensures ok ==> n <= end - pos
    {
      while end - pos < n
        invariant Valid() && (buf == old(buf) || fresh(buf))
        invariant Unread() == old(Unread())
        decreases Budget(fd.events)
      {
        var filled := Fill(n);
        assert buf[pos..end] == buf[..end];
        if !filled {
          return false;
        }
      }
      return true;
    }

    // Require n bytes and consume them.
    method Take(n: nat) returns (ok: bool, bytes: Bytes)
      requires Valid() && n <= MAX_FRAME_BYTES
      modifies this`pos, this`end, this`buf, buf, fd
      ensures Valid() && (buf == old(buf) || fresh(buf))
      ensures ok <==> n <= |old(Unread())|
      ensures ok ==> bytes == old(Unread())[..n] && Unread() == old(Unread())[n..]
    {
      bytes := [];
      ok := Require(n);
      if ok {
        bytes := buf[pos..pos + n];
        ghost var window, coming := buf[pos..end], Pending(fd.events);
        assert bytes == window[..n] && buf[pos + n..end] == window[n..];
        TakenOff(window, coming, n);
        pos := pos + n;
      }
    }

    // [u32 len][len bytes], as next() takes the name and the payload
    method ReadField() returns (ok: bool, field: Bytes)
      requires Valid()
      modifies this`pos, this`end, this`buf, buf, fd
      ensures Valid() && (buf == old(buf) || fresh(buf))
      ensures ok == TakeField(old(Unread())).Some?
      ensures ok ==> TakeField(old(Unread())) == Some((field, Unread()))
    {
      ghost var s := Unread();
      field := [];
      var prefix;
      ok, prefix := Take(4);
      if !ok {
        return;
      }
      var len := DecodeU32(prefix);
      if len > MAX_FRAME_BYTES {
        return false, [];
      }
      ok, field := Take(len);
      if ok {
        assert s[4..][..len] == s[4..4 + len] && s[4..][len..] == s[4 + len..];
      }
    }

    // next: one frame, or false once the stream ends, stops mid-frame or
    // announces an oversized field.
    method Next() returns (r: Option<Frame>)
      requires Valid()
      modifies this`pos, this`end, this`buf, buf, fd
      ensures Valid() && (buf == old(buf) || fresh(buf))
      ensures r.Some? == Decode(old(Unread())).Some?
      ensures r.Some? ==> Decode(old(Unread())) == Some((r.value, Unread()))
    {
      var ok, kind := Take(1);
      if !ok {
        return None;
      }
      var name, payload;
      ok, name := ReadField();
      if !ok {
        return None;
      }
      ok, payload := ReadField();
      if !ok {
        return None;
      }
      return Some(Frame(kind[0], name, payload));
    }
  }

  // Of all the frames these have been read and the rest are in these bytes.
  ghost predicate YetToCome(frames: seq<Frame>, unread: Bytes, all: seq<Frame>) {
    frames + DecodeAll(unread) == all
  }

  // A frame taken off the reader is the next one of the plain decoder.
  lemma NextOfAll(before: Bytes, f: Frame, rest: Bytes)
    requires Decode(before) == Some((f, rest))
    ensures DecodeAll(before) == [f] + DecodeAll(rest) && |rest| < |before|
  {
    assert |Build(f)| > 0;
  }

  lemma OneLess(frames: seq<Frame>, before: Bytes, f: Frame, rest: Bytes, all: seq<Frame>)
    requires YetToCome(frames, before, all) && Decode(before) == Some((f, rest))
    ensures YetToCome(frames + [f], rest, all) && |rest| < |before|
  {
    NextOfAll(before, f, rest);
    assert (frames + [f]) + DecodeAll(rest) == frames + ([f] + DecodeAll(rest));
  }

  lemma NoneToCome(frames: seq<Frame>, before: Bytes, all: seq<Frame>)
    requires YetToCome(frames, before, all) && Decode(before) == None
    ensures frames == all
  {
  }

  // The read loop of client_loop, local_loop and read_until_closed: whatever the
  // chunking, the frames seen are those of the plain decoder.
  method ReadAll(fd: Socket) returns (frames: seq<Frame>)
    requires NoEmptyData(fd.events)
    modifies fd
    ensures frames == DecodeAll(old(Pending(fd.events)))
  {
    ghost var all := DecodeAll(Pending(fd.events));
    var reader := new Reader(fd);
    frames := [];
    while true
      invariant reader.Valid() && reader.fd == fd && fresh(reader) && fresh(reader.buf)
      invariant YetToCome(frames, reader.Unread(), all)
      decreases |reader.Unread()|
    {
      ghost var before := reader.Unread();
      var f := reader.Next();
      if f.None? {
        NoneToCome(frames, before, all);
        return;
      }
      OneLess(frames, before, f.value, reader.Unread(), all);
      frames := frames + [f.value];
    }
  }

  // ---- writing ----------------------------------------------------------------

  // What send() will answer, call by call: some bytes taken, or EINTR; then an error.
  datatype Answer = Taken(n: nat) | SendInterrupted

  class Sink {
    var answers: seq<Answer>
    var written: Bytes

    // send(fd, p, n): a positive count, -1 with EINTR, or a failure
    method Send(p: Bytes) returns (k: int, interrupted: bool)
      requires p != []
      modifies this
      ensures -1 <= k <= |p|
      ensures k <= 0 ==> written == old(written)
      ensures k > 0 ==> written == old(written) + p[..k]
      ensures interrupted ==> k == -1
      ensures interrupted || k > 0 ==> |answers| < |old(answers)|
    {
      if answers == [] {
        return -1, false;
      }
      var a := answers[0];
      answers := answers[1..];
      if a.SendInterrupted? {
        return -1, true;
      }
      var n := if a.n <= |p| then a.n else |p|;
      written := written + p[..n];
      return n, false;
    }

    // write_full: true exactly when all of p went out; otherwise a proper prefix did.
    method WriteFull(p: Bytes) returns (ok: bool)
      modifies this
      ensures ok ==> written == old(written) + p
      ensures !ok ==> exists n: nat :: n < |p| && written == old(written) + p[..n]
    {
      var off: nat := 0;
      while off < |p|
        invariant off <= |p| && written == old(written) + p[..off]
        decreases |answers|
      {
        var k, interrupted := Send(p[off..]);
        if interrupted {
          continue;
        }
        if k <= 0 {
          return false;
        }
        assert p[..off] + p[off..][..k] == p[..off + k];
        off := off + k;
      }
      assert p[..off] == p;
      return true;
    }
  }
}
