/** The adapters between WebSocket messages and byte streams, and the relay loops built on them. */
module Streams {
  import opened Base

  lemma {:induction false} ConcatFront(ms: seq<Bytes>)
    requires ms != []
    ensures Concat(ms) == ms[0] + Concat(ms[1..])
  {
    if |ms| > 1 {
      var init := ms[..|ms| - 1];
      ConcatFront(init);
      assert init[1..] == ms[1..][..|ms| - 2];
      assert ms[1..][|ms| - 2] == ms[|ms| - 1];
    } else {
      assert ms == [] + [ms[0]];
      ConcatPush([], ms[0]);
    }
  }

  /** The messages of a connection that are still to be read before reading fails. */
  class MessageConn {
    var queue: seq<Bytes>

    method ReadMessage() returns (msg: Option<Bytes>)
      modifies this
      ensures old(queue) == [] ==> msg.None? && queue == []
      ensures old(queue) != [] ==> msg == Some(old(queue)[0]) && queue == old(queue)[1..]
    {
      if queue == [] {
        return None;
      }
      msg := Some(queue[0]);
      queue := queue[1..];
    }
  }

  class ByteReader {
    const data: Bytes
    var pos: nat

    ghost predicate Valid()
      reads this
    {
      pos <= |data|
    }

    function Unread(): Bytes
      requires Valid()
      reads this
    {
      data[pos..]
    }

    constructor (data: Bytes)
      ensures Valid() && Unread() == data && pos == 0
    {
      this.data, pos := data, 0;
    }

    method Read(b: array<Byte>) returns (n: nat, eof: bool)
      requires Valid()
      modifies this, b
      ensures Valid() && n <= b.Length && b[..n] + Unread() == old(Unread())
      ensures eof <==> old(Unread()) == []
      ensures !eof && b.Length > 0 ==> n > 0
      ensures b[n..] == old(b[..])[n..]
    {
      if pos >= |data| {
        return 0, true;
      }
      n := if b.Length < |data| - pos then b.Length else |data| - pos;
      forall i | 0 <= i < n {
        b[i] := data[pos + i];
      }
      assert b[..n] == data[pos..pos + n];
      pos := pos + n;
      eof := false;
    }
  }

  lemma SplitUnread(got: Bytes, left: Bytes, rest: Bytes, unread: Bytes)
    requires got + left == unread
    ensures got + (left + rest) == unread + rest
    ensures unread == [] ==> got == [] && left == [] && unread + rest == rest
    ensures unread != [] ==> unread + rest != []
  {
  }

  /** A WebSocket connection read as a byte stream. */
  class WsConn {
    const conn: MessageConn
    var reader: ByteReader?

    ghost predicate Valid()
      reads this, reader
    {
      reader != null ==> reader.Valid()
    }

    /** What is left of the message in hand, and the messages after it. */
    ghost function Pending(): Bytes
      requires Valid()
      reads this, reader, conn
    {
      (if reader == null then [] else reader.Unread()) + Concat(conn.queue)
    }

    constructor (conn: MessageConn)
      ensures Valid() && this.conn == conn && reader == null && Pending() == Concat(conn.queue)
    {
      this.conn, reader := conn, null;
    }

    /**
     Returns the next bytes of the stream, whatever the messages they came in:
     none is lost, repeated or reordered, empty messages are skipped, a buffer
     with room gets at least one byte, and reading fails only at the end.
     */
    method Read(b: array<Byte>) returns (n: nat, ok: bool)
      requires Valid()
      modifies this, reader, conn, b
      ensures Valid() && (reader == old(reader) || reader == null || fresh(reader))
      ensures n <= b.Length && b[..n] + Pending() == old(Pending())
      ensures ok <==> old(Pending()) != []
      ensures ok && b.Length > 0 ==> n > 0
      ensures !ok ==> n == 0
    {
      assert Concat([]) == [];
      hide Concat;
      while true
        invariant Valid() && (reader == old(reader) || reader == null || fresh(reader))
        invariant Pending() == old(Pending())
        decreases |conn.queue|, reader != null
      {
        if reader != null {
          var eof;
          ghost var unread, rest := reader.Unread(), Concat(conn.queue);
          n, eof := reader.Read(b);
          SplitUnread(b[..n], reader.Unread(), rest, unread);
          if eof {
            reader := null;
            if n > 0 {
              return n, true;
            }
            continue;
          }
          return n, true;
        }
        var queue := conn.queue;
        var msg := conn.ReadMessage();
        if msg.None? {
          return 0, false;
        }
        ConcatFront(queue);
        reader := new ByteReader(msg.value);
      }
    }
  }

  /** A stream that accepts `room` more bytes before writing fails. */
  class Sink {
    var written: Bytes
    var room: nat

    method Write(p: Bytes) returns (ok: bool)
      modifies this
      ensures ok == (|p| <= old(room))
      ensures written == old(written) + Taken(p, old(room))
      ensures room == old(room) - |Taken(p, old(room))|
    {
      var n := if |p| <= room then |p| else room;
      ok := n == |p|;
      written := written + p[..n];
      room := room - n;
    }
  }

  function Taken(p: Bytes, room: nat): Bytes {
    if |p| <= room then p else p[..room]
  }

  /** A write takes all of its bytes and leaves room for the rest, or it takes all there is room for. */
  lemma TakenInTwo(p: Bytes, q: Bytes, room: nat, before: Bytes)
    ensures before + Taken(p + q, room) ==
            if |p| <= room then (before + Taken(p, room)) + Taken(q, room - |p|) else before + Taken(p, room)
  {
  }

  /** io.Copy from the WebSocket to the local connection: all of the stream, or all that the connection takes. */
  method CopyFromWs(src: WsConn, dst: Sink, size: nat)
    requires src.Valid() && size > 0
    modifies src, src.reader, src.conn, dst
    ensures src.Valid()
    ensures dst.written == old(dst.written) + Taken(old(src.Pending()), old(dst.room))
  {
    var buf := new Byte[size](_ => 0);
    ghost var all := dst.written + Taken(src.Pending(), dst.room);
    hide WsConn.Pending, Taken;
    while true
      invariant src.Valid() && (src.reader == old(src.reader) || src.reader == null || fresh(src.reader))
      invariant dst.written + Taken(src.Pending(), dst.room) == all
      decreases |src.Pending()|
    {
      var n, ok := src.Read(buf);
      if !ok {
        TakenNothing(dst.written, dst.room);
        return;
      }
      TakenInTwo(buf[..n], src.Pending(), dst.room, dst.written);
      TakenLength(buf[..n], dst.room);
      ok := dst.Write(buf[..n]);
      if !ok {
        return;
      }
    }
  }

  lemma TakenNothing(before: Bytes, room: nat)
    ensures before + Taken([], room) == before
  {
  }

  lemma TakenLength(p: Bytes, room: nat)
    ensures |Taken(p, room)| == if |p| <= room then |p| else room
  {
  }

  // ---- Bytes into messages, and the relay loops of the server ----

  /** A WebSocket that accepts `room` more messages before writing fails. */
  class MessageOut {
    var sent: seq<Bytes>
    var room: nat

    method WriteMessage(m: Bytes) returns (ok: bool)
      modifies this
      ensures ok == (old(room) > 0)
      ensures sent == if ok then old(sent) + [m] else old(sent)
      ensures room == if ok then old(room) - 1 else 0
    {
      ok := room > 0;
      if ok {
        sent := sent + [m];
        room := room - 1;
      }
    }
  }

  /**
   A TCP connection read in pieces: what is left, the size of the next pieces,
   and whether the last piece comes together with the error that ends the stream.
   */
  class Source {
    var left: Bytes
    var sizes: seq<nat>
    const lastWithError: bool

    method Read(b: array<Byte>) returns (n: nat, failed: bool)
      requires b.Length > 0
      modifies this, b
      ensures n <= b.Length && b[..n] + left == old(left)
      ensures n > 0 <==> old(left) != []
      ensures failed <==> left == [] && (n == 0 || lastWithError)
    {
      var most := if |sizes| > 0 && 0 < sizes[0] <= b.Length then sizes[0] else b.Length;
      n := if |left| < most then |left| else most;
      forall i | 0 <= i < n {
        b[i] := left[i];
      }
      assert b[..n] == left[..n];
      left := left[n..];
      sizes := if |sizes| > 0 then sizes[1..] else [];
      failed := left == [] && (n == 0 || lastWithError);
    }
  }

  /** The sent messages carry exactly the bytes `took`, after those sent before. */
  ghost predicate Carries(sent: seq<Bytes>, before: seq<Bytes>, took: Bytes) {
    before <= sent && Concat(sent[|before|..]) == took && forall i :: |before| <= i < |sent| ==> sent[i] != []
  }

  lemma CarriesOneMore(sent: seq<Bytes>, before: seq<Bytes>, took: Bytes, m: Bytes)
    requires Carries(sent, before, took) && m != []
    ensures Carries(sent + [m], before, took + m)
  {
    assert (sent + [m])[|before|..] == sent[|before|..] + [m];
    ConcatPush(sent[|before|..], m);
  }

  /**
   io.Copy from a TCP connection to the WebSocket. A piece that comes together
   with the end is still sent: all bytes are, unless a write fails.
   */
  method CopyToWs(src: Source, dst: MessageOut, size: nat)
    requires size > 0
    modifies src, dst
    ensures exists took :: took <= old(src.left) && Carries(dst.sent, old(dst.sent), took)
                           && (dst.room > 0 ==> took == old(src.left))
  {
    var buf := new Byte[size](_ => 0);
    ghost var took: Bytes, all := [], src.left;
    assert Carries(dst.sent, old(dst.sent), took);
    hide Carries;
    var failed := false;
    while !failed
      invariant took + src.left == all && Carries(dst.sent, old(dst.sent), took)
      invariant failed ==> src.left == []
      decreases |src.left|, !failed
    {
      var n;
      n, failed := src.Read(buf);
      if n > 0 {
        var piece := buf[..n];
        ghost var before := dst.sent;
        var ok := dst.WriteMessage(piece);
        if !ok {
          assert took <= all;
          return;
        }
        CarriesOneMore(before, old(dst.sent), took, piece);
        assert took + (piece + src.left) == (took + piece) + src.left;
        took := took + piece;
      }
    }
    assert took == all;
  }

  /**
   The server's loop from the target to the WebSocket returns on any error of the
   read, so a last piece that comes together with the error is not sent.
   */
  method RelayFromTarget(target: Source, dst: MessageOut)
    modifies target, dst
    ensures exists took :: took <= old(target.left) && Carries(dst.sent, old(dst.sent), took)
                           && (dst.room > 0 && !target.lastWithError ==> took == old(target.left))
                           && (dst.room > 0 && old(target.left) != [] ==>
                                 (took == old(target.left) <==> !target.lastWithError))
  {
    var buf := new Byte[32 * 1024](_ => 0);
    ghost var took: Bytes, all := [], target.left;
    assert Carries(dst.sent, old(dst.sent), took);
    hide Carries;
    while true
      invariant took + target.left == all && Carries(dst.sent, old(dst.sent), took)
      invariant target.lastWithError ==> all == [] || target.left != []
      decreases |target.left|
    {
      var n, failed := target.Read(buf);
      TookPart(took, buf[..n], target.left, all);
      if failed {
        return;
      }
      ghost var before := dst.sent;
      var ok := dst.WriteMessage(buf[..n]);
      if !ok {
        return;
      }
      CarriesOneMore(before, old(dst.sent), took, buf[..n]);
      took := took + buf[..n];
    }
  }

  /** What has been taken so far, with one more piece and without it, is a part of all there was. */
  lemma TookPart(took: Bytes, piece: Bytes, left: Bytes, all: Bytes)
    requires took + (piece + left) == all
    ensures took <= all && (took + piece) + left == all
    ensures piece == [] && left == [] ==> took == all
    ensures piece != [] ==> took != all
  {
  }

  /** The server's loop from the WebSocket to the target. */
  method RelayToTarget(src: MessageConn, target: Sink)
    modifies src, target
    ensures target.written == old(target.written) + Taken(Concat(old(src.queue)), old(target.room))
  {
    ghost var all := target.written + Taken(Concat(src.queue), target.room);
    while true
      invariant target.written + Taken(Concat(src.queue), target.room) == all
      decreases |src.queue|
    {
      ghost var queue := src.queue;
      var msg := src.ReadMessage();
      if msg.None? {
        TakenNothing(target.written, target.room);
        return;
      }
      ConcatFront(queue);
      hide Concat, Taken;
      TakenInTwo(msg.value, Concat(src.queue), target.room, target.written);
      TakenLength(msg.value, target.room);
      var ok := target.Write(msg.value);
      if !ok {
        return;
      }
    }
  }

  // ---- The two loops of one direction, with the connection between them ----

  /** The messages that arrive, in order, before the connection fails. */
  function Arrived(sent: seq<Bytes>, before: nat, n: nat): seq<Bytes>
    requires before <= |sent|
  {
    if n <= |sent| - before then sent[before..before + n] else sent[before..]
  }

  lemma ArrivedIsPrefix(sent: seq<Bytes>, before: seq<Bytes>, n: nat, took: Bytes)
    requires Carries(sent, before, took)
    ensures Concat(Arrived(sent, |before|, n)) <= took
    ensures n >= |sent| - |before| ==> Concat(Arrived(sent, |before|, n)) == took
  {
    assert n >= |sent| - |before| ==> Arrived(sent, |before|, n) == sent[|before|..];
    ConcatPrefix(Arrived(sent, |before|, n), sent[|before|..]);
  }

  /** No write has failed, every message arrives, and the far end has room for all there was to read. */
  predicate AllPass(wire: MessageOut, arriving: nat, room: nat, read: Bytes)
    reads wire
  {
    wire.room > 0 && arriving >= |wire.sent| && room >= |read|
  }

  /**
   From the client's local connection to the target: the target gets a prefix of
   what the local connection holds, and all of it if no write fails and every
   message arrives.
   */
  method ClientToTarget(local: Source, wire: MessageOut, far: MessageConn, arriving: nat, target: Sink, size: nat)
    requires size > 0 && wire.sent == []
    modifies local, wire, far, target
    ensures exists got :: got <= old(local.left) && target.written == old(target.written) + got
                          && (AllPass(wire, arriving, old(target.room), old(local.left)) ==> got == old(local.left))
  {
    ghost var read, before := local.left, target.written;
    CopyToWs(local, wire, size);
    ghost var took :| took <= read && Carries(wire.sent, [], took) && (wire.room > 0 ==> took == read);
    far.queue := Arrived(wire.sent, 0, arriving);
    ArrivedIsPrefix(wire.sent, [], arriving, took);
    ghost var got := Taken(Concat(far.queue), target.room);
    TakenLength(Concat(far.queue), target.room);
    RelayToTarget(far, target);
    assert got <= read && target.written == before + got;
  }

  /** From the target to the client's local connection, likewise but for a last piece that comes with the error. */
  method TargetToClient(target: Source, wire: MessageOut, near: WsConn, arriving: nat, local: Sink, size: nat)
    requires size > 0 && near.Valid() && near.Pending() == [] && wire.sent == []
    modifies target, wire, near, near.reader, near.conn, local
    ensures exists got :: got <= old(target.left) && local.written == old(local.written) + got
                          && (AllPass(wire, arriving, old(local.room), old(target.left)) && !target.lastWithError ==>
                                got == old(target.left))
  {
    ghost var read, before, room := target.left, local.written, local.room;
    RelayFromTarget(target, wire);
    ghost var took :| took <= read && Carries(wire.sent, [], took)
                      && (wire.room > 0 && !target.lastWithError ==> took == read);
    near.conn.queue := Arrived(wire.sent, 0, arriving);
    ArrivedIsPrefix(wire.sent, [], arriving, took);
    ghost var got := Taken(near.Pending(), room);
    TakenLength(near.Pending(), room);
    CopyFromWs(near, local, size);
    assert got <= read && local.written == before + got;
  }
}
