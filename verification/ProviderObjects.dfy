/**
 The provider process as an object: its map of dialled connections and what it
 writes to the broker. As on the broker's side, each method is one atomic
 section and one step of the transition system.
 */
module ProviderObjects {
  import opened Base
  import opened Frames
  import opened Sessions
  import opened Channels
  import opened ChannelProofs

  /** A dialled local connection. */
  class TcpConn {
    var open: bool
    var written: Bytes

    constructor ()
      ensures open && written == []
    {
      open, written := true, [];
    }

    /** A failed write may have written the first `n` bytes. */
    method Write(body: Bytes, n: nat, fails: bool)
      requires n <= |body|
      modifies this`written
      ensures written == old(written) + if fails then body[..n] else body
    {
      written := written + if fails then body[..n] else body;
    }

    method Close()
      modifies this`open
      ensures !open
    {
      open := false;
    }
  }

  ghost predicate SameWritten(c: Channel, c': Channel, x: Uuid) {
    c'.At(x).written == c.At(x).written
  }

  lemma ProvEffect(c: Channel, l: ProvStep)
    requires c.Inv() && Enabled(c, Prov(l)) && !l.ProvRead?
    ensures var c' := Apply(c, Prov(l));
      && c'.WellFormed() && c'.Inv()
      && (forall y: Uuid :: (l.ProvWrite? && y == c.prov.sid) || SameWritten(c, c', y))
  {
    StepKeeps(c, Prov(l));
    hide Channel.Inv;
  }

  lemma PumpEffect(c: Channel, x: Uuid, l: PumpStep)
    requires c.Inv() && Enabled(c, Pump(x, l))
    ensures var c' := Apply(c, Pump(x, l));
      && c'.WellFormed() && c'.Inv()
      && (forall y: Uuid :: SameWritten(c, c', y))
  {
    StepKeeps(c, Pump(x, l));
    hide Channel.Inv;
  }

  /** What one message from the broker does to a serving provider. */
  lemma ReadEffect(c: Channel, dialOk: bool)
    requires c.Inv() && c.prov.Serving? && Enabled(c, Prov(ProvRead(dialOk)))
    ensures var (m, c') := (c.b.down[c.downCur], Apply(c, Prov(ProvRead(dialOk))));
      && c'.WellFormed() && c'.Inv()
      && (forall y: Uuid :: (m.Attach? && dialOk && y == m.sid) || SameWritten(c, c', y))
      && (m.Attach? ==>
            && c'.prov == Acking(m.sid, dialOk)
            && c'.p == (if dialOk then c.p.(tcp := c.p.tcp + {m.sid}) else c.p)
            && (dialOk ==> c'.At(m.sid).written == []))
      && (m.Detach? ==> c'.prov == Serving && c'.p == c.p.(tcp := c.p.tcp - {m.sid}))
      && (m.DownBinary? ==>
            && c'.p == c.p
            && c'.prov == if Parse(m.data).Some? && Parse(m.data).value.0 in c.p.tcp
                          then Writing(Parse(m.data).value.0, Parse(m.data).value.1) else Serving)
  {
    StepKeeps(c, Prov(ProvRead(dialOk)));
    hide Channel.Inv, Parse;
  }

  lemma CallsElsewhere(c: Channel, x: Uuid, l: CallStep)
    requires c.WellFormed() && Enabled(c, Call(x, l))
    ensures Apply(c, Call(x, l)).p == c.p && forall y: Uuid :: SameWritten(c, Apply(c, Call(x, l)), y)
  {
    hide CallBroker, UpPartOf;
  }

  lemma LoopElsewhere(c: Channel, l: LoopStep)
    requires c.WellFormed() && Enabled(c, Loop(l))
    ensures Apply(c, Loop(l)).p == c.p && forall y: Uuid :: SameWritten(c, Apply(c, Loop(l)), y)
  {
    hide Parse;
  }

  lemma ElsewhereEffect(c: Channel, l: Label)
    requires c.Inv() && Enabled(c, l)
    requires l.Call? || l.Loop? || (l.Pump? && (l.pump.PumpRead? || l.pump.PumpEnd?)) || (l.Prov? && l.prov.ProvStop?)
             || (l.Prov? && l.prov.ProvRead? && c.prov.Handshaking?)
    ensures Apply(c, l).WellFormed() && Apply(c, l).Inv() && Apply(c, l).p == c.p
    ensures forall y: Uuid :: SameWritten(c, Apply(c, l), y)
  {
    StepKeeps(c, l);
    hide Channel.Inv, Parse;
    if l.Call? {
      CallsElsewhere(c, l.sid, l.call);
    } else if l.Loop? {
      LoopElsewhere(c, l.loop);
    } else if l.Pump? {
      PumpEffect(c, l.pid, l.pump);
    }
  }

  class Provider {
    var tcpBySession: map<Uuid, TcpConn>
    /** What has been written to the broker. */
    var up: seq<UpMsg>
    ghost var state: Channel
    /** The last connection dialled for each session. */
    ghost var conns: map<Uuid, TcpConn>

    ghost predicate Valid()
      reads this, conns.Values
    {
      && state.WellFormed() && state.Inv()
      && state.p == ProviderSide(tcpBySession.Keys, up)
      && ConnsValid()
    }

    ghost predicate ConnsValid()
      reads this, conns.Values
    {
      && (forall x :: x in tcpBySession ==> x in conns && conns[x] == tcpBySession[x])
      && (forall x, y :: x in conns && y in conns && conns[x] == conns[y] ==> x == y)
      && (forall x :: x in conns ==> conns[x].written == state.At(x).written)
    }

    twostate lemma ConnsStay()
      requires old(ConnsValid()) && conns == old(conns)
      requires forall x :: x in tcpBySession ==> x in old(tcpBySession) && tcpBySession[x] == old(tcpBySession)[x]
      requires forall x :: x in conns ==> conns[x].written == old(conns[x].written) && SameWritten(old(state), state, x)
      ensures ConnsValid()
    {
    }

    twostate lemma ConnAdded(sid: Uuid, new tc: TcpConn)
      requires old(ConnsValid()) && tc !in old(conns).Values && tc.written == state.At(sid).written
      requires conns == old(conns)[sid := tc] && tcpBySession == old(tcpBySession)[sid := tc]
      requires forall x :: x in old(conns) && x != sid ==>
                 old(conns)[x].written == old(conns[x].written) && SameWritten(old(state), state, x)
      ensures ConnsValid()
    {
    }

    twostate lemma ConnWritten(sid: Uuid)
      requires old(ConnsValid()) && sid in conns && conns[sid].written == state.At(sid).written
      requires conns == old(conns) && tcpBySession == old(tcpBySession)
      requires forall x :: x in conns && x != sid ==>
                 conns[x].written == old(conns[x].written) && SameWritten(old(state), state, x)
      ensures ConnsValid()
    {
    }

    constructor ()
      ensures Valid() && state == NEW_CHANNEL && conns == map[]
    {
      tcpBySession, up := map[], [];
      state, conns := NEW_CHANNEL, map[];
      NewChannelInv();
      hide Channel.Inv;
    }

    /** The broker's moves, the reply to the handshake, and the moves that touch no object. */
    ghost method Elsewhere(l: Label)
      requires Valid() && Enabled(state, l)
      requires l.Call? || l.Loop? || (l.Pump? && (l.pump.PumpRead? || l.pump.PumpEnd?)) || (l.Prov? && l.prov.ProvStop?)
               || (l.Prov? && l.prov.ProvRead? && state.prov.Handshaking?)
      modifies this`state
      ensures Valid() && state == Apply(old(state), l)
    {
      ElsewhereEffect(state, l);
      hide Channel.Inv, ConnsValid, SameWritten, Apply, Enabled;
      state := Apply(state, l);
      ConnsStay();
    }

    // ---- ServeReverseProvider ----

    /** An attach: the dialled connection is mapped before the answer is written. */
    method ReadAttach(sid: Uuid, dialed: Option<TcpConn>)
      requires Valid() && state.prov.Serving? && Enabled(state, Prov(ProvRead(dialed.Some?)))
      requires state.b.down[state.downCur] == Attach(sid)
      requires dialed.Some? ==> dialed.value !in conns.Values && dialed.value.written == []
      modifies this
      ensures Valid()
      ensures state == Apply(old(state), Prov(ProvRead(dialed.Some?)))
      ensures state.prov == Acking(sid, dialed.Some?)
      ensures conns == if dialed.Some? then old(conns)[sid := dialed.value] else old(conns)
      ensures tcpBySession == if dialed.Some? then old(tcpBySession)[sid := dialed.value] else old(tcpBySession)
    {
      ReadEffect(state, dialed.Some?);
      hide Channel.Inv, Apply, Enabled, ConnsValid, SameWritten;
      state := Apply(state, Prov(ProvRead(dialed.Some?)));
      if dialed.Some? {
        tcpBySession := tcpBySession[sid := dialed.value];
        conns := conns[sid := dialed.value];
        ConnAdded(sid, dialed.value);
      } else {
        ConnsStay();
      }
    }

    method WriteAck(sid: Uuid, result: bool, fails: bool)
      requires Valid() && state.prov == Acking(sid, result)
      modifies this
      ensures Valid() && conns == old(conns)
      ensures state == Apply(old(state), Prov(ProvAck(!fails)))
      ensures up == if fails then old(up) else old(up) + [Attached(sid, result)]
    {
      ProvEffect(state, ProvAck(!fails));
      hide Channel.Inv, ConnsValid, SameWritten;
      if !fails {
        up := up + [Attached(sid, result)];
      }
      state := Apply(state, Prov(ProvAck(!fails)));
      ConnsStay();
    }

    /** A detach: the connection is unmapped and closed. */
    method ReadDetach(sid: Uuid)
      requires Valid() && state.prov.Serving? && Enabled(state, Prov(ProvRead(false)))
      requires state.b.down[state.downCur].Detach? && state.b.down[state.downCur].sid == sid
      modifies this, if sid in tcpBySession then {tcpBySession[sid]} else {}
      ensures Valid() && state == Apply(old(state), Prov(ProvRead(false))) && state.prov.Serving?
      ensures conns == old(conns) && (sid in old(tcpBySession) ==> !old(tcpBySession)[sid].open)
      ensures tcpBySession == old(tcpBySession) - {sid}
    {
      ReadEffect(state, false);
      hide Channel.Inv, Apply, Enabled, ConnsValid, SameWritten;
      if sid in tcpBySession {
        tcpBySession[sid].Close();
      }
      tcpBySession := tcpBySession - {sid};
      state := Apply(state, Prov(ProvRead(false)));
      ConnsStay();
    }

    /** A binary message: it is for the connection its session is mapped to. */
    method ReadBinary(data: Bytes) returns (conn: Option<TcpConn>)
      requires Valid() && state.prov.Serving? && Enabled(state, Prov(ProvRead(false)))
      requires state.b.down[state.downCur] == DownBinary(data)
      modifies this`state
      ensures Valid() && state == Apply(old(state), Prov(ProvRead(false)))
      ensures if conn.Some?
              then state.prov.Writing? && data == Frame(state.prov.sid, state.prov.body)
                   && state.prov.sid in conns && conns[state.prov.sid] == conn.value
              else state.prov.Serving?
    {
      ReadEffect(state, false);
      assert forall x :: x in tcpBySession ==> x in conns && conns[x] == tcpBySession[x];
      hide Channel.Inv, Apply, Enabled, ConnsValid, SameWritten, Parse;
      if Parse(data).Some? {
        ParseIffFrame(data, Parse(data).value.0, Parse(data).value.1);
      }
      var frame := Parse(data);
      conn := if frame.Some? && frame.value.0 in tcpBySession then Some(tcpBySession[frame.value.0]) else None;
      state := Apply(state, Prov(ProvRead(false)));
      ConnsStay();
    }

    method WriteTcp(sid: Uuid, body: Bytes, conn: TcpConn, n: nat, fails: bool)
      requires Valid() && state.prov == Writing(sid, body) && sid in conns && conns[sid] == conn && n <= |body|
      modifies this`state, conn
      ensures Valid() && state == Apply(old(state), Prov(ProvWrite(if fails then n else |body|, !fails)))
      ensures conn.written == old(conn.written) + if fails then body[..n] else body
    {
      ProvEffect(state, ProvWrite(if fails then n else |body|, !fails));
      assert forall x, y :: x in conns && y in conns && conns[x] == conns[y] ==> x == y;
      assert conn.written == state.At(sid).written;
      hide Channel.Inv, ConnsValid, SameWritten;
      conn.Write(body, n, fails);
      state := Apply(state, Prov(ProvWrite(if fails then n else |body|, !fails)));
      ConnWritten(sid);
    }

    /** After a failed write the session is unmapped, and the connection closed. */
    method DropFailed(sid: Uuid, conn: TcpConn)
      requires Valid() && state.prov == Dropping(sid) && sid in conns && conns[sid] == conn
      modifies this, conn`open
      ensures Valid() && state == Apply(old(state), Prov(ProvDrop)) && conns == old(conns) && !conn.open
      ensures tcpBySession == old(tcpBySession) - {sid}
    {
      ProvEffect(state, ProvDrop);
      hide Channel.Inv, ConnsValid, SameWritten;
      tcpBySession := tcpBySession - {sid};
      state := Apply(state, Prov(ProvDrop));
      ConnsStay();
      conn.Close();
      ConnsStay();
    }

    // ---- pumpReverseTCPToWS ----

    /** A chunk read from the connection is written as one frame of its session. */
    method PumpFrame(sid: Uuid, chunk: Bytes, fails: bool)
      requires Valid() && state.At(sid).pump == PumpHolding(chunk)
      modifies this
      ensures Valid() && state == Apply(old(state), Pump(sid, PumpWrite(!fails))) && conns == old(conns)
      ensures up == if fails then old(up) else old(up) + [UpBinary(Frame(sid, chunk))]
    {
      PumpEffect(state, sid, PumpWrite(!fails));
      hide Channel.Inv, ConnsValid, SameWritten;
      if !fails {
        up := up + [UpBinary(Frame(sid, chunk))];
      }
      state := Apply(state, Pump(sid, PumpWrite(!fails)));
      ConnsStay();
    }

    /** The end of a pump: the session is unmapped, and its connection closed. */
    method PumpUnmaps(sid: Uuid, conn: TcpConn)
      requires Valid() && state.At(sid).pump.PumpExiting? && sid in conns && conns[sid] == conn
      modifies this, conn`open
      ensures Valid() && state == Apply(old(state), Pump(sid, PumpUnmap)) && conns == old(conns)
      ensures tcpBySession == old(tcpBySession) - {sid} && !conn.open
    {
      PumpEffect(state, sid, PumpUnmap);
      hide Channel.Inv, ConnsValid, SameWritten;
      tcpBySession := tcpBySession - {sid};
      state := Apply(state, Pump(sid, PumpUnmap));
      conn.Close();
      ConnsStay();
    }
  }
}
