/**
 Session-prefixed binary messages: the first 16 bytes of a WebSocket binary
 message name the session, the rest is the payload.
 */
module Frames {
  import opened Base

  const SESSION_ID_SIZE := 16

  datatype RawUuid = UUID(bytes: Bytes)

  type Uuid = u: RawUuid | |u.bytes| == SESSION_ID_SIZE
    witness UUID(seq(SESSION_ID_SIZE, _ => 0))

  /** The message that carries `payload` for session `sid`. */
  function Frame(sid: Uuid, payload: Bytes): Bytes {
    sid.bytes + payload
  }

  /** The session and payload a message carries; None for one shorter than a session id. */
  function Parse(data: Bytes): Option<(Uuid, Bytes)> {
    if |data| < SESSION_ID_SIZE then None
    else Some((UUID(data[..SESSION_ID_SIZE]), data[SESSION_ID_SIZE..]))
  }

  /** Parsing inverts framing, and nothing but a frame of (sid, payload) parses to (sid, payload). */
  lemma ParseIffFrame(data: Bytes, sid: Uuid, payload: Bytes)
    ensures Parse(data) == Some((sid, payload)) <==> data == Frame(sid, payload)
  {
    if data == Frame(sid, payload) {
      assert data[..SESSION_ID_SIZE] == sid.bytes;
      assert data[SESSION_ID_SIZE..] == payload;
    }
    assert |data| >= SESSION_ID_SIZE ==> data == data[..SESSION_ID_SIZE] + data[SESSION_ID_SIZE..];
  }

  method PrependSessionID(sid: Uuid, payload: array<Byte>) returns (out: array<Byte>)
    ensures fresh(out)
    ensures out[..] == Frame(sid, payload[..])
  {
    out := new Byte[SESSION_ID_SIZE + payload.Length];
    forall i | 0 <= i < SESSION_ID_SIZE {
      out[i] := sid.bytes[i];
    }
    forall i | 0 <= i < payload.Length {
      out[SESSION_ID_SIZE + i] := payload[i];
    }
  }

  method ParsePrefixedMessage(data: array<Byte>) returns (sid: Uuid, body: Bytes, ok: bool)
    ensures ok <==> Parse(data[..]).Some?
    ensures ok ==> Parse(data[..]) == Some((sid, body))
    ensures !ok ==> body == []
  {
    var id := new Byte[SESSION_ID_SIZE](_ => 0);
    body := [];
    if data.Length < SESSION_ID_SIZE {
      sid := UUID(id[..]);
      return sid, body, false;
    }
    forall i | 0 <= i < SESSION_ID_SIZE {
      id[i] := data[i];
    }
    assert id[..] == data[..][..SESSION_ID_SIZE];
    sid := UUID(id[..]);
    body := data[SESSION_ID_SIZE..];
    assert body == data[..][SESSION_ID_SIZE..];
    ok := true;
  }
}
