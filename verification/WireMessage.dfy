/** One message of the Jupyter messaging protocol 5.3 ("The Wire Protocol") as a list of frames:
    `Marshal` and `ParseMessage`. HMAC-SHA256 and the JSON codec of headers are parameters. */
module WireMessage {
  import opened Wrappers
  import opened Encoding

  datatype Header = Header(msgId: string, session: string, username: string, date: string, msgType: string, version: string)

  const ZERO_HEADER: Header := Header("", "", "", "", "", "")

  datatype Message = Message(identities: seq<Bytes>, header: Header, parentHeader: Header,
                             metadata: Bytes, content: Bytes, buffers: seq<Bytes>)

  /** What the standard library supplies: the MAC, and the JSON form of a header struct.
      `decode` is the struct left by decoding into a zero header, or the error. */
  datatype Library = Library(hmac: (Bytes, Bytes) -> Bytes, encode: Header -> Bytes, decode: Bytes -> Option<Header>)

  datatype Error = NoDelimiter | ShortMessage | SignatureMismatch | BadHeader | BadParentHeader

  /** The nine bytes of <IDS|MSG>. */
  const DELIMITER: Bytes := [60, 73, 68, 83, 124, 77, 83, 71, 62]
  /** The two bytes of {}. */
  const EMPTY_OBJECT: Bytes := [123, 125]
  const JUPYTER_VERSION := "5.3"

  /** The frames between the delimiter and the buffers. */
  datatype Signed = Signed(header: Bytes, parent: Bytes, metadata: Bytes, content: Bytes)

  function AsBytes(s: string): (b: Bytes)
    ensures |b| == |s|
  {
    seq(|s|, i requires 0 <= i < |s| => if s[i] as int < 256 then s[i] as int else 0)
  }

  function Concat(frames: seq<Bytes>): Bytes {
    if frames == [] then [] else Concat(frames[..|frames| - 1]) + frames[|frames| - 1]
  }

  /** hex(HMAC(key, header || parent || metadata || content)); empty without a key. */
  function Signature(lib: Library, key: Bytes, s: Signed): Bytes {
    if key == [] then [] else AsBytes(Hex(lib.hmac(key, Concat([s.header, s.parent, s.metadata, s.content]))))
  }

  function MarshalCompact(lib: Library, h: Header): Bytes {
    if h == ZERO_HEADER then EMPTY_OBJECT else lib.encode(h)
  }

  function OrEmpty(raw: Bytes): Bytes {
    if raw == [] then EMPTY_OBJECT else raw
  }

  /** The message as sending leaves it: date and version filled in when they were empty. */
  function Stamped(m: Message, now: string): Message {
    m.(header := m.header.(date := if m.header.date == "" then now else m.header.date,
                           version := if m.header.version == "" then JUPYTER_VERSION else m.header.version))
  }

  /** What a receiver gets to see of it. */
  function Delivered(m: Message, now: string): Message {
    Stamped(m, now).(metadata := OrEmpty(m.metadata), content := OrEmpty(m.content))
  }

  function SignedParts(lib: Library, m: Message): Signed {
    Signed(MarshalCompact(lib, m.header), MarshalCompact(lib, m.parentHeader), OrEmpty(m.metadata), OrEmpty(m.content))
  }

  function Frames(lib: Library, key: Bytes, m: Message): seq<Bytes> {
    var s := SignedParts(lib, m);
    m.identities + [DELIMITER, Signature(lib, key, s), s.header, s.parent, s.metadata, s.content] + m.buffers
  }

  // ---- receiving, declaratively ---------------------------------------------------------

  /** `d` is where the first delimiter frame stands. */
  ghost predicate FirstDelimiter(frames: seq<Bytes>, d: nat) {
    d < |frames| && frames[d] == DELIMITER && forall i :: 0 <= i < d ==> frames[i] != DELIMITER
  }

  function PartsAt(frames: seq<Bytes>, d: nat): Signed
    requires d + 6 <= |frames|
  {
    Signed(frames[d + 2], frames[d + 3], frames[d + 4], frames[d + 5])
  }

  ghost predicate SignatureOk(lib: Library, key: Bytes, frames: seq<Bytes>, d: nat)
    requires d + 6 <= |frames|
  {
    key == [] || frames[d + 1] == Signature(lib, key, PartsAt(frames, d))
  }

  /** The parent header a frame stands for; an empty frame and `{}` stand for none. */
  function ParentOf(lib: Library, parent: Bytes): Option<Header> {
    if parent == [] || parent == EMPTY_OBJECT then Some(ZERO_HEADER) else lib.decode(parent)
  }

  /** What becomes of `frames` whose first delimiter stands at `d`. */
  ghost predicate OutcomeAt(lib: Library, key: Bytes, frames: seq<Bytes>, d: nat, r: Result<Message, Error>) {
    if |frames| < d + 6 then r == Err(ShortMessage)
    else if !SignatureOk(lib, key, frames, d) then r == Err(SignatureMismatch)
    else
      var s := PartsAt(frames, d);
      match (lib.decode(s.header), ParentOf(lib, s.parent))
      case (None, _) => r == Err(BadHeader)
      case (Some(_), None) => r == Err(BadParentHeader)
      case (Some(h), Some(p)) => r == Ok(Message(frames[..d], h, p, s.metadata, s.content, frames[d + 6..]))
  }

  ghost predicate Outcome(lib: Library, key: Bytes, frames: seq<Bytes>, r: Result<Message, Error>) {
    if DELIMITER !in frames then r == Err(NoDelimiter)
    else exists d: nat :: FirstDelimiter(frames, d) && OutcomeAt(lib, key, frames, d, r)
  }

  // ---- the code -------------------------------------------------------------------------

  /** A copy of the frames; an empty list and a missing one are the same to its callers. */
  method CloneFrames(frames: seq<Bytes>) returns (out: seq<Bytes>)
    ensures out == frames
  {
    if |frames| == 0 {
      return [];
    }
    out := [];
    for i := 0 to |frames|
      invariant out == frames[..i]
    {
      out := out + [frames[i]];
    }
  }

  method Sign(lib: Library, key: Bytes, parts: seq<Bytes>) returns (sig: Bytes)
    ensures sig == if key == [] then [] else AsBytes(Hex(lib.hmac(key, Concat(parts))))
  {
    if |key| == 0 {
      return [];
    }
    var buf := [];
    for i := 0 to |parts|
      invariant buf == Concat(parts[..i])
    {
      assert parts[..i + 1] == parts[..i] + [parts[i]];
      buf := buf + parts[i];
    }
    assert parts[..|parts|] == parts;
    sig := AsBytes(Hex(lib.hmac(key, buf)));
  }

  method ParseMessage(lib: Library, frames: seq<Bytes>, key: Bytes) returns (r: Result<Message, Error>)
    ensures Outcome(lib, key, frames, r)
  {
    var delim := -1;
    for i := 0 to |frames|
      invariant delim == -1 && forall j :: 0 <= j < i ==> frames[j] != DELIMITER
    {
      if frames[i] == DELIMITER {
        delim := i;
        break;
      }
    }
    if delim < 0 {
      return Err(NoDelimiter);
    }
    assert FirstDelimiter(frames, delim);
    if |frames| < delim + 6 {
      return Err(ShortMessage);
    }
    var s := Signed(frames[delim + 2], frames[delim + 3], frames[delim + 4], frames[delim + 5]);
    if |key| > 0 {
      var want := Sign(lib, key, [s.header, s.parent, s.metadata, s.content]);
      if want != frames[delim + 1] {
        return Err(SignatureMismatch);
      }
    }
    var identities := CloneFrames(frames[..delim]);
    var buffers := CloneFrames(frames[delim + 6..]);
    var header := lib.decode(s.header);
    if header.None? {
      return Err(BadHeader);
    }
    var parent := ZERO_HEADER;
    if |s.parent| > 0 && s.parent != EMPTY_OBJECT {
      var decoded := lib.decode(s.parent);
      if decoded.None? {
        return Err(BadParentHeader);
      }
      parent := decoded.value;
    }
    r := Ok(Message(identities, header.value, parent, s.metadata, s.content, buffers));
    assert OutcomeAt(lib, key, frames, delim, r);
  }

  /** A message about to be sent; sending fills in its date and version in place. */
  class Outgoing {
    var message: Message

    constructor (m: Message)
      ensures message == m
    {
      message := m;
    }

    method Marshal(lib: Library, key: Bytes, now: string) returns (parts: seq<Bytes>)
      modifies this
      ensures message == Stamped(old(message), now)
      ensures parts == Frames(lib, key, message)
    {
      if message.header.date == "" {
        message := message.(header := message.header.(date := now));
      }
      if message.header.version == "" {
        message := message.(header := message.header.(version := JUPYTER_VERSION));
      }
      var headerJSON := MarshalCompact(lib, message.header);
      var parentJSON := MarshalCompact(lib, message.parentHeader);
      var metaJSON := if |message.metadata| == 0 then EMPTY_OBJECT else message.metadata;
      var contentJSON := if |message.content| == 0 then EMPTY_OBJECT else message.content;
      var sig := Sign(lib, key, [headerJSON, parentJSON, metaJSON, contentJSON]);
      parts := message.identities;
      parts := parts + [DELIMITER, sig, headerJSON, parentJSON, metaJSON, contentJSON];
      parts := parts + message.buffers;
    }
  }

  // ---- sending and receiving together -----------------------------------------------------

  /** The JSON codec reads back the two headers of `m` as it wrote them, and never writes a header
      with a non-empty field as the empty object. */
  ghost predicate CodecInverts(lib: Library, m: Message) {
    && lib.decode(lib.encode(m.header)) == Some(m.header)
    && lib.decode(lib.encode(m.parentHeader)) == Some(m.parentHeader)
    && (m.parentHeader != ZERO_HEADER ==> lib.encode(m.parentHeader) != EMPTY_OBJECT && lib.encode(m.parentHeader) != [])
  }

  lemma FramesAt(lib: Library, key: Bytes, m: Message)
    ensures var frames, n, s := Frames(lib, key, m), |m.identities|, SignedParts(lib, m);
            && |frames| >= n + 6 && frames[..n] == m.identities && frames[n + 6..] == m.buffers
            && frames[n] == DELIMITER && frames[n + 1] == Signature(lib, key, s) && PartsAt(frames, n) == s
  {}

  /** Parsing has one outcome: the position of the delimiter leaves no choice. */
  lemma OutcomeUnique(lib: Library, key: Bytes, frames: seq<Bytes>, r: Result<Message, Error>, r': Result<Message, Error>)
    requires Outcome(lib, key, frames, r) && Outcome(lib, key, frames, r')
    ensures r == r'
  {
    if DELIMITER in frames {
      var d: nat :| FirstDelimiter(frames, d) && OutcomeAt(lib, key, frames, d, r);
      var e: nat :| FirstDelimiter(frames, e) && OutcomeAt(lib, key, frames, e, r');
      assert d == e;
    }
  }

  /** The frames a message is sent as, from the delimiter on: an empty parent header, metadata or content is
      `{}`, and the signature covers the four parts as sent. */
  lemma SentFrames(lib: Library, key: Bytes, m: Message)
    ensures var frames, n := Frames(lib, key, m), |m.identities|;
            && |frames| == n + 6 + |m.buffers| && frames[..n] == m.identities && frames[n + 6..] == m.buffers
            && frames[n] == [60, 73, 68, 83, 124, 77, 83, 71, 62]
            && frames[n + 1] == (if key == [] then []
                                 else AsBytes(Hex(lib.hmac(key, frames[n + 2] + frames[n + 3] + frames[n + 4] + frames[n + 5]))))
            && (m.header != Header("", "", "", "", "", "") ==> frames[n + 2] == lib.encode(m.header))
            && frames[n + 3] == (if m.parentHeader == Header("", "", "", "", "", "") then [123, 125] else lib.encode(m.parentHeader))
            && frames[n + 4] == (if m.metadata == [] then [123, 125] else m.metadata)
            && frames[n + 5] == (if m.content == [] then [123, 125] else m.content)
  {
    var s := SignedParts(lib, m);
    FramesAt(lib, key, m);
    ConcatFour(s.header, s.parent, s.metadata, s.content);
    hide Concat, Hex, AsBytes;
  }

  lemma DeliveredBack(lib: Library, key: Bytes, m: Message, now: string, r: Result<Message, Error>)
    requires now != "" && CodecInverts(lib, Stamped(m, now))
    requires Outcome(lib, key, Frames(lib, key, Stamped(m, now)), r)
    ensures r == Ok(Delivered(m, now)) <==> DELIMITER !in m.identities
  {
    var sent := Stamped(m, now);
    var frames, n := Frames(lib, key, sent), |m.identities|;
    FramesAt(lib, key, sent);
    assert frames[n] in frames;
    if DELIMITER !in m.identities {
      assert FirstDelimiter(frames, n) && OutcomeAt(lib, key, frames, n, Ok(Delivered(m, now)));
      OutcomeUnique(lib, key, frames, r, Ok(Delivered(m, now)));
    } else if r.Ok? {
      var d: nat :| FirstDelimiter(frames, d) && OutcomeAt(lib, key, frames, d, r);
      assert DELIMITER !in r.value.identities;
    }
  }

  lemma DeliveredIs(m: Message, now: string)
    ensures var h := m.header;
            var header := Header(h.msgId, h.session, h.username, if h.date == "" then now else h.date,
                                 h.msgType, if h.version == "" then "5.3" else h.version);
            Delivered(m, now) == Message(m.identities, header, m.parentHeader, if m.metadata == [] then [123, 125] else m.metadata,
                                         if m.content == [] then [123, 125] else m.content, m.buffers)
  {}

  /** What is parsed back from a sent message is the message with date and version filled in where they were
      empty, and with empty metadata and content as `{}`, whatever the buffers hold, exactly when no identity
      frame is a delimiter. */
  lemma RoundTrip(lib: Library, key: Bytes, m: Message, now: string, r: Result<Message, Error>)
    requires now != "" && CodecInverts(lib, Stamped(m, now))
    requires Outcome(lib, key, Frames(lib, key, Stamped(m, now)), r)
    ensures var h := m.header;
            var header := Header(h.msgId, h.session, h.username, if h.date == "" then now else h.date,
                                 h.msgType, if h.version == "" then "5.3" else h.version);
            r == Ok(Message(m.identities, header, m.parentHeader, if m.metadata == [] then [123, 125] else m.metadata,
                            if m.content == [] then [123, 125] else m.content, m.buffers))
            <==> DELIMITER !in m.identities
  {
    hide CodecInverts, Outcome, Frames, Stamped, Delivered;
    DeliveredBack(lib, key, m, now, r);
    DeliveredIs(m, now);
  }

  /** Which refusal comes when: no delimiter; fewer than six frames from the first one on; with a key, another
      signature than that of the four parts; and then a header, or a parent header that is not empty, that does
      not decode. */
  lemma RefusedIff(lib: Library, key: Bytes, frames: seq<Bytes>, d: nat, r: Result<Message, Error>)
    requires Outcome(lib, key, frames, r) && d < |frames| && frames[d] == DELIMITER && DELIMITER !in frames[..d]
    ensures r != Err(NoDelimiter)
    ensures r == Err(ShortMessage) <==> |frames| < d + 6
    ensures |frames| >= d + 6 ==>
              var signed := key == [] || frames[d + 1] == AsBytes(Hex(lib.hmac(key, frames[d + 2] + frames[d + 3] + frames[d + 4] + frames[d + 5])));
              && (r == Err(SignatureMismatch) <==> !signed)
              && (r == Err(BadHeader) <==> signed && lib.decode(frames[d + 2]) == None)
              && (r == Err(BadParentHeader) <==>
                    signed && lib.decode(frames[d + 2]).Some? && frames[d + 3] !in {[], [123, 125]} && lib.decode(frames[d + 3]) == None)
  {
    var e: nat :| FirstDelimiter(frames, e) && OutcomeAt(lib, key, frames, e, r);
    assert forall i :: 0 <= i < d ==> frames[i] in frames[..d];
    assert e == d;
    if |frames| >= d + 6 {
      ConcatFour(frames[d + 2], frames[d + 3], frames[d + 4], frames[d + 5]);
    }
    hide Concat, Hex, AsBytes;
  }

  lemma NoDelimiterIff(lib: Library, key: Bytes, frames: seq<Bytes>, r: Result<Message, Error>)
    requires Outcome(lib, key, frames, r)
    ensures r == Err(NoDelimiter) <==> DELIMITER !in frames
  {
    hide Signature;
  }

  /** With a key, nothing is accepted but under the signature of its own four parts. */
  lemma AcceptedIsSigned(lib: Library, key: Bytes, frames: seq<Bytes>, m: Message)
    requires key != [] && Outcome(lib, key, frames, Ok(m))
    ensures var d := |m.identities|;
            && FirstDelimiter(frames, d) && d + 6 <= |frames|
            && frames[d + 1] == AsBytes(Hex(lib.hmac(key, frames[d + 2] + frames[d + 3] + frames[d + 4] + frames[d + 5])))
            && m.metadata == frames[d + 4] && m.content == frames[d + 5]
  {
    var d: nat :| FirstDelimiter(frames, d) && OutcomeAt(lib, key, frames, d, Ok(m));
    ConcatFour(frames[d + 2], frames[d + 3], frames[d + 4], frames[d + 5]);
  }

  lemma ConcatFour(a: Bytes, b: Bytes, c: Bytes, d: Bytes)
    ensures Concat([a, b, c, d]) == a + b + c + d
  {
    assert [a, b, c, d][..3] == [a, b, c] && [a, b, c][..2] == [a, b] && [a, b][..1] == [a] && [a][..0] == [];
    assert Concat([a]) == a && Concat([a, b]) == a + b && Concat([a, b, c]) == a + b + c;
  }

  lemma AsBytesInjective(s: string, t: string)
    requires AsBytes(s) == AsBytes(t) && (forall c :: c in s || c in t ==> c as int < 256)
    ensures s == t
  {
    assert |s| == |AsBytes(s)| == |t|;
    forall i | 0 <= i < |s|
      ensures s[i] == t[i]
    {
      assert AsBytes(s)[i] == AsBytes(t)[i] && s[i] in s && t[i] in t;
    }
  }

  /** Two accepted messages under one signature frame have one MAC: unless the MAC collides, their
      signed bytes are the same. */
  lemma SameSignatureSameMac(lib: Library, key: Bytes, a: Signed, b: Signed)
    requires key != [] && Signature(lib, key, a) == Signature(lib, key, b)
    ensures lib.hmac(key, a.header + a.parent + a.metadata + a.content) == lib.hmac(key, b.header + b.parent + b.metadata + b.content)
  {
    ConcatFour(a.header, a.parent, a.metadata, a.content);
    ConcatFour(b.header, b.parent, b.metadata, b.content);
    var x := lib.hmac(key, a.header + a.parent + a.metadata + a.content);
    var y := lib.hmac(key, b.header + b.parent + b.metadata + b.content);
    AsBytesInjective(Hex(x), Hex(y));
    HexInjective(x, y);
  }
}
