/**
 * The message envelope (MessageContainer.swift): a type tag naming the
 * payload's type and an optional serialized payload, with the tag derived from
 * the payload type's name and a codec whose decoder reports bad input as
 * absence rather than as a fault.
 *
 * The envelope's JSON encoding is replaced by a simpler byte format with the
 * same contract:
 *   0x7B, then each tag character as three big-endian bytes, then 0xFF,
 *   then 0x00 for an absent payload, or 0x01 followed by the payload bytes.
 * A character's first byte is at most 0x10, so 0xFF cannot start one.
 */
module Container {
  import opened Wrappers
  import opened Text

  type Byte = b: int | 0 <= b < 256
  type Bytes = seq<Byte>

  /**
   * A Swift message type: its name and the scope it is declared in (module
   * and enclosing types).
   */
  datatype MessageType = MessageType(scope: seq<string>, name: string)

  /**
   * `String.metatype(from:)`: `String(describing:)` of the type, which is its
   * name without the enclosing scope.
   */
  function Metatype(t: MessageType): string {
    t.name
  }

  /** Two types get the same tag exactly when their names are the same. */
  lemma MetatypeDistinguishesNames(s: MessageType, t: MessageType)
    ensures Metatype(s) == Metatype(t) <==> s.name == t.name
  {
  }

  /** Same-named types declared in different scopes are routed under one tag. */
  lemma MetatypeIgnoresScope()
    ensures var a, b := MessageType(["Client"], "Ping"), MessageType(["Server"], "Ping");
      a != b && Metatype(a) == Metatype(b)
  {
  }

  /** Swift identifiers contain no dots. */
  predicate WellFormedType(t: MessageType) {
    '.' !in t.name && forall i :: 0 <= i < |t.scope| ==> '.' !in t.scope[i]
  }

  /**
   * A tag that is unique, as `metatype(from:)` promises: the scope and the
   * name joined by dots, the way `String(reflecting:)` writes a type.
   */
  function QualifiedMetatype(t: MessageType): string {
    Join(t.scope + [t.name], '.')
  }

  /** Qualified tags are equal exactly when the types are. */
  lemma QualifiedMetatypeUnique(s: MessageType, t: MessageType)
    requires WellFormedType(s) && WellFormedType(t)
    ensures QualifiedMetatype(s) == QualifiedMetatype(t) <==> s == t
  {
    if QualifiedMetatype(s) == QualifiedMetatype(t) {
      var ps, pt := s.scope + [s.name], t.scope + [t.name];
      ComponentsOfJoin(ps, '.');
      ComponentsOfJoin(pt, '.');
      assert ps == pt;
      assert s.scope == ps[..|ps| - 1] && t.scope == pt[..|pt| - 1];
      assert s.name == ps[|ps| - 1] && t.name == pt[|pt| - 1];
    }
  }

  datatype MessageContainer = MessageContainer(metatype: string, content: Option<Bytes>)

  /** `init(messageType:content:)`: tag from the type, content kept as given. */
  function Make(messageType: MessageType, content: Option<Bytes>): (c: MessageContainer)
    ensures c.metatype == Metatype(messageType) && c.content == content
  {
    MessageContainer(Metatype(messageType), content)
  }

  const ObjectStart: Byte := 0x7B
  const TagEnd: Byte := 0xFF
  const NoContent: Byte := 0x00
  const HasContent: Byte := 0x01

  predicate IsScalarValue(v: int) {
    0 <= v < 0xD800 || 0xE000 <= v < 0x11_0000
  }

  function EncodeChar(c: char): (bs: Bytes)
    ensures |bs| == 3 && bs[0] <= 0x10
  {
    var v := c as int;
    [v / 0x1_0000, (v / 0x100) % 0x100, v % 0x100]
  }

  /** The code point that three big-endian bytes spell. */
  function CharValue(b0: Byte, b1: Byte, b2: Byte): int {
    b0 as int * 0x1_0000 + b1 as int * 0x100 + b2 as int
  }

  lemma CharValueBytes(b0: Byte, b1: Byte, b2: Byte)
    ensures var v := CharValue(b0, b1, b2);
      v / 0x1_0000 == b0 as int && (v / 0x100) % 0x100 == b1 as int && v % 0x100 == b2 as int
  {
    var v := CharValue(b0, b1, b2);
    var low := b1 as int * 0x100 + b2 as int;
    assert 0 <= low < 0x1_0000;
    assert v == b0 as int * 0x1_0000 + low;
    assert v / 0x1_0000 == b0 as int;
    assert v / 0x100 == b0 as int * 0x100 + b1 as int;
    assert (v / 0x100) % 0x100 == b1 as int;
    assert v == (b0 as int * 0x100 + b1 as int) * 0x100 + b2 as int;
    assert v % 0x100 == b2 as int;
  }

  /** The three bytes of a character spell its code point. */
  lemma EncodeCharValue(c: char)
    ensures var bs := EncodeChar(c); CharValue(bs[0], bs[1], bs[2]) == c as int
  {
    var v := c as int;
    var hi, mid, lo := v / 0x1_0000, (v / 0x100) % 0x100, v % 0x100;
    assert v / 0x100 == hi * 0x100 + mid;
    assert v == (v / 0x100) * 0x100 + lo;
  }

  function EncodeTag(s: string): Bytes {
    if s == [] then [TagEnd] else EncodeChar(s[0]) + EncodeTag(s[1..])
  }

  /** Reads a tag from the front of `bs`, returning it and the bytes after it. */
  function DecodeTag(bs: Bytes): Option<(string, Bytes)> {
    if |bs| == 0 then None
    else if bs[0] == TagEnd then Some(([], bs[1..]))
    else if |bs| < 3 then None
    else
      var v := CharValue(bs[0], bs[1], bs[2]);
      if !IsScalarValue(v) then None
      else match DecodeTag(bs[3..])
        case None => None
        case Some((s, rest)) => Some(([v as char] + s, rest))
  }

  function EncodeContent(content: Option<Bytes>): Bytes {
    match content
    case None => [NoContent]
    case Some(bs) => [HasContent] + bs
  }

  function DecodeContent(bs: Bytes): Option<Option<Bytes>> {
    if bs == [NoContent] then Some(None)
    else if |bs| >= 1 && bs[0] == HasContent then Some(Some(bs[1..]))
    else None
  }

  /** Serializes a container. */
  function Encode(c: MessageContainer): (data: Bytes)
    ensures |data| > 0
  {
    [ObjectStart] + EncodeTag(c.metatype) + EncodeContent(c.content)
  }

  /** `decode(from:)`: the container `data` encodes, or None when `data` is not a valid encoding. */
  function Decode(data: Bytes): Option<MessageContainer> {
    if |data| == 0 || data[0] != ObjectStart then None
    else match DecodeTag(data[1..])
      case None => None
      case Some((tag, rest)) =>
        match DecodeContent(rest)
        case None => None
        case Some(content) => Some(MessageContainer(tag, content))
  }

  lemma {:induction false} DecodeEncodeTag(s: string, rest: Bytes)
    ensures DecodeTag(EncodeTag(s) + rest) == Some((s, rest))
  {
    if s == [] {
      assert (EncodeTag(s) + rest)[1..] == rest;
    } else {
      var bs := EncodeTag(s) + rest;
      var v := s[0] as int;
      assert bs == EncodeChar(s[0]) + (EncodeTag(s[1..]) + rest);
      assert bs[3..] == EncodeTag(s[1..]) + rest;
      EncodeCharValue(s[0]);
      assert bs[..3] == EncodeChar(s[0]);
      assert CharValue(bs[0], bs[1], bs[2]) == v;
      DecodeEncodeTag(s[1..], rest);
      assert [v as char] + s[1..] == s;
    }
  }

  lemma {:induction false} EncodeDecodeTag(bs: Bytes, s: string, rest: Bytes)
    requires DecodeTag(bs) == Some((s, rest))
    ensures EncodeTag(s) + rest == bs
  {
    if bs[0] == TagEnd {
      assert bs == [TagEnd] + bs[1..];
    } else {
      var v := CharValue(bs[0], bs[1], bs[2]);
      var r := DecodeTag(bs[3..]);
      assert r.Some?;
      var (s', rest') := r.value;
      EncodeDecodeTag(bs[3..], s', rest');
      assert s == [v as char] + s';
      CharValueBytes(bs[0], bs[1], bs[2]);
      assert EncodeChar(v as char) == bs[..3];
      assert EncodeTag(s) == EncodeChar(s[0]) + EncodeTag(s');
      assert bs == bs[..3] + bs[3..];
    }
  }

  /** Round trip: decoding an encoding gives back the same tag and the same payload bytes. */
  lemma DecodeEncode(c: MessageContainer)
    ensures Decode(Encode(c)) == Some(c)
  {
    var data := Encode(c);
    var content := EncodeContent(c.content);
    assert data == [ObjectStart] + (EncodeTag(c.metatype) + content);
    assert data[1..] == EncodeTag(c.metatype) + content;
    DecodeEncodeTag(c.metatype, content);
    DecodeContentOfEncode(c.content);
  }

  /** Content bytes decode back to the content they encode. */
  lemma DecodeContentOfEncode(content: Option<Bytes>)
    ensures DecodeContent(EncodeContent(content)) == Some(content)
  {
    if content.Some? {
      assert ([HasContent] + content.value)[1..] == content.value;
    }
  }

  /**
   * In the byte format of this model every accepted input is the encoding of
   * what it decodes to, so a container has one encoding in it. (JSON, which
   * the source uses, accepts many texts for one container.)
   */
  lemma EncodeDecode(data: Bytes, c: MessageContainer)
    requires Decode(data) == Some(c)
    ensures Encode(c) == data
  {
    var rest := DecodeParts(data, c);
    ContentOfDecode(rest, c.content);
    assert Encode(c) == [ObjectStart] + (EncodeTag(c.metatype) + rest);
  }

  /** What a successful decode has read: the marker, the encoded tag and content bytes after it. */
  lemma DecodeParts(data: Bytes, c: MessageContainer) returns (rest: Bytes)
    requires Decode(data) == Some(c)
    ensures |data| > 0 && data[0] == ObjectStart
    ensures data == [ObjectStart] + (EncodeTag(c.metatype) + rest)
    ensures DecodeContent(rest) == Some(c.content)
  {
    rest := DecodeTag(data[1..]).value.1;
    EncodeDecodeTag(data[1..], c.metatype, rest);
    assert data == [data[0]] + data[1..];
  }

  /** Content bytes that decode are the encoding of what they decode to. */
  lemma ContentOfDecode(bs: Bytes, content: Option<Bytes>)
    requires DecodeContent(bs) == Some(content)
    ensures EncodeContent(content) == bs
  {
    if bs != [NoContent] {
      assert bs == [HasContent] + bs[1..];
    }
  }

  /** Empty data is not a container. */
  lemma DecodeEmpty()
    ensures Decode([]) == None
  {
  }

  /** A payload wrapped by `Make`, encoded and decoded, comes back unchanged. */
  lemma PayloadSurvivesTransfer(t: MessageType, payload: Bytes)
    ensures Decode(Encode(Make(t, Some(payload)))) == Some(MessageContainer(Metatype(t), Some(payload)))
  {
    DecodeEncode(Make(t, Some(payload)));
  }
}
