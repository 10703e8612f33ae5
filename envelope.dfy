/** The websocket message envelope of the home controller: the message-type
    tags, the `Msg` struct with its two JSON fields, and the upgrader's origin
    check. */
module Envelope {

  import opened Base

  /** `type MsgType uint8`. */
  type MsgType = uint8

  /** The tags, declared as `iota + 1` in a block starting at `iota == 0`. */
  const Ping: MsgType := 1
  const Pong: MsgType := 2
  const Test: MsgType := 3

  /** The named tags. */
  predicate IsNamedType(t: MsgType)
  {
    t == Ping || t == Pong || t == Test
  }

  /** Ping, Pong and Test are 1, 2 and 3: three distinct tags, none of them the
      zero value that an empty `Msg` carries. */
  lemma TagValues()
    ensures Ping as int == 1 && Pong as int == 2 && Test as int == 3
    ensures Ping != Pong && Pong != Test && Ping != Test
    ensures !IsNamedType(0)
  {
  }

  /** Every tag value, named or not, is a byte. */
  lemma TagInByteRange(t: MsgType)
    ensures 0 <= t as int <= 255
  {
  }

  /** `type Msg struct { MsgType MsgType; Data string }`. */
  datatype Msg = Msg(msgType: MsgType, data: string)

  /** The zero `Msg{}` that a decoder fills in. */
  const EmptyMsg := Msg(0, "")

  /** The reply to a Ping: `Msg{MsgType: Pong}`, with empty data. */
  const PongMsg := Msg(Pong, "")

  /** A JSON value as the two fields of a `Msg` carry it. */
  datatype JsonValue = JsonNumber(n: int) | JsonString(s: string)

  /** The JSON keys from the struct tags `json:"msgType"` and `json:"data"`. */
  const MsgTypeKey := "msgType"
  const DataKey := "data"

  /** The JSON object a `Msg` serialises to: exactly the two tagged keys. */
  function MsgFields(m: Msg): (obj: map<string, JsonValue>)
    ensures obj.Keys == {MsgTypeKey, DataKey}
  {
    map[MsgTypeKey := JsonNumber(m.msgType as int), DataKey := JsonString(m.data)]
  }

  /** Reads the two tagged fields back; missing keys and out-of-range or
      mistyped values are rejected. */
  function MsgFromFields(obj: map<string, JsonValue>): Option<Msg>
  {
    if MsgTypeKey in obj && DataKey in obj
       && obj[MsgTypeKey].JsonNumber? && 0 <= obj[MsgTypeKey].n < 256
       && obj[DataKey].JsonString?
    then Some(Msg(obj[MsgTypeKey].n as MsgType, obj[DataKey].s))
    else None
  }

  /** Every `Msg` survives its own field encoding. */
  lemma MsgFieldsRoundTrip(m: Msg)
    ensures MsgFromFields(MsgFields(m)) == Some(m)
  {
    assert MsgTypeKey != DataKey;
  }

  /** The bytes of an encoded message, decoded again: the message the decoder
      left in its zero-initialised target, and whether it reported an error
      (Go's decoder may fill some fields and still report an error). */
  datatype Decoded = Decoded(msg: Msg, failed: bool)

  /** The JSON byte codec is abstract; this is the round trip a well-behaved
      pair of encoder and decoder satisfies. */
  ghost predicate CodecRoundTrips(encode: Msg -> Option<Bytes>, decode: Bytes -> Decoded)
  {
    forall m: Msg :: encode(m).Some? ==> decode(encode(m).value) == Decoded(m, false)
  }

  /** A byte codec that goes through the tagged fields: encoding writes the
      object `MsgFields` gives, and decoding an object that `MsgFromFields`
      accepts yields that message without error. */
  ghost predicate CodecThroughFields(encode: Msg -> Option<Bytes>, decode: Bytes -> Decoded,
                                     write: map<string, JsonValue> -> Option<Bytes>,
                                     read: Bytes -> Option<map<string, JsonValue>>)
  {
    (forall m: Msg :: encode(m) == write(MsgFields(m)))
    && (forall b: Bytes :: read(b).Some? && MsgFromFields(read(b).value).Some? ==>
          decode(b) == Decoded(MsgFromFields(read(b).value).value, false))
  }

  /** The JSON object codec reads back every object it writes. */
  ghost predicate ObjectCodecRoundTrips(write: map<string, JsonValue> -> Option<Bytes>,
                                        read: Bytes -> Option<map<string, JsonValue>>)
  {
    forall obj: map<string, JsonValue> :: write(obj).Some? ==> read(write(obj).value) == Some(obj)
  }

  /** The message round trip follows from the field round trip and a
      round-tripping object codec. */
  lemma FieldsCodecRoundTrips(encode: Msg -> Option<Bytes>, decode: Bytes -> Decoded,
                              write: map<string, JsonValue> -> Option<Bytes>,
                              read: Bytes -> Option<map<string, JsonValue>>)
    requires CodecThroughFields(encode, decode, write, read)
    requires ObjectCodecRoundTrips(write, read)
    ensures CodecRoundTrips(encode, decode)
  {
    forall m: Msg | encode(m).Some?
      ensures decode(encode(m).value) == Decoded(m, false)
    {
      MsgFieldsRoundTrip(m);
      assert read(write(MsgFields(m)).value) == Some(MsgFields(m));
    }
  }

  /** The upgrader's `CheckOrigin` accepts every request, whatever its origin. */
  function CheckOrigin(origin: string): (accepted: bool)
    ensures accepted
  {
    true
  }
}
