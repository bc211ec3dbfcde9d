/** The envelope every component exchanges, the JSON contract it relies on, and the two functions
    that look inside it: the router's enrichment and the consumer's parser. */
module Wire {

  datatype Option<+T> = None | Some(value: T)

  const TYPE_DANMAKU := 101
  const TYPE_STATS := 102
  const ACTION_LIKE := 103

  datatype Danmaku = Danmaku(id: nat, roomId: string, userId: nat, content: string, sendTime: int)

  /** `data` is raw JSON text: the envelope is routed without looking inside. */
  datatype WsPacket = WsPacket(kind: int, roomId: string, data: string)

  /** encoding/json as the program sees it: two encoders, two decoders, and which strings are UTF-8. */
  datatype Codec = Codec(
    packet: WsPacket -> string,
    unpacket: string -> Option<WsPacket>,
    danmaku: Danmaku -> string,
    undanmaku: string -> Option<Danmaku>,
    utf8: string -> bool)

  /** What is assumed of encoding/json.  Strings that are not UTF-8 come back altered, so only the other
      fields are promised for them; a decoded string is always UTF-8. */
  ghost predicate Faithful(c: Codec) {
    && (forall p: WsPacket, d: Danmaku | p.data == c.danmaku(d) ::
          && c.unpacket(c.packet(p)).Some?
          && c.unpacket(c.packet(p)).value.kind == p.kind
          && c.unpacket(c.packet(p)).value.data == p.data
          && (c.utf8(p.roomId) ==> c.unpacket(c.packet(p)).value.roomId == p.roomId))
    && (forall d: Danmaku ::
          && c.undanmaku(c.danmaku(d)).Some?
          && (c.utf8(d.roomId) && c.utf8(d.content) ==> c.undanmaku(c.danmaku(d)).value == d))
    && (forall t: string | c.undanmaku(t).Some? :: c.utf8(c.undanmaku(t).value.content))
  }

  /** The packet the danmaku handler pushes: the client supplies the content, the server the identity.
      None when the inner JSON does not decode. */
  function Enrich(c: Codec, roomId: string, userId: nat, data: string, now: int): (r: Option<WsPacket>)
  {
    match c.undanmaku(data)
    case None => None
    case Some(input) =>
      Some(WsPacket(TYPE_DANMAKU, roomId, c.danmaku(Danmaku(0, roomId, userId, input.content, now))))
  }

  /** `Skipped` is the nil message returned without an error for a packet of another type. */
  datatype Parsed = Failed | Skipped | Message(body: Danmaku)

  function ParseMessage(c: Codec, value: string): Parsed
  {
    match c.unpacket(value)
    case None => Failed
    case Some(packet) =>
      if packet.kind != TYPE_DANMAKU then Skipped
      else match c.undanmaku(packet.data)
           case None => Failed
           case Some(d) => Message(d)
  }

  /** The danmaku handler makes a packet of exactly the data that decodes, whatever room, user, id or time it names.
      A packet the router made never takes the consumer's error branch or its nil branch, whatever the room
      name; when the room name is UTF-8 it comes back as the enriched message, field for field, and the
      sender's claims about id, room, user and time are gone. */
  lemma ServerMessagesParseBack(c: Codec, roomId: string, userId: nat, data: string, now: int)
    requires Faithful(c)
    ensures Enrich(c, roomId, userId, data, now).Some? <==> c.undanmaku(data).Some?
    ensures c.undanmaku(data).Some? ==>
              var parsed := ParseMessage(c, c.packet(Enrich(c, roomId, userId, data, now).value));
              && parsed.Message?
              && (c.utf8(roomId) ==>
                    parsed.body == Danmaku(0, roomId, userId, c.undanmaku(data).value.content, now))
  {
    if c.undanmaku(data).Some? {
      var d := Danmaku(0, roomId, userId, c.undanmaku(data).value.content, now);
      var p := WsPacket(TYPE_DANMAKU, roomId, c.danmaku(d));
      assert c.unpacket(c.packet(p)).Some?;
    }
  }

  /** What a record is: malformed when its envelope does not decode, or when it is a danmaku whose data does not;
      skipped, without an error, when its envelope names another type; otherwise the decoded danmaku. */
  lemma ParseOutcome(c: Codec, value: string)
    ensures var parsed := ParseMessage(c, value);
            && (c.unpacket(value).None? ==> parsed.Failed?)
            && (parsed.Failed? && c.unpacket(value).Some? ==>
                  c.unpacket(value).value.kind == TYPE_DANMAKU && c.undanmaku(c.unpacket(value).value.data).None?)
            && (parsed.Skipped? <==> c.unpacket(value).Some? && c.unpacket(value).value.kind != TYPE_DANMAKU)
            && (parsed.Message? ==> Some(parsed.body) == c.undanmaku(c.unpacket(value).value.data))
  {
  }
}
