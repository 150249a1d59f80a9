/** The broker's message vocabulary: the inbound control message, its
    decoding from a message body, and the two acknowledgement kinds. */
module Messages {
  import opened Outcomes

  datatype Action = CREATE | REMOVE | PAUSE | RESUME

  /** The enum member name of an action, the form it takes in a body. */
  function ActionName(a: Action): string {
    match a
    case CREATE => "CREATE"
    case REMOVE => "REMOVE"
    case PAUSE => "PAUSE"
    case RESUME => "RESUME"
  }

  /** Lookup of an action by member name, `Action[name]`. */
  function ParseAction(name: string): (r: Option<Action>)
    ensures r.Some? <==> name in {"CREATE", "REMOVE", "PAUSE", "RESUME"}
  {
    if name == "CREATE" then Some(CREATE)
    else if name == "REMOVE" then Some(REMOVE)
    else if name == "PAUSE" then Some(PAUSE)
    else if name == "RESUME" then Some(RESUME)
    else None
  }

  lemma ActionNameRoundTrip(a: Action, name: string)
    ensures ParseAction(ActionName(a)) == Some(a)
    ensures ParseAction(name) == Some(a) ==> ActionName(a) == name
  {
  }

  /** A decoded JSON body, its fields as strings. */
  type Fields = map<string, string>

  const ActionKey := "action"
  const DeviceIdKey := "device_id"
  const StreamUrlKey := "device_stream_url"

  datatype ControlMessage = ControlMessage(action: Action, deviceId: string, streamUrl: Option<string>)

  /** Why a body does not decode: it is not UTF-8 JSON, a required key is
      missing, or the action names no member. */
  datatype DecodeError = MalformedBody | MissingKey(key: string) | UnknownAction(name: string)

  /** Decodes a body (`None` when it is not valid UTF-8 JSON). The action is
      read and looked up first, then the device id; the stream URL is optional. */
  function Decode(body: Option<Fields>): (r: Result<ControlMessage, DecodeError>)
    ensures r.Ok? <==>
      && body.Some?
      && ActionKey in body.value && ParseAction(body.value[ActionKey]).Some?
      && DeviceIdKey in body.value
    ensures r.Ok? ==>
      && ActionName(r.value.action) == body.value[ActionKey]
      && r.value.deviceId == body.value[DeviceIdKey]
      && r.value.streamUrl == (if StreamUrlKey in body.value then Some(body.value[StreamUrlKey]) else None)
    ensures body.Some? && ActionKey !in body.value ==> r == Err(MissingKey(ActionKey))
    ensures body.Some? && ActionKey in body.value && ParseAction(body.value[ActionKey]).None? ==>
      r == Err(UnknownAction(body.value[ActionKey]))
  {
    match body
    case None => Err(MalformedBody)
    case Some(f) =>
      if ActionKey !in f then Err(MissingKey(ActionKey))
      else match ParseAction(f[ActionKey])
        case None => Err(UnknownAction(f[ActionKey]))
        case Some(a) =>
          ActionNameRoundTrip(a, f[ActionKey]);
          if DeviceIdKey !in f then Err(MissingKey(DeviceIdKey))
          else Ok(ControlMessage(a, f[DeviceIdKey], if StreamUrlKey in f then Some(f[StreamUrlKey]) else None))
  }

  /** The body a producer sends for a control message. */
  function Encode(m: ControlMessage): Fields {
    var f := map[ActionKey := ActionName(m.action), DeviceIdKey := m.deviceId];
    match m.streamUrl
    case None => f
    case Some(u) => f[StreamUrlKey := u]
  }

  /** Every control message survives encoding and decoding. */
  lemma DecodeEncode(m: ControlMessage)
    ensures Decode(Some(Encode(m))) == Ok(m)
  {
    ActionNameRoundTrip(m.action, ActionName(m.action));
  }

  /** A decodable body holds nothing the message loses, apart from keys the
      decoder ignores. */
  lemma EncodeDecode(f: Fields)
    requires Decode(Some(f)).Ok?
    ensures var g := Encode(Decode(Some(f)).value);
      forall k :: k in g <==> k in f && k in {ActionKey, DeviceIdKey, StreamUrlKey}
    ensures var g := Encode(Decode(Some(f)).value);
      forall k :: k in g ==> g[k] == f[k]
  {
  }

  const OkCode := 2000
  const FailureCode := 4000
  const OkMessage := "OK"

  datatype Ack =
    | StatusAck(code: int, deviceId: string, state: string, message: string)
    | DeleteAck(deviceId: string)
}
