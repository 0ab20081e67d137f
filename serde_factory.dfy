/** ScryfallSerde.get: a fresh serde of the requested format. */
module SerdeFactory {
  import opened SerdeProtocol
  import ApiCard
  import JsonSerde
  import MessagePackSerde

  /** A serde of either format. */
  datatype Serde = JsonFormat(json: JsonSerde.Json) | PackFormat(pack: MessagePackSerde.MessagePack)

  /** ScryfallSerde.type(). */
  function TypeOf(s: Serde): Implementation
  {
    match s
    case JsonFormat(j) => j.Type()
    case PackFormat(m) => m.Type()
  }

  /** Both protocol states of a serde. */
  function States(s: Serde): (State, State)
    reads if s.JsonFormat? then s.json else s.pack
  {
    match s
    case JsonFormat(j) => (j.readState, j.writeState)
    case PackFormat(m) => (m.readState, m.writeState)
  }

  /** get(impl): a new, inactive serde whose type() is impl. */
  method Get(impl: Implementation, uuidText: ApiCard.Uuid -> string) returns (s: Serde)
    ensures TypeOf(s) == impl
    ensures s.JsonFormat? ==> fresh(s.json) && s.json.Valid()
    ensures s.PackFormat? ==> fresh(s.pack) && s.pack.Valid()
    ensures States(s) == (Inactive, Inactive)
  {
    match impl
    case Json =>
      var j := new JsonSerde.Json(uuidText);
      s := JsonFormat(j);
    case MessagePack =>
      var m := new MessagePackSerde.MessagePack();
      s := PackFormat(m);
  }
}
