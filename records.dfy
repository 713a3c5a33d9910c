/** Log records and how `log` normalises what the caller hands it
    (lib/logzio-nodejs.js, `LogzioLogger.prototype.log`). */
module Records {

  /** A JSON-like field value. Numbers are kept as integers. */
  datatype Value =
    | Null
    | Bool(b: bool)
    | Number(n: int)
    | Str(s: string)
    | List(items: seq<Value>)
    | Object(fields: map<string, Value>)

  /** A log record: field name to value. Records are treated as
      immutable once normalised. */
  type Record = map<string, Value>

  /** What a caller may pass to `log`: freeform text or a structured record. */
  datatype Input = Message(text: string) | Fields(fields: Record)

  const MESSAGE_KEY := "message"
  const TYPE_KEY := "type"

  /** The record `log` starts from before merging the extra fields: text
      is wrapped as `{message: text}` and, when the log type is non-empty
      (truthy), tagged with it; a structured record is taken as it is. */
  function Base(input: Input, logType: string): (r: Record)
    ensures input.Fields? ==> r == input.fields
    ensures input.Message? ==> MESSAGE_KEY in r && r[MESSAGE_KEY] == Str(input.text)
    ensures input.Message? ==> r.Keys <= {MESSAGE_KEY, TYPE_KEY}
  {
    match input
    case Message(text) =>
      var m := map[MESSAGE_KEY := Str(text)];
      if logType != "" then m[TYPE_KEY := Str(logType)] else m
    case Fields(fields) => fields
  }

  /** `log`'s normalisation: start from Base, merge `extraFields` over it
      the way lodash `assign` does (the extra fields win on a clash), then
      force `type` to the logger's type. */
  function Normalize(input: Input, extraFields: Record, logType: string): (r: Record)
    // the stored type is always the logger's, whatever the input or the extra fields said
    ensures TYPE_KEY in r && r[TYPE_KEY] == Str(logType)
    // every extra field other than `type` is present with the extra field's value
    ensures forall k :: k in extraFields && k != TYPE_KEY ==> k in r && r[k] == extraFields[k]
    // every key of the input that the extra fields do not name keeps its value
    ensures forall k :: k in Base(input, logType) && k !in extraFields && k != TYPE_KEY ==>
              k in r && r[k] == Base(input, logType)[k]
    // and no other key appears
    ensures r.Keys == Base(input, logType).Keys + extraFields.Keys + {TYPE_KEY}
    // a text message is the `message` field unless an extra field overrides it
    ensures input.Message? && MESSAGE_KEY !in extraFields ==> r[MESSAGE_KEY] == Str(input.text)
  {
    (Base(input, logType) + extraFields)[TYPE_KEY := Str(logType)]
  }
}
