/**
 * The values the builders exchange: change events and builder responses (the
 * `ChangeEvent` and `BuilderResponse` shapes of src/builders/DataFrameBuilder.ts)
 * and the columnar frames handed to Grafana, reduced to a name, a refId and a
 * list of typed fields.
 */
module Frames {
  import opened Js

  /** The row images a change event carries. */
  datatype Payload = Payload(before: Option<Row>, after: Option<Row>)

  /** `{ op, payload? }`; `op` is "i", "u", "d", "x" or anything else. */
  datatype ChangeEvent = ChangeEvent(op: string, payload: Option<Payload>)

  /** `event.payload?.before`. */
  function Before(e: ChangeEvent): Option<Row> {
    if e.payload.Some? then e.payload.value.before else None
  }

  /** `event.payload?.after`. */
  function After(e: ChangeEvent): Option<Row> {
    if e.payload.Some? then e.payload.value.after else None
  }

  datatype FieldType = StringField | NumberField | BooleanField | TimeField

  datatype Field = Field(name: string, ftype: FieldType, values: seq<Value>)

  datatype Frame = Frame(name: string, refId: string, fields: seq<Field>)

  /** The `LoadingState` values this data source reports. */
  datatype LoadingState = Streaming | Done | Error

  datatype BuilderResponse = BuilderResponse(frames: seq<Frame>, state: LoadingState)

  /**
   * The column type both builders infer from a property's name and its value:
   * number, boolean, Date, a name mentioning "time" or "date", otherwise string.
   */
  function InferType(name: string, v: Value): (t: FieldType)
    ensures t == NumberField <==> v.Num?
    ensures t == BooleanField <==> v.Bool?
    ensures v.Date? ==> t == TimeField
    ensures t == StringField <==>
      !v.Num? && !v.Bool? && !v.Date? && !Contains(ToLower(name), "time") && !Contains(ToLower(name), "date")
  {
    if v.Num? then NumberField
    else if v.Bool? then BooleanField
    else if v.Date? then TimeField
    else if Contains(ToLower(name), "time") || Contains(ToLower(name), "date") then TimeField
    else StringField
  }

  /** A frame whose every field holds exactly `n` values. */
  predicate Rectangular(f: Frame, n: nat) {
    forall k :: 0 <= k < |f.fields| ==> |f.fields[k].values| == n
  }
}
