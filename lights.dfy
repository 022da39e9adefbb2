/** What the light accessors of both versions share: reading one field of
    a light's state out of the envelope of a GET, and the single-field
    payload every write sends. */
module Lights {
  import opened Errors
  import opened PyJson
  import opened Http

  /** Reference reading: the member field of the state dict of a light's
      description. */
  function ReportedField(body: Json, field: string): Option<Json> {
    if body.JObj? then
      match Lookup(body.fields, "state")
      case Some(JObj(state)) => Lookup(state, field)
      case _ => None
    else None
  }

  /** Reference reading: the field a delivered, ok answer reports. */
  function ReadState(o: Outcome, field: string): Option<Json> {
    if o.Delivered? && o.response.ok then ReportedField(o.response.body, field) else None
  }

  /** response['json']['state'][field]. */
  function StateField(data: Json, field: string): (r: PyResult<Json>)
    ensures r.Ok? <==> Subscript(data, Name("json")).Ok? && ReportedField(Subscript(data, Name("json")).value, field).Some?
    ensures r.Ok? ==> r.value == ReportedField(Subscript(data, Name("json")).value, field).value
    ensures Subscript(data, Name("json")).Raise? ==> r == Subscript(data, Name("json")).PropagateFailure()
  {
    var body :- Subscript(data, Name("json"));
    var state :- Subscript(body, Name("state"));
    Subscript(state, Name(field))
  }

  /** Over a delivered answer: the field is read exactly when the answer
      reports it, and an answer that is not ok raises KeyError. */
  lemma StateFieldOfEnvelope(response: Response, field: string)
    ensures StateField(EnvelopeOf(response), field).Ok? <==> ReadState(Delivered(response), field).Some?
    ensures StateField(EnvelopeOf(response), field).Ok? ==>
              StateField(EnvelopeOf(response), field).value == ReadState(Delivered(response), field).value
    ensures !response.ok ==> StateField(EnvelopeOf(response), field) == Raise(KeyError)
  {
  }

  /** An ok answer describing a light whose state holds value under
      field. */
  function LightReporting(field: string, value: Json): Outcome {
    Delivered(Response(200, true, JObj([("state", JObj([(field, value)]))])))
  }

  /** A payload of one field: {field: value}. */
  function Payload(field: string, value: Json): (p: Json)
    ensures p.JObj? && Keys(p.fields) == [field]
    ensures Subscript(p, Name(field)) == Ok(value)
  {
    JObj([(field, value)])
  }
}
