/**
 * The submitted lead (`schemas.Lead`, whose definition is not part of this
 * model) as a record of the fields main.py reads, and the document values a
 * lead is dumped to (`lead.model_dump()`).
 */
module Schema {
  import opened Wrappers

  datatype Lead = Lead(
    name: string,
    company: string,
    email: string,
    interest: string,
    purpose: string,
    consent: bool,
    message: Option<string>)

  /** A value in a stored document: a string, a boolean or `None`. */
  datatype Value = Str(s: string) | Bool(b: bool) | Null

  /** A document as the store receives it: a dictionary of field values. */
  type Record = map<string, Value>

  function OptionalStr(m: Option<string>): Value
  {
    match m
    case Some(x) => Str(x)
    case None => Null
  }

  /** `lead.model_dump()`: one entry per field. */
  function Dump(lead: Lead): (d: Record)
    ensures d.Keys == {"name", "company", "email", "interest", "purpose", "consent", "message"}
  {
    map[
      "name" := Str(lead.name),
      "company" := Str(lead.company),
      "email" := Str(lead.email),
      "interest" := Str(lead.interest),
      "purpose" := Str(lead.purpose),
      "consent" := Bool(lead.consent),
      "message" := OptionalStr(lead.message)]
  }

  /** Reading a lead back out of a document, if its fields have the right shape. */
  function Load(d: Record): Option<Lead>
  {
    if && "name" in d && d["name"].Str?
       && "company" in d && d["company"].Str?
       && "email" in d && d["email"].Str?
       && "interest" in d && d["interest"].Str?
       && "purpose" in d && d["purpose"].Str?
       && "consent" in d && d["consent"].Bool?
       && "message" in d && (d["message"].Str? || d["message"].Null?)
    then
      Some(Lead(d["name"].s, d["company"].s, d["email"].s, d["interest"].s, d["purpose"].s,
                d["consent"].b, if d["message"].Str? then Some(d["message"].s) else None))
    else None
  }
}
