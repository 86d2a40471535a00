/** The JSON text `json.dumps` writes for a payload: an object whose members
    keep the payload's order, with ", " and ": " as separators. Escaping of
    special characters inside strings is not part of this model. */
module Json {
  import opened Values

  function Quote(s: string): string
  {
    "\"" + s + "\""
  }

  function QuotedItems(items: seq<string>): string
  {
    if items == [] then ""
    else if |items| == 1 then Quote(items[0])
    else Quote(items[0]) + ", " + QuotedItems(items[1..])
  }

  function ValueText(v: Value): string
  {
    match v
    case Str(s) => Quote(s)
    case List(items) => "[" + QuotedItems(items) + "]"
  }

  function Members(payload: seq<(string, Value)>): string
  {
    if payload == [] then ""
    else
      var member := Quote(payload[0].0) + ": " + ValueText(payload[0].1);
      if |payload| == 1 then member else member + ", " + Members(payload[1..])
  }

  /** `json.dumps(dict(payload))` for a payload whose keys are distinct. */
  function Dumps(payload: seq<(string, Value)>): string
  {
    "{" + Members(payload) + "}"
  }
}
