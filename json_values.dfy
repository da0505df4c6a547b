/** Values produced by Gson when it parses a flow file or the jsonProps property into a
    `Map`: numbers are doubles, objects are insertion-ordered maps, arrays are lists. */
module JsonValues {
  import opened JavaText

  /** A parsed JSON value. A number keeps the text `Double.toString` gives it (Gson
      parses every number as a double, so 1 prints as "1.0"). */
  datatype Json =
    | JNull
    | JBool(b: bool)
    | JNumber(text: string)
    | JString(s: string)
    | JArray(items: seq<Json>)
    | JObject(members: seq<(string, Json)>)

  /** The result of `gson.fromJson(text, Map.class)`: null (the text was empty or the
      literal null) or a map from keys to values. */
  datatype Document = NullDocument | ObjectDocument(members: map<string, Json>)

  /** Parsing either yields a document or throws JsonSyntaxException. */
  datatype FromJson = Parsed(doc: Document) | SyntaxError

  /** `String.valueOf` of a parsed value: strings print bare, lists as "[a, b]" and
      maps as "{k=v, k2=v2}" (the `toString` of ArrayList and AbstractMap). */
  function Render(v: Json): string
    decreases v
  {
    match v
    case JNull => "null"
    case JBool(b) => if b then "true" else "false"
    case JNumber(text) => text
    case JString(s) => s
    case JArray(items) =>
      "[" + Join(seq(|items|, i requires 0 <= i < |items| => Render(items[i])), ", ") + "]"
    case JObject(members) =>
      "{" + Join(seq(|members|, i requires 0 <= i < |members| => members[i].0 + "=" + Render(members[i].1)), ", ") + "}"
  }
}
