/** StanfordCoreNLPProcessor: the NiFi processor that reads a flow file, extracts the
    requested entity types from its text and routes the file to success (with the
    entities merged into its JSON and an "output" attribute) or to failure.

    Gson's parser and printer, the JsonPath query and the NLP engine are parameters:
    `parse` gives the document `gson.fromJson(text, Map.class)` yields (or the syntax
    error), `toJson` the text `gson.toJson` prints for a document; for a JSON path,
    `listRead` is the list read `getTextFromJson` tries first (the selected strings, or
    what it throws, a non-string item being a ClassCastException) and `mapRead` its
    fallback read cast to a map (the map's values as text in key order, or what it
    throws, a result that is not a map being a ClassCastException). */
module Processor {
  import opened Wrappers
  import opened Exceptions
  import opened JavaText
  import opened Props
  import opened JsonValues
  import opened CoreNlpService

  const DefaultPort: Int32 := 9000
  const OutputAttribute: string := "output"

  /** The processor's property values as the context returns them; None is null. */
  datatype Context = Context(
    entityTypes: Option<string>, jsonPath: Option<string>, jsonProps: Option<string>,
    host: Option<string>, port: Option<string>, apiKey: Option<string>, apiSecret: Option<string>)

  datatype Relationship = SuccessRelationship | FailureRelationship

  /** A flow file: its content (None when reading it failed) and its attributes. */
  datatype FlowFile = FlowFile(content: Option<string>, attributes: map<string, string>)

  /** The pipeline createPipeline asks for: local on the properties, or remote. */
  datatype PipelineConfig =
    | LocalConfig(props: Properties)
    | RemoteConfig(props: Properties, host: string, port: Int32, apiKey: Option<string>, apiSecret: Option<string>)

  /** The settings of the service ensureService ends up with. */
  datatype Settings = Settings(props: map<string, string>, host: Option<string>, port: Int32,
                               apiKey: Option<string>, apiSecret: Option<string>)

  // ---------------------------------------------------------------------------
  // getPort

  /** `getPort`: the port property's value trimmed and parsed; 9000 when it does not
      parse. An unset property makes `asInteger` return null, and unboxing it throws. */
  function GetPort(raw: Option<string>): (r: Result<Int32, Throwable>)
    ensures r.Failure? <==> raw.None?
    ensures r.Failure? ==> r.error == NullPointerException
    ensures raw.Some? && ParseInt(Trim(raw.value)).None? ==> r == Success(DefaultPort)
    ensures raw.Some? && ParseInt(Trim(raw.value)).Some? ==> r == Success(ParseInt(Trim(raw.value)).value)
  {
    match raw
    case None => Failure(NullPointerException)
    case Some(s) =>
      match ParseInt(Trim(s))
      case None => Success(DefaultPort)
      case Some(port) => Success(port)
  }

  /** A port written as a Java int is read back as that int. */
  lemma GetPortOfIntToString(port: Int32)
    ensures GetPort(Some(IntToString(port))) == Success(port)
  {
    TrimIntToString(port);
    ParseIntToString(port);
  }

  // ---------------------------------------------------------------------------
  // jsonToProps

  /** The properties jsonToProps yields: none for a null argument or a syntax error;
      otherwise each key bound to the string form of its value. A null document or a
      null value throws (the exception is not the one the method catches). */
  function PropsFromJson(jsonProps: Option<string>, parse: string -> FromJson): (r: Result<map<string, string>, Throwable>)
    ensures r.Failure? ==> r.error == NullPointerException
    ensures r.Failure? <==>
      && jsonProps.Some?
      && (|| parse(jsonProps.value) == Parsed(NullDocument)
          || (&& parse(jsonProps.value).Parsed? && parse(jsonProps.value).doc.ObjectDocument?
              && exists k :: k in parse(jsonProps.value).doc.members && parse(jsonProps.value).doc.members[k].JNull?))
    ensures jsonProps.None? || parse(jsonProps.value).SyntaxError? ==> r == Success(map[])
    ensures r.Success? && jsonProps.Some? && parse(jsonProps.value).Parsed? ==>
      && parse(jsonProps.value).doc.ObjectDocument?
      && r.value.Keys == parse(jsonProps.value).doc.members.Keys
      && forall k | k in r.value :: r.value[k] == Render(parse(jsonProps.value).doc.members[k])
  {
    if jsonProps.None? then Success(map[])
    else match parse(jsonProps.value)
      case SyntaxError => Success(map[])
      case Parsed(NullDocument) => Failure(NullPointerException)
      case Parsed(ObjectDocument(m)) =>
        if exists k :: k in m && m[k].JNull? then Failure(NullPointerException)
        else Success(map k | k in m :: Render(m[k]))
  }

  /** String values are copied verbatim, under the same keys. */
  lemma PropsFromJsonStrings(text: string, parse: string -> FromJson, m: map<string, Json>)
    requires parse(text) == Parsed(ObjectDocument(m))
    requires forall k :: k in m ==> m[k].JString?
    ensures PropsFromJson(Some(text), parse) == Success(map k | k in m :: m[k].s)
  {
    assert forall k :: k in m ==> !m[k].JNull?;
    assert (map k | k in m :: Render(m[k])) == (map k | k in m :: m[k].s);
  }

  /** Gson reads the number 1 as the double 1.0, whose string form "1.0" sanitising
      turns back into the thread count "1". */
  lemma NumericThreadsExample()
    ensures Sanitized(map["threads" := Render(JNumber("1.0"))]).Success?
    ensures Sanitized(map["threads" := Render(JNumber("1.0"))]).value["threads"] == "1"
  {
    var t := "1.0";
    assert Trim(t) == t by {
      assert TrimStart(t) == t;
      assert TrimEnd(t) == t;
    }
    assert t[0] == '1' && t[1..] == ".0" && t[1..][1..] == "0";
    assert LeadingDigits(t) == "1" by {
      assert LeadingDigits(t[1..]) == "";
    }
    var rest := t[|"1"|..];
    assert rest == ".0";
    assert AllDigits("0");
    assert DigitsValue("1") == 1 by {
      assert "1"[..0] == "";
    }
    assert DecimalIntValue(t) == Some(SaturateInt32(1));
    assert IntToString(1) == "1";
  }

  /** `jsonToProps`: fills new properties from the parsed map, key by key. */
  method JsonToProps(jsonProps: Option<string>, parse: string -> FromJson) returns (r: Result<Properties, Throwable>)
    ensures r.Success? <==> PropsFromJson(jsonProps, parse).Success?
    ensures r.Success? ==> fresh(r.value) && r.value.entries == PropsFromJson(jsonProps, parse).value
    ensures r.Failure? ==> r.error == PropsFromJson(jsonProps, parse).error
  {
    var props := new Properties();
    if jsonProps.None? {
      return Success(props);
    }
    var parsed := parse(jsonProps.value);
    if parsed.SyntaxError? {
      return Success(props);
    }
    if parsed.doc.NullDocument? {
      return Failure(NullPointerException);
    }
    var m := parsed.doc.members;
    var keys := m.Keys;
    while keys != {}
      invariant keys <= m.Keys
      invariant forall k :: k in m && k !in keys ==> !m[k].JNull?
      invariant props.entries == map k | k in m && k !in keys :: Render(m[k])
      decreases keys
    {
      var k :| k in keys;
      if m[k].JNull? {
        return Failure(NullPointerException);
      }
      props.SetProperty(k, Render(m[k]));
      keys := keys - {k};
    }
    assert (map k | k in m && k !in keys :: Render(m[k])) == map k | k in m :: Render(m[k]);
    return Success(props);
  }

  // ---------------------------------------------------------------------------
  // createPipeline and ensureService

  /** `createPipeline`: the local pipeline exactly when no host is configured; the
      port is read only for the remote one. */
  method CreatePipeline(ctx: Context, parse: string -> FromJson) returns (r: Result<PipelineConfig, Throwable>)
    ensures var props := PropsFromJson(ctx.jsonProps, parse);
      && (props.Failure? ==> r == Failure(props.error))
      && (props.Success? && ctx.host.None? ==>
            r.Success? && r.value.LocalConfig? && fresh(r.value.props) && r.value.props.entries == props.value)
      && (props.Success? && ctx.host.Some? && GetPort(ctx.port).Failure? ==> r == Failure(GetPort(ctx.port).error))
      && (props.Success? && ctx.host.Some? && GetPort(ctx.port).Success? ==>
            && r.Success? && fresh(r.value.props) && r.value.props.entries == props.value
            && r.value == RemoteConfig(r.value.props, ctx.host.value, GetPort(ctx.port).value, ctx.apiKey, ctx.apiSecret))
  {
    var props := JsonToProps(ctx.jsonProps, parse);
    if props.Failure? {
      return Failure(props.error);
    }
    if ctx.host.None? {
      return Success(LocalConfig(props.value));
    }
    var port := GetPort(ctx.port);
    if port.Failure? {
      return Failure(port.error);
    }
    return Success(RemoteConfig(props.value, ctx.host.value, port.value, ctx.apiKey, ctx.apiSecret));
  }

  /** The service a configuration produces, or the exception that escapes while
      building it (from the JSON properties, the port or the thread count). */
  function ServiceSettings(ctx: Context, parse: string -> FromJson): Result<Settings, Throwable> {
    match PropsFromJson(ctx.jsonProps, parse)
    case Failure(t) => Failure(t)
    case Success(props) =>
      var port := if ctx.host.None? then Success(0) else GetPort(ctx.port);
      if port.Failure? then Failure(port.error)
      else match Sanitized(props)
        case Failure(t) => Failure(t)
        case Success(sanitized) =>
          if ctx.host.None? then Success(Settings(sanitized, None, 0, None, None))
          else Success(Settings(sanitized, ctx.host, port.value, ctx.apiKey, ctx.apiSecret))
  }

  /** A configured host without a configured port stops the processor with a
      NullPointerException; without a host the port is never read. */
  lemma HostWithoutPort(ctx: Context, parse: string -> FromJson)
    requires PropsFromJson(ctx.jsonProps, parse).Success?
    ensures ctx.host.Some? && ctx.port.None? ==> ServiceSettings(ctx, parse) == Failure(NullPointerException)
    ensures ctx.host.None? ==> ServiceSettings(ctx, parse) == ServiceSettings(ctx.(port := None), parse)
  {
  }

  /** A service is one whose fields hold the settings. */
  ghost predicate Holds(s: Service, settings: Settings)
    reads s, s.coreNlpProps
  {
    && s.coreNlpProps.entries == settings.props && s.host == settings.host && s.port == settings.port
    && s.apiKey == settings.apiKey && s.apiSecret == settings.apiSecret
  }

  // ---------------------------------------------------------------------------
  // onTrigger

  /** `getTextFromSession`: no text when the content could not be read or is empty. */
  function TextFromSession(f: FlowFile): (text: Option<string>)
    ensures text.Some? <==> f.content.Some? && f.content.value != ""
    ensures text.Some? ==> text == f.content
  {
    if f.content.None? || f.content.value == "" then None else f.content
  }

  /** The map handler's concatenation: each value preceded by one space. */
  function SpacePrefixed(values: seq<string>): string
    decreases |values|
  {
    if values == [] then "" else SpacePrefixed(values[..|values| - 1]) + " " + values[|values| - 1]
  }

  /** The map handler gives the values joined with spaces, after one leading space. */
  lemma {:induction false} SpacePrefixedJoin(values: seq<string>)
    ensures SpacePrefixed(values) == if values == [] then "" else " " + Join(values, " ")
    decreases |values|
  {
    if |values| > 1 {
      var init := values[..|values| - 1];
      SpacePrefixedJoin(init);
      JoinLast(init, values[|values| - 1], " ");
      assert init + [values[|values| - 1]] == values;
    } else if |values| == 1 {
      assert values[..0] == [];
    }
  }

  lemma {:induction false} JoinLast(init: seq<string>, x: string, sep: string)
    requires init != []
    ensures Join(init + [x], sep) == Join(init, sep) + sep + x
    decreases |init|
  {
    if |init| == 1 {
      assert (init + [x])[1..] == [x];
    } else {
      JoinLast(init[1..], x, sep);
      assert (init + [x])[1..] == init[1..] + [x];
    }
  }

  /** `getTextFromJson`: the whole text when no JSON path is configured; otherwise the
      selected strings joined with spaces, or, when that read hits a ClassCastException,
      the map handler's values. Another Exception of the first read falls back to the
      whole text; a java.lang.Error of the first read, and anything the map
      handler throws, leave the method. */
  function TextFromJson(text: string, jsonPath: Option<string>, listRead: (string, string) -> Result<seq<string>, Throwable>,
                        mapRead: (string, string) -> Result<seq<string>, Throwable>): (r: Result<string, Throwable>)
    ensures jsonPath.None? || jsonPath.value == "" ==> r == Success(text)
    ensures r.Failure? <==>
      && jsonPath.Some? && jsonPath.value != ""
      && listRead(text, jsonPath.value).Failure?
      && (if listRead(text, jsonPath.value).error == ClassCastException then mapRead(text, jsonPath.value).Failure?
          else listRead(text, jsonPath.value).error.Error?)
    ensures jsonPath.Some? && jsonPath.value != "" && listRead(text, jsonPath.value).Success? ==>
      r == Success(Join(listRead(text, jsonPath.value).value, " "))
    ensures (&& jsonPath.Some? && jsonPath.value != ""
             && listRead(text, jsonPath.value) == Failure(ClassCastException)
             && mapRead(text, jsonPath.value).Success?) ==>
      r == Success(SpacePrefixed(mapRead(text, jsonPath.value).value))
    ensures (&& jsonPath.Some? && jsonPath.value != ""
             && listRead(text, jsonPath.value).Failure?
             && listRead(text, jsonPath.value).error != ClassCastException
             && !listRead(text, jsonPath.value).error.Error?) ==>
      r == Success(text)
    ensures r.Failure? ==>
      r.error == (if listRead(text, jsonPath.value).error == ClassCastException then mapRead(text, jsonPath.value).error
                  else listRead(text, jsonPath.value).error)
  {
    if jsonPath.None? || jsonPath.value == "" then Success(text)
    else
      var path := jsonPath.value;
      match listRead(text, path)
      case Success(items) => Success(Join(items, " "))
      case Failure(e) =>
        if e == ClassCastException then
          match mapRead(text, path)
          case Success(values) => SpacePrefixedJoin(values); Success(SpacePrefixed(values))
          case Failure(m) => Failure(m)
        else if e.Error? then Failure(e)
        else Success(text)
  }

  /** The map handler's loop over the values. */
  method CombineValues(values: seq<string>) returns (combined: string)
    ensures combined == SpacePrefixed(values)
  {
    combined := "";
    var i := 0;
    while i < |values|
      invariant 0 <= i <= |values|
      invariant combined == SpacePrefixed(values[..i])
    {
      assert values[..i + 1][..i] == values[..i];
      combined := combined + " " + values[i];
      i := i + 1;
    }
    assert values[..i] == values;
  }

  /** `getTextFromJson` with its map-handler loop. */
  method GetTextFromJson(text: string, jsonPath: Option<string>, listRead: (string, string) -> Result<seq<string>, Throwable>,
                         mapRead: (string, string) -> Result<seq<string>, Throwable>)
    returns (r: Result<string, Throwable>)
    ensures r == TextFromJson(text, jsonPath, listRead, mapRead)
  {
    if jsonPath.None? || jsonPath.value == "" {
      return Success(text);
    }
    var path := jsonPath.value;
    var listed := listRead(text, path);
    if listed.Success? {
      return Success(Join(listed.value, " "));
    }
    if listed.error == ClassCastException {
      var mapped := mapRead(text, path);
      if mapped.Failure? {
        return Failure(mapped.error);
      }
      var combined := CombineValues(mapped.value);
      return Success(combined);
    }
    if listed.error.Error? {
      return Failure(listed.error);
    }
    return Success(text);
  }

  /** An entity list as Gson sees it: a JSON array of strings. */
  function EntityJson(texts: seq<string>): Json {
    JArray(seq(|texts|, i requires 0 <= i < |texts| => JString(texts[i])))
  }

  function EntityMembers(entities: Buckets): map<string, Json> {
    map k | k in entities :: EntityJson(entities[k])
  }

  /** The flow-file document the entities are merged into: an empty map stands in for
      a text that is not JSON. */
  function RecordDocument(parsed: FromJson): Document {
    if parsed.SyntaxError? then ObjectDocument(map[]) else parsed.doc
  }

  /** The flow file with the "output" attribute and the new content. */
  function Written(f: FlowFile, entityJson: string, finalJson: string): FlowFile {
    FlowFile(Some(finalJson), f.attributes[OutputAttribute := entityJson])
  }

  /** Where onTrigger sends the flow file once the service exists, and in what state.
      `analysis` is the outcome of extractEntities on the analysed text; it is only
      consulted when the flow file has text. */
  function Dispose(f: FlowFile, analysis: Result<Buckets, Throwable>, parse: string -> FromJson,
                   toJson: Document -> string): (FlowFile, Relationship)
  {
    match TextFromSession(f)
    case None => (f, FailureRelationship)
    case Some(text) =>
      match analysis
      case Failure(_) => (f, FailureRelationship)
      case Success(entities) =>
        match RecordDocument(parse(text))
        case NullDocument =>
          if |entities| > 0 then (f, FailureRelationship)
          else (Written(f, toJson(ObjectDocument(EntityMembers(entities))), toJson(Merge(NullDocument, entities))), SuccessRelationship)
        case ObjectDocument(m) =>
          (Written(f, toJson(ObjectDocument(EntityMembers(entities))), toJson(Merge(ObjectDocument(m), entities))),
           SuccessRelationship)
  }

  /** No text, or a failed extraction, sends the flow file to failure unchanged. */
  lemma DisposeFailure(f: FlowFile, analysis: Result<Buckets, Throwable>, parse: string -> FromJson,
                       toJson: Document -> string)
    requires TextFromSession(f).None? || analysis.Failure?
    ensures Dispose(f, analysis, parse, toJson) == (f, FailureRelationship)
  {
  }

  /** With text and entities, the flow file goes to failure (unchanged) exactly when
      the text is the JSON null and there is an entity key to add; otherwise it goes
      to success with the entity map as "output" and the record, with the entities
      merged in, as content. */
  lemma DisposeAnalysed(f: FlowFile, entities: Buckets, parse: string -> FromJson, toJson: Document -> string)
    requires TextFromSession(f).Some?
    ensures var (out, relationship) := Dispose(f, Success(entities), parse, toJson);
      var doc := RecordDocument(parse(f.content.value));
      && (relationship == FailureRelationship <==> doc.NullDocument? && |entities| > 0)
      && (relationship == FailureRelationship ==> out == f)
      && (relationship == SuccessRelationship ==>
            && out.attributes == f.attributes[OutputAttribute := toJson(ObjectDocument(EntityMembers(entities)))]
            && out.content == Some(toJson(Merge(doc, entities))))
  {
  }

  /** The record with the entities merged in: on a map, the entity keys replaced and
      every other key kept. */
  function Merge(doc: Document, entities: Buckets): (r: Document)
    ensures doc.NullDocument? <==> r.NullDocument?
    ensures doc.ObjectDocument? ==>
      && r.members.Keys == doc.members.Keys + entities.Keys
      && (forall k :: k in entities ==> r.members[k] == EntityJson(entities[k]))
      && (forall k :: k in doc.members && k !in entities ==> r.members[k] == doc.members[k])
  {
    if doc.NullDocument? then doc else ObjectDocument(doc.members + EntityMembers(entities))
  }

  /** Text that is not JSON gives a record holding only the entities. */
  lemma NotJsonGivesEntitiesOnly(f: FlowFile, entities: Buckets, parse: string -> FromJson, toJson: Document -> string)
    requires TextFromSession(f).Some? && parse(TextFromSession(f).value).SyntaxError?
    ensures Dispose(f, Success(entities), parse, toJson)
      == (Written(f, toJson(ObjectDocument(EntityMembers(entities))), toJson(ObjectDocument(EntityMembers(entities)))),
          SuccessRelationship)
  {
    assert map[] + EntityMembers(entities) == EntityMembers(entities);
  }

  /** The merge loop of onTrigger: every entity key put into the record. */
  method MergeEntities(record: map<string, Json>, entities: Buckets) returns (merged: map<string, Json>)
    ensures merged == record + EntityMembers(entities)
  {
    merged := record;
    var keys := entities.Keys;
    while keys != {}
      invariant keys <= entities.Keys
      invariant merged == record + (map k | k in entities && k !in keys :: EntityJson(entities[k]))
      decreases keys
    {
      var k :| k in keys;
      merged := merged[k := EntityJson(entities[k])];
      keys := keys - {k};
    }
    assert (map k | k in entities && k !in keys :: EntityJson(entities[k])) == EntityMembers(entities);
  }

  /** How a trigger ends once the service exists: the throwable that escapes onTrigger,
      or the flow file and where it is transferred. `query` is the outcome of
      getTextFromJson on the file's text and `analysis` that of extractEntities on the
      query's text; neither is consulted when the file has no text. Only an Exception
      from the extraction is caught; a java.lang.Error, like any throwable of the
      JSON-path lookup, leaves onTrigger with nothing transferred. */
  function Triggered(f: FlowFile, query: Result<string, Throwable>, analysis: Result<Buckets, Throwable>,
                     parse: string -> FromJson, toJson: Document -> string): (r: Result<(FlowFile, Relationship), Throwable>)
    ensures r.Failure? <==> TextFromSession(f).Some? && (query.Failure? || (analysis.Failure? && analysis.error.Error?))
    ensures r.Failure? ==> r.error == (if query.Failure? then query.error else analysis.error)
    ensures r.Success? ==> r.value == Dispose(f, analysis, parse, toJson)
  {
    if TextFromSession(f).None? then Success((f, FailureRelationship))
    else if query.Failure? then Failure(query.error)
    else if analysis.Failure? && analysis.error.Error? then Failure(analysis.error)
    else Success(Dispose(f, analysis, parse, toJson))
  }

  /** An Exception from the extraction sends the file to failure unchanged, while an
      Error escapes. */
  lemma ExtractionThrows(f: FlowFile, text: string, t: Throwable, parse: string -> FromJson, toJson: Document -> string)
    requires TextFromSession(f).Some?
    ensures !t.Error? ==> Triggered(f, Success(text), Failure(t), parse, toJson) == Success((f, FailureRelationship))
    ensures t.Error? ==> Triggered(f, Success(text), Failure(t), parse, toJson) == Failure(t)
  {
    if !t.Error? {
      DisposeFailure(f, Failure(t), parse, toJson);
    }
  }

  /** The part of onTrigger after the extraction: the empty-text check, the parse of
      the record, the merge loop, and the attribute and content written. */
  method RouteFlowFile(flowFile: FlowFile, analysis: Result<Buckets, Throwable>, parse: string -> FromJson,
               toJson: Document -> string)
    returns (routed: FlowFile, relationship: Relationship)
    ensures (routed, relationship) == Dispose(flowFile, analysis, parse, toJson)
  {
    var flowFileText := TextFromSession(flowFile);
    if flowFileText.None? || analysis.Failure? {
      return flowFile, FailureRelationship;
    }
    var entityMap := analysis.value;
    var record := RecordDocument(parse(flowFileText.value));
    if record.NullDocument? && |entityMap| > 0 {
      return flowFile, FailureRelationship;
    }
    var finalDocument := record;
    if record.ObjectDocument? {
      var merged := MergeEntities(record.members, entityMap);
      finalDocument := ObjectDocument(merged);
    }
    var entityJson := toJson(ObjectDocument(EntityMembers(entityMap)));
    var finalJson := toJson(finalDocument);
    return Written(flowFile, entityJson, finalJson), SuccessRelationship;
  }

  /** The session calls the processor makes: the queued flow file, and the one
      transfer that ends a trigger. */
  class Session {
    var incoming: Option<FlowFile>
    var transferred: Option<(FlowFile, Relationship)>

    /** `session.get()`: takes the queued flow file, if any. */
    method Get() returns (f: Option<FlowFile>)
      modifies this
      ensures f == old(incoming) && incoming == None && transferred == old(transferred)
    {
      f := incoming;
      incoming := None;
    }

    method Transfer(f: FlowFile, relationship: Relationship)
      modifies this
      ensures transferred == Some((f, relationship)) && incoming == old(incoming)
    {
      transferred := Some((f, relationship));
    }
  }

  /** `session.get()`, or a new empty flow file when nothing is queued. */
  function IncomingOrNew(incoming: Option<FlowFile>): FlowFile {
    if incoming.Some? then incoming.value else FlowFile(Some(""), map[])
  }

  class NlpProcessor {
    var service: Service?

    constructor ()
      ensures service == null
    {
      service := null;
    }

    /** `ensureService`: builds the service once; a failure on the way escapes and
        leaves the processor without one. */
    method EnsureService(ctx: Context, parse: string -> FromJson) returns (escaped: Option<Throwable>)
      modifies this
      ensures old(service) != null ==> service == old(service) && escaped == None
      ensures old(service) == null && ServiceSettings(ctx, parse).Failure? ==>
        service == null && escaped == Some(ServiceSettings(ctx, parse).error)
      ensures old(service) == null && ServiceSettings(ctx, parse).Success? ==>
        escaped == None && service != null && fresh(service) && Holds(service, ServiceSettings(ctx, parse).value)
    {
      if service != null {
        return None;
      }
      var config := CreatePipeline(ctx, parse);
      if config.Failure? {
        return Some(config.error);
      }
      var created: Result<Service, Throwable>;
      match config.value {
        case LocalConfig(props) =>
          created := NewService(props, None, 0, None, None);
        case RemoteConfig(props, host, port, apiKey, apiSecret) =>
          created := NewService(props, Some(host), port, apiKey, apiSecret);
      }
      if created.Failure? {
        return Some(created.error);
      }
      service := created.value;
      return None;
    }

    /** `onScheduled`: rebuilds the service unconditionally; when building fails the
        exception escapes and the previous service stays. */
    method OnScheduled(ctx: Context, parse: string -> FromJson) returns (escaped: Option<Throwable>)
      modifies this
      ensures ServiceSettings(ctx, parse).Failure? ==>
        service == old(service) && escaped == Some(ServiceSettings(ctx, parse).error)
      ensures ServiceSettings(ctx, parse).Success? ==>
        escaped == None && service != null && fresh(service) && Holds(service, ServiceSettings(ctx, parse).value)
    {
      var previous := service;
      service := null;
      escaped := EnsureService(ctx, parse);
      if escaped.Some? {
        service := previous;
      }
    }

    /** `onTrigger`: makes sure the service exists, then reads, analyses, merges and
        routes one flow file, unless a throwable escapes on the way. */
    method OnTrigger(ctx: Context, session: Session, parse: string -> FromJson, toJson: Document -> string,
                     listRead: (string, string) -> Result<seq<string>, Throwable>,
                     mapRead: (string, string) -> Result<seq<string>, Throwable>,
                     engine: (Pipeline, string) -> AnnotatedDocument)
      returns (escaped: Option<Throwable>)
      modifies this, session
      ensures old(service) != null ==> service == old(service)
      ensures old(service) == null && ServiceSettings(ctx, parse).Success? ==>
        service != null && fresh(service) && Holds(service, ServiceSettings(ctx, parse).value)
      ensures old(service) == null && ServiceSettings(ctx, parse).Failure? ==>
        && service == null && escaped == Some(ServiceSettings(ctx, parse).error)
        && session.transferred == old(session.transferred) && session.incoming == old(session.incoming)
      ensures !(old(service) == null && ServiceSettings(ctx, parse).Failure?) ==>
        && service != null && session.incoming == None
        && var f := IncomingOrNew(old(session.incoming));
           var query := TextFromJson(TextFromSession(f).GetOr(""), ctx.jsonPath, listRead, mapRead);
           var analysis := if query.Success? then EntitiesOutcome(ctx.entityTypes, service.AnnotateDocument(query.value, engine))
                           else Failure(NullPointerException);
           match Triggered(f, query, analysis, parse, toJson)
           case Failure(t) => escaped == Some(t) && session.transferred == old(session.transferred)
           case Success(routed) => escaped == None && session.transferred == Some(routed)
    {
      escaped := EnsureService(ctx, parse);
      if escaped.Some? {
        return;
      }
      var queued := session.Get();
      var flowFile := IncomingOrNew(queued);
      var flowFileText := TextFromSession(flowFile);
      if flowFileText.None? {
        session.Transfer(flowFile, FailureRelationship);
        return;
      }
      var query := GetTextFromJson(flowFileText.value, ctx.jsonPath, listRead, mapRead);
      if query.Failure? {
        return Some(query.error);
      }
      var analysis := service.ExtractEntities(query.value, ctx.entityTypes, engine);
      if analysis.Failure? && analysis.error.Error? {
        return Some(analysis.error);
      }
      var routed, relationship := RouteFlowFile(flowFile, analysis, parse, toJson);
      session.Transfer(routed, relationship);
    }
  }
}
