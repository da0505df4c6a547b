/** StanfordCoreNLPClientSimple: a client that posts a serialized annotation to one
    CoreNLP server backend and copies the server's annotations back.

    The protobuf serializer and the HTTP transport are parameters: `serialize` turns
    the annotation's entries into the request body or throws, and the transport gives,
    for the n-th attempt and the request sent, either the decoded response annotation
    or the throwable raised while connecting, writing or reading. */
module ClientSimple {
  import opened Wrappers
  import opened Exceptions
  import opened JavaText
  import opened Codecs
  import opened Props
  import opened Annotations

  const HttpScheme: string := "http://"
  const HttpsScheme: string := "https://"
  const SerializerClassName: string := "edu.stanford.nlp.pipeline.ProtobufAnnotationSerializer"
  const ClientClassName: string := "com.iss.nifi.processors.stanfordcorenlp.StanfordCoreNLPClientSimple"

  /** The path on the server. */
  const ServerPath: string := ""

  /** doAnnotation retries while its counter is below this, so at most four attempts. */
  const MaxRetries: nat := 3

  // ---------------------------------------------------------------------------
  // Backend

  datatype Backend = Backend(protocol: string, host: string, port: Int32)
  {
    /** `equals(Object)`: None stands for null or an object of another class. Equality
        is structural, so it is reflexive, symmetric and transitive. */
    predicate Equals(o: Option<Backend>)
      ensures Equals(o) <==> o == Some(this)
    {
      o.Some? && port == o.value.port && protocol == o.value.protocol && host == o.value.host
    }

    function ToString(): string {
      protocol + "://" + host + ":" + IntToString(port)
    }
  }

  /** `equals` is an equivalence: reflexive, symmetric and transitive. */
  lemma BackendEqualsEquivalence(a: Backend, b: Backend, c: Backend)
    ensures a.Equals(Some(a))
    ensures a.Equals(Some(b)) <==> b.Equals(Some(a))
    ensures a.Equals(Some(b)) && b.Equals(Some(c)) ==> a.Equals(Some(c))
  {
  }

  /** Reads a backend back from its printed form: the protocol runs up to the first
      ':', the port follows the last ':'. */
  function ParseBackend(s: string): Option<Backend> {
    SplitBackend(s, Before(s, ':'), AfterLast(s, ':'))
  }

  /** The backend with the given protocol and port texts, if `s` is protocol "://"
      host ':' port. */
  function SplitBackend(s: string, protocol: string, portText: string): Option<Backend> {
    var start := |protocol| + 3;
    var end := |s| - |portText| - 1;
    if start <= end && s[|protocol|..start] == "://" && ParseInt(portText).Some? then
      Some(Backend(protocol, s[start..end], ParseInt(portText).value))
    else None
  }

  lemma SplitBackendOf(b: Backend)
    ensures SplitBackend(b.ToString(), b.protocol, IntToString(b.port)) == Some(b)
  {
    var s := b.ToString();
    var p := IntToString(b.port);
    ParseIntToString(b.port);
    var start := |b.protocol| + 3;
    assert |s| - |p| - 1 == start + |b.host|;
    assert s[|b.protocol|..start] == "://";
    assert s[start..start + |b.host|] == b.host;
  }

  /** The printed form of a backend determines it, provided the protocol has no ':'
      (which holds for the "http" and "https" that getBackends produces). */
  lemma ParseBackendToString(b: Backend)
    requires ':' !in b.protocol
    ensures ParseBackend(b.ToString()) == Some(b)
  {
    var p := IntToString(b.port);
    var rest := "//" + b.host + ":" + p;
    var front := b.protocol + "://" + b.host;
    var s := b.protocol + [':'] + rest;
    assert b.ToString() == s;
    BeforeFirst(b.protocol, ':', rest);
    IntToStringChars(b.port);
    assert ':' !in p;
    assert s == front + [':'] + p;
    AfterLastOf(front, ':', p);
    SplitBackendOf(b);
  }

  /** The backend for one host string: "http" exactly when the host starts with
      "http://", otherwise "https"; one leading scheme is removed. */
  function MakeBackend(host: string, port: Int32): Backend {
    var protocol := if StartsWith(host, HttpScheme) then "http" else "https";
    var stripped :=
      if StartsWith(host, HttpScheme) then host[|HttpScheme|..]
      else if StartsWith(host, HttpsScheme) then host[|HttpsScheme|..]
      else host;
    Backend(protocol, stripped, port)
  }

  /** Printing the backend gives back the host it was made from, with the port:
      a host with a scheme exactly, one without gains "https://". */
  lemma MakeBackendToString(host: string, port: Int32)
    ensures MakeBackend(host, port).protocol == "http" <==> StartsWith(host, HttpScheme)
    ensures MakeBackend(host, port).ToString()
      == (if StartsWith(host, HttpScheme) || StartsWith(host, HttpsScheme) then host else HttpsScheme + host)
         + ":" + IntToString(port)
  {
    if StartsWith(host, HttpScheme) {
      var rest := host[|HttpScheme|..];
      assert MakeBackend(host, port) == Backend("http", rest, port);
      SchemeToString("http", HttpScheme, rest, port);
      assert HttpScheme + rest == host;
    } else if StartsWith(host, HttpsScheme) {
      var rest := host[|HttpsScheme|..];
      assert MakeBackend(host, port) == Backend("https", rest, port);
      SchemeToString("https", HttpsScheme, rest, port);
      assert HttpsScheme + rest == host;
    } else {
      assert MakeBackend(host, port) == Backend("https", host, port);
      SchemeToString("https", HttpsScheme, host, port);
    }
  }

  lemma SchemeToString(protocol: string, scheme: string, host: string, port: Int32)
    requires scheme == protocol + "://"
    ensures Backend(protocol, host, port).ToString() == scheme + host + ":" + IntToString(port)
  {
  }

  /** `getBackends`: `threads` copies of the one backend (none when `threads` is not
      positive). */
  method GetBackends(host: string, port: Int32, threads: Int32) returns (backends: seq<Backend>)
    ensures |backends| == if threads < 0 then 0 else threads as int
    ensures forall i :: 0 <= i < |backends| ==> backends[i] == MakeBackend(host, port)
  {
    backends := [];
    var i: int := 0;
    while i < threads as int
      invariant 0 <= i && (i <= threads as int || i == 0)
      invariant |backends| == i
      invariant forall j :: 0 <= j < i ==> backends[j] == MakeBackend(host, port)
    {
      var protocol := if StartsWith(host, HttpScheme) then "http" else "https";
      var stripped :=
        if StartsWith(host, HttpScheme) then host[|HttpScheme|..]
        else if StartsWith(host, HttpsScheme) then host[|HttpsScheme|..]
        else host;
      backends := backends + [Backend(protocol, stripped, port)];
      i := i + 1;
    }
  }

  /** Shuffling copies of one backend cannot be observed: every permutation of such a
      list is the list itself. */
  lemma ShuffleOfCopies(backends: seq<Backend>, shuffled: seq<Backend>, b: Backend)
    requires forall i :: 0 <= i < |backends| ==> backends[i] == b
    requires multiset(shuffled) == multiset(backends)
    ensures shuffled == backends
  {
    assert |shuffled| == |multiset(shuffled)| == |multiset(backends)| == |backends|;
    forall i | 0 <= i < |shuffled|
      ensures shuffled[i] == backends[i]
    {
      assert shuffled[i] in multiset(shuffled);
      assert shuffled[i] in multiset(backends);
      var j :| 0 <= j < |backends| && backends[j] == shuffled[i];
    }
  }

  // ---------------------------------------------------------------------------
  // Server properties and their JSON form

  const RequiredProperties: map<string, string> := map[
    "inputFormat" := "serialized",
    "outputFormat" := "serialized",
    "inputSerializer" := SerializerClassName,
    "outputSerializer" := SerializerClassName]

  /** The properties sent to the server: the caller's, with the wire format forced to
      serialized protobuf whatever the caller set. */
  function ServerProperties(props: map<string, string>): (server: map<string, string>)
    ensures server.Keys == props.Keys + RequiredProperties.Keys
    ensures server["inputFormat"] == "serialized" && server["outputFormat"] == "serialized"
    ensures server["inputSerializer"] == SerializerClassName && server["outputSerializer"] == SerializerClassName
    ensures forall k :: k in props && k !in RequiredProperties ==> server[k] == props[k]
  {
    props["inputFormat" := "serialized"]["outputFormat" := "serialized"]
      ["inputSerializer" := SerializerClassName]["outputSerializer" := SerializerClassName]
  }

  /** A JSON string literal: the escaped contents between double quotes. */
  function Quoted(s: string): string {
    "\"" + JsonEscape(s) + "\""
  }

  /** One property as a JSON member: both strings escaped and quoted, separated by
      ": ". */
  function JsonEntry(key: string, value: string): string {
    Quoted(key) + ": " + Quoted(value)
  }

  /** The members for the keys in the given order. */
  function JsonEntries(m: map<string, string>, order: seq<string>): seq<string>
    requires forall i :: 0 <= i < |order| ==> order[i] in m
  {
    seq(|order|, i requires 0 <= i < |order| => JsonEntry(order[i], m[order[i]]))
  }

  /** `propsAsJSON` for the keys in the order the key set was iterated. */
  function PropsJson(m: map<string, string>, order: seq<string>): string
    requires forall i :: 0 <= i < |order| ==> order[i] in m
  {
    "{ " + Join(JsonEntries(m, order), ", ") + " }"
  }

  /** The key/value pairs in that order. */
  function Pairs(m: map<string, string>, order: seq<string>): seq<(string, string)>
    requires forall i :: 0 <= i < |order| ==> order[i] in m
  {
    seq(|order|, i requires 0 <= i < |order| => (order[i], m[order[i]]))
  }

  /** An iteration order of a key set: every key exactly once. */
  ghost predicate Enumerates(order: seq<string>, keys: set<string>) {
    && (forall i, j :: 0 <= i < j < |order| ==> order[i] != order[j])
    && (forall i :: 0 <= i < |order| ==> order[i] in keys)
    && (forall k :: k in keys ==> k in order)
  }

  /** Reads a JSON string literal and returns its contents and what follows it. */
  function ReadQuoted(s: string): (r: Option<(string, string)>)
    ensures r.Some? ==> |r.value.1| < |s|
  {
    if s == [] || s[0] != '"' then None else ReadJsonString(s[1..])
  }

  /** Reads one `"key": "value"` member and returns what follows it. */
  function ParseEntry(s: string): (r: Option<((string, string), string)>)
    ensures r.Some? ==> |r.value.1| < |s|
  {
    match ReadQuoted(s)
    case None => None
    case Some((key, rest)) =>
      if !StartsWith(rest, ": ") then None
      else match ReadQuoted(rest[2..])
        case None => None
        case Some((value, rest2)) => Some(((key, value), rest2))
  }

  /** Reads members separated by ", " up to the closing " }". */
  function ParseEntries(s: string): Option<seq<(string, string)>>
    decreases |s|
  {
    match ParseEntry(s)
    case None => None
    case Some((entry, rest)) =>
      if rest == " }" then Some([entry])
      else if StartsWith(rest, ", ") then
        match ParseEntries(rest[2..])
        case None => None
        case Some(more) => Some([entry] + more)
      else None
  }

  /** Reads a `propsAsJSON` text back into its pairs. */
  function ParsePropsJson(s: string): Option<seq<(string, string)>> {
    if s == "{  }" then Some([])
    else if StartsWith(s, "{ ") then ParseEntries(s[2..])
    else None
  }

  lemma ReadQuotedOf(x: string, rest: string)
    ensures ReadQuoted(Quoted(x) + rest) == Some((x, rest))
  {
    var s := Quoted(x) + rest;
    assert s[0] == '"' && s[1..] == JsonEscape(x) + "\"" + rest;
    ReadJsonStringOfEscape(x, rest);
  }

  lemma ParseEntryOf(key: string, value: string, rest: string)
    ensures ParseEntry(JsonEntry(key, value) + rest) == Some(((key, value), rest))
  {
    var tail := ": " + (Quoted(value) + rest);
    assert JsonEntry(key, value) + rest == Quoted(key) + tail;
    ReadQuotedOf(key, tail);
    assert tail[..2] == ": " && tail[2..] == Quoted(value) + rest;
    ReadQuotedOf(value, rest);
  }

  lemma ParseEntriesLast(key: string, value: string)
    ensures ParseEntries(JsonEntry(key, value) + " }") == Some([(key, value)])
  {
    ParseEntryOf(key, value, " }");
  }

  lemma ParseEntriesStep(key: string, value: string, more: string)
    requires ParseEntries(more).Some?
    ensures ParseEntries(JsonEntry(key, value) + (", " + more)) == Some([(key, value)] + ParseEntries(more).value)
  {
    var rest := ", " + more;
    ParseEntryOf(key, value, rest);
    assert rest[0] == ',' && rest[2..] == more;
  }

  /** The members and pairs of a non-empty order: those of its first key, then those of
      the rest. */
  lemma EntriesCons(m: map<string, string>, order: seq<string>)
    requires order != [] && forall i :: 0 <= i < |order| ==> order[i] in m
    ensures JsonEntries(m, order) == [JsonEntry(order[0], m[order[0]])] + JsonEntries(m, order[1..])
    ensures Pairs(m, order) == [(order[0], m[order[0]])] + Pairs(m, order[1..])
  {
  }

  lemma JoinCons(pieces: seq<string>, sep: string, end: string)
    requires |pieces| > 1
    ensures Join(pieces, sep) + end == pieces[0] + (sep + (Join(pieces[1..], sep) + end))
  {
  }

  lemma {:induction false} ParseEntriesOf(m: map<string, string>, order: seq<string>)
    requires order != [] && forall i :: 0 <= i < |order| ==> order[i] in m
    ensures ParseEntries(Join(JsonEntries(m, order), ", ") + " }") == Some(Pairs(m, order))
    decreases |order|
  {
    var key, value := order[0], m[order[0]];
    EntriesCons(m, order);
    if |order| == 1 {
      assert JsonEntries(m, order[1..]) == [] && Pairs(m, order[1..]) == [];
      assert JsonEntries(m, order) == [JsonEntry(key, value)] && Pairs(m, order) == [(key, value)];
      assert Join(JsonEntries(m, order), ", ") == JsonEntry(key, value);
      ParseEntriesLast(key, value);
    } else {
      var tail := order[1..];
      var more := Join(JsonEntries(m, tail), ", ") + " }";
      JoinCons(JsonEntries(m, order), ", ", " }");
      ParseEntriesOf(m, tail);
      ParseEntriesStep(key, value, more);
    }
  }

  /** `propsAsJSON` can be read back: it lists exactly the properties, in the order
      the keys were iterated, each with its value. */
  lemma PropsJsonRoundTrip(m: map<string, string>, order: seq<string>)
    requires forall i :: 0 <= i < |order| ==> order[i] in m
    ensures ParsePropsJson(PropsJson(m, order)) == Some(Pairs(m, order))
  {
    var s := PropsJson(m, order);
    if order == [] {
      assert JsonEntries(m, order) == [] && Pairs(m, order) == [];
      assert s == "{  }";
    } else {
      var entries := JsonEntries(m, order);
      var joined := Join(entries, ", ");
      assert joined[..|entries[0]|] == entries[0] by {
        if |entries| > 1 {
          assert joined == entries[0] + (", " + Join(entries[1..], ", "));
        }
      }
      assert s[2] == '"';
      assert s[2..] == joined + " }";
      ParseEntriesOf(m, order);
    }
  }

  // ---------------------------------------------------------------------------
  // Requests

  datatype Url = Url(protocol: string, host: string, port: Int32, file: string)

  /** What one connection sends: URL, request method, request headers and body. */
  datatype Request = Request(url: Url, requestMethod: string, headers: map<string, string>, body: seq<Byte>)

  /** One attempt of doAnnotation: the response annotation read back, or the throwable
      raised by the connection, the write, the read or the protocol check. */
  datatype Attempt = Responded(response: map<Key, Value>) | Failed(error: Throwable)

  /** How the attempts end: the response of the first successful attempt (and its
      number), or the throwable of the last failed one. */
  datatype Outcome = Merged(response: map<Key, Value>, attempt: nat) | Exhausted(last: Throwable)

  /** The answer of the status probe: a response code, or the throwable raised. */
  datatype Probe = Status(code: int) | ProbeFailed(error: Throwable)

  predicate IsHttp(protocol: string) {
    protocol == "https" || protocol == "http"
  }

  /** The Basic credentials of section 2 of RFC 7617: "Basic " and the base64 (section
      4 of RFC 4648) of key ':' secret, present only when both are set. */
  function BasicAuth(apiKey: Option<string>, apiSecret: Option<string>): Option<string> {
    if apiKey.Some? && apiSecret.Some? then
      Some("Basic " + Base64Encode(Utf8(apiKey.value + ":" + apiSecret.value)))
    else None
  }

  /** How a server reads Basic credentials: user-id up to the first ':', password
      after it. */
  function DecodeBasicAuth(header: string): Option<(string, string)> {
    if !StartsWith(header, "Basic ") then None
    else match Base64Decode(header[6..])
      case None => None
      case Some(bytes) =>
        match Utf8Decode(bytes)
        case None => None
        case Some(text) =>
          var user := Before(text, ':');
          if |user| == |text| then None else Some((user, text[|user| + 1..]))
  }

  /** The server recovers both credentials from the header, provided the key has no
      ':' (section 2 of RFC 7617 forbids one in the user-id). */
  lemma BasicAuthRoundTrip(apiKey: string, apiSecret: string)
    requires ':' !in apiKey
    ensures BasicAuth(Some(apiKey), Some(apiSecret)).Some?
    ensures DecodeBasicAuth(BasicAuth(Some(apiKey), Some(apiSecret)).value) == Some((apiKey, apiSecret))
  {
    var text := apiKey + ":" + apiSecret;
    Utf8RoundTrip(text);
    Base64RoundTrip(Utf8(text));
    var h := BasicAuth(Some(apiKey), Some(apiSecret)).value;
    assert h[6..] == Base64Encode(Utf8(text));
    assert text == apiKey + [':'] + apiSecret;
    BeforeFirst(apiKey, ':', apiSecret);
    assert text[|apiKey| + 1..] == apiSecret;
  }

  /** The authentication header set on every connection, in doAnnotation and in
      checkStatus alike. */
  function AuthHeaders(apiKey: Option<string>, apiSecret: Option<string>): (h: map<string, string>)
    ensures "Authorization" in h <==> apiKey.Some? && apiSecret.Some?
    ensures h.Keys <= {"Authorization"}
    ensures "Authorization" in h ==> Some(h["Authorization"]) == BasicAuth(apiKey, apiSecret)
  {
    match BasicAuth(apiKey, apiSecret)
    case None => map[]
    case Some(auth) => map["Authorization" := auth]
  }

  /** The headers of an annotation request: authentication when configured, the
      protobuf content type, the body's length, the charset and the client's name. */
  function ConnectionHeaders(apiKey: Option<string>, apiSecret: Option<string>, length: int): (h: map<string, string>)
    ensures "Authorization" in h <==> "Authorization" in AuthHeaders(apiKey, apiSecret)
    ensures "Authorization" in h ==> h["Authorization"] == AuthHeaders(apiKey, apiSecret)["Authorization"]
    ensures h.Keys == AuthHeaders(apiKey, apiSecret).Keys + {"Content-Type", "Content-Length", "Accept-Charset", "User-Agent"}
    ensures h["Content-Type"] == "application/x-protobuf" && h["Accept-Charset"] == "utf-8"
    ensures h["User-Agent"] == ClientClassName
    ensures Int32Min <= length <= Int32Max ==> ParseInt(h["Content-Length"]) == Some(length)
  {
    var h := AuthHeaders(apiKey, apiSecret) + map[
      "Content-Type" := "application/x-protobuf",
      "Content-Length" := IntToString(length),
      "Accept-Charset" := "utf-8",
      "User-Agent" := ClientClassName];
    if Int32Min <= length <= Int32Max then ParseIntToString(length); h else h
  }

  // ---------------------------------------------------------------------------
  // Retrying

  /** The n-th attempt against a backend: an unsupported protocol throws before
      anything is sent; otherwise the transport answers the request. */
  function AttemptAt(backend: Backend, request: Request, transport: (nat, Request) -> Attempt, n: nat): Attempt {
    if IsHttp(backend.protocol) then transport(n, request)
    else Failed(IllegalStateException("Haven't implemented protocol: " + backend.protocol))
  }

  function Attempts(backend: Backend, request: Request, transport: (nat, Request) -> Attempt): nat -> Attempt {
    (n: nat) => AttemptAt(backend, request, transport, n)
  }

  /** The recursion of doAnnotation from attempt `tries` on. */
  function RunAttempts(attempt: nat -> Attempt, tries: nat): Outcome
    requires tries <= MaxRetries
    decreases MaxRetries - tries
  {
    match attempt(tries)
    case Responded(response) => Merged(response, tries)
    case Failed(t) => if tries < MaxRetries then RunAttempts(attempt, tries + 1) else Exhausted(t)
  }

  /** The retries end at the first successful attempt, and give up after attempt 3
      (the fourth) with its throwable exactly when every attempt failed. */
  lemma {:induction false} RunAttemptsSpec(attempt: nat -> Attempt, tries: nat)
    requires tries <= MaxRetries
    ensures match RunAttempts(attempt, tries)
      case Merged(response, k) =>
        && tries <= k <= MaxRetries && attempt(k) == Responded(response)
        && forall i :: tries <= i < k ==> attempt(i).Failed?
      case Exhausted(t) =>
        && attempt(MaxRetries) == Failed(t)
        && forall i :: tries <= i <= MaxRetries ==> attempt(i).Failed?
    decreases MaxRetries - tries
  {
    if attempt(tries).Failed? && tries < MaxRetries {
      RunAttemptsSpec(attempt, tries + 1);
    }
  }

  /** How many requests the attempts send: one per attempt, none at all when the
      protocol is not supported. */
  function SentCount(backend: Backend, outcome: Outcome): nat {
    if !IsHttp(backend.protocol) then 0
    else match outcome
      case Merged(_, k) => k + 1
      case Exhausted(_) => MaxRetries + 1
  }

  /** The key-by-key copy of a response into the annotation: every response key is
      overwritten, every other key keeps its value. */
  method MergeResponse(annotation: Annotation, response: map<Key, Value>)
    modifies annotation
    ensures annotation.entries == old(annotation.entries) + response
  {
    var keys := response.Keys;
    while keys != {}
      invariant keys <= response.Keys
      invariant annotation.entries
        == old(annotation.entries) + (map k | k in response && k !in keys :: response[k])
      decreases keys
    {
      var key :| key in keys;
      annotation.Set(key, response[key]);
      keys := keys - {key};
    }
    assert (map k | k in response && k !in keys :: response[k]) == response;
  }

  /** The copy loop of the constructor: a new Properties with every key and value. */
  method CopyProperties(properties: Properties) returns (copy: Properties)
    ensures fresh(copy) && copy.entries == properties.entries
  {
    copy := new Properties();
    var keys := properties.entries.Keys;
    while keys != {}
      invariant keys <= properties.entries.Keys
      invariant copy.entries == map k | k in properties.entries && k !in keys :: properties.entries[k]
      decreases keys
    {
      var key :| key in keys;
      copy.SetProperty(key, properties.entries[key]);
      keys := keys - {key};
    }
    assert copy.entries == properties.entries;
  }

  /** The JSON members of the properties, one per key, in the (unspecified) order in
      which the key set is iterated. */
  method JsonProperties(props: Properties) returns (json: seq<string>, ghost order: seq<string>)
    ensures Enumerates(order, props.entries.Keys)
    ensures json == JsonEntries(props.entries, order)
  {
    var names := props.entries.Keys;
    json := [];
    order := [];
    while names != {}
      invariant names <= props.entries.Keys
      invariant forall i, j :: 0 <= i < j < |order| ==> order[i] != order[j]
      invariant forall i :: 0 <= i < |order| ==> order[i] in props.entries && order[i] !in names
      invariant forall k :: k in props.entries ==> k in order || k in names
      invariant json == JsonEntries(props.entries, order)
      decreases names
    {
      var key :| key in names;
      json := json + [JsonEntry(key, props.entries[key])];
      order := order + [key];
      names := names - {key};
    }
  }

  /** The four `setProperty` calls that force serialized protobuf on the server. */
  method ForceWireFormat(server: Properties)
    modifies server
    ensures server.entries == ServerProperties(old(server.entries))
  {
    server.SetProperty("inputFormat", "serialized");
    server.SetProperty("outputFormat", "serialized");
    server.SetProperty("inputSerializer", SerializerClassName);
    server.SetProperty("outputSerializer", SerializerClassName);
  }

  // ---------------------------------------------------------------------------
  // The client

  class Client {
    const backends: seq<Backend>
    const propsAsJson: string
    const apiKey: Option<string>
    const apiSecret: Option<string>
    /** The properties sent to the server and the order in which their key set was
        iterated when the JSON was built. */
    ghost const serverProperties: map<string, string>
    ghost const keyOrder: seq<string>

    ghost predicate Valid() {
      Enumerates(keyOrder, serverProperties.Keys) && propsAsJson == PropsJson(serverProperties, keyOrder)
    }

    /** The private constructor: copy the caller's properties, force the wire format,
        and print the properties as JSON in the key set's iteration order. */
    constructor (properties: Properties, backends: seq<Backend>, apiKey: Option<string>, apiSecret: Option<string>)
      ensures Valid()
      ensures this.backends == backends && this.apiKey == apiKey && this.apiSecret == apiSecret
      ensures serverProperties == ServerProperties(properties.entries)
    {
      var server := CopyProperties(properties);
      this.backends := backends;
      this.apiKey := apiKey;
      this.apiSecret := apiSecret;

      ForceWireFormat(server);

      var json, order := JsonProperties(server);
      propsAsJson := "{ " + Join(json, ", ") + " }";
      serverProperties := server.entries;
      keyOrder := order;
    }

    /** The URL `annotate` posts to: the backend's protocol, host and port, and as file
        the empty path with the form-encoded properties as query. */
    function ServerUrl(backend: Backend): Url {
      Url(backend.protocol, backend.host, backend.port, ServerPath + "?" + "properties=" + FormEncode(propsAsJson))
    }

    /** The request every attempt sends. */
    function RequestFor(url: Url, message: seq<Byte>): Request {
      Request(url, "POST", ConnectionHeaders(apiKey, apiSecret, |message|), message)
    }

    /** The query of the server URL decodes (form decoding, then UTF-8) to the JSON,
        which lists exactly the server properties. */
    lemma QueryCarriesProperties(backend: Backend)
      requires Valid()
      ensures var file := ServerUrl(backend).file;
        && StartsWith(file, "?properties=")
        && FormDecode(file[12..]) == Some(Utf8(propsAsJson))
        && ParsePropsJson(propsAsJson) == Some(Pairs(serverProperties, keyOrder))
    {
      var query := FormEncode(propsAsJson);
      assert ServerPath + "?" + "properties=" == "?properties=";
      assert ServerUrl(backend).file == "?properties=" + query;
      assert ("?properties=" + query)[12..] == query;
      FormRoundTrip(propsAsJson);
      PropsJsonRoundTrip(serverProperties, keyOrder);
    }

    /** `doAnnotation` as a loop over the attempt counter. Every attempt builds the same
        request; the first response is merged into the annotation; after the fourth
        failure the last throwable escapes wrapped in a RuntimeException. */
    method DoAnnotation(annotation: Annotation, backend: Backend, url: Url, message: seq<Byte>,
                        transport: (nat, Request) -> Attempt)
      returns (thrown: Option<Throwable>, sent: seq<Request>)
      modifies annotation
      ensures var outcome := RunAttempts(Attempts(backend, RequestFor(url, message), transport), 0);
        && (outcome.Merged? ==> thrown == None && annotation.entries == old(annotation.entries) + outcome.response)
        && (outcome.Exhausted? ==> thrown == Some(RuntimeException(outcome.last)) && annotation.entries == old(annotation.entries))
        && |sent| == SentCount(backend, outcome)
      ensures forall i :: 0 <= i < |sent| ==> sent[i] == RequestFor(url, message)
    {
      ghost var attempt := Attempts(backend, RequestFor(url, message), transport);
      var tries: nat := 0;
      sent := [];
      while true
        invariant tries <= MaxRetries
        invariant RunAttempts(attempt, tries) == RunAttempts(attempt, 0)
        invariant annotation.entries == old(annotation.entries)
        invariant |sent| == if IsHttp(backend.protocol) then tries else 0
        invariant forall i :: 0 <= i < |sent| ==> sent[i] == RequestFor(url, message)
        decreases MaxRetries - tries
      {
        var request := Request(url, "POST", ConnectionHeaders(apiKey, apiSecret, |message|), message);
        var result: Attempt;
        if backend.protocol == "https" || backend.protocol == "http" {
          result := transport(tries, request);
          sent := sent + [request];
        } else {
          result := Failed(IllegalStateException("Haven't implemented protocol: " + backend.protocol));
        }
        assert result == attempt(tries);
        if result.Responded? {
          MergeResponse(annotation, result.response);
          return None, sent;
        }
        if tries == MaxRetries {
          return Some(RuntimeException(result.error)), sent;
        }
        tries := tries + 1;
      }
    }

    /** The entries an annotation ends with after `annotate` on the first backend. */
    function AnnotateEffect(entries: map<Key, Value>, serialize: map<Key, Value> -> Result<seq<Byte>, Throwable>,
                            transport: (nat, Request) -> Attempt): map<Key, Value>
      requires |backends| > 0
    {
      match serialize(entries)
      case Failure(t) => entries[ExceptionAnnotation := ThrowableValue(t)]
      case Success(message) =>
        var backend := backends[0];
        match RunAttempts(Attempts(backend, RequestFor(ServerUrl(backend), message), transport), 0)
        case Merged(response, _) => entries + response
        case Exhausted(t) => entries[ExceptionAnnotation := ThrowableValue(RuntimeException(t))]
    }

    /** What `annotate` does, stated through the attempts: a serializer failure becomes
        the exception marker; otherwise the response of the first successful attempt
        is merged, and when all four attempts fail the marker is the RuntimeException
        around the last throwable. */
    lemma AnnotateEffectSpec(entries: map<Key, Value>, serialize: map<Key, Value> -> Result<seq<Byte>, Throwable>,
                             transport: (nat, Request) -> Attempt)
      requires |backends| > 0
      ensures var r := AnnotateEffect(entries, serialize, transport);
        && (serialize(entries).Failure? ==>
              r == entries[ExceptionAnnotation := ThrowableValue(serialize(entries).error)])
        && (serialize(entries).Success? ==>
              var attempt := Attempts(backends[0], RequestFor(ServerUrl(backends[0]), serialize(entries).value), transport);
              && ((forall i :: 0 <= i <= MaxRetries ==> attempt(i).Failed?) ==>
                    r == entries[ExceptionAnnotation := ThrowableValue(RuntimeException(attempt(MaxRetries).error))])
              && (forall k :: 0 <= k <= MaxRetries && attempt(k).Responded?
                    && (forall i :: 0 <= i < k ==> attempt(i).Failed?)
                    ==> r == entries + attempt(k).response))
    {
      if serialize(entries).Success? {
        var attempt := Attempts(backends[0], RequestFor(ServerUrl(backends[0]), serialize(entries).value), transport);
        RunAttemptsSpec(attempt, 0);
      }
    }

    /** `annotate`: an empty backend list throws before anything else; any throwable
        after that is caught and stored as the exception marker. */
    method Annotate(annotation: Annotation, serialize: map<Key, Value> -> Result<seq<Byte>, Throwable>,
                    transport: (nat, Request) -> Attempt)
      returns (escaped: Option<Throwable>, sent: seq<Request>)
      modifies annotation
      ensures |backends| == 0 ==>
        escaped == Some(IndexOutOfBoundsException) && annotation.entries == old(annotation.entries) && sent == []
      ensures |backends| > 0 ==>
        escaped == None && annotation.entries == AnnotateEffect(old(annotation.entries), serialize, transport)
    {
      sent := [];
      if |backends| == 0 {
        return Some(IndexOutOfBoundsException), sent;
      }
      var backend := backends[0];
      var message := serialize(annotation.entries);
      if message.Failure? {
        annotation.Set(ExceptionAnnotation, ThrowableValue(message.error));
        return None, sent;
      }
      var queryParams := "properties=" + FormEncode(propsAsJson);
      var serverUrl := Url(backend.protocol, backend.host, backend.port, ServerPath + "?" + queryParams);
      assert serverUrl == ServerUrl(backend);
      var thrown;
      thrown, sent := DoAnnotation(annotation, backend, serverUrl, message.value, transport);
      if thrown.Some? {
        annotation.Set(ExceptionAnnotation, ThrowableValue(thrown.value));
      }
      return None, sent;
    }

    /** `checkStatus`: true exactly for response codes from 200 to 400, both included;
        a URL that does not open an HTTP connection and any throwable of the probe
        escape as a RuntimeException. */
    function CheckStatus(url: Url, probe: Request -> Probe): (r: Result<bool, Throwable>)
      ensures r.Success? <==> IsHttp(url.protocol) && probe(Request(url, "GET", AuthHeaders(apiKey, apiSecret), [])).Status?
      ensures r.Success? ==>
        (r.value <==> 200 <= probe(Request(url, "GET", AuthHeaders(apiKey, apiSecret), [])).code <= 400)
      ensures r.Failure? ==> r.error.RuntimeException?
    {
      if !IsHttp(url.protocol) then Failure(RuntimeException(ClassCastException))
      else match probe(Request(url, "GET", AuthHeaders(apiKey, apiSecret), []))
        case Status(code) => Success(200 <= code && code <= 400)
        case ProbeFailed(t) => Failure(RuntimeException(t))
    }

    /** `process`: a new annotation holding the text, annotated. */
    method Process(text: string, serialize: map<Key, Value> -> Result<seq<Byte>, Throwable>,
                   transport: (nat, Request) -> Attempt)
      returns (r: Result<Annotation, Throwable>, sent: seq<Request>)
      ensures |backends| == 0 ==> r == Failure(IndexOutOfBoundsException)
      ensures |backends| > 0 ==>
        r.Success? && fresh(r.value) && r.value.entries == AnnotateEffect(map[TextAnnotation := TextValue(text)], serialize, transport)
    {
      var annotation := new Annotation(text);
      var escaped;
      escaped, sent := Annotate(annotation, serialize, transport);
      if escaped.Some? {
        return Failure(escaped.value), sent;
      }
      return Success(annotation), sent;
    }
  }

  /** The public constructor: one backend for the host and port. */
  method NewClient(properties: Properties, host: string, port: Int32, apiKey: Option<string>, apiSecret: Option<string>)
    returns (c: Client)
    ensures fresh(c) && c.Valid()
    ensures c.backends == [MakeBackend(host, port)]
    ensures c.serverProperties == ServerProperties(properties.entries)
    ensures c.apiKey == apiKey && c.apiSecret == apiSecret
  {
    var backends := GetBackends(host, port, 1);
    assert backends == [MakeBackend(host, port)];
    c := new Client(properties, backends, apiKey, apiSecret);
  }
}
