# StanfordCoreNLP NiFi processor — Dafny model

This project models the core of a NiFi processor that runs Stanford CoreNLP named-entity
recognition on flow files. The model has three parts:

- **`CoreNlpService`** (`service.dfy`): the service that sanitises the CoreNLP properties,
  picks a local or remote pipeline, and sorts the entity mentions of a document into one
  bucket per requested label. `location` is an aggregate bucket for
  LOCATION/CITY/COUNTRY/STATE_OR_PROVINCE.
- **`ClientSimple`** (`client.dfy`): the simple remote client.
  - It builds its backend from a host string and the server property set, and prints that
    set as JSON.
  - It posts a serialized annotation with Basic credentials, retrying up to four attempts.
  - It merges the server's answer into the annotation, or records the failure as an
    exception entry.
  - It probes a server's status.
- **`Processor`** (`processor.dfy`): the NiFi processor.
  - It reads its properties, builds the service once, and reads the flow file's text.
  - It extracts the entities and merges them into the flow file's JSON record.
  - It routes the file to success or failure.

Supporting modules:

| module | file | contents |
|---|---|---|
| `JavaText` | `java_text.dfy` | Java string behaviour: `split` with limit 0, ASCII case mapping, `trim`, `Integer.parseInt` and `Integer.toString`, and `(int) Double.parseDouble` on decimal literals |
| `Codecs` | `codecs.dfy` | UTF-8, Base64 (section 4 of RFC 4648), `URLEncoder` form encoding and JSON string escaping, each with a decoder and a round-trip lemma |
| `JsonValues` | `json_values.dfy` | the values Gson produces and their `toString` forms |
| `Props`, `Annotations` | `props.dfy`, `annotations.dfy` | `java.util.Properties` and CoreNLP's `Annotation` as classes over maps |
| `Wrappers`, `Exceptions` | `wrappers.dfy` | `Option`, `Result`, and the Java exceptions that can escape |

Code that changes state step by step is modelled as methods:

- `extractEntities`, `sanitizeProps`, `getBackends`, the client constructor, `doAnnotation`,
  `annotate`, `jsonToProps`, `getTextFromJson`, `ensureService` and `onTrigger`.
- Each loop has invariants, and each method is proved against a specification function:
  - `Fill` and `EntitiesOutcome` for the service;
  - `RunAttempts` and `AnnotateEffect` for the client;
  - `PropsFromJson`, `ServiceSettings`, `TextFromJson`, `Triggered` and `Dispose` for the processor.

Code that only computes a value is modelled as functions. Lemmas state the properties of
those functions.

These parts of the system are parameters of the model:

- the NLP engine: returns the mention list, or the throwable, for a pipeline and a text;
- the protobuf serializer;
- the HTTP transport: gives the outcome of the n-th attempt;
- the status probe;
- Gson's parser and printer;
- JsonPath's two reads: the list read `getTextFromJson` tries first, and its fallback read as a map.

## Model

Source paths are relative to `nifi-stanfordcorenlp-processors/src/main/java/com/iss/nifi/processors/stanfordcorenlp/`, written in full below.

| member | source | states |
|---|---|---|
| JavaText.SplitProperties | nifi-stanfordcorenlp-processors/src/main/java/com/iss/nifi/processors/stanfordcorenlp/StanfordCoreNLPService.java:80 | `split(",")` pieces hold no comma; with no comma the whole string is the one piece; otherwise the result is a prefix of all the pieces, every piece dropped after it is empty, and its last piece (if any) is not empty |
| JavaText.DropTrailingEmptyDropsEmpty | nifi-stanfordcorenlp-processors/src/main/java/com/iss/nifi/processors/stanfordcorenlp/StanfordCoreNLPService.java:80 | limit-0 `split` removes only empty pieces, and only from the end |
| JavaText.JoinSplitAll | nifi-stanfordcorenlp-processors/src/main/java/com/iss/nifi/processors/stanfordcorenlp/StanfordCoreNLPService.java:80 | joining all the comma-separated pieces with commas gives back the input, so no character is lost by the split |
| JavaText.LowerOfUpper | nifi-stanfordcorenlp-processors/src/main/java/com/iss/nifi/processors/stanfordcorenlp/StanfordCoreNLPService.java:96-118 | lower-casing the upper-cased label gives the label back exactly when it has no upper-case letter (the bucket key a mention's type maps to) |
| JavaText.ParseIntToString | nifi-stanfordcorenlp-processors/src/main/java/com/iss/nifi/processors/stanfordcorenlp/StanfordCoreNLPService.java:71 | `Integer.parseInt` reads back every int that `Integer.toString` prints |
| JavaText.DecimalIntValueOfIntToString | nifi-stanfordcorenlp-processors/src/main/java/com/iss/nifi/processors/stanfordcorenlp/StanfordCoreNLPService.java:136-137 | `(int) Double.parseDouble` of a printed int is that int |
| Codecs.Utf8RoundTrip | nifi-stanfordcorenlp-processors/src/main/java/com/iss/nifi/processors/stanfordcorenlp/StanfordCoreNLPClientSimple.java:210-211 | the UTF-8 bytes of a string decode back to the string |
| Codecs.Base64RoundTrip | nifi-stanfordcorenlp-processors/src/main/java/com/iss/nifi/processors/stanfordcorenlp/StanfordCoreNLPClientSimple.java:211 | Base64 encoding (section 4 of RFC 4648) of any byte sequence decodes back to it |
| Codecs.FormRoundTrip | nifi-stanfordcorenlp-processors/src/main/java/com/iss/nifi/processors/stanfordcorenlp/StanfordCoreNLPClientSimple.java:172-174 | `URLEncoder.encode(s, "utf-8")` form-decodes to the UTF-8 bytes of `s` |
| Codecs.ReadJsonStringOfEscape | nifi-stanfordcorenlp-processors/src/main/java/com/iss/nifi/processors/stanfordcorenlp/StanfordCoreNLPClientSimple.java:127-128 | an escaped JSON string followed by its closing quote reads back as the original string, leaving the rest |
| CoreNlpService.Sanitized | nifi-stanfordcorenlp-processors/src/main/java/com/iss/nifi/processors/stanfordcorenlp/StanfordCoreNLPService.java:129-140 | fails with NumberFormatException(value) exactly when `threads` is present and not a number; otherwise the keys become the old keys plus `annotators` and `threads`, `annotators` keeps its value or gets the default, `threads` holds the integer part of its value (default 1), and every other key is unchanged |
| CoreNlpService.SanitizedIdempotent | nifi-stanfordcorenlp-processors/src/main/java/com/iss/nifi/processors/stanfordcorenlp/StanfordCoreNLPService.java:129-140 | sanitising sanitised properties changes nothing |
| CoreNlpService.SanitizeProps | nifi-stanfordcorenlp-processors/src/main/java/com/iss/nifi/processors/stanfordcorenlp/StanfordCoreNLPService.java:129-140 | the method's result is `Sanitized` of the old entries, in place for a non-null argument and in new properties for null; when it throws, the default annotators have already been stored |
| CoreNlpService.NewService | nifi-stanfordcorenlp-processors/src/main/java/com/iss/nifi/processors/stanfordcorenlp/StanfordCoreNLPService.java:52-62 | the constructors store the sanitised properties and the connection settings, or let the sanitising exception escape; the one-argument one is the case with no host and port 0 |
| CoreNlpService.Service.constructor | nifi-stanfordcorenlp-processors/src/main/java/com/iss/nifi/processors/stanfordcorenlp/StanfordCoreNLPService.java:56-62 | the five fields are assigned from the arguments |
| CoreNlpService.InitialBuckets | nifi-stanfordcorenlp-processors/src/main/java/com/iss/nifi/processors/stanfordcorenlp/StanfordCoreNLPService.java:89-92 | one key per label of the split list, each with an empty list |
| CoreNlpService.NerTags | nifi-stanfordcorenlp-processors/src/main/java/com/iss/nifi/processors/stanfordcorenlp/StanfordCoreNLPService.java:93-97 | a tag is matched exactly when it is the upper-cased form of some label other than `location` |
| CoreNlpService.LabelLoop | nifi-stanfordcorenlp-processors/src/main/java/com/iss/nifi/processors/stanfordcorenlp/StanfordCoreNLPService.java:87-98 | the label loop yields exactly `InitialBuckets`, the aggregate flag (set exactly when `location` is a label) and `NerTags` of the split labels |
| CoreNlpService.FillKeys | nifi-stanfordcorenlp-processors/src/main/java/com/iss/nifi/processors/stanfordcorenlp/StanfordCoreNLPService.java:107-119 | the mention loop never adds a key outside the initial ones |
| CoreNlpService.FillCompletes | nifi-stanfordcorenlp-processors/src/main/java/com/iss/nifi/processors/stanfordcorenlp/StanfordCoreNLPService.java:107-126 | the loop ends without an exception exactly when no mention is routed to a missing bucket |
| CoreNlpService.FillContents | nifi-stanfordcorenlp-processors/src/main/java/com/iss/nifi/processors/stanfordcorenlp/StanfordCoreNLPService.java:107-119 | when no exception occurs, each bucket is its initial list followed by the texts of the mentions routed to it, in mention order and with duplicates |
| CoreNlpService.FillStops | nifi-stanfordcorenlp-processors/src/main/java/com/iss/nifi/processors/stanfordcorenlp/StanfordCoreNLPService.java:116-126 | at the first mention whose bucket is missing, the loop stops and returns the map filled by the mentions before it |
| CoreNlpService.FillStaysAborted | nifi-stanfordcorenlp-processors/src/main/java/com/iss/nifi/processors/stanfordcorenlp/StanfordCoreNLPService.java:123-126 | once the loop has thrown, later mentions do not change the result |
| CoreNlpService.MentionLoop | nifi-stanfordcorenlp-processors/src/main/java/com/iss/nifi/processors/stanfordcorenlp/StanfordCoreNLPService.java:101-126 | the mention loop returns the buckets of `Fill`: complete, or as they stood at the first missing bucket |
| CoreNlpService.ExtractedBuckets | nifi-stanfordcorenlp-processors/src/main/java/com/iss/nifi/processors/stanfordcorenlp/StanfordCoreNLPService.java:79-127 | the result has exactly one key per split label; it is complete exactly when every mention's bucket exists, and then each bucket holds exactly the texts routed to it |
| CoreNlpService.NoMentions | nifi-stanfordcorenlp-processors/src/main/java/com/iss/nifi/processors/stanfordcorenlp/StanfordCoreNLPService.java:102-105 | a null mention list gives the all-empty initial map |
| CoreNlpService.LocationRoute | nifi-stanfordcorenlp-processors/src/main/java/com/iss/nifi/processors/stanfordcorenlp/StanfordCoreNLPService.java:109-113 | with `location` requested, a mention goes to the `location` bucket exactly when its type is LOCATION, CITY, COUNTRY or STATE_OR_PROVINCE |
| CoreNlpService.UpperOfLowerOfUpper | nifi-stanfordcorenlp-processors/src/main/java/com/iss/nifi/processors/stanfordcorenlp/StanfordCoreNLPService.java:96-116 | the bucket key of a matched tag upper-cases back to that tag |
| CoreNlpService.MixedCaseLabelExample | nifi-stanfordcorenlp-processors/src/main/java/com/iss/nifi/processors/stanfordcorenlp/StanfordCoreNLPService.java:116-126 | the label `Person` with a PERSON mention throws inside the loop (no `person` bucket), and the empty `Person` bucket is returned |
| CoreNlpService.SeparatorsOnlyExample | nifi-stanfordcorenlp-processors/src/main/java/com/iss/nifi/processors/stanfordcorenlp/StanfordCoreNLPService.java:80-98 | the label list `,` splits into nothing, so the map is empty whatever the mentions |
| CoreNlpService.Service.ChoosePipeline | nifi-stanfordcorenlp-processors/src/main/java/com/iss/nifi/processors/stanfordcorenlp/StanfordCoreNLPService.java:64-77 | the local pipeline exactly when no host is set, on the stored properties; it throws NumberFormatException(value) exactly when a host is set and `threads` is present and not an int; otherwise the remote pipeline gets the properties, host, port, the `threads` int (default 1), key and secret |
| CoreNlpService.IntThreadsOfSanitized | nifi-stanfordcorenlp-processors/src/main/java/com/iss/nifi/processors/stanfordcorenlp/StanfordCoreNLPService.java:71-72 | on sanitised properties the remote pipeline's int read of `threads` succeeds and gives the count sanitising stored |
| CoreNlpService.Service.SanitizedPipeline | nifi-stanfordcorenlp-processors/src/main/java/com/iss/nifi/processors/stanfordcorenlp/StanfordCoreNLPService.java:64-77 | a service holding sanitised properties never fails to build its pipeline, and a remote one runs with the sanitised thread count |
| CoreNlpService.Service.ExtractEntities | nifi-stanfordcorenlp-processors/src/main/java/com/iss/nifi/processors/stanfordcorenlp/StanfordCoreNLPService.java:79-127 | the two loops compute `EntitiesOutcome`: NullPointerException for null labels, the engine's throwable, or the buckets of `Fill`, which the lemmas above characterise |
| ClientSimple.Backend.Equals | nifi-stanfordcorenlp-processors/src/main/java/com/iss/nifi/processors/stanfordcorenlp/StanfordCoreNLPClientSimple.java:60-65 | equal exactly to a backend with the same protocol, host and port; false for null or another class |
| ClientSimple.BackendEqualsEquivalence | nifi-stanfordcorenlp-processors/src/main/java/com/iss/nifi/processors/stanfordcorenlp/StanfordCoreNLPClientSimple.java:60-65 | `equals` is reflexive, symmetric and transitive |
| ClientSimple.ParseBackendToString | nifi-stanfordcorenlp-processors/src/main/java/com/iss/nifi/processors/stanfordcorenlp/StanfordCoreNLPClientSimple.java:72-74 | `protocol://host:port` reads back as the backend, for a protocol without ':' |
| ClientSimple.MakeBackendToString | nifi-stanfordcorenlp-processors/src/main/java/com/iss/nifi/processors/stanfordcorenlp/StanfordCoreNLPClientSimple.java:149-150 | the protocol is `http` exactly when the host starts with `http://`; printing the backend gives back the host with its scheme (one scheme stripped, then restored), or `https://` plus the host when it had none, then `:port` |
| ClientSimple.GetBackends | nifi-stanfordcorenlp-processors/src/main/java/com/iss/nifi/processors/stanfordcorenlp/StanfordCoreNLPClientSimple.java:146-154 | `threads` backends (none for a negative count), all the backend made from host and port |
| ClientSimple.ShuffleOfCopies | nifi-stanfordcorenlp-processors/src/main/java/com/iss/nifi/processors/stanfordcorenlp/StanfordCoreNLPClientSimple.java:115 | any permutation of a list of equal backends is that list, so the shuffle does not matter |
| ClientSimple.ServerProperties | nifi-stanfordcorenlp-processors/src/main/java/com/iss/nifi/processors/stanfordcorenlp/StanfordCoreNLPClientSimple.java:111-124 | the caller's keys plus the four forced ones; the formats are `serialized` and the serializers the protobuf class, overriding the caller; every other key keeps its value |
| ClientSimple.ForceWireFormat | nifi-stanfordcorenlp-processors/src/main/java/com/iss/nifi/processors/stanfordcorenlp/StanfordCoreNLPClientSimple.java:120-124 | the four `setProperty` calls turn the copied properties into `ServerProperties` of them |
| ClientSimple.CopyProperties | nifi-stanfordcorenlp-processors/src/main/java/com/iss/nifi/processors/stanfordcorenlp/StanfordCoreNLPClientSimple.java:111-114 | the copy is new and has the same entries |
| ClientSimple.JsonProperties | nifi-stanfordcorenlp-processors/src/main/java/com/iss/nifi/processors/stanfordcorenlp/StanfordCoreNLPClientSimple.java:127-129 | one `"key": "value"` member per property, in an order that lists every key once |
| ClientSimple.PropsJsonRoundTrip | nifi-stanfordcorenlp-processors/src/main/java/com/iss/nifi/processors/stanfordcorenlp/StanfordCoreNLPClientSimple.java:126-131 | the printed `{ ... }` object parses back to exactly the key/value pairs in enumeration order, the empty set to `{  }` |
| ClientSimple.Client.constructor | nifi-stanfordcorenlp-processors/src/main/java/com/iss/nifi/processors/stanfordcorenlp/StanfordCoreNLPClientSimple.java:109-132 | the server properties are `ServerProperties` of the caller's, and `propsAsJSON` prints them (the `Valid` invariant); backends and credentials are stored |
| ClientSimple.NewClient | nifi-stanfordcorenlp-processors/src/main/java/com/iss/nifi/processors/stanfordcorenlp/StanfordCoreNLPClientSimple.java:140-144 | the public constructor makes a valid client with the single backend made from host and port |
| ClientSimple.Client.QueryCarriesProperties | nifi-stanfordcorenlp-processors/src/main/java/com/iss/nifi/processors/stanfordcorenlp/StanfordCoreNLPClientSimple.java:172-179 | the URL's file is `?properties=` and a query that decodes to the UTF-8 of `propsAsJSON`, which parses to the server properties |
| ClientSimple.BasicAuthRoundTrip | nifi-stanfordcorenlp-processors/src/main/java/com/iss/nifi/processors/stanfordcorenlp/StanfordCoreNLPClientSimple.java:209-213 | a server decoding the Basic header (section 2 of RFC 7617) recovers key and secret, for a key without ':' |
| ClientSimple.AuthHeaders | nifi-stanfordcorenlp-processors/src/main/java/com/iss/nifi/processors/stanfordcorenlp/StanfordCoreNLPClientSimple.java:265-269 | an `Authorization` header exactly when both key and secret are set, holding the Basic credentials, and nothing else |
| ClientSimple.ConnectionHeaders | nifi-stanfordcorenlp-processors/src/main/java/com/iss/nifi/processors/stanfordcorenlp/StanfordCoreNLPClientSimple.java:209-219 | the same authorization rule, plus the content type, charset, user agent, and a Content-Length that parses back to the message length |
| ClientSimple.RunAttemptsSpec | nifi-stanfordcorenlp-processors/src/main/java/com/iss/nifi/processors/stanfordcorenlp/StanfordCoreNLPClientSimple.java:243-251 | the retry recursion merges the first successful attempt among tries 0..3, all earlier ones having failed; if all four fail, it ends with the last failure |
| ClientSimple.MergeResponse | nifi-stanfordcorenlp-processors/src/main/java/com/iss/nifi/processors/stanfordcorenlp/StanfordCoreNLPClientSimple.java:238-241 | every response key overwrites the annotation's value, every other key is unchanged |
| ClientSimple.Client.DoAnnotation | nifi-stanfordcorenlp-processors/src/main/java/com/iss/nifi/processors/stanfordcorenlp/StanfordCoreNLPClientSimple.java:203-252 | the retry loop sends the same POST (same URL, headers and message) on each attempt, at most four and none for a protocol other than http/https; on success the response is merged, otherwise RuntimeException(last failure) is thrown and the annotation is unchanged |
| ClientSimple.Client.AnnotateEffectSpec | nifi-stanfordcorenlp-processors/src/main/java/com/iss/nifi/processors/stanfordcorenlp/StanfordCoreNLPClientSimple.java:161-190 | a serializer failure, or four failed attempts, sets `ExceptionAnnotation` to the throwable; the first successful attempt merges its response |
| ClientSimple.Client.Annotate | nifi-stanfordcorenlp-processors/src/main/java/com/iss/nifi/processors/stanfordcorenlp/StanfordCoreNLPClientSimple.java:161-190 | no backend: IndexOutOfBoundsException escapes and nothing changes; otherwise `annotate` returns normally with the entries `AnnotateEffect` gives for the first backend |
| ClientSimple.Client.CheckStatus | nifi-stanfordcorenlp-processors/src/main/java/com/iss/nifi/processors/stanfordcorenlp/StanfordCoreNLPClientSimple.java:260-277 | true exactly for a status code in 200..400 inclusive, probed with a GET carrying the authorization rule; any throwable, including the cast failure for a non-HTTP URL, becomes a RuntimeException |
| ClientSimple.Client.Process | nifi-stanfordcorenlp-processors/src/main/java/com/iss/nifi/processors/stanfordcorenlp/StanfordCoreNLPClientSimple.java:284-288 | a new annotation holding the text, annotated as `annotate` does |
| Processor.GetPort | nifi-stanfordcorenlp-processors/src/main/java/com/iss/nifi/processors/stanfordcorenlp/StanfordCoreNLPProcessor.java:286-296 | an unset port throws NullPointerException; a value whose trimmed text parses as an int gives that int, and any other value gives 9000 |
| Processor.GetPortOfIntToString | nifi-stanfordcorenlp-processors/src/main/java/com/iss/nifi/processors/stanfordcorenlp/StanfordCoreNLPProcessor.java:286-296 | a port written as an int is read back as that int |
| Processor.PropsFromJson | nifi-stanfordcorenlp-processors/src/main/java/com/iss/nifi/processors/stanfordcorenlp/StanfordCoreNLPProcessor.java:323-339 | it throws NullPointerException exactly for a JSON null document or an object with a null value; a null argument or a syntax error gives empty properties; otherwise the keys are the object's keys, each bound to the string form of its value |
| Processor.PropsFromJsonStrings | nifi-stanfordcorenlp-processors/src/main/java/com/iss/nifi/processors/stanfordcorenlp/StanfordCoreNLPProcessor.java:330-333 | string values are copied verbatim under the same keys, and no other key appears |
| Processor.NumericThreadsExample | nifi-stanfordcorenlp-processors/src/main/java/com/iss/nifi/processors/stanfordcorenlp/StanfordCoreNLPProcessor.java:332 | the number 1 in the JSON properties becomes "1.0", which sanitising turns into the thread count "1" |
| Processor.JsonToProps | nifi-stanfordcorenlp-processors/src/main/java/com/iss/nifi/processors/stanfordcorenlp/StanfordCoreNLPProcessor.java:323-339 | the key loop yields new properties with exactly `PropsFromJson`'s entries (empty for null input or a syntax error), or its exception |
| Processor.CreatePipeline | nifi-stanfordcorenlp-processors/src/main/java/com/iss/nifi/processors/stanfordcorenlp/StanfordCoreNLPProcessor.java:298-312 | local exactly when the host is null; otherwise remote with host, `getPort`, key and secret; the port is read only for the remote pipeline |
| Processor.HostWithoutPort | nifi-stanfordcorenlp-processors/src/main/java/com/iss/nifi/processors/stanfordcorenlp/StanfordCoreNLPProcessor.java:298-312 | a host without a port property makes building the service throw NullPointerException; without a host the port property is irrelevant |
| Processor.NlpProcessor.EnsureService | nifi-stanfordcorenlp-processors/src/main/java/com/iss/nifi/processors/stanfordcorenlp/StanfordCoreNLPProcessor.java:314-321 | an existing service is kept; otherwise the new service holds `ServiceSettings`, or the exception escapes and there is still no service |
| Processor.NlpProcessor.OnScheduled | nifi-stanfordcorenlp-processors/src/main/java/com/iss/nifi/processors/stanfordcorenlp/StanfordCoreNLPProcessor.java:160-164 | always rebuilds the service; on an exception the previous service stays |
| Processor.TextFromSession | nifi-stanfordcorenlp-processors/src/main/java/com/iss/nifi/processors/stanfordcorenlp/StanfordCoreNLPProcessor.java:234-259 | text exactly when the content was read and is not empty, and then it is the content |
| Processor.TextFromJson | nifi-stanfordcorenlp-processors/src/main/java/com/iss/nifi/processors/stanfordcorenlp/StanfordCoreNLPProcessor.java:261-283 | the whole text without a path; with one: the selected strings joined by spaces, or on a ClassCastException the map values each after a space ("" for an empty map); it throws exactly when the map handler's read throws or the first read throws a java.lang.Error, and the throwable is that one; any other Exception falls back to the whole text |
| Processor.SpacePrefixedJoin | nifi-stanfordcorenlp-processors/src/main/java/com/iss/nifi/processors/stanfordcorenlp/StanfordCoreNLPProcessor.java:271-277 | the map handler's text is one space followed by the values joined with spaces (empty for no values) |
| Processor.CombineValues | nifi-stanfordcorenlp-processors/src/main/java/com/iss/nifi/processors/stanfordcorenlp/StanfordCoreNLPProcessor.java:273-276 | the map handler's loop computes `SpacePrefixed` of the values |
| Processor.GetTextFromJson | nifi-stanfordcorenlp-processors/src/main/java/com/iss/nifi/processors/stanfordcorenlp/StanfordCoreNLPProcessor.java:261-283 | the method with its map loop computes exactly `TextFromJson` |
| Processor.DisposeFailure | nifi-stanfordcorenlp-processors/src/main/java/com/iss/nifi/processors/stanfordcorenlp/StanfordCoreNLPProcessor.java:177-195 | null or empty text, or an extraction exception, sends the unchanged flow file to failure |
| Processor.DisposeAnalysed | nifi-stanfordcorenlp-processors/src/main/java/com/iss/nifi/processors/stanfordcorenlp/StanfordCoreNLPProcessor.java:197-231 | the file goes to failure (unchanged) exactly when its text is the JSON null and there are entities to add; otherwise it goes to success with `output` set to the entity map's JSON and the content set to the merged record's JSON |
| Processor.Merge | nifi-stanfordcorenlp-processors/src/main/java/com/iss/nifi/processors/stanfordcorenlp/StanfordCoreNLPProcessor.java:208-211 | the record's keys plus the entity keys; each entity key holds its string list, overriding the record; every other key keeps its value |
| Processor.NotJsonGivesEntitiesOnly | nifi-stanfordcorenlp-processors/src/main/java/com/iss/nifi/processors/stanfordcorenlp/StanfordCoreNLPProcessor.java:199-206 | text that is not JSON is written as the entity map alone |
| Processor.MergeEntities | nifi-stanfordcorenlp-processors/src/main/java/com/iss/nifi/processors/stanfordcorenlp/StanfordCoreNLPProcessor.java:208-211 | the key loop computes the record with every entity key put into it |
| Processor.RouteFlowFile | nifi-stanfordcorenlp-processors/src/main/java/com/iss/nifi/processors/stanfordcorenlp/StanfordCoreNLPProcessor.java:177-231 | the empty-text check, parse, merge loop and writes compute exactly `Dispose` on the flow file and the extraction outcome |
| Processor.Triggered | nifi-stanfordcorenlp-processors/src/main/java/com/iss/nifi/processors/stanfordcorenlp/StanfordCoreNLPProcessor.java:177-195 | once the service exists: a throwable escapes exactly when the file has text and the JSON-path lookup throws or the extraction throws a java.lang.Error; the escaping throwable is that one; otherwise the file goes where `Dispose` says |
| Processor.ExtractionThrows | nifi-stanfordcorenlp-processors/src/main/java/com/iss/nifi/processors/stanfordcorenlp/StanfordCoreNLPProcessor.java:188-195 | an Exception from the extraction sends the unchanged file to failure; a java.lang.Error escapes |
| Processor.NlpProcessor.OnTrigger | nifi-stanfordcorenlp-processors/src/main/java/com/iss/nifi/processors/stanfordcorenlp/StanfordCoreNLPProcessor.java:167-232 | an existing service is kept, and a missing one is built to hold `ServiceSettings`; if building it throws, the processor keeps no service and the session is untouched; otherwise the queued file (or a new empty one) is taken, and either the throwable `Triggered` names escapes with nothing transferred, or the file is transferred once where `Triggered` sends it |

## Left out

- The NLP engine (`StanfordCoreNLP`, `StanfordCoreNLPClient`) is opaque library code. It is a parameter that maps a pipeline and a text to a mention list or a throwable.
- The protobuf serializer is a parameter (`serialize`), and the decoded response is part of the transport's answer. No round-trip law is claimed for it.
- HTTP I/O: the transport and the status probe are parameters. The model leaves out the `MalformedURLException` of URL construction. It also does not separate a failure of `openConnection` (before the protocol check) from one after it: both are a failed attempt, and for a non-HTTP protocol the attempt fails with the IllegalStateException.
- `Collections.shuffle` is left out: it cannot change a list of equal backends, as `ShuffleOfCopies` shows.
- `Backend.hashCode` always throws, and nothing in the core hashes a backend, so it is not modelled.
- JsonPath: its two reads are the `listRead` and `mapRead` parameters. A non-string item in the list and a result that is not a map are given as their ClassCastException; the values' `toString` forms are part of `mapRead`'s answer. `getTextFromJson`'s handlers and loop are modelled.
- Gson: parsing and printing are parameters. The model does not capture the key iteration order of Gson's maps. The number texts are taken as given, e.g. "1.0" for 1.
- `StringUtils.escapeJsonString` is not part of this model. It is assumed to escape `\`, `"`, backspace, form feed, newline, carriage return and tab, and to leave other characters alone.
- `String.getBytes()` is taken to use UTF-8, the platform default charset.
- `CoreNlpService.Sanitized`: `Double.parseDouble` is modelled only for decimal literals: sign, digits, and an optional fraction. Exponents, hexadecimal forms, `NaN`, `Infinity` and the `d`/`f` suffixes count as unparsable here. Java first rounds the literal to the nearest double and then truncates it. The model truncates the decimal text itself, so a literal with more digits than a double holds can differ: `2.9999999999999999` gives 3 in Java and 2 here. Only ASCII digits are accepted.
- `Processor.GetPort` (and `JavaText.ParseInt`, which `CoreNlpService.Service.ChoosePipeline` uses too): only ASCII digits are accepted. `Integer.parseInt` accepts any Unicode decimal digit, so a port of full-width `８０` is 80 in Java and the default 9000 here.
- `CoreNlpService.Service.ChoosePipeline`: the pipeline is a value that records its settings. Creating it and annotating with it is the engine parameter's job.
- `toUpperCase`/`toLowerCase` are modelled on ASCII letters only.
- Java strings are UTF-16. Here a string is a sequence of Unicode scalar values, so unpaired surrogates cannot occur.
- A null host or null properties passed to the ClientSimple constructors are not modelled: the Java code dereferences them without a check.
- A mention's entity type is always a string here. Java skips a mention whose type is null, because neither tag list contains null and the lower-casing only runs for a matched tag. A null type therefore behaves like any type outside the requested tags, and the model is the same for it.
- The NLP engine, the transport, the serializer and the JSON-path reads may raise a java.lang.Error (`Exceptions.Error`). The model follows the catch clauses: `catch (Throwable)` in ClientSimple takes it, and `catch (Exception)` in `onTrigger` does not. Errors raised by the sanitiser, the Gson parser or printer, or the session are not modelled.
- `createPipeline` calls `StanfordCoreNLPService.createPipeline(...)` and `ensureService` calls a `StanfordCoreNLPService(AnnotationPipeline)` constructor. The service defines neither. The model follows the evident intent: the local selection builds the service with its one-argument constructor, and the remote one with its five-argument constructor.
- `checkStatus` accepts status 400, as its doc comment says; the model keeps the inclusive bound.
- `extractEntities` does not look for an exception entry left by a failed remote annotation. The model likewise routes the engine's answer straight into the mention loop.
- Property descriptors, relationships as NiFi objects, `init`, Expression Language evaluation (taken as the identity), logging and `printStackTrace` are host plumbing.
- The session's `putAttribute` and `write` are modelled as producing a new flow-file value. A failure inside them is not modelled.
- `MyProcessor.java` and the test files are not part of this model.
