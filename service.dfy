/** StanfordCoreNLPService: property sanitising, the choice between the local and the
    remote pipeline, and the bucketing of entity mentions by requested label.

    The NLP engine itself is a parameter: given the chosen pipeline and the text it
    yields the annotated document (its entity mentions) or throws. */
module CoreNlpService {
  import opened Wrappers
  import opened Exceptions
  import opened JavaText
  import opened Props

  const DefaultAnnotators: string := "tokenize,ssplit,pos,lemma,ner"
  const DefaultThreads: Int32 := 1

  /** The NER tags that the aggregated "location" label collects. */
  const LocationNerTags: seq<string> := ["LOCATION", "CITY", "COUNTRY", "STATE_OR_PROVINCE"]
  const LocationLabel: string := "location"

  /** A `CoreEntityMention`: its surface text and its NER type. */
  datatype Mention = Mention(text: string, entityType: string)

  /** What `annotateDocument` produces: the document's entity mentions, possibly the
      null list, or the throwable that the pipeline raised. */
  datatype AnnotatedDocument = Annotated(mentions: Option<seq<Mention>>) | AnnotationFailed(error: Throwable)

  /** The pipeline `annotateDocument` constructs: a local StanfordCoreNLP on the
      properties, or a StanfordCoreNLPClient for a server. */
  datatype Pipeline =
    | LocalPipeline(props: map<string, string>)
    | RemotePipeline(props: map<string, string>, host: string, port: Int32, threads: Int32,
                     apiKey: Option<string>, apiSecret: Option<string>)

  /** The map `extractEntities` returns: label to the texts collected for it. */
  type Buckets = map<string, seq<string>>

  /** The state of the mention loop: the buckets so far, and whether an exception
      (a missing bucket) ended the loop early. */
  datatype Scan = Scan(buckets: Buckets, aborted: bool)

  // ---------------------------------------------------------------------------
  // sanitizeProps

  /** The properties with "annotators" defaulted. */
  function WithAnnotators(m: map<string, string>): map<string, string> {
    if "annotators" in m then m else m["annotators" := DefaultAnnotators]
  }

  /** `PropertiesUtils.getDouble(props, "threads", 1).intValue()`; None stands for the
      NumberFormatException of an unparsable value. */
  function ThreadsValue(m: map<string, string>): Option<Int32> {
    if "threads" in m then DecimalIntValue(m["threads"]) else Some(DefaultThreads)
  }

  /** `PropertiesUtils.getInt(props, "threads", 1)`, as the remote pipeline reads it;
      None stands for the NumberFormatException of a value that is not an int. */
  function IntThreads(m: map<string, string>): Option<Int32> {
    if "threads" in m then ParseInt(m["threads"]) else Some(DefaultThreads)
  }

  /** On sanitised properties the integer read of "threads" succeeds and gives the
      count that sanitising computed. */
  lemma IntThreadsOfSanitized(m: map<string, string>)
    requires Sanitized(m).Success?
    ensures IntThreads(Sanitized(m).value) == ThreadsValue(m)
    ensures IntThreads(Sanitized(m).value).Some?
  {
  }

  /** The properties after sanitising, or the exception that escapes it. */
  function Sanitized(m: map<string, string>): (r: Result<map<string, string>, Throwable>)
    ensures r.Failure? <==> "threads" in m && DecimalIntValue(m["threads"]).None?
    ensures r.Failure? ==> r.error == NumberFormatException(m["threads"])
    ensures r.Success? ==>
      && r.value.Keys == m.Keys + {"annotators", "threads"}
      && r.value["annotators"] == (if "annotators" in m then m["annotators"] else DefaultAnnotators)
      && ParseInt(r.value["threads"]) == ThreadsValue(m)
      && (forall k :: k in m && k != "annotators" && k != "threads" ==> r.value[k] == m[k])
  {
    match ThreadsValue(m)
    case None => Failure(NumberFormatException(m["threads"]))
    case Some(n) =>
      ParseIntToString(n);
      Success(WithAnnotators(m)["threads" := IntToString(n)])
  }

  /** Sanitising sanitised properties changes nothing: the printed thread count reads
      back as itself. */
  lemma SanitizedIdempotent(m: map<string, string>)
    requires Sanitized(m).Success?
    ensures Sanitized(Sanitized(m).value) == Sanitized(m)
  {
    var s := Sanitized(m).value;
    var n := ThreadsValue(m).value;
    DecimalIntValueOfIntToString(n);
    assert s["threads"] == IntToString(n);
    assert ThreadsValue(s) == Some(n);
    assert WithAnnotators(s)["threads" := IntToString(n)] == s;
  }

  /** `sanitizeProps`: a null argument is replaced by new empty properties; the given
      object is updated in place, so when the thread count does not parse the caller's
      object has already received its default "annotators". */
  method SanitizeProps(props: Properties?) returns (r: Result<Properties, Throwable>)
    modifies props
    ensures var before := old(if props == null then map[] else props.entries);
      && (r.Success? <==> Sanitized(before).Success?)
      && (r.Success? ==> r.value.entries == Sanitized(before).value)
      && (r.Failure? ==> r.error == Sanitized(before).error)
    ensures r.Success? && props != null ==> r.value == props
    ensures r.Success? && props == null ==> fresh(r.value)
    ensures r.Failure? && props != null ==> props.entries == WithAnnotators(old(props.entries))
  {
    var p := props;
    if p == null {
      p := new Properties();
    }
    if p.GetProperty("annotators").None? {
      p.SetProperty("annotators", DefaultAnnotators);
    }
    var threads: Option<Int32>;
    if p.GetProperty("threads").Some? {
      threads := DecimalIntValue(p.entries["threads"]);
    } else {
      threads := Some(DefaultThreads);
    }
    if threads.None? {
      return Failure(NumberFormatException(p.entries["threads"]));
    }
    p.SetProperty("threads", IntToString(threads.value));
    return Success(p);
  }

  // ---------------------------------------------------------------------------
  // The label loop of extractEntities

  /** The map after the label loop: every label of the prefix, bound to an empty list. */
  function InitialBuckets(labels: seq<string>): (b: Buckets)
    ensures b.Keys == set l | l in labels
    ensures forall k :: k in b ==> b[k] == []
    decreases |labels|
  {
    if labels == [] then map[]
    else
      var prefix := labels[..|labels| - 1];
      var b := InitialBuckets(prefix)[labels[|labels| - 1] := []];
      assert labels == prefix + [labels[|labels| - 1]];
      b
  }

  /** The NER match list: every label except "location", upper-cased, in order. */
  function NerTags(labels: seq<string>): (tags: seq<string>)
    ensures forall t :: t in tags <==> exists l :: l in labels && l != LocationLabel && ToUpper(l) == t
    decreases |labels|
  {
    if labels == [] then []
    else
      var prefix := labels[..|labels| - 1];
      var last := labels[|labels| - 1];
      assert labels == prefix + [last];
      NerTags(prefix) + (if last == LocationLabel then [] else [ToUpper(last)])
  }

  // ---------------------------------------------------------------------------
  // The mention loop of extractEntities

  /** The bucket a mention is meant for: in aggregate mode the location types go to
      "location"; otherwise a type in the match list goes to its lower-cased name. */
  function Route(m: Mention, aggregate: bool, nerTags: seq<string>): Option<string> {
    if aggregate && m.entityType in LocationNerTags then Some(LocationLabel)
    else if m.entityType in nerTags then Some(ToLower(m.entityType))
    else None
  }

  /** A mention whose bucket does not exist: `output.get` returns null there and the
      `add` on it throws. */
  predicate Misrouted(m: Mention, aggregate: bool, nerTags: seq<string>, keys: set<string>) {
    Route(m, aggregate, nerTags).Some? && Route(m, aggregate, nerTags).value !in keys
  }

  /** One iteration of the mention loop; None is the exception. */
  function Step(b: Buckets, m: Mention, aggregate: bool, nerTags: seq<string>): Option<Buckets> {
    match Route(m, aggregate, nerTags)
    case None => Some(b)
    case Some(k) => if k in b then Some(b[k := b[k] + [m.text]]) else None
  }

  /** The mention loop over a prefix of the mentions, stopping at the first exception. */
  function Fill(init: Buckets, ms: seq<Mention>, aggregate: bool, nerTags: seq<string>): Scan
    decreases |ms|
  {
    if ms == [] then Scan(init, false)
    else
      var prev := Fill(init, ms[..|ms| - 1], aggregate, nerTags);
      if prev.aborted then prev
      else match Step(prev.buckets, ms[|ms| - 1], aggregate, nerTags)
        case None => Scan(prev.buckets, true)
        case Some(b) => Scan(b, false)
  }

  /** Reference definition of a bucket's contents: the texts of the mentions routed to
      `k`, in mention order, duplicates kept. */
  function RoutedTexts(ms: seq<Mention>, k: string, aggregate: bool, nerTags: seq<string>): seq<string>
    decreases |ms|
  {
    if ms == [] then []
    else
      var last := ms[|ms| - 1];
      RoutedTexts(ms[..|ms| - 1], k, aggregate, nerTags)
        + (if Route(last, aggregate, nerTags) == Some(k) then [last.text] else [])
  }

  /** The bucket keys never change: no key outside the labels is ever added. */
  lemma {:induction false} FillKeys(init: Buckets, ms: seq<Mention>, aggregate: bool, nerTags: seq<string>)
    ensures Fill(init, ms, aggregate, nerTags).buckets.Keys == init.Keys
    decreases |ms|
  {
    if ms != [] {
      FillKeys(init, ms[..|ms| - 1], aggregate, nerTags);
    }
  }

  /** The loop runs to the end exactly when no mention is misrouted. */
  lemma {:induction false} FillCompletes(init: Buckets, ms: seq<Mention>, aggregate: bool, nerTags: seq<string>)
    ensures !Fill(init, ms, aggregate, nerTags).aborted
      <==> forall i :: 0 <= i < |ms| ==> !Misrouted(ms[i], aggregate, nerTags, init.Keys)
    decreases |ms|
  {
    if ms != [] {
      var prefix := ms[..|ms| - 1];
      var last := ms[|ms| - 1];
      FillCompletes(init, prefix, aggregate, nerTags);
      FillKeys(init, prefix, aggregate, nerTags);
      var prev := Fill(init, prefix, aggregate, nerTags);
      assert Step(prev.buckets, last, aggregate, nerTags).None? <==> Misrouted(last, aggregate, nerTags, init.Keys);
      assert forall i :: 0 <= i < |prefix| ==> prefix[i] == ms[i];
      if forall i :: 0 <= i < |ms| ==> !Misrouted(ms[i], aggregate, nerTags, init.Keys) {
        assert forall i :: 0 <= i < |prefix| ==> !Misrouted(prefix[i], aggregate, nerTags, init.Keys);
      }
    }
  }

  /** A loop that ran to the end has added to every bucket exactly the texts routed to
      it, in mention order. */
  lemma {:induction false} FillContents(init: Buckets, ms: seq<Mention>, aggregate: bool, nerTags: seq<string>)
    requires !Fill(init, ms, aggregate, nerTags).aborted
    ensures forall k :: k in init ==>
      (k in Fill(init, ms, aggregate, nerTags).buckets
       && Fill(init, ms, aggregate, nerTags).buckets[k] == init[k] + RoutedTexts(ms, k, aggregate, nerTags))
    decreases |ms|
  {
    if ms != [] {
      var prefix := ms[..|ms| - 1];
      var last := ms[|ms| - 1];
      FillContents(init, prefix, aggregate, nerTags);
      var prev := Fill(init, prefix, aggregate, nerTags);
      var b := Step(prev.buckets, last, aggregate, nerTags).value;
      assert Fill(init, ms, aggregate, nerTags).buckets == b;
      forall k | k in init
        ensures k in b && b[k] == init[k] + RoutedTexts(ms, k, aggregate, nerTags)
      {
        var extra := if Route(last, aggregate, nerTags) == Some(k) then [last.text] else [];
        assert b[k] == prev.buckets[k] + extra;
        assert RoutedTexts(ms, k, aggregate, nerTags) == RoutedTexts(prefix, k, aggregate, nerTags) + extra;
      }
    }
  }

  /** An exception ends the loop at the first misrouted mention: the result is the map
      built from the mentions before it, which is returned as it stands. */
  lemma {:induction false} FillStops(init: Buckets, ms: seq<Mention>, j: nat, aggregate: bool, nerTags: seq<string>)
    requires j < |ms| && Misrouted(ms[j], aggregate, nerTags, init.Keys)
    requires forall i :: 0 <= i < j ==> !Misrouted(ms[i], aggregate, nerTags, init.Keys)
    ensures Fill(init, ms, aggregate, nerTags) == Scan(Fill(init, ms[..j], aggregate, nerTags).buckets, true)
    decreases |ms|
  {
    var prefix := ms[..|ms| - 1];
    if |ms| == j + 1 {
      assert prefix == ms[..j];
      FillCompletes(init, prefix, aggregate, nerTags);
      FillKeys(init, prefix, aggregate, nerTags);
      assert forall i :: 0 <= i < |prefix| ==> prefix[i] == ms[i];
    } else {
      assert prefix[..j] == ms[..j];
      FillStops(init, prefix, j, aggregate, nerTags);
    }
  }

  /** Once the loop has stopped, later mentions change nothing. */
  lemma {:induction false} FillStaysAborted(init: Buckets, ms: seq<Mention>, j: nat, aggregate: bool, nerTags: seq<string>)
    requires j <= |ms| && Fill(init, ms[..j], aggregate, nerTags).aborted
    ensures Fill(init, ms, aggregate, nerTags) == Fill(init, ms[..j], aggregate, nerTags)
    decreases |ms|
  {
    if j < |ms| {
      var prefix := ms[..|ms| - 1];
      assert prefix[..j] == ms[..j];
      FillStaysAborted(init, prefix, j, aggregate, nerTags);
    } else {
      assert ms[..j] == ms;
    }
  }

  // ---------------------------------------------------------------------------
  // extractEntities as a whole

  /** The map `extractEntities` builds for a label list and the mentions. */
  function Extract(entityTypes: string, ms: seq<Mention>): Scan {
    var labels := Split(entityTypes, ',');
    Fill(InitialBuckets(labels), ms, LocationLabel in labels, NerTags(labels))
  }

  /** The result of `extractEntities` for a document: a null label list throws at the
      split, an engine failure escapes, a null mention list counts as empty. */
  function EntitiesOutcome(entityTypes: Option<string>, doc: AnnotatedDocument): Result<Buckets, Throwable> {
    if entityTypes.None? then Failure(NullPointerException)
    else match doc
      case AnnotationFailed(t) => Failure(t)
      case Annotated(ms) => Success(Extract(entityTypes.value, ms.GetOr([])).buckets)
  }

  /** The extracted map has one key per label of the split list; it is complete exactly
      when every mention's bucket exists, and then each bucket holds the texts of the
      mentions routed to it. */
  lemma ExtractedBuckets(entityTypes: string, ms: seq<Mention>)
    ensures var labels := Split(entityTypes, ',');
      var r := Extract(entityTypes, ms);
      && r.buckets.Keys == (set l | l in labels)
      && (!r.aborted <==> forall i :: 0 <= i < |ms| ==>
            !Misrouted(ms[i], LocationLabel in labels, NerTags(labels), set l | l in labels))
      && (!r.aborted ==> forall k :: k in r.buckets ==>
            r.buckets[k] == RoutedTexts(ms, k, LocationLabel in labels, NerTags(labels)))
  {
    var labels := Split(entityTypes, ',');
    var init := InitialBuckets(labels);
    FillKeys(init, ms, LocationLabel in labels, NerTags(labels));
    FillCompletes(init, ms, LocationLabel in labels, NerTags(labels));
    if !Extract(entityTypes, ms).aborted {
      FillContents(init, ms, LocationLabel in labels, NerTags(labels));
    }
  }

  /** With no mentions (in particular a null mention list) the result is the initial
      map: every label bound to an empty list. */
  lemma NoMentions(entityTypes: string)
    ensures EntitiesOutcome(Some(entityTypes), Annotated(None))
      == Success(map l | l in Split(entityTypes, ',') :: [])
  {
    var init := InitialBuckets(Split(entityTypes, ','));
    assert init == map l | l in Split(entityTypes, ',') :: [];
  }

  lemma UpperOfLowerOfUpper(s: string)
    ensures ToUpper(ToLower(ToUpper(s))) == ToUpper(s)
  {
    assert forall i :: 0 <= i < |s| ==> UpperChar(LowerChar(UpperChar(s[i]))) == UpperChar(s[i]);
  }

  /** In aggregate mode the "location" bucket collects exactly the mentions typed
      LOCATION, CITY, COUNTRY or STATE_OR_PROVINCE: no match-list tag lower-cases to
      "location" without being LOCATION itself. */
  lemma LocationRoute(labels: seq<string>, m: Mention)
    requires LocationLabel in labels
    ensures Route(m, true, NerTags(labels)) == Some(LocationLabel) <==> m.entityType in LocationNerTags
  {
    var t := m.entityType;
    assert ToUpper(LocationLabel) == "LOCATION";
    if t !in LocationNerTags && t in NerTags(labels) && ToLower(t) == LocationLabel {
      var l :| l in labels && l != LocationLabel && ToUpper(l) == t;
      UpperOfLowerOfUpper(l);
      assert false;
    }
  }

  /** A requested label that is not lower-case has a bucket its mentions never reach:
      "Person" asks for PERSON mentions but files them under "person", so the first
      PERSON mention ends the loop and the initial map comes back. */
  lemma MixedCaseLabelExample()
    ensures EntitiesOutcome(Some("Person"), Annotated(Some([Mention("Ada", "PERSON")])))
      == Success(map["Person" := []])
  {
    assert Split("Person", ',') == ["Person"];
    assert ToUpper("Person") == "PERSON";
    assert ToLower("PERSON") == "person";
    var ms := [Mention("Ada", "PERSON")];
    assert ms[..0] == [];
  }

  /** A label list made only of separators splits into no labels at all. */
  lemma SeparatorsOnlyExample(ms: seq<Mention>)
    ensures EntitiesOutcome(Some(","), Annotated(Some(ms))) == Success(map[])
  {
    var pieces := SplitAll(",", ',');
    assert pieces == ["", ""];
    assert ","[0] == ',';
    assert pieces[..1] == [""] && pieces[..1][..0] == [];
    assert DropTrailingEmpty(pieces[..1]) == DropTrailingEmpty([]) == [];
    assert Split(",", ',') == [];
    FillKeys(map[], ms, false, []);
  }

  /** The label loop of `extractEntities`: an empty bucket per label, the aggregate
      flag, and the upper-cased tags of the other labels. */
  method LabelLoop(labels: seq<string>) returns (output: Buckets, extractLocations: bool, nerTags: seq<string>)
    ensures output == InitialBuckets(labels)
    ensures extractLocations == (LocationLabel in labels)
    ensures nerTags == NerTags(labels)
  {
    extractLocations := false;
    nerTags := [];
    output := map[];
    var i := 0;
    while i < |labels|
      invariant 0 <= i <= |labels|
      invariant output == InitialBuckets(labels[..i])
      invariant extractLocations == (LocationLabel in labels[..i])
      invariant nerTags == NerTags(labels[..i])
    {
      var tag := labels[i];
      assert labels[..i + 1] == labels[..i] + [tag];
      output := output[tag := []];
      if tag == LocationLabel {
        extractLocations := true;
      } else {
        nerTags := nerTags + [ToUpper(tag)];
      }
      i := i + 1;
    }
    assert labels[..i] == labels;
  }

  /** The mention loop of `extractEntities`, which an exception (a missing bucket)
      ends with the map built so far. */
  method MentionLoop(init: Buckets, mentions: seq<Mention>, extractLocations: bool, nerTags: seq<string>)
    returns (output: Buckets)
    ensures output == Fill(init, mentions, extractLocations, nerTags).buckets
  {
    output := init;
    var j := 0;
    var aborted := false;
    while j < |mentions| && !aborted
      invariant 0 <= j <= |mentions|
      invariant Fill(init, mentions[..j], extractLocations, nerTags) == Scan(output, aborted)
    {
      var m := mentions[j];
      assert mentions[..j + 1][..j] == mentions[..j];
      if extractLocations && m.entityType in LocationNerTags {
        if LocationLabel in output {
          output := output[LocationLabel := output[LocationLabel] + [m.text]];
        } else {
          aborted := true;
        }
      } else if m.entityType in nerTags {
        var key := ToLower(m.entityType);
        if key in output {
          output := output[key := output[key] + [m.text]];
        } else {
          aborted := true;
        }
      }
      j := j + 1;
    }
    if aborted {
      FillStaysAborted(init, mentions, j, extractLocations, nerTags);
    } else {
      assert mentions[..j] == mentions;
    }
  }

  // ---------------------------------------------------------------------------
  // The service object

  class Service {
    var coreNlpProps: Properties
    var host: Option<string>
    var port: Int32
    var apiKey: Option<string>
    var apiSecret: Option<string>

    /** The field assignments of the five-argument constructor, given the already
        sanitised properties (see NewService). */
    constructor (props: Properties, host: Option<string>, port: Int32, apiKey: Option<string>, apiSecret: Option<string>)
      ensures coreNlpProps == props && this.host == host && this.port == port
      ensures this.apiKey == apiKey && this.apiSecret == apiSecret
    {
      coreNlpProps := props;
      this.host := host;
      this.port := port;
      this.apiKey := apiKey;
      this.apiSecret := apiSecret;
    }

    /** The pipeline `annotateDocument` builds: local exactly when there is no host;
        the remote one reads its thread count with `PropertiesUtils.getInt`. */
    function ChoosePipeline(): (r: Result<Pipeline, Throwable>)
      reads this, coreNlpProps
      ensures r.Success? ==> (r.value.LocalPipeline? <==> host.None?)
      ensures r.Success? ==> r.value.props == coreNlpProps.entries
      ensures r.Failure? <==> host.Some? && "threads" in coreNlpProps.entries && ParseInt(coreNlpProps.entries["threads"]).None?
      ensures r.Failure? ==> r.error == NumberFormatException(coreNlpProps.entries["threads"])
      ensures r.Success? && host.Some? ==>
        r.value == RemotePipeline(coreNlpProps.entries, host.value, port, IntThreads(coreNlpProps.entries).value, apiKey, apiSecret)
    {
      var entries := coreNlpProps.entries;
      if host.None? then Success(LocalPipeline(entries))
      else
        var threads := IntThreads(entries);
        if threads.None? then Failure(NumberFormatException(entries["threads"]))
        else Success(RemotePipeline(entries, host.value, port, threads.value, apiKey, apiSecret))
    }

    /** A service holding sanitised properties always builds its pipeline, and a remote
        one runs with the thread count sanitising stored. */
    lemma SanitizedPipeline(m: map<string, string>)
      requires Sanitized(m).Success? && coreNlpProps.entries == Sanitized(m).value
      ensures ChoosePipeline().Success?
      ensures host.Some? ==> ChoosePipeline().value.threads == ThreadsValue(m).value
    {
      IntThreadsOfSanitized(m);
    }

    /** `annotateDocument`: the engine runs on the chosen pipeline. */
    function AnnotateDocument(text: string, engine: (Pipeline, string) -> AnnotatedDocument): AnnotatedDocument
      reads this, coreNlpProps
    {
      match ChoosePipeline()
      case Failure(t) => AnnotationFailed(t)
      case Success(p) => engine(p, text)
    }

    /** `extractEntities`: the label loop, then the engine, then the mention loop. */
    method ExtractEntities(text: string, entityTypes: Option<string>, engine: (Pipeline, string) -> AnnotatedDocument)
      returns (r: Result<Buckets, Throwable>)
      ensures r == EntitiesOutcome(entityTypes, AnnotateDocument(text, engine))
    {
      if entityTypes.None? {
        return Failure(NullPointerException);
      }
      var labels := Split(entityTypes.value, ',');
      var init, extractLocations, nerTags := LabelLoop(labels);
      var document := AnnotateDocument(text, engine);
      if document.AnnotationFailed? {
        return Failure(document.error);
      }
      var mentions := if document.mentions.None? then [] else document.mentions.value;
      var output := MentionLoop(init, mentions, extractLocations, nerTags);
      return Success(output);
    }
  }

  /** The constructors: sanitise the properties (which may throw), then store the
      connection settings. The one-argument constructor is the case with no host. */
  method NewService(props: Properties?, host: Option<string>, port: Int32, apiKey: Option<string>, apiSecret: Option<string>)
    returns (r: Result<Service, Throwable>)
    modifies props
    ensures var before := old(if props == null then map[] else props.entries);
      && (r.Failure? <==> Sanitized(before).Failure?)
      && (r.Failure? ==> r.error == Sanitized(before).error)
      && (r.Success? ==> r.value.coreNlpProps.entries == Sanitized(before).value)
    ensures r.Success? ==> fresh(r.value) && r.value.host == host && r.value.port == port
    ensures r.Success? ==> r.value.apiKey == apiKey && r.value.apiSecret == apiSecret
    ensures r.Success? && props != null ==> r.value.coreNlpProps == props
  {
    var sanitized := SanitizeProps(props);
    if sanitized.Failure? {
      return Failure(sanitized.error);
    }
    var s := new Service(sanitized.value, host, port, apiKey, apiSecret);
    return Success(s);
  }
}
