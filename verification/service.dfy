/** `generateAnalysis` (services/geminiService.ts:7-139): build the prompt, report progress,
    ask the generation service, clean and parse its text, and merge the parsed value into
    a report object after the identity and input fields. The SDK call and `JSON.parse` are
    parameters; the random id and the clock reading are passed in. */
module Service {
  import opened Wrappers
  import opened Text
  import opened Types
  import Fence
  import Prompt

  /** What the SDK call yields: it throws, or it answers with a `text` that may be
      undefined. */
  datatype SdkOutcome = ServiceError | Answered(text: Option<string>)

  /** The single error every failure is reported with. */
  const FailureMessage: string := "Failed to generate analysis. Please check your API key and try again."

  /** The progress messages emitted, in order, and the report or the error. */
  datatype Run = Run(progress: seq<string>, outcome: Result<JsObject, string>)

  /** `k` is a string of decimal digits. */
  predicate IsNumeral(k: string) {
    forall c :: 0 <= c < |k| ==> '0' <= k[c] <= '9'
  }

  /** `k` is the shortest decimal numeral of some number: non-empty digits without a
      leading zero. */
  predicate IsCanonicalNumeral(k: string) {
    IsNumeral(k) && k != [] && (|k| == 1 || k[0] != '0')
  }

  /** Every index of `items` is bound under its numeral to its item. */
  ghost predicate BindsIndices(o: JsObject, items: seq<Value>) {
    forall i :: 0 <= i < |items| ==> Decimal(i) in o && o[Decimal(i)] == items[i]
  }

  /** Every key of `o` is the numeral of an index below `n`. */
  ghost predicate KeysBelow(o: JsObject, n: nat) {
    forall k :: k in o ==> IsCanonicalNumeral(k) && ParseDecimal(k) < n
  }

  /** `o` binds the index keys "0", "1", ... of `items` to the items and has no other
      key. */
  ghost predicate IsIndexed(o: JsObject, items: seq<Value>) {
    BindsIndices(o, items) && KeysBelow(o, |items|)
  }

  /** The numeral of `n` is canonical and reads back as `n`. */
  lemma DecimalIsCanonical(n: nat)
    ensures IsCanonicalNumeral(Decimal(n))
    ensures ParseDecimal(Decimal(n)) == n
  {
    DecimalRoundTrip(n);
  }

  lemma BindsIndicesStep(o: JsObject, items: seq<Value>, n: nat)
    requires n < |items|
    requires BindsIndices(o, items[..n])
    ensures BindsIndices(o[Decimal(n) := items[n]], items[..n + 1])
  {
    var o' := o[Decimal(n) := items[n]];
    forall i | 0 <= i < n + 1 ensures Decimal(i) in o' && o'[Decimal(i)] == items[..n + 1][i] {
      if i < n {
        DecimalInjective(i, n);
        assert o'[Decimal(i)] == o[Decimal(i)] == items[..n][i];
      }
    }
  }

  lemma KeysBelowStep(o: JsObject, n: nat, v: Value)
    requires KeysBelow(o, n)
    ensures KeysBelow(o[Decimal(n) := v], n + 1)
  {
    DecimalIsCanonical(n);
  }

  /** Binding the next index keeps an indexed object indexed. */
  lemma IndexedStep(o: JsObject, items: seq<Value>, n: nat)
    requires n < |items|
    requires IsIndexed(o, items[..n])
    ensures IsIndexed(o[Decimal(n) := items[n]], items[..n + 1])
  {
    BindsIndicesStep(o, items, n);
    KeysBelowStep(o, n, items[n]);
  }

  /** The object binding the first `n` index keys of `items`. */
  function IndexedUpTo(items: seq<Value>, n: nat): (o: JsObject)
    requires n <= |items|
    ensures IsIndexed(o, items[..n])
  {
    if n == 0 then map[]
    else
      var prefix := IndexedUpTo(items, n - 1);
      IndexedStep(prefix, items, n - 1);
      prefix[Decimal(n - 1) := items[n - 1]]
  }

  /** The object whose index keys hold `items`, as spreading an array produces. */
  function Indexed(items: seq<Value>): (o: JsObject)
    ensures IsIndexed(o, items)
  {
    assert items[..|items|] == items;
    IndexedUpTo(items, |items|)
  }

  /** The one-character strings of `s`, as spreading a string produces them. */
  function Characters(s: string): (items: seq<Value>)
    ensures |items| == |s|
    ensures forall i :: 0 <= i < |s| ==> items[i] == JString([s[i]])
  {
    seq(|s|, i requires 0 <= i < |s| => JString([s[i]]))
  }

  /** The properties `...v` copies into an object literal: an object's own properties,
      the indices of an array or a string, and nothing for null, booleans and numbers. */
  function Spread(v: Value): (o: JsObject)
    ensures v.JObject? ==> o == v.fields
    ensures v.JArray? ==> IsIndexed(o, v.items)
    ensures v.JString? ==> IsIndexed(o, Characters(v.s))
    ensures v.JNull? || v.JBool? || v.JNumber? ==> o == map[]
  {
    match v
    case JObject(fields) => fields
    case JArray(items) => Indexed(items)
    case JString(s) => Indexed(Characters(s))
    case _ => map[]
  }

  /** The identity and input fields written before the spread. */
  function Identity(id: string, timestamp: string, primaryUrl: string, competitors: seq<string>): (o: JsObject)
    ensures o.Keys == {"id", "timestamp", "primaryUrl", "competitors"}
    ensures o.Keys == set k | k in IdentityKeys
    ensures o["id"] == JString(id) && o["timestamp"] == JString(timestamp)
    ensures o["primaryUrl"] == JString(primaryUrl)
    ensures o["competitors"].JArray? && |o["competitors"].items| == |competitors|
    ensures forall i :: 0 <= i < |competitors| ==> o["competitors"].items[i] == JString(competitors[i])
  {
    map["id" := JString(id), "timestamp" := JString(timestamp),
        "primaryUrl" := JString(primaryUrl),
        "competitors" := JArray(seq(|competitors|, i requires 0 <= i < |competitors| => JString(competitors[i])))]
  }

  /** `{...first, ...second}`: every key of either, with `second` winning on shared keys. */
  function Merge(first: JsObject, second: JsObject): (r: JsObject)
    ensures r.Keys == first.Keys + second.Keys
    ensures forall k :: k in second ==> r[k] == second[k]
    ensures forall k :: k in first && k !in second ==> r[k] == first[k]
  {
    first + second
  }

  /** The report object for raw text that parsed: identity fields overridden by any
      parsed property of the same name. */
  function Hydrated(parsed: Value, id: string, timestamp: string, primaryUrl: string, competitors: seq<string>): JsObject {
    Merge(Identity(id, timestamp, primaryUrl, competitors), Spread(parsed))
  }

  /** Everything after the SDK call has returned: reject absent or empty text, clean it,
      parse it, and hydrate. Every failure is the same fixed error. */
  function Hydrate(text: Option<string>, parse: string -> Option<Value>,
                   id: string, timestamp: string, primaryUrl: string, competitors: seq<string>)
    : (r: Result<JsObject, string>)
    ensures r.Err? ==> r.error == FailureMessage
    ensures r.Ok? <==> text.Some? && text.value != [] && parse(Fence.Clean(text.value)).Some?
    ensures r.Ok? ==> r.value == Hydrated(parse(Fence.Clean(text.value)).value, id, timestamp, primaryUrl, competitors)
  {
    if text.None? || text.value == [] then Err(FailureMessage)
    else
      match parse(Fence.Clean(text.value))
      case None => Err(FailureMessage)
      case Some(v) => Ok(Hydrated(v, id, timestamp, primaryUrl, competitors))
  }

  /** `generateAnalysis` once the prompt is built, given what the SDK call yields: the
      initializing and crawling messages, then, if the call returned, the synthesizing
      message and the hydrated report or the error. */
  function Respond(answer: SdkOutcome, primaryUrl: string, competitors: seq<string>,
                   parse: string -> Option<Value>, id: string, timestamp: string): (run: Run)
    ensures 2 <= |run.progress| <= 3
    ensures run.progress[0] == Prompt.InitMessage(1 + |competitors|)
    ensures run.progress[1] == Prompt.CrawlMessage
    ensures |run.progress| == 3 <==> answer.Answered?
    ensures |run.progress| == 3 ==> run.progress[2] == Prompt.SynthesisMessage
    ensures run.outcome.Err? ==> run.outcome.error == FailureMessage
    ensures run.outcome.Ok? <==>
      answer.Answered? && answer.text.Some? && answer.text.value != [] && parse(Fence.Clean(answer.text.value)).Some?
    ensures run.outcome.Ok? ==>
      run.outcome.value == Hydrated(parse(Fence.Clean(answer.text.value)).value, id, timestamp, primaryUrl, competitors)
  {
    var allUrls := [primaryUrl] + competitors;
    var init := Prompt.InitMessage(|allUrls|);
    match answer
    case ServiceError => Run([init, Prompt.CrawlMessage], Err(FailureMessage))
    case Answered(text) =>
      Run([init, Prompt.CrawlMessage, Prompt.SynthesisMessage],
          Hydrate(text, parse, id, timestamp, primaryUrl, competitors))
  }

  /** The whole `generateAnalysis` call: the SDK is asked with the built prompt. */
  function GenerateAnalysis(primaryUrl: string, competitors: seq<string>,
                            sdk: string -> SdkOutcome, parse: string -> Option<Value>,
                            id: string, timestamp: string): (run: Run)
    ensures run.outcome.Ok? ==> sdk(Prompt.BuildPrompt(primaryUrl, competitors)).Answered?
    ensures |run.progress| == 3 <==> sdk(Prompt.BuildPrompt(primaryUrl, competitors)).Answered?
  {
    Respond(sdk(Prompt.BuildPrompt(primaryUrl, competitors)), primaryUrl, competitors, parse, id, timestamp)
  }

  /** The first progress message announces one site per URL: the primary plus every
      competitor, whatever the SDK call yields. */
  lemma InitialProgressCountsSites(answer: SdkOutcome, primaryUrl: string, competitors: seq<string>,
                                   parse: string -> Option<Value>, id: string, timestamp: string)
    ensures Prompt.ReadSiteCount(Respond(answer, primaryUrl, competitors, parse, id, timestamp).progress[0])
            == Some(1 + |competitors|)
  {
    Prompt.InitMessageStatesCount(1 + |competitors|);
  }

  /** The echoed primary URL survives exactly when the parsed value does not override it
      with something else; the same holds for the competitor list. */
  lemma EchoSurvivesUnlessOverridden(parsed: Value, id: string, timestamp: string,
                                     primaryUrl: string, competitors: seq<string>)
    ensures var r := Hydrated(parsed, id, timestamp, primaryUrl, competitors);
            var o := Spread(parsed);
            && (r["primaryUrl"] == JString(primaryUrl) <==> "primaryUrl" !in o || o["primaryUrl"] == JString(primaryUrl))
            && (r["competitors"] == Identity(id, timestamp, primaryUrl, competitors)["competitors"]
                <==> "competitors" !in o || o["competitors"] == Identity(id, timestamp, primaryUrl, competitors)["competitors"])
  {
  }

  /** Every parsed property reaches the report unchanged, and the report has no key that
      is neither parsed nor an identity field. */
  lemma ParsedPropertiesKept(parsed: Value, id: string, timestamp: string,
                             primaryUrl: string, competitors: seq<string>)
    ensures var r := Hydrated(parsed, id, timestamp, primaryUrl, competitors);
            && (forall k :: k in Spread(parsed) ==> k in r && r[k] == Spread(parsed)[k])
            && r.Keys == Spread(parsed).Keys + {"id", "timestamp", "primaryUrl", "competitors"}
  {
  }

  /** No content key is required: a parsed object that overrides "primaryUrl" and holds
      nothing else still yields a report, with the foreign URL in it and only the four
      identity keys, so none of the nine content keys. */
  lemma OverrideWithoutContentAccepted(text: string, parse: string -> Option<Value>,
                                       id: string, timestamp: string, primaryUrl: string,
                                       competitors: seq<string>, other: string)
    requires text != []
    requires parse(Fence.Clean(text)) == Some(JObject(map["primaryUrl" := JString(other)]))
    ensures var r := Hydrate(Some(text), parse, id, timestamp, primaryUrl, competitors);
            && r.Ok?
            && r.value["primaryUrl"] == JString(other)
            && r.value.Keys == {"id", "timestamp", "primaryUrl", "competitors"}
            && forall i :: 0 <= i < |ContentKeys| ==> ContentKeys[i] !in r.value
  {
    SchemaKeys();
    var r := Hydrate(Some(text), parse, id, timestamp, primaryUrl, competitors);
    assert r.value.Keys == set k | k in IdentityKeys;
  }

  /** A JSON scalar parses fine and spreads to nothing: the report holds only the four
      identity fields. */
  lemma ScalarPayloadYieldsBareReport(text: string, parse: string -> Option<Value>,
                                      id: string, timestamp: string, primaryUrl: string,
                                      competitors: seq<string>)
    requires text != []
    requires parse(Fence.Clean(text)).Some?
    requires var v := parse(Fence.Clean(text)).value; v.JNull? || v.JBool? || v.JNumber?
    ensures var r := Hydrate(Some(text), parse, id, timestamp, primaryUrl, competitors);
            r.Ok? && r.value == Identity(id, timestamp, primaryUrl, competitors)
  {
    var v := parse(Fence.Clean(text)).value;
    assert Spread(v) == map[];
    var first := Identity(id, timestamp, primaryUrl, competitors);
    assert Merge(first, map[]) == first;
  }

  /** A payload wrapped in "```json\n" ... "\n```" hydrates exactly as the bare payload
      would, when the payload has no "```" and no edge whitespace. */
  lemma FencedPayloadHydratesAsBare(s: string, parse: string -> Option<Value>,
                                    id: string, timestamp: string, primaryUrl: string,
                                    competitors: seq<string>)
    requires !Contains(s, Fence.Fence)
    requires NoEdgeWhitespace(s)
    requires s != []
    ensures Hydrate(Some(Fence.FenceJsonNewline + s + Fence.NewlineFence), parse, id, timestamp, primaryUrl, competitors)
         == Hydrate(Some(s), parse, id, timestamp, primaryUrl, competitors)
  {
    Fence.WrappedRoundTrip(s);
    Fence.CleanWithoutFence(s);
  }

  /** A thrown SDK error, an empty answer and an unparseable answer end in the same
      error, with no report. */
  lemma FailuresAreIndistinguishable(answer1: SdkOutcome, answer2: SdkOutcome,
                                     primaryUrl: string, competitors: seq<string>,
                                     parse: string -> Option<Value>, id: string, timestamp: string)
    requires Respond(answer1, primaryUrl, competitors, parse, id, timestamp).outcome.Err?
    requires Respond(answer2, primaryUrl, competitors, parse, id, timestamp).outcome.Err?
    ensures Respond(answer1, primaryUrl, competitors, parse, id, timestamp).outcome
         == Respond(answer2, primaryUrl, competitors, parse, id, timestamp).outcome
  {
  }
}
