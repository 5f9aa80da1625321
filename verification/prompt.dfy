/** The instruction sent to the generation service and the progress messages reported
    while it runs (services/geminiService.ts:13-15, 20-100, 103, 114). */
module Prompt {
  import opened Wrappers
  import opened Text

  /** Literal text: the opening instructions, up to the primary company line. */
  const Intro: string :=
    "\n" +
    "    You are an expert Competitor Analysis Engine. \n" +
    "    \n" +
    "    Your task is to analyze the following websites deeply using Google Search to find their features, pricing, SEO details, and strategic positioning.\n" +
    "    \n" +
    "    "

  /** Literal text: the label of the primary company line. */
  const PrimaryLabel: string := "Primary Company: "

  /** Literal text: between the primary URL and the competitor list. */
  const CompetitorsLabel: string :=
    "\n" +
    "    Competitors: "

  /** Literal text: the step list and the target JSON shape, up to the first availability key. */
  const SchemaHead: string :=
    "\n" +
    "\n" +
    "    Perform the following steps:\n" +
    "    1. Search for the homepage, pricing page, and features page for each domain.\n" +
    "    2. Extract a list of distinct features. Normalize them (e.g., \"Login with Google\" -> \"SSO\").\n" +
    "    3. Determine feature availability for EACH company (True/False or a short string).\n" +
    "    4. Extract pricing tiers and free trial availability.\n" +
    "    5. Estimate SEO health based on public signals.\n" +
    "    6. Perform a SWOT analysis for EACH company based on public perception and feature gaps.\n" +
    "    7. Infer the likely Tech Stack (Frontend framework, Cloud provider, Analytics) based on typical patterns or job postings found in search.\n" +
    "    8. Create a market positioning score (0-100) for \"Innovation\" and \"Market Presence\".\n" +
    "\n" +
    "    Return ONLY a valid JSON object matching this specific structure. Do not include markdown formatting like ```json.\n" +
    "    \n" +
    "    {\n" +
    "      \"profiles\": [\n" +
    "        { \"url\": \"...\", \"name\": \"...\", \"description\": \"...\", \"colors\": [\"#hex\"] }\n" +
    "      ],\n" +
    "      \"features\": [\n" +
    "        {\n" +
    "          \"name\": \"...\",\n" +
    "          \"canonical_feature\": \"...\", \n" +
    "          \"confidence\": 0.9,\n" +
    "          \"evidence_snippet\": \"...\",\n" +
    "          \"availability\": {\n" +
    "            \""

  /** Literal text: between the two example availability keys. */
  const AfterPrimaryAvailability: string :=
    "\": true,\n" +
    "            \""

  /** Literal text: from the second availability key to the first SWOT key. */
  const AfterExampleAvailability: string :=
    "\": false\n" +
    "          }\n" +
    "        }\n" +
    "      ],\n" +
    "      \"pricing\": [\n" +
    "        {\n" +
    "          \"url\": \"...\",\n" +
    "          \"has_free_trial\": true,\n" +
    "          \"currency\": \"USD\",\n" +
    "          \"tiers\": [\n" +
    "             { \"tier_name\": \"Starter\", \"price\": \"$10\", \"billing_cycle\": \"month\", \"features_included\": [\"...\"] }\n" +
    "          ]\n" +
    "        }\n" +
    "      ],\n" +
    "      \"seo\": [\n" +
    "        {\n" +
    "          \"url\": \"...\",\n" +
    "          \"page_speed_score\": 85,\n" +
    "          \"meta_description_health\": \"Good\",\n" +
    "          \"schema_types\": [\"Organization\", \"Product\"],\n" +
    "          \"blog_freshness\": \"High\",\n" +
    "          \"mobile_friendly\": true\n" +
    "        }\n" +
    "      ],\n" +
    "      \"swot\": {\n" +
    "        \""

  /** Literal text: between the two example SWOT keys. */
  const AfterPrimarySwot: string :=
    "\": {\n" +
    "          \"strengths\": [\"...\"],\n" +
    "          \"weaknesses\": [\"...\"],\n" +
    "          \"opportunities\": [\"...\"],\n" +
    "          \"threats\": [\"...\"]\n" +
    "        },\n" +
    "        \""

  /** Literal text: from the second SWOT key to the first positioning key. */
  const AfterExampleSwot: string :=
    "\": {\n" +
    "          \"strengths\": [\"...\"],\n" +
    "          \"weaknesses\": [\"...\"],\n" +
    "          \"opportunities\": [\"...\"],\n" +
    "          \"threats\": [\"...\"]\n" +
    "        }\n" +
    "      },\n" +
    "      \"tech_stacks\": [\n" +
    "        { \"url\": \"...\", \"frontend\": [\"React\"], \"backend\": [\"Python\"], \"analytics\": [\"GA4\"] }\n" +
    "      ],\n" +
    "      \"market_positioning\": {\n" +
    "         \""

  /** Literal text: between the two example positioning keys. */
  const AfterPrimaryPosition: string :=
    "\": { \"x\": 80, \"y\": 70 },\n" +
    "         \""

  /** Literal text: the rest of the JSON shape. */
  const Tail: string :=
    "\": { \"x\": 50, \"y\": 50 }\n" +
    "      },\n" +
    "      \"summary\": \"A brief executive summary comparison...\",\n" +
    "      \"recommendations\": [\"Actionable advice 1\", \"Actionable advice 2\"]\n" +
    "    }\n" +
    "  "

  /** The key the example objects use for the second company: the first competitor, or
      "comp1" when there is none or it is empty (the `||` fallback treats "" as false). */
  function ExampleKey(competitors: seq<string>): (k: string)
    ensures k != []
    ensures competitors != [] && competitors[0] != [] ==> k == competitors[0]
    ensures (competitors == [] || competitors[0] == []) ==> k == "comp1"
  {
    if competitors != [] && competitors[0] != [] then competitors[0] else "comp1"
  }

  /** The literal parts of the prompt template, in the order they appear. */
  datatype Template = Template(
    intro: string,
    primaryLabel: string,
    competitorsLabel: string,
    schemaHead: string,
    afterPrimaryAvailability: string,
    afterExampleAvailability: string,
    afterPrimarySwot: string,
    afterExampleSwot: string,
    afterPrimaryPosition: string,
    tail: string)

  /** The template `generateAnalysis` fills in. */
  const AnalysisTemplate: Template :=
    Template(Intro, PrimaryLabel, CompetitorsLabel, SchemaHead, AfterPrimaryAvailability,
             AfterExampleAvailability, AfterPrimarySwot, AfterExampleSwot, AfterPrimaryPosition, Tail)

  /** A template filled in as the template literal lays it out: literal text and
      interpolated values, in order. */
  function Pieces(t: Template, primaryUrl: string, competitors: seq<string>): (ps: seq<string>)
    ensures |ps| == 18
  {
    var example := ExampleKey(competitors);
    [t.intro, t.primaryLabel, primaryUrl, t.competitorsLabel, Join(competitors, ", "), t.schemaHead,
     primaryUrl, t.afterPrimaryAvailability, example, t.afterExampleAvailability,
     primaryUrl, t.afterPrimarySwot, example, t.afterExampleSwot,
     primaryUrl, t.afterPrimaryPosition, example, t.tail]
  }

  function Render(t: Template, primaryUrl: string, competitors: seq<string>): string {
    Concat(Pieces(t, primaryUrl, competitors))
  }

  /** The full instruction text. */
  function BuildPrompt(primaryUrl: string, competitors: seq<string>): string {
    Render(AnalysisTemplate, primaryUrl, competitors)
  }

  /** Whatever the literal text, a filled-in template names the primary company and the
      joined competitor list right after their labels, and keys each example object by
      the primary URL and then the example key. */
  lemma RenderEmbedsUrls(t: Template, primaryUrl: string, competitors: seq<string>)
    ensures Contains(Render(t, primaryUrl, competitors), t.primaryLabel + primaryUrl)
    ensures Contains(Render(t, primaryUrl, competitors), t.competitorsLabel + Join(competitors, ", "))
    ensures Contains(Render(t, primaryUrl, competitors),
                     primaryUrl + t.afterPrimaryAvailability + ExampleKey(competitors))
    ensures Contains(Render(t, primaryUrl, competitors),
                     primaryUrl + t.afterPrimarySwot + ExampleKey(competitors))
    ensures Contains(Render(t, primaryUrl, competitors),
                     primaryUrl + t.afterPrimaryPosition + ExampleKey(competitors))
  {
    var ps := Pieces(t, primaryUrl, competitors);
    var example := ExampleKey(competitors);
    var joined := Join(competitors, ", ");
    assert ps[1..3] == [t.primaryLabel, primaryUrl];
    assert ps[3..5] == [t.competitorsLabel, joined];
    assert ps[6..9] == [primaryUrl, t.afterPrimaryAvailability, example];
    assert ps[10..13] == [primaryUrl, t.afterPrimarySwot, example];
    assert ps[14..17] == [primaryUrl, t.afterPrimaryPosition, example];
    ConcatContainsRun(ps, 1, 3);
    ConcatContainsRun(ps, 3, 5);
    ConcatContainsRun(ps, 6, 9);
    ConcatContainsRun(ps, 10, 13);
    ConcatContainsRun(ps, 14, 17);
    ConcatOfTwo(t.primaryLabel, primaryUrl);
    ConcatOfTwo(t.competitorsLabel, joined);
    ConcatOfThree(primaryUrl, t.afterPrimaryAvailability, example);
    ConcatOfThree(primaryUrl, t.afterPrimarySwot, example);
    ConcatOfThree(primaryUrl, t.afterPrimaryPosition, example);
  }

  /** The prompt sent names the primary company and the joined competitor list verbatim,
      and keys its example availability, SWOT and positioning objects by the primary URL
      and then the first competitor, or "comp1" when there is none. */
  lemma PromptEmbedsUrls(primaryUrl: string, competitors: seq<string>)
    ensures Contains(BuildPrompt(primaryUrl, competitors), PrimaryLabel + primaryUrl)
    ensures Contains(BuildPrompt(primaryUrl, competitors), CompetitorsLabel + Join(competitors, ", "))
    ensures Contains(BuildPrompt(primaryUrl, competitors),
                     primaryUrl + AfterPrimaryAvailability + ExampleKey(competitors))
    ensures Contains(BuildPrompt(primaryUrl, competitors),
                     primaryUrl + AfterPrimarySwot + ExampleKey(competitors))
    ensures Contains(BuildPrompt(primaryUrl, competitors),
                     primaryUrl + AfterPrimaryPosition + ExampleKey(competitors))
  {
    RenderEmbedsUrls(AnalysisTemplate, primaryUrl, competitors);
  }

  /** The first progress message, announcing how many sites are analysed. */
  const InitPrefix: string := "Initializing research agents for "
  const InitSuffix: string := " sites..."

  function InitMessage(siteCount: nat): string {
    InitPrefix + Decimal(siteCount) + InitSuffix
  }

  /** The number a reader finds between the prefix and the suffix of an initializing
      message, if the message has that shape. */
  function ReadSiteCount(m: string): Option<nat> {
    if |m| >= |InitPrefix| + |InitSuffix| && IsPrefix(InitPrefix, m) && m[|m| - |InitSuffix|..] == InitSuffix then
      var digits := m[|InitPrefix|..|m| - |InitSuffix|];
      if digits != [] && forall k :: 0 <= k < |digits| ==> '0' <= digits[k] <= '9' then
        Some(ParseDecimal(digits))
      else None
    else None
  }

  /** The initializing message states the site count it was built from. */
  lemma InitMessageStatesCount(siteCount: nat)
    ensures ReadSiteCount(InitMessage(siteCount)) == Some(siteCount)
  {
    var m := InitMessage(siteCount);
    var d := Decimal(siteCount);
    assert m[..|InitPrefix|] == InitPrefix;
    assert m[|m| - |InitSuffix|..] == InitSuffix;
    assert m[|InitPrefix|..|m| - |InitSuffix|] == d;
    DecimalRoundTrip(siteCount);
  }

  /** The message sent just before the generation call. */
  const CrawlMessage: string := "Crawling and extracting deep insights (SWOT, Pricing, Tech)..."

  /** The message sent once the generation call has returned. */
  const SynthesisMessage: string := "Synthesizing strategic report..."
}
