/** The data the report page derives from a report before drawing it
    (views/ReportView.tsx): hostname labels, the feature matrix marks, the feature-density
    and positioning chart data, pricing cards, SWOT cards, the SEO table and the
    tech-stack lists. `new URL(...).hostname` is the parameter `parseHost`, which yields
    nothing where the constructor throws; the enumeration order of
    `Object.entries(market_positioning)` is the parameter `order`. */
module ReportView {
  import opened Wrappers
  import opened Text
  import opened Seqs
  import opened Types

  /** The chart palette, cycled through by index. */
  const Colors: seq<string> := ["#2563eb", "#0ea5e9", "#22c55e", "#eab308", "#f97316"]

  /** `COLORS[idx % COLORS.length]`. */
  function ColorFor(i: nat): (c: string)
    ensures c in Colors
    ensures i < |Colors| ==> c == Colors[i]
  {
    Colors[i % 5]
  }

  /** The palette repeats every five indices. */
  lemma ColorPeriodic(i: nat)
    ensures ColorFor(i + 5) == ColorFor(i)
  {
    assert (i + 5) % 5 == i % 5;
  }

  /** Indices less than five apart get different colours. */
  lemma ColorsDiffer(i: nat, j: nat)
    requires i < j < i + 5
    ensures ColorFor(i) != ColorFor(j)
  {
    var q, r := i / 5, i % 5;
    assert i == 5 * q + r;
    var d := r + (j - i);
    if d < 5 {
      assert j == 5 * q + d;
      assert j % 5 == d;
    } else {
      assert j == 5 * (q + 1) + (d - 5);
      assert j % 5 == d - 5;
    }
  }

  // ---------------------------------------------------------------- hostnames

  /** `getHostname`: the parsed hostname with its first "www." removed, wherever it
      stands; the input itself when it does not parse. */
  function Hostname(url: string, parseHost: string -> Option<string>): (name: string)
    ensures parseHost(url).None? ==> name == url
    ensures parseHost(url).Some? && !Contains(parseHost(url).value, "www.") ==> name == parseHost(url).value
    ensures forall i: nat :: parseHost(url).Some? && FirstOccurrence(parseHost(url).value, "www.", i) ==>
              name == parseHost(url).value[..i] + parseHost(url).value[i + 4..]
  {
    match parseHost(url)
    case None => url
    case Some(h) => ReplaceFirst(h, "www.", "")
  }

  /** The first "www." is dropped wherever it stands: after any text without a 'w', in
      the middle of a hostname as well as at its start, and with a second "www." after
      it kept. */
  lemma HostnameDropsFirstWww(url: string, parseHost: string -> Option<string>, a: string, b: string)
    requires parseHost(url) == Some(a + "www." + b)
    requires forall k :: 0 <= k < |a| ==> a[k] != 'w'
    ensures Hostname(url, parseHost) == a + b
  {
    var h := a + "www." + b;
    assert h[|a|..|a| + 4] == "www.";
    forall j: nat | j < |a| ensures !OccursAt(h, "www.", j) {
      assert h[j] == a[j];
    }
    assert FirstOccurrence(h, "www.", |a|);
    assert h[..|a|] == a;
    assert h[|a| + 4..] == b;
  }

  // ---------------------------------------------------------------- feature matrix

  /** The three ways a matrix cell is drawn. */
  datatype Mark = Check | Cross | Label(text: string)

  /** `renderFeatureIcon`: exactly `true` is a check, exactly `false` a cross, and
      anything else, a qualifier or a missing key, is shown as a text label (empty for a
      missing key). */
  function Classify(a: Option<Availability>): (m: Mark)
    ensures m.Check? <==> a == Some(Flag(true))
    ensures m.Cross? <==> a == Some(Flag(false))
    ensures m.Label? <==> a.None? || a.value.Qualifier?
    ensures m.Label? ==> m.text == (if a.Some? then a.value.text else "")
  {
    match a
    case Some(Flag(true)) => Check
    case Some(Flag(false)) => Cross
    case Some(Qualifier(t)) => Label(t)
    case None => Label("")
  }

  /** One matrix row: the feature and its mark for each company, primary first. */
  datatype MatrixRow = MatrixRow(name: string, canonicalFeature: string, marks: seq<Mark>)

  function MatrixRowFor(f: Feature, companies: seq<string>): (row: MatrixRow)
    ensures row.name == f.name && row.canonicalFeature == f.canonicalFeature
    ensures |row.marks| == |companies|
    ensures forall j :: 0 <= j < |companies| ==> row.marks[j] == Classify(Get(f.availability, companies[j]))
  {
    MatrixRow(f.name, f.canonicalFeature,
              seq(|companies|, j requires 0 <= j < |companies| => Classify(Get(f.availability, companies[j]))))
  }

  /** The feature matrix: one row per feature, one column per company. */
  function Matrix(r: AnalysisReport): (rows: seq<MatrixRow>)
    ensures |rows| == |r.features|
    ensures forall i :: 0 <= i < |rows| ==> |rows[i].marks| == 1 + |r.competitors|
    ensures forall i :: 0 <= i < |rows| ==> rows[i] == MatrixRowFor(r.features[i], Companies(r))
  {
    seq(|r.features|, i requires 0 <= i < |r.features| => MatrixRowFor(r.features[i], Companies(r)))
  }

  // ---------------------------------------------------------------- feature density

  /** A feature counts for a company when its availability there is exactly `true`. */
  predicate CountsFor(f: Feature, url: string) {
    url in f.availability && f.availability[url] == Flag(true)
  }

  function CountsAt(url: string): Feature -> bool {
    f => CountsFor(f, url)
  }

  /** The filter selects nothing exactly when no feature counts, and everything exactly
      when every feature counts. */
  lemma FilterCountsExtremes(features: seq<Feature>, url: string)
    ensures |Filter(features, CountsAt(url))| == 0 <==> forall i :: 0 <= i < |features| ==> !CountsFor(features[i], url)
    ensures |Filter(features, CountsAt(url))| == |features| <==> forall i :: 0 <= i < |features| ==> CountsFor(features[i], url)
  {
    var kept := Filter(features, CountsAt(url));
    if forall i :: 0 <= i < |features| ==> !CountsFor(features[i], url) {
      FilterDropsAll(features, CountsAt(url));
    } else {
      var i :| 0 <= i < |features| && CountsFor(features[i], url);
      assert features[i] in kept;
    }
    if forall i :: 0 <= i < |features| ==> CountsFor(features[i], url) {
      FilterKeepsAll(features, CountsAt(url));
    } else {
      var i :| 0 <= i < |features| && !CountsFor(features[i], url);
      FilterDropsOne(features, CountsAt(url), i);
    }
  }

  /** `features.filter(f => f.availability[url] === true).length`. */
  function FeatureCount(features: seq<Feature>, url: string): (n: nat)
    ensures n <= |features|
    ensures n == 0 <==> forall i :: 0 <= i < |features| ==> !CountsFor(features[i], url)
    ensures n == |features| <==> forall i :: 0 <= i < |features| ==> CountsFor(features[i], url)
  {
    FilterCountsExtremes(features, url);
    |Filter(features, CountsAt(url))|
  }

  /** Counts add up over a split of the feature list. */
  lemma FeatureCountSplits(a: seq<Feature>, b: seq<Feature>, url: string)
    ensures FeatureCount(a + b, url) == FeatureCount(a, url) + FeatureCount(b, url)
  {
    FilterConcat(a, b, CountsAt(url));
  }

  /** The density chart counts exactly the check marks of the company's matrix column:
      qualifiers and missing keys count as neither. */
  lemma CountIsCheckMarks(features: seq<Feature>, url: string)
    ensures FeatureCount(features, url)
         == |Filter(features, (f: Feature) => Classify(Get(f.availability, url)).Check?)|
  {
    FilterAgree(features, CountsAt(url), (f: Feature) => Classify(Get(f.availability, url)).Check?);
  }

  /** One bar of the feature-density chart. */
  datatype Bar = Bar(name: string, count: nat, highlighted: bool)

  /** `featureCountData` and its bar colours: one bar per company, primary first; a bar
      is highlighted when its label contains the primary's label. */
  function FeatureDensity(r: AnalysisReport, parseHost: string -> Option<string>): (bars: seq<Bar>)
    ensures |bars| == 1 + |r.competitors|
    ensures forall i :: 0 <= i < |bars| ==>
              && bars[i].name == Hostname(Companies(r)[i], parseHost)
              && bars[i].count == FeatureCount(r.features, Companies(r)[i])
              && bars[i].count <= |r.features|
              && (bars[i].highlighted <==> Contains(bars[i].name, Hostname(r.primaryUrl, parseHost)))
  {
    var urls := Companies(r);
    var primary := Hostname(r.primaryUrl, parseHost);
    seq(|urls|, i requires 0 <= i < |urls| =>
      var name := Hostname(urls[i], parseHost);
      Bar(name, FeatureCount(r.features, urls[i]), Contains(name, primary)))
  }

  /** The primary's bar is always highlighted. */
  lemma PrimaryBarHighlighted(r: AnalysisReport, parseHost: string -> Option<string>)
    ensures FeatureDensity(r, parseHost)[0].highlighted
  {
    var name := Hostname(r.primaryUrl, parseHost);
    assert name[0..|name|] == name;
    assert OccursAt(name, name, 0);
  }

  // ---------------------------------------------------------------- positioning

  /** `order` lists every key of `m` exactly once. */
  predicate EnumeratesKeys<V>(order: seq<string>, m: map<string, V>) {
    && (forall i :: 0 <= i < |order| ==> order[i] in m)
    && (forall k :: k in m ==> k in order)
    && (forall i, j :: 0 <= i < j < |order| ==> order[i] != order[j])
  }

  /** A list enumerating a map's keys is as long as the map is large. */
  lemma {:induction false} EnumerationSize<V>(order: seq<string>, m: map<string, V>)
    requires EnumeratesKeys(order, m)
    ensures |order| == |m|
    decreases |order|
  {
    if order == [] {
      assert m.Keys == {};
    } else {
      var n := |order| - 1;
      var k := order[n];
      var m' := map u | u in m && u != k :: m[u];
      assert m'.Keys == m.Keys - {k};
      forall u | u in m' ensures u in order[..n] {
        var i :| 0 <= i < |order| && order[i] == u;
        assert i != n;
      }
      EnumerationSize(order[..n], m');
    }
  }

  /** One point of the positioning scatter chart. */
  datatype Point = Point(name: string, x: real, y: real, z: nat, fill: string)

  const BubbleSize: nat := 100

  /** `positioningData`: one point per positioning entry, in enumeration order, with the
      coordinates copied and the palette cycled by index. */
  function PositioningData(r: AnalysisReport, order: seq<string>, parseHost: string -> Option<string>)
    : (pts: seq<Point>)
    requires EnumeratesKeys(order, r.marketPositioning)
    ensures |pts| == |order|
    ensures forall i :: 0 <= i < |pts| ==>
              && pts[i].name == Hostname(order[i], parseHost)
              && pts[i].x == r.marketPositioning[order[i]].x
              && pts[i].y == r.marketPositioning[order[i]].y
              && pts[i].z == BubbleSize
              && pts[i].fill == ColorFor(i)
  {
    seq(|order|, i requires 0 <= i < |order| =>
      var p := r.marketPositioning[order[i]];
      Point(Hostname(order[i], parseHost), p.x, p.y, BubbleSize, ColorFor(i)))
  }

  /** Exactly one point per positioning entry, each entry drawn once. */
  lemma OnePointPerEntry(r: AnalysisReport, order: seq<string>, parseHost: string -> Option<string>)
    requires EnumeratesKeys(order, r.marketPositioning)
    ensures |PositioningData(r, order, parseHost)| == |r.marketPositioning|
  {
    EnumerationSize(order, r.marketPositioning);
  }

  /** Colours repeat every five points, and any five consecutive points differ. */
  lemma ColorsCycle(r: AnalysisReport, order: seq<string>, parseHost: string -> Option<string>)
    requires EnumeratesKeys(order, r.marketPositioning)
    ensures var pts := PositioningData(r, order, parseHost);
            && (forall i :: 0 <= i && i + 5 < |pts| ==> pts[i].fill == pts[i + 5].fill)
            && (forall i, j :: 0 <= i < j < |pts| && j < i + 5 ==> pts[i].fill != pts[j].fill)
  {
    var pts := PositioningData(r, order, parseHost);
    forall i | 0 <= i && i + 5 < |pts| ensures pts[i].fill == pts[i + 5].fill {
      ColorPeriodic(i);
    }
    forall i, j | 0 <= i < j < |pts| && j < i + 5 ensures pts[i].fill != pts[j].fill {
      ColorsDiffer(i, j);
    }
  }

  /** Points of a report whose scores are on the documented scale lie on the chart. */
  lemma PointsOnScale(r: AnalysisReport, order: seq<string>, parseHost: string -> Option<string>)
    requires EnumeratesKeys(order, r.marketPositioning)
    requires ScoresOnScale(r)
    ensures forall p :: p in PositioningData(r, order, parseHost) ==> OnScale(p.x) && OnScale(p.y)
  {
  }

  // ---------------------------------------------------------------- pricing

  /** How many included features a tier lists before summarising the rest. */
  const ShownFeatures: nat := 4

  /** One tier as drawn: the first few features and, if some are left, how many. */
  datatype TierList = TierList(name: string, price: string, shown: seq<string>, more: Option<nat>)

  function TierDisplay(t: PricingTier): (d: TierList)
    ensures d.name == t.tierName && d.price == t.price
    ensures |d.shown| == (if |t.featuresIncluded| < ShownFeatures then |t.featuresIncluded| else ShownFeatures)
    ensures d.shown == t.featuresIncluded[..|d.shown|]
    ensures d.more.Some? <==> |t.featuresIncluded| > ShownFeatures
    ensures |d.shown| + d.more.GetOr(0) == |t.featuresIncluded|
  {
    var fs := t.featuresIncluded;
    if |fs| > ShownFeatures then TierList(t.tierName, t.price, fs[..ShownFeatures], Some(|fs| - ShownFeatures))
    else TierList(t.tierName, t.price, fs, None)
  }

  /** The shown features followed by the ones summarised are the tier's features. */
  lemma TierDisplayLosesNothing(t: PricingTier)
    ensures var d := TierDisplay(t);
            d.shown + t.featuresIncluded[|d.shown|..] == t.featuresIncluded
            && |t.featuresIncluded[|d.shown|..]| == d.more.GetOr(0)
  {
    var d := TierDisplay(t);
    assert t.featuresIncluded[..|d.shown|] + t.featuresIncluded[|d.shown|..] == t.featuresIncluded;
  }

  /** One pricing card. */
  datatype PricingCard = PricingCard(
    title: string,
    isPrimary: bool,
    freeTrialBadge: bool,
    tiers: seq<TierList>,
    placeholder: bool)

  function PricingCardFor(m: PricingModel, primaryUrl: string, parseHost: string -> Option<string>)
    : (c: PricingCard)
    ensures c.title == Hostname(m.url, parseHost)
    ensures c.isPrimary <==> m.url == primaryUrl
    ensures c.freeTrialBadge == m.hasFreeTrial
    ensures |c.tiers| == |m.tiers|
    ensures forall i :: 0 <= i < |m.tiers| ==> c.tiers[i] == TierDisplay(m.tiers[i])
    ensures c.placeholder <==> c.tiers == []
  {
    var tiers := seq(|m.tiers|, i requires 0 <= i < |m.tiers| => TierDisplay(m.tiers[i]));
    PricingCard(Hostname(m.url, parseHost), m.url == primaryUrl, m.hasFreeTrial, tiers, |m.tiers| == 0)
  }

  /** The pricing tab: one card per pricing model, in report order. */
  function Pricing(r: AnalysisReport, parseHost: string -> Option<string>): (cards: seq<PricingCard>)
    ensures |cards| == |r.pricing|
    ensures forall i :: 0 <= i < |cards| ==> cards[i] == PricingCardFor(r.pricing[i], r.primaryUrl, parseHost)
  {
    seq(|r.pricing|, i requires 0 <= i < |r.pricing| => PricingCardFor(r.pricing[i], r.primaryUrl, parseHost))
  }

  // ---------------------------------------------------------------- SWOT

  /** One SWOT card. */
  datatype SwotCard = SwotCard(url: string, title: string, isPrimary: bool, swot: Swot)

  function HasSwot(swot: map<string, Swot>): string -> bool {
    u => u in swot
  }

  /** The URLs of `urls` that have a SWOT entry, in order: the companies whose card is
      not skipped. */
  function SwotUrls(urls: seq<string>, swot: map<string, Swot>): (shown: seq<string>)
    ensures |shown| <= |urls|
    ensures forall i :: 0 <= i < |shown| ==> shown[i] in urls && shown[i] in swot
    ensures forall i :: 0 <= i < |urls| && urls[i] in swot ==> urls[i] in shown
  {
    Filter(urls, HasSwot(swot))
  }

  /** The strategy tab's SWOT cards: one per company of the analysis that has an entry,
      primary first, the primary's card emphasised. */
  function SwotCards(r: AnalysisReport, parseHost: string -> Option<string>): (cards: seq<SwotCard>)
    ensures |cards| <= 1 + |r.competitors|
    ensures |cards| == |SwotUrls(Companies(r), r.swot)|
    ensures forall i :: 0 <= i < |cards| ==>
              && cards[i].url == SwotUrls(Companies(r), r.swot)[i]
              && cards[i].url in Companies(r) && cards[i].url in r.swot
              && cards[i].swot == r.swot[cards[i].url]
              && cards[i].title == Hostname(cards[i].url, parseHost)
              && (cards[i].isPrimary <==> cards[i].url == r.primaryUrl)
  {
    var shown := SwotUrls(Companies(r), r.swot);
    seq(|shown|, i requires 0 <= i < |shown| =>
      SwotCard(shown[i], Hostname(shown[i], parseHost), shown[i] == r.primaryUrl, r.swot[shown[i]]))
  }

  /** Every company of the analysis with a SWOT entry gets a card. */
  lemma SwotCardsCover(r: AnalysisReport, parseHost: string -> Option<string>, u: string)
    requires u in Companies(r) && u in r.swot
    ensures exists c :: c in SwotCards(r, parseHost) && c.url == u
  {
    var shown := SwotUrls(Companies(r), r.swot);
    var k :| 0 <= k < |Companies(r)| && Companies(r)[k] == u;
    assert u in shown;
    var j :| 0 <= j < |shown| && shown[j] == u;
    assert SwotCards(r, parseHost)[j].url == u;
  }

  /** Skipping keeps the company order: the shown URLs of a split list are those of its
      parts, one after the other. */
  lemma SwotUrlsKeepOrder(a: seq<string>, b: seq<string>, swot: map<string, Swot>)
    ensures SwotUrls(a + b, swot) == SwotUrls(a, swot) + SwotUrls(b, swot)
  {
    FilterConcat(a, b, HasSwot(swot));
  }

  /** When every company has an entry, nothing is skipped. */
  lemma SwotUrlsAllPresent(urls: seq<string>, swot: map<string, Swot>)
    requires forall i :: 0 <= i < |urls| ==> urls[i] in swot
    ensures SwotUrls(urls, swot) == urls
  {
    FilterKeepsAll(urls, HasSwot(swot));
  }

  /** A SWOT entry for a URL outside the analysis is never shown. */
  lemma ForeignSwotHidden(r: AnalysisReport, parseHost: string -> Option<string>, u: string)
    requires u !in Companies(r)
    ensures forall c :: c in SwotCards(r, parseHost) ==> c.url != u
  {
  }

  // ---------------------------------------------------------------- SEO

  /** The index of the first SEO entry for `url` at or after `from`. */
  function FirstSeoFrom(seo: seq<SeoSignals>, url: string, from: nat): (r: Option<nat>)
    ensures r.Some? ==> from <= r.value < |seo| && seo[r.value].url == url
    ensures r.Some? ==> forall j :: from <= j < r.value ==> seo[j].url != url
    ensures r.None? ==> forall j :: from <= j < |seo| ==> seo[j].url != url
    decreases |seo| - from
  {
    if from >= |seo| then None
    else if seo[from].url == url then Some(from)
    else FirstSeoFrom(seo, url, from + 1)
  }

  /** `seo.find(s => s.url === url)`. */
  function SeoLookup(seo: seq<SeoSignals>, url: string): (r: Option<SeoSignals>)
    ensures r.None? <==> forall j :: 0 <= j < |seo| ==> seo[j].url != url
    ensures r.Some? ==> r.value.url == url && r.value in seo
    ensures r.Some? ==> exists i :: 0 <= i < |seo| && seo[i] == r.value && forall j :: 0 <= j < i ==> seo[j].url != url
  {
    match FirstSeoFrom(seo, url, 0)
    case None => None
    case Some(i) => Some(seo[i])
  }

  /** The colour band of a performance score. */
  datatype Band = Green | Amber | Red

  function BandOf(score: real): (b: Band)
    ensures b == Green <==> score > 80.0
    ensures b == Amber <==> 50.0 < score <= 80.0
    ensures b == Red <==> score <= 50.0
  {
    if score > 80.0 then Green else if score > 50.0 then Amber else Red
  }

  function BandRank(b: Band): nat {
    match b
    case Red => 0
    case Amber => 1
    case Green => 2
  }

  /** A higher score never gets a worse band. */
  lemma BandMonotone(v: real, w: real)
    requires v <= w
    ensures BandRank(BandOf(v)) <= BandRank(BandOf(w))
  {
  }

  /** The four rows of the SEO table. */
  datatype Metric = PageSpeed | MobileFriendly | BlogFreshness | MetaDescriptionHealth

  const Metrics: seq<Metric> := [PageSpeed, MobileFriendly, BlogFreshness, MetaDescriptionHealth]

  /** One SEO table cell. */
  datatype Cell =
    | Dash
    | Score(value: real, band: Band)
    | Tick(ok: bool)
    | FreshnessBadge(text: string, emphasised: bool)
    | MetaText(text: string)

  /** The cell of one metric for one company: '-' without an entry, otherwise the metric
      of the first entry for the company, formatted. */
  function SeoCell(seo: seq<SeoSignals>, url: string, metric: Metric): (c: Cell)
    ensures c.Dash? <==> SeoLookup(seo, url).None?
    ensures !c.Dash? ==> var s := SeoLookup(seo, url).value;
      match metric
      case PageSpeed => c == Score(s.pageSpeedScore, BandOf(s.pageSpeedScore))
      case MobileFriendly => c == Tick(s.mobileFriendly)
      case BlogFreshness => c == FreshnessBadge(FreshnessName(s.blogFreshness), s.blogFreshness == High)
      case MetaDescriptionHealth => c == MetaText(MetaHealthName(s.metaDescriptionHealth))
  {
    match SeoLookup(seo, url)
    case None => Dash
    case Some(s) =>
      match metric
      case PageSpeed => Score(s.pageSpeedScore, BandOf(s.pageSpeedScore))
      case MobileFriendly => Tick(s.mobileFriendly)
      case BlogFreshness => FreshnessBadge(FreshnessName(s.blogFreshness), s.blogFreshness == High)
      case MetaDescriptionHealth => MetaText(MetaHealthName(s.metaDescriptionHealth))
  }

  /** The SEO tab: one row per metric, one column per company, primary first. */
  function SeoTable(r: AnalysisReport): (rows: seq<seq<Cell>>)
    ensures |rows| == |Metrics|
    ensures forall m :: 0 <= m < |rows| ==> |rows[m]| == 1 + |r.competitors|
    ensures forall m, j :: 0 <= m < |rows| && 0 <= j < |rows[m]| ==>
              rows[m][j] == SeoCell(r.seo, Companies(r)[j], Metrics[m])
  {
    var urls := Companies(r);
    seq(|Metrics|, m requires 0 <= m < |Metrics| =>
      seq(|urls|, j requires 0 <= j < |urls| => SeoCell(r.seo, urls[j], Metrics[m])))
  }

  /** A company without SEO entry gets a '-' in every row. */
  lemma NoEntryAllDashes(r: AnalysisReport, j: nat)
    requires j < 1 + |r.competitors|
    requires forall i :: 0 <= i < |r.seo| ==> r.seo[i].url != Companies(r)[j]
    ensures forall m :: 0 <= m < |Metrics| ==> SeoTable(r)[m][j] == Dash
  {
  }

  /** Of two entries for the same company only the first is shown. */
  lemma FirstEntryWins(a: SeoSignals, b: SeoSignals)
    requires a.url == b.url
    ensures SeoCell([a, b], a.url, PageSpeed) == Score(a.pageSpeedScore, BandOf(a.pageSpeedScore))
  {
    assert FirstSeoFrom([a, b], a.url, 0) == Some(0);
  }

  // ---------------------------------------------------------------- tech stacks

  const NotAvailable: string := "N/A"
  const ListSeparator: string := ", "

  /** `list?.join(', ') || 'N/A'`: the joined list, or "N/A" when the list is missing or
      joins to the empty string. */
  function TechList(list: Option<seq<string>>): (text: string)
    ensures text != ""
    ensures list.Some? && Join(list.value, ListSeparator) != "" ==> text == Join(list.value, ListSeparator)
    ensures list.None? || Join(list.value, ListSeparator) == "" ==> text == NotAvailable
  {
    match list
    case None => NotAvailable
    case Some(xs) =>
      var joined := Join(xs, ListSeparator);
      if joined == "" then NotAvailable else joined
  }

  /** "N/A" stands for a missing list, an empty list and a list of one empty name; a list
      of two or more names is always joined. */
  lemma TechListCases(xs: seq<string>)
    ensures TechList(None) == NotAvailable
    ensures xs == [] || xs == [""] ==> TechList(Some(xs)) == NotAvailable
    ensures |xs| >= 2 ==> TechList(Some(xs)) == Join(xs, ListSeparator) && |TechList(Some(xs))| >= 2
  {
    JoinEmptyIff(xs, ListSeparator);
  }

  /** One tech-stack card. */
  datatype TechCard = TechCard(title: string, frontend: string, backend: string, analytics: string)

  function TechCardFor(t: TechStack, parseHost: string -> Option<string>): (c: TechCard)
    ensures c.title == Hostname(t.url, parseHost)
    ensures c.frontend == TechList(Some(t.frontend))
    ensures c.backend == TechList(Some(t.backend))
    ensures c.analytics == TechList(Some(t.analytics))
  {
    TechCard(Hostname(t.url, parseHost), TechList(Some(t.frontend)), TechList(Some(t.backend)),
             TechList(Some(t.analytics)))
  }

  /** The tech-stack section: shown only when there is at least one stack, then one card
      per stack in report order. */
  function TechSection(r: AnalysisReport, parseHost: string -> Option<string>): (s: Option<seq<TechCard>>)
    ensures s.Some? <==> |r.techStacks| > 0
    ensures s.Some? ==> |s.value| == |r.techStacks|
    ensures s.Some? ==> forall i :: 0 <= i < |s.value| ==> s.value[i] == TechCardFor(r.techStacks[i], parseHost)
  {
    if |r.techStacks| == 0 then None
    else Some(seq(|r.techStacks|, i requires 0 <= i < |r.techStacks| => TechCardFor(r.techStacks[i], parseHost)))
  }
}
