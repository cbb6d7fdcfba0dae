/** The metric and top-5 sort tables of the dashboard: which metrics each
    vertical shows, in which order and under which label, and which rankings
    it offers. */
module Metrics {

  /** A dashboard's `type` text, as the client and the server branch on it:
      "app", "lead", "ecom", or any other text. */
  datatype Vertical = App | Lead | Ecom | OtherVertical

  function VerticalOf(dashType: string): (v: Vertical)
    ensures v == App <==> dashType == "app"
    ensures v == Lead <==> dashType == "lead"
    ensures v == Ecom <==> dashType == "ecom"
  {
    if dashType == "app" then App
    else if dashType == "lead" then Lead
    else if dashType == "ecom" then Ecom
    else OtherVertical
  }

  /** The type the client works with for a loaded dashboard: the stored
      `type`, with an empty or missing one read as "app". */
  function ClientType(stored: string): (t: string)
    ensures t != ""
    ensures stored != "" ==> t == stored
  {
    if stored == "" then "app" else stored
  }

  /** The numeric fields of a canonical row, by their key in the source. */
  datatype MetricKey =
    | Spend | Conversions | ConversionCost | Impressions | Reach | Cpm | Cpc | Ctr
    | LinkClicks | AddToCart | Checkouts | Revenue | Roas

  /** How a metric's value is rendered (currency, count, percent, ROAS multiple). */
  datatype Format = Currency | Number | Percent | Multiple

  datatype MetricDef = MetricDef(key: MetricKey, title: string, format: Format)

  datatype Direction = Asc | Desc

  /** A ranking key such as "conversionCost_asc": a metric and a direction. */
  datatype SortKey = SortKey(metric: MetricKey, dir: Direction)

  datatype SortOption = SortOption(key: SortKey, title: string)

  /** The label of the conversion count on a lead dashboard, by conversion event. */
  function ConversionLabel(convEvent: string): string {
    if convEvent == "complete_registration" then "Registrations"
    else if convEvent == "lead" then "Leads"
    else if convEvent == "purchase" then "Purchases"
    else "Conversions"
  }

  /** The label of the cost per conversion on a lead dashboard, by conversion event. */
  function CostLabel(convEvent: string): string {
    if convEvent == "complete_registration" then "Cost/Registration"
    else if convEvent == "lead" then "Cost/Lead"
    else if convEvent == "purchase" then "Cost/Purchase"
    else "CPA"
  }

  /** The six delivery metrics every vertical shows last. */
  const Shared: seq<MetricDef> := [
    MetricDef(Spend, "Spend", Currency),
    MetricDef(Impressions, "Impressions", Number),
    MetricDef(Reach, "Reach", Number),
    MetricDef(Cpm, "CPM", Currency),
    MetricDef(Cpc, "CPC", Currency),
    MetricDef(Ctr, "CTR", Percent)
  ]

  const AppLeading: seq<MetricDef> :=
    [MetricDef(Conversions, "Installs", Number), MetricDef(ConversionCost, "CPI", Currency)]

  const EcomLeading: seq<MetricDef> := [
    MetricDef(Conversions, "Purchases", Number),
    MetricDef(ConversionCost, "Cost/Purchase", Currency),
    MetricDef(Revenue, "Revenue", Currency),
    MetricDef(Roas, "ROAS", Multiple),
    MetricDef(AddToCart, "Add to Carts", Number),
    MetricDef(Checkouts, "Checkouts", Number)
  ]

  function LeadLeading(convEvent: string): seq<MetricDef> {
    [MetricDef(Conversions, ConversionLabel(convEvent), Number),
     MetricDef(ConversionCost, CostLabel(convEvent), Currency),
     MetricDef(LinkClicks, "Link Clicks", Number)]
  }

  /** The vertical-specific metrics shown ahead of the shared ones. */
  function Leading(v: Vertical, convEvent: string): seq<MetricDef> {
    match v
    case App => AppLeading
    case Lead => LeadLeading(convEvent)
    case Ecom => EcomLeading
    case OtherVertical => []
  }

  /** The metrics shown for a vertical, in display order. */
  function GetMetrics(v: Vertical, convEvent: string): (ms: seq<MetricDef>)
    ensures |ms| >= 6 && ms[|ms| - 6..] == Shared
  {
    Leading(v, convEvent) + Shared
  }

  /** The keys of a metric list, in order. */
  function Keys(ms: seq<MetricDef>): (ks: seq<MetricKey>)
    ensures |ks| == |ms|
  {
    if ms == [] then [] else [ms[0].key] + Keys(ms[1..])
  }

  lemma {:induction false} KeysAt(ms: seq<MetricDef>, i: nat)
    requires i < |ms|
    ensures Keys(ms)[i] == ms[i].key
  {
    if i > 0 {
      KeysAt(ms[1..], i - 1);
    }
  }

  lemma {:induction false} KeysAppend(a: seq<MetricDef>, b: seq<MetricDef>)
    ensures Keys(a + b) == Keys(a) + Keys(b)
  {
    if a == [] {
      assert a + b == b;
    } else {
      KeysAppend(a[1..], b);
      assert (a + b)[1..] == a[1..] + b;
    }
  }

  /** The keys each vertical shows, in order. */
  function KeyList(v: Vertical): seq<MetricKey> {
    LeadingKeys(v) + [Spend, Impressions, Reach, Cpm, Cpc, Ctr]
  }

  /** The keys of the metrics shown ahead of the shared ones. */
  function LeadingKeys(v: Vertical): seq<MetricKey> {
    match v
    case App => [Conversions, ConversionCost]
    case Lead => [Conversions, ConversionCost, LinkClicks]
    case Ecom => [Conversions, ConversionCost, Revenue, Roas, AddToCart, Checkouts]
    case OtherVertical => []
  }

  lemma LeadingKeysMatch(v: Vertical, convEvent: string)
    ensures Keys(Leading(v, convEvent)) == LeadingKeys(v)
  {
    var lead := Leading(v, convEvent);
    forall i | 0 <= i < |lead|
      ensures Keys(lead)[i] == lead[i].key
    {
      KeysAt(lead, i);
    }
  }

  lemma {:induction false} KeysPerVertical(v: Vertical, convEvent: string)
    ensures Keys(GetMetrics(v, convEvent)) == KeyList(v)
  {
    var lead := Leading(v, convEvent);
    KeysAppend(lead, Shared);
    assert Keys(Shared) == [Spend, Impressions, Reach, Cpm, Cpc, Ctr];
    LeadingKeysMatch(v, convEvent);
  }

  /** No metric appears twice. */
  predicate DistinctKeys(ms: seq<MetricDef>) {
    forall i, j :: 0 <= i < j < |ms| ==> ms[i].key != ms[j].key
  }

  lemma KeyListUnique(v: Vertical)
    ensures forall i, j :: 0 <= i < j < |KeyList(v)| ==> KeyList(v)[i] != KeyList(v)[j]
  {
    var ks := KeyList(v);
    forall i, j | 0 <= i < j < |ks|
      ensures ks[i] != ks[j]
    {
      if i == 0 {} else if i == 1 {} else if i == 2 {} else if i == 3 {} else if i == 4 {} else if i == 5 {}
      else if i == 6 {} else if i == 7 {} else if i == 8 {} else if i == 9 {} else {}
    }
  }

  /** No vertical shows a metric twice. */
  lemma MetricsDistinct(v: Vertical, convEvent: string)
    ensures DistinctKeys(GetMetrics(v, convEvent))
  {
    var ms := GetMetrics(v, convEvent);
    KeysPerVertical(v, convEvent);
    KeyListUnique(v);
    forall i, j | 0 <= i < j < |ms|
      ensures ms[i].key != ms[j].key
    {
      KeysAt(ms, i);
      KeysAt(ms, j);
    }
  }

  /** The three known verticals lead with their conversion count and its cost;
      any other vertical shows only the shared metrics. A lead dashboard names
      them after its conversion event. */
  lemma ConversionsLead(v: Vertical, convEvent: string)
    ensures var ms := GetMetrics(v, convEvent);
      && (v != OtherVertical <==> ms[0].key == Conversions)
      && (v != OtherVertical ==> ms[1].key == ConversionCost)
      && (v == Lead ==> ms[0].title == ConversionLabel(convEvent) && ms[1].title == CostLabel(convEvent))
  {
  }

  /** Revenue and ROAS are shown only on e-commerce dashboards, link clicks only on lead ones. */
  lemma VerticalOnlyMetrics(v: Vertical, convEvent: string)
    ensures var ks := Keys(GetMetrics(v, convEvent));
      && (Revenue in ks <==> v == Ecom)
      && (Roas in ks <==> v == Ecom)
      && (LinkClicks in ks <==> v == Lead)
  {
    KeysPerVertical(v, convEvent);
    KeyListMembers(v);
  }

  lemma KeyListMembers(v: Vertical)
    ensures (Revenue in KeyList(v) <==> v == Ecom) && (Roas in KeyList(v) <==> v == Ecom)
    ensures LinkClicks in KeyList(v) <==> v == Lead
  {
    var shared := [Spend, Impressions, Reach, Cpm, Cpc, Ctr];
    assert Revenue !in shared && Roas !in shared && LinkClicks !in shared;
    assert KeyList(v) == LeadingKeys(v) + shared;
  }

  /** The rankings the top-5 table offers for a vertical, "Highest Spend" always last. */
  function GetTop5Sorts(v: Vertical): (os: seq<SortOption>)
    ensures |os| >= 1 && os[|os| - 1] == SortOption(SortKey(Spend, Desc), "Highest Spend")
    ensures forall i :: 0 <= i < |os| && os[i].key.dir == Asc ==> os[i].key.metric == ConversionCost
  {
    var base := [SortOption(SortKey(Spend, Desc), "Highest Spend")];
    match v
    case App =>
      [SortOption(SortKey(ConversionCost, Asc), "Lowest CPI"), SortOption(SortKey(Conversions, Desc), "Most Installs")] + base
    case Lead =>
      [SortOption(SortKey(ConversionCost, Asc), "Lowest CPL"), SortOption(SortKey(Conversions, Desc), "Most Leads")] + base
    case Ecom =>
      [SortOption(SortKey(Roas, Desc), "Highest ROAS"), SortOption(SortKey(Conversions, Desc), "Most Purchases"),
       SortOption(SortKey(Revenue, Desc), "Most Revenue")] + base
    case OtherVertical => base
  }

  /** Every ranking offered for a vertical ranks by a metric that vertical shows. */
  lemma Top5SortsRankShownMetrics(v: Vertical, convEvent: string)
    ensures forall i :: 0 <= i < |GetTop5Sorts(v)| ==>
      GetTop5Sorts(v)[i].key.metric in Keys(GetMetrics(v, convEvent))
  {
    KeysPerVertical(v, convEvent);
    SortMetricsInKeyList(v);
  }

  lemma SortMetricsInKeyList(v: Vertical)
    ensures forall i :: 0 <= i < |GetTop5Sorts(v)| ==> GetTop5Sorts(v)[i].key.metric in KeyList(v)
  {
    var shared := [Spend, Impressions, Reach, Cpm, Cpc, Ctr];
    assert Spend in shared;
    assert KeyList(v) == LeadingKeys(v) + shared;
    match v
    case App => assert Conversions in LeadingKeys(v) && ConversionCost in LeadingKeys(v);
    case Lead => assert Conversions in LeadingKeys(v) && ConversionCost in LeadingKeys(v);
    case Ecom => assert Roas in LeadingKeys(v) && Conversions in LeadingKeys(v) && Revenue in LeadingKeys(v);
    case OtherVertical =>
  }

  /** The ranking selected after a load: ROAS for e-commerce, lowest cost otherwise. */
  function DefaultSortKey(v: Vertical): (k: SortKey)
    ensures k.dir == Asc <==> v != Ecom
  {
    if v == Ecom then SortKey(Roas, Desc) else SortKey(ConversionCost, Asc)
  }

  /** For the three known verticals the default ranking is the first one offered. */
  lemma DefaultSortIsFirstOffered(v: Vertical)
    requires v != OtherVertical
    ensures GetTop5Sorts(v)[0].key == DefaultSortKey(v)
  {
  }

  /** Metrics for which a fall is an improvement. */
  predicate IsCostMetric(k: MetricKey) {
    k == ConversionCost || k == Cpm || k == Cpc
  }

  /** No label of the list carries a comma or a line break. */
  predicate PlainTitles(ms: seq<MetricDef>) {
    forall i :: 0 <= i < |ms| ==> ',' !in ms[i].title && '\n' !in ms[i].title
  }

  lemma SharedTitlesPlain()
    ensures PlainTitles(Shared)
  {
    forall i | 0 <= i < |Shared|
      ensures ',' !in Shared[i].title && '\n' !in Shared[i].title
    {
      if i == 0 {} else if i == 1 {} else if i == 2 {} else if i == 3 {} else if i == 4 {} else {}
    }
  }

  lemma LeadLabelsPlain(convEvent: string)
    ensures ',' !in ConversionLabel(convEvent) && '\n' !in ConversionLabel(convEvent)
    ensures ',' !in CostLabel(convEvent) && '\n' !in CostLabel(convEvent)
  {
    if convEvent == "complete_registration" {
    } else if convEvent == "lead" {
    } else if convEvent == "purchase" {
    } else {
    }
  }

  lemma AppTitlesPlain()
    ensures PlainTitles(AppLeading)
  {
    forall i | 0 <= i < |AppLeading|
      ensures ',' !in AppLeading[i].title && '\n' !in AppLeading[i].title
    {
      if i == 0 {} else {}
    }
  }

  lemma EcomTitlesPlain()
    ensures PlainTitles(EcomLeading)
  {
    forall i | 0 <= i < |EcomLeading|
      ensures ',' !in EcomLeading[i].title && '\n' !in EcomLeading[i].title
    {
      if i == 0 {} else if i == 1 {} else if i == 2 {} else if i == 3 {} else if i == 4 {} else {}
    }
  }

  lemma LeadTitlesPlain(convEvent: string)
    ensures PlainTitles(LeadLeading(convEvent))
  {
    LeadLabelsPlain(convEvent);
    assert ',' !in "Link Clicks" && '\n' !in "Link Clicks";
  }

  lemma LeadingTitlesPlain(v: Vertical, convEvent: string)
    ensures PlainTitles(Leading(v, convEvent))
  {
    match v
    case App => AppTitlesPlain();
    case Lead => LeadTitlesPlain(convEvent);
    case Ecom => EcomTitlesPlain();
    case OtherVertical =>
  }

  /** No label carries a comma or a line break, so CSV columns and lines stay aligned. */
  lemma LabelsArePlain(v: Vertical, convEvent: string)
    ensures PlainTitles(GetMetrics(v, convEvent))
  {
    var lead := Leading(v, convEvent);
    SharedTitlesPlain();
    LeadingTitlesPlain(v, convEvent);
    var ms := lead + Shared;
    forall i | 0 <= i < |ms|
      ensures ',' !in ms[i].title && '\n' !in ms[i].title
    {
      if i >= |lead| {
        assert ms[i] == Shared[i - |lead|];
      } else {
        assert ms[i] == lead[i];
      }
    }
  }
}
