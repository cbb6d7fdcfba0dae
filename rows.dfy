/** The row normaliser: one raw per-day or per-entity insights record, the
    dashboard's vertical and its conversion event in; one canonical metric
    row out, every missing or unparsable number read as 0. */
module Rows {
  import opened Wrappers
  import opened JsValues
  import opened Actions
  import opened Metrics

  /** A raw insights record as the ad platform returns it. Text fields may be
      absent; numeric text has already been read as a number (None when
      missing or unparsable); action collections may be absent. */
  datatype RawRecord = RawRecord(
    adId: Option<string>, adsetId: Option<string>, campaignId: Option<string>,
    adName: Option<string>, adsetName: Option<string>, campaignName: Option<string>,
    dateStart: Option<string>,
    spend: Option<real>, impressions: Option<real>, reach: Option<real>, cpm: Option<real>,
    costPerUniqueOutboundClick: Option<seq<ActionEntry>>,
    uniqueOutboundClicksCtr: Option<seq<ActionEntry>>,
    actions: Option<seq<ActionEntry>>,
    costPerActionType: Option<seq<ActionEntry>>,
    actionValues: Option<seq<ActionEntry>>)

  /** A normalised row. Counts hold whole numbers; every metric is a number. */
  datatype CanonicalRow = CanonicalRow(
    id: Option<string>, name: string, adsetName: string, campaignName: string, date: Option<string>,
    spend: real, conversions: real, conversionCost: real, impressions: real, reach: real,
    cpm: real, cpc: real, ctr: real, linkClicks: real, addToCart: real, checkouts: real,
    revenue: real, roas: real)

  /** `row[key]`. */
  function Field(r: CanonicalRow, k: MetricKey): real {
    match k
    case Spend => r.spend
    case Conversions => r.conversions
    case ConversionCost => r.conversionCost
    case Impressions => r.impressions
    case Reach => r.reach
    case Cpm => r.cpm
    case Cpc => r.cpc
    case Ctr => r.ctr
    case LinkClicks => r.linkClicks
    case AddToCart => r.addToCart
    case Checkouts => r.checkouts
    case Revenue => r.revenue
    case Roas => r.roas
  }

  /** The action types that count as a conversion for a vertical: the install
      aliases for app, the chosen event (or "lead" when none) for lead
      generation, the purchase aliases for anything else. */
  function ConversionTypes(v: Vertical, convEvent: string): (types: seq<string>)
    ensures v == App ==> types == InstallTypes
    ensures v == Lead ==> types == [if convEvent == "" then "lead" else convEvent]
    ensures v != App && v != Lead ==> types == PurchaseTypes
  {
    match v
    case App => InstallTypes
    case Lead => [if convEvent == "" then "lead" else convEvent]
    case _ => PurchaseTypes
  }

  /** ROAS is revenue per unit of spend when there is spend, and 0 otherwise. */
  predicate RoasConsistent(r: CanonicalRow) {
    && (r.spend > 0.0 ==> r.roas * r.spend == r.revenue)
    && (r.spend <= 0.0 ==> r.roas == 0.0)
  }

  /** `parseRow(day, type, convEvent)`. */
  function ParseRow(day: RawRecord, v: Vertical, convEvent: string): (r: CanonicalRow)
    ensures RoasConsistent(r)
    ensures r.revenue != 0.0 || r.roas != 0.0 ==> v == Ecom && day.actionValues.Some?
    ensures r.spend == FloatOr0(day.spend)
  {
    var convTypes := ConversionTypes(v, convEvent);
    var ia := FindAction(day.actions, convTypes);
    var ca := FindAction(day.costPerActionType, convTypes);
    var lc := FindAction(day.actions, LinkClickTypes);
    var atc := FindAction(day.actions, AddToCartTypes);
    var chk := FindAction(day.actions, CheckoutTypes);
    var spend := FloatOr0(day.spend);
    var revenue :=
      if v == Ecom && day.actionValues.Some? then FloatOr0(ValueOf(FindAction(day.actionValues, PurchaseTypes)))
      else 0.0;
    var roas :=
      if v == Ecom && day.actionValues.Some? && spend > 0.0 then revenue / spend else 0.0;
    CanonicalRow(
      id := Or(day.adId, Or(day.adsetId, day.campaignId)),
      name := TextOrEmpty(Or(day.adName, Or(day.adsetName, day.campaignName))),
      adsetName := TextOrEmpty(day.adsetName),
      campaignName := TextOrEmpty(day.campaignName),
      date := day.dateStart,
      spend := spend,
      conversions := IntOr0(ValueOf(ia)),
      conversionCost := FloatOr0(ValueOf(ca)),
      impressions := IntOr0(day.impressions),
      reach := IntOr0(day.reach),
      cpm := FloatOr0(day.cpm),
      cpc := FloatOr0(FirstValue(day.costPerUniqueOutboundClick)),
      ctr := FloatOr0(FirstValue(day.uniqueOutboundClicksCtr)),
      linkClicks := IntOr0(ValueOf(lc)),
      addToCart := IntOr0(ValueOf(atc)),
      checkouts := IntOr0(ValueOf(chk)),
      revenue := revenue,
      roas := roas)
  }

  /** The conversion count is the (truncated) value of the first entry of
      `actions` whose type is one of the vertical's aliases, whatever that
      value is, even when a later matching entry holds a larger one. */
  lemma ConversionsFromFirstMatch(day: RawRecord, v: Vertical, convEvent: string, i: nat)
    requires day.actions.Some?
    requires FirstMatchAt(day.actions.value, ConversionTypes(v, convEvent), i)
    ensures ParseRow(day, v, convEvent).conversions == IntOr0(day.actions.value[i].value)
  {
    FindActionAt(day.actions.value, ConversionTypes(v, convEvent), i);
  }

  /** Without a matching action there are no conversions; this is not an error. */
  lemma NoMatchingActionMeansZero(day: RawRecord, v: Vertical, convEvent: string)
    requires day.actions.None? ||
      forall j :: 0 <= j < |day.actions.value| ==> day.actions.value[j].actionType !in ConversionTypes(v, convEvent)
    ensures ParseRow(day, v, convEvent).conversions == 0.0
  {
  }

  /** The cost per conversion is the platform's own figure, taken from the first
      matching cost entry; it depends on nothing else in the record (not on
      spend, nor on the conversion count). */
  lemma ConversionCostVerbatim(day: RawRecord, other: RawRecord, v: Vertical, convEvent: string, i: nat)
    requires day.costPerActionType.Some?
    requires FirstMatchAt(day.costPerActionType.value, ConversionTypes(v, convEvent), i)
    requires other.costPerActionType == day.costPerActionType
    ensures ParseRow(day, v, convEvent).conversionCost == FloatOr0(day.costPerActionType.value[i].value)
    ensures ParseRow(other, v, convEvent).conversionCost == ParseRow(day, v, convEvent).conversionCost
  {
    FindActionAt(day.costPerActionType.value, ConversionTypes(v, convEvent), i);
  }

  /** Revenue and ROAS are 0 unless the dashboard is e-commerce and the record
      carries action values; then ROAS is revenue over spend (0 without spend). */
  lemma RevenueOnlyForEcom(day: RawRecord, v: Vertical, convEvent: string)
    ensures var r := ParseRow(day, v, convEvent);
      && (v != Ecom || day.actionValues.None? ==> r.revenue == 0.0 && r.roas == 0.0)
      && (v == Ecom && day.actionValues.Some? ==>
            r.revenue == FloatOr0(ValueOf(FindAction(day.actionValues, PurchaseTypes))))
  {
  }

  /** A record with nothing in it normalises to a row of zeros. */
  lemma EmptyRecordIsZero(v: Vertical, convEvent: string)
    ensures var r := ParseRow(RawRecord(None, None, None, None, None, None, None, None, None, None, None,
                                        None, None, None, None, None), v, convEvent);
      forall k: MetricKey :: Field(r, k) == 0.0
  {
  }

  /** A raw record holding only a date, a spend and the given action collections. */
  function DayWithActions(date: string, spend: real, actions: seq<ActionEntry>, costs: seq<ActionEntry>): RawRecord {
    RawRecord(None, None, None, None, None, None, Some(date), Some(spend), None, None, None,
              None, None, Some(actions), Some(costs), None)
  }

  /** An app dashboard reads installs from the first install-type entry in
      collection order: 5 from `[mobile_app_install: 5, app_install: 9]`, and
      9 when the same entries come the other way round. */
  lemma FirstEntryWinsExample()
    ensures ParseRow(DayWithActions("2024-01-08", 10.0,
              [ActionEntry("mobile_app_install", Some(5.0)), ActionEntry("app_install", Some(9.0))], []),
              App, "app_install").conversions == 5.0
    ensures ParseRow(DayWithActions("2024-01-08", 10.0,
              [ActionEntry("app_install", Some(9.0)), ActionEntry("mobile_app_install", Some(5.0))], []),
              App, "app_install").conversions == 9.0
  {
    var a := [ActionEntry("mobile_app_install", Some(5.0)), ActionEntry("app_install", Some(9.0))];
    assert FirstMatchAt(a, InstallTypes, 0);
    ConversionsFromFirstMatch(DayWithActions("2024-01-08", 10.0, a, []), App, "app_install", 0);
    var b := [ActionEntry("app_install", Some(9.0)), ActionEntry("mobile_app_install", Some(5.0))];
    assert FirstMatchAt(b, InstallTypes, 0);
    ConversionsFromFirstMatch(DayWithActions("2024-01-08", 10.0, b, []), App, "app_install", 0);
  }
}
