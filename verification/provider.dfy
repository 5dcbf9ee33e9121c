/**
 * The provider's load state: what the widget knows about the host load event
 * and the deal it delivered, and the transitions that change it.
 */
module Provider {
  import opened Wrappers
  import opened JsValues
  import opened Coercion
  import opened Deals

  datatype LoadState = LoadState(
    isZohoReady: bool,
    dealData: Option<Deal>,
    error: Option<string>,
    loading: bool,
    rawPageLoadData: JsValue)

  /** The state before the host has said anything. */
  const Initial := LoadState(false, None, None, true, JNull)

  const InitFailurePrefix := "Failed to initialize Zoho: "
  const ParseFailure := "Failed to parse deal data"
  const SdkMissing := "ZOHO SDK not available"
  const TimeoutFailure := "PageLoad event timeout - Widget may not be embedded in Zoho CRM context"

  /** The synthetic payload installed on a local development host when no load event arrives. */
  const MockPayload: JsValue :=
    JObj(map["data" := JObj(map[
      "id" := JStr("mock-deal-123"),
      "Deal_Name" := JStr("Mock Deal for Development"),
      "Account_Name" := JObj(map["name" := JStr("Mock Account"), "id" := JStr("mock-account-123")]),
      "Owner" := JObj(map["name" := JStr("Mock Owner"), "id" := JStr("mock-owner-123")]),
      "Created_By" := JObj(map["name" := JStr("Mock Creator"), "id" := JStr("mock-creator-123")]),
      "Modified_By" := JObj(map["name" := JStr("Mock Modifier"), "id" := JStr("mock-modifier-123")]),
      "Subform_1" := JArr([MockProductRow])])])

  /** The one product row of the mock deal. */
  const MockProductRow: JsValue :=
    JObj(map[
      "Products" := JObj(map["name" := JStr("Mock Product 1"), "id" := JStr("mock-product-1")]),
      "Product_Type2" := JStr("Software"),
      "Is_Contract" := JBool(true),
      "Product_Grouping" := JNull,
      "Quantity" := JNum(Fin(1.0)),
      "Terms" := JStr("Co-Terminus"),
      "Unit_Price" := JNum(Fin(100.0)),
      "Total_Pricing" := JNum(Fin(100.0)),
      "Vendor" := JStr("Mock Vendor")])

  /** The host SDK object is absent: report it and stop loading; nothing else changes. */
  function OnSdkMissing(s: LoadState): (r: LoadState)
    ensures r.error == Some(SdkMissing) && !r.loading
    ensures r.isZohoReady == s.isZohoReady && r.dealData == s.dealData
    ensures r.rawPageLoadData == s.rawPageLoadData
  {
    s.(error := Some(SdkMissing), loading := false)
  }

  /** Subscribing to or initialising the embedded app threw. */
  function OnInitFailure(s: LoadState, t: Thrown): (r: LoadState)
    ensures t.ErrorObject? ==> r.error == Some(InitFailurePrefix + t.message)
    ensures t.OtherValue? ==> r.error == Some(InitFailurePrefix + "Unknown error")
    ensures !r.loading
    ensures r.isZohoReady == s.isZohoReady && r.dealData == s.dealData
    ensures r.rawPageLoadData == s.rawPageLoadData
  {
    var detail := if t.ErrorObject? then t.message else "Unknown error";
    s.(error := Some(InitFailurePrefix + detail), loading := false)
  }

  /**
   * The load event: the host is ready, loading stops, the raw payload is kept
   * and parsed, and the error is cleared exactly when the parse succeeds.
   */
  function OnPageLoad(rt: Runtime, s: LoadState, data: JsValue): (r: LoadState)
    ensures r.isZohoReady && !r.loading
    ensures r.rawPageLoadData == data
    ensures r.dealData == ParseDeal(rt, data)
    ensures r.error.None? <==> r.dealData.Some?
    ensures r.error.Some? ==> r.error.value == ParseFailure
  {
    var deal := ParseDeal(rt, data);
    s.(isZohoReady := true,
       dealData := deal,
       rawPageLoadData := data,
       error := if deal.Some? then None else Some(ParseFailure),
       loading := false)
  }

  /**
   * Five seconds after initialisation. A state that is already ready or
   * already failed is left alone. Otherwise a local development host gets the
   * mock deal, and any other host the timeout error.
   */
  function OnTimeout(rt: Runtime, s: LoadState, onLocalhost: bool): (r: LoadState)
    ensures s.isZohoReady || s.error.Some? ==> r == s
    ensures !s.isZohoReady && s.error.None? && onLocalhost ==>
              && r.isZohoReady && !r.loading && r.error.None?
              && r.rawPageLoadData == MockPayload
              && r.dealData == ParseDeal(rt, MockPayload)
    ensures !s.isZohoReady && s.error.None? && !onLocalhost ==>
              && r.error == Some(TimeoutFailure) && !r.loading
              && !r.isZohoReady && r.dealData == s.dealData
              && r.rawPageLoadData == s.rawPageLoadData
  {
    if !s.isZohoReady && s.error.None? then
      if onLocalhost then
        s.(isZohoReady := true,
           dealData := ParseDeal(rt, MockPayload),
           rawPageLoadData := MockPayload,
           error := None,
           loading := false)
      else
        s.(error := Some(TimeoutFailure), loading := false)
    else
      s
  }

  /** `clearError`: only the error goes. */
  function ClearError(s: LoadState): (r: LoadState)
    ensures r.error.None?
    ensures r.isZohoReady == s.isZohoReady && r.dealData == s.dealData
    ensures r.loading == s.loading && r.rawPageLoadData == s.rawPageLoadData
  {
    s.(error := None)
  }

  /** The mock payload is a record-shaped payload, so it parses. */
  lemma MockPayloadIsDeal(rt: Runtime)
    ensures ParseDeal(rt, MockPayload).Some?
  {
    assert Truthy(MockPayload) && Get(MockPayload, "data").JObj?;
  }

  /** The mock payload parses, to the mock deal's id, name and owner. */
  lemma MockPayloadParses(rt: Runtime)
    ensures ParseDeal(rt, MockPayload).Some?
    ensures var d := ParseDeal(rt, MockPayload).value;
      && d.strings(Id) == "mock-deal-123"
      && d.strings(DealName) == "Mock Deal for Development"
      && d.users(Owner) == User("Mock Owner", "mock-owner-123")
  {
    var data := Get(MockPayload, "data");
    MockPayloadIsDeal(rt);
    MockDealFields();
    HostUserReadBack(rt, "Mock Owner", "mock-owner-123", Owner.Default());
    var d := Normalise(rt, data);
    assert d.strings(Id) == SafeString(rt, Get(data, Id.Key()), Id.Default());
    assert d.strings(DealName) == SafeString(rt, Get(data, DealName.Key()), DealName.Default());
    assert d.users(Owner) == SafeUser(rt, Get(data, Owner.Key()), Owner.Default());
  }

  /** The mock deal's id, name and owner, as the parser reads them. */
  lemma MockDealFields()
    ensures var data := Get(MockPayload, "data");
      && Get(data, Id.Key()) == JStr("mock-deal-123")
      && Get(data, DealName.Key()) == JStr("Mock Deal for Development")
      && Get(data, Owner.Key()) == JObj(map["name" := JStr("Mock Owner"), "id" := JStr("mock-owner-123")])
  {
    assert Id.Key() == "id" && DealName.Key() == "Deal_Name" && Owner.Key() == "Owner";
  }

  /** Once the load event has been handled the timeout changes nothing. */
  lemma TimeoutAfterPageLoad(rt: Runtime, s: LoadState, data: JsValue, onLocalhost: bool)
    ensures OnTimeout(rt, OnPageLoad(rt, s, data), onLocalhost) == OnPageLoad(rt, s, data)
  {
  }

  /** The timeout acts at most once: a second firing finds the state ready or failed. */
  lemma TimeoutIdempotent(rt: Runtime, s: LoadState, onLocalhost: bool)
    ensures OnTimeout(rt, OnTimeout(rt, s, onLocalhost), onLocalhost) == OnTimeout(rt, s, onLocalhost)
  {
  }

  /**
   * `clearError` is not one of the load events: after a payload that fails to
   * parse, clearing the error leaves a ready state with neither a deal nor an
   * error, so a consumer can only show its empty state.
   */
  lemma ClearErrorAfterFailedParse(rt: Runtime, s: LoadState, data: JsValue)
    requires ParseDeal(rt, data).None?
    ensures var r := ClearError(OnPageLoad(rt, s, data));
      r.isZohoReady && r.error.None? && r.dealData.None?
  {
  }

  /** The events that drive the load state. */
  datatype Event = PageLoad(data: JsValue) | Timeout(onLocalhost: bool) | SdkMissingEvent | InitFailure(t: Thrown)

  function Step(rt: Runtime, s: LoadState, e: Event): LoadState {
    match e
    case PageLoad(data) => OnPageLoad(rt, s, data)
    case Timeout(onLocalhost) => OnTimeout(rt, s, onLocalhost)
    case SdkMissingEvent => OnSdkMissing(s)
    case InitFailure(t) => OnInitFailure(s, t)
  }

  function Run(rt: Runtime, s: LoadState, events: seq<Event>): LoadState
    decreases |events|
  {
    if events == [] then s else Run(rt, Step(rt, s, events[0]), events[1..])
  }

  /**
   * What the consumers of the state rely on: while loading, the widget is
   * neither ready nor failed; once ready it is no longer loading; and a ready
   * state without an error always carries a deal.
   */
  ghost predicate Consistent(s: LoadState) {
    && (s.loading ==> !s.isZohoReady && s.error.None?)
    && (s.isZohoReady ==> !s.loading)
    && (s.isZohoReady && s.error.None? ==> s.dealData.Some?)
  }

  lemma StepConsistent(rt: Runtime, s: LoadState, e: Event)
    requires Consistent(s)
    ensures Consistent(Step(rt, s, e))
  {
    if e.Timeout? && e.onLocalhost && !s.isZohoReady && s.error.None? {
      MockPayloadIsDeal(rt);
    }
  }

  /** Every sequence of load events from the initial state keeps the state consistent. */
  lemma {:induction false} RunConsistent(rt: Runtime, s: LoadState, events: seq<Event>)
    requires Consistent(s)
    ensures Consistent(Run(rt, s, events))
    decreases |events|
  {
    if events != [] {
      StepConsistent(rt, s, events[0]);
      RunConsistent(rt, Step(rt, s, events[0]), events[1..]);
    }
  }
}
