/**
 * The product hook: the deal id and the line items read from the raw load
 * payload, the editable list seeded from them, the grouping editor, the
 * optimistic single-item update with rollback, and the submit flow. React
 * state is a value passed in and returned; the host call is a parameter and
 * its availability a flag; each toast is returned as data.
 */
module ProductManagement {
  import opened Wrappers
  import opened JsValues
  import opened ProductTypes
  import opened ZohoApi

  // ---------------------------------------------------------------------
  // Deal id and extraction
  // ---------------------------------------------------------------------

  /** The payload's `data` when both it and the payload are plain objects. */
  predicate HasDealRecord(raw: JsValue) {
    IsRecord(raw) && IsRecord(Get(raw, "data"))
  }

  /**
   * `dealId`: the `id` of the payload's `data` record, unchecked, so absent
   * is `undefined`; the empty string when there is no such record.
   */
  function DealIdOf(raw: JsValue): (id: JsValue)
    ensures HasDealRecord(raw) ==> id == Get(Get(raw, "data"), "id")
    ensures !HasDealRecord(raw) ==> !Truthy(id)
    ensures !HasDealRecord(raw) ==> id == JStr("")
  {
    if Truthy(raw) && IsRecord(raw) && IsRecord(Get(raw, "data")) then Get(Get(raw, "data"), "id")
    else JStr("")
  }

  /** The elements of the raw `Subform_1` array, or none when the payload does not have that shape. */
  function SubformItems(raw: JsValue): (items: seq<JsValue>)
    ensures HasDealRecord(raw) && Get(Get(raw, "data"), "Subform_1").JArr? ==>
              items == Get(Get(raw, "data"), "Subform_1").items
    ensures !(HasDealRecord(raw) && Get(Get(raw, "data"), "Subform_1").JArr?) ==> items == []
  {
    if !HasDealRecord(raw) then []
    else
      var subform := Get(Get(raw, "data"), "Subform_1");
      if subform.JArr? then subform.items else []
  }

  /** `filter(isRecord)`: the plain-object rows, in their original order. */
  function RecordRows(items: seq<JsValue>): (rows: seq<JsValue>)
    ensures |rows| <= |items|
    ensures forall k :: 0 <= k < |rows| ==> IsRecord(rows[k])
    ensures forall v :: v in rows <==> v in items && IsRecord(v)
    ensures (forall k :: 0 <= k < |items| ==> IsRecord(items[k])) ==> rows == items
    decreases |items|
  {
    if items == [] then []
    else (if IsRecord(items[0]) then [items[0]] else []) + RecordRows(items[1..])
  }

  /** Filtering distributes over concatenation, so the surviving rows keep their order. */
  lemma {:induction false} RecordRowsAppend(a: seq<JsValue>, b: seq<JsValue>)
    ensures RecordRows(a + b) == RecordRows(a) + RecordRows(b)
    decreases |a|
  {
    if a != [] {
      var ab := a + b;
      var head := if IsRecord(a[0]) then [a[0]] else [];
      assert ab[0] == a[0];
      assert ab[1..] == a[1..] + b;
      assert RecordRows(ab) == head + RecordRows(ab[1..]);
      assert RecordRows(a) == head + RecordRows(a[1..]);
      RecordRowsAppend(a[1..], b);
      assert head + (RecordRows(a[1..]) + RecordRows(b)) == (head + RecordRows(a[1..])) + RecordRows(b);
    } else {
      assert a + b == b;
    }
  }

  /** The id given to a row that carries none: `product-{index}`. */
  function GeneratedId(index: nat): string {
    "product-" + NatToString(index)
  }

  /** The name given to a flat row that carries none: `Product {index + 1}`. */
  function GeneratedName(index: nat): string {
    "Product " + NatToString(index + 1)
  }

  /** `field` is `host || fallback`: the host value when it is truthy, the fallback otherwise. */
  predicate FromHostOr(field: JsValue, host: JsValue, fallback: JsValue) {
    (Truthy(host) ==> field == host) && (!Truthy(host) ==> field == fallback)
  }

  /**
   * One surviving row at position `index` among the record rows. A row
   * whose `Products` is a truthy plain object (the nested shape) takes id
   * and name from it; any other row (the flat shape) takes them from its
   * own `id`, and from `Product_Name`, then `name`. Each field is the host
   * value when truthy and a fixed default otherwise; `isContract` is always
   * a boolean.
   */
  function ExtractRow(row: JsValue, index: nat): (p: ProductItem)
    ensures Truthy(p.id) && Truthy(p.name)
    ensures var nested := Get(row, "Products");
      Truthy(nested) && IsRecord(nested) ==>
        && FromHostOr(p.id, Get(nested, "id"), JStr(GeneratedId(index)))
        && FromHostOr(p.name, Get(nested, "name"), JStr("Unknown Product"))
    ensures var nested := Get(row, "Products");
      !(Truthy(nested) && IsRecord(nested)) ==>
        && FromHostOr(p.id, Get(row, "id"), JStr(GeneratedId(index)))
        && (Truthy(Get(row, "Product_Name")) ==> p.name == Get(row, "Product_Name"))
        && (!Truthy(Get(row, "Product_Name")) ==> FromHostOr(p.name, Get(row, "name"), JStr(GeneratedName(index))))
    ensures FromHostOr(p.productType, Get(row, "Product_Type"), JStr(""))
    ensures FromHostOr(p.quantity, Get(row, "Quantity"), JNum(Fin(0.0)))
    ensures FromHostOr(p.terms, Get(row, "Terms"), JStr(""))
    ensures FromHostOr(p.unitPrice, Get(row, "Pricing"), JNum(Fin(0.0)))
    ensures FromHostOr(p.totalPricing, Get(row, "Total_Pricing"), JStr(""))
    ensures FromHostOr(p.vendor, Get(row, "Vendor"), JNull)
    ensures FromHostOr(p.productGrouping, Get(row, "Product_Grouping"), JStr(""))
    ensures p.isContract == JBool(Truthy(Get(row, "Is_Contract")))
    ensures Truthy(p.quantity) || p.quantity == JNum(Fin(0.0))
    ensures Truthy(p.unitPrice) || p.unitPrice == JNum(Fin(0.0))
    ensures Truthy(p.productGrouping) || p.productGrouping == JStr("")
    ensures Truthy(p.vendor) || p.vendor == JNull
  {
    var nested := Get(row, "Products");
    var id :=
      if Truthy(nested) && IsRecord(nested) then Or(Get(nested, "id"), JStr(GeneratedId(index)))
      else Or(Get(row, "id"), JStr(GeneratedId(index)));
    var name :=
      if Truthy(nested) && IsRecord(nested) then Or(Get(nested, "name"), JStr("Unknown Product"))
      else Or(Get(row, "Product_Name"), Or(Get(row, "name"), JStr(GeneratedName(index))));
    ProductItem(
      id := id,
      name := name,
      productType := Or(Get(row, "Product_Type"), JStr("")),
      quantity := Or(Get(row, "Quantity"), JNum(Fin(0.0))),
      terms := Or(Get(row, "Terms"), JStr("")),
      unitPrice := Or(Get(row, "Pricing"), JNum(Fin(0.0))),
      totalPricing := Or(Get(row, "Total_Pricing"), JStr("")),
      vendor := Or(Get(row, "Vendor"), JNull),
      productGrouping := Or(Get(row, "Product_Grouping"), JStr("")),
      isContract := JBool(Truthy(Get(row, "Is_Contract"))))
  }

  /**
   * `products`: one item per plain-object row of the raw `Subform_1`, in
   * order, each numbered by its position among those rows. The normalised
   * deal is not consulted.
   */
  function ExtractProducts(raw: JsValue): (ps: seq<ProductItem>)
    ensures var rows := RecordRows(SubformItems(raw));
      && |ps| == |rows|
      && forall i :: 0 <= i < |rows| ==> ps[i] == ExtractRow(rows[i], i)
  {
    var rows := RecordRows(SubformItems(raw));
    seq(|rows|, i requires 0 <= i < |rows| => ExtractRow(rows[i], i))
  }

  /**
   * The editable list the extraction seeds: the items with the deal id
   * attached when there are items and a truthy deal id, and empty otherwise.
   */
  function SeedEditable(raw: JsValue): (list: seq<ProductFormData>)
    ensures var items, id := ExtractProducts(raw), DealIdOf(raw);
      && (|items| > 0 && Truthy(id) ==>
            |list| == |items| && forall i :: 0 <= i < |items| ==> list[i] == ProductFormData(items[i], id))
      && (!(|items| > 0 && Truthy(id)) ==> list == [])
  {
    var items, id := ExtractProducts(raw), DealIdOf(raw);
    if |items| > 0 && Truthy(id) then seq(|items|, i requires 0 <= i < |items| => ProductFormData(items[i], id))
    else []
  }

  // ---------------------------------------------------------------------
  // Grouping editor
  // ---------------------------------------------------------------------

  predicate IsAsciiLetter(c: char) {
    'A' <= c <= 'Z' || 'a' <= c <= 'z'
  }

  function UpperLetter(c: char): (u: char)
    requires IsAsciiLetter(c)
    ensures IsUpperLetter(u)
  {
    if 'a' <= c <= 'z' then (c as int - 32) as char else c
  }

  /** `value.replace(/[^A-Za-z]/g, '').toUpperCase()`. */
  function Sanitize(v: string): (r: string)
    ensures |r| <= |v|
    ensures forall k :: 0 <= k < |r| ==> IsUpperLetter(r[k])
    decreases |v|
  {
    if v == [] then []
    else (if IsAsciiLetter(v[0]) then [UpperLetter(v[0])] else []) + Sanitize(v[1..])
  }

  /** One character: a letter survives, upper-cased; anything else is dropped. */
  lemma SanitizeSingleton(c: char)
    ensures Sanitize([c]) == (if IsAsciiLetter(c) then [UpperLetter(c)] else [])
  {
    assert [c][1..] == [];
  }

  /** Sanitising a concatenation sanitises each part: letters keep their order. */
  lemma {:induction false} SanitizeAppend(a: string, b: string)
    ensures Sanitize(a + b) == Sanitize(a) + Sanitize(b)
    decreases |a|
  {
    if a != [] {
      var head := if IsAsciiLetter(a[0]) then [UpperLetter(a[0])] else [];
      assert (a + b)[0] == a[0];
      assert (a + b)[1..] == a[1..] + b;
      SanitizeAppend(a[1..], b);
      assert Sanitize(a + b) == head + (Sanitize(a[1..]) + Sanitize(b));
    } else {
      assert a + b == b;
    }
  }

  /** A string is left unchanged exactly when it is made of capital letters only. */
  lemma {:induction false} SanitizeFixpoint(v: string)
    ensures Sanitize(v) == v <==> forall k :: 0 <= k < |v| ==> IsUpperLetter(v[k])
    decreases |v|
  {
    if v != [] {
      SanitizeFixpoint(v[1..]);
      if !IsUpperLetter(v[0]) {
        if IsAsciiLetter(v[0]) {
          assert Sanitize(v)[0] != v[0];
        } else {
          assert |Sanitize(v)| <= |v[1..]| < |v|;
        }
      } else {
        assert forall k :: 1 <= k < |v| ==> v[k] == v[1..][k - 1];
      }
    }
  }

  /** Sanitising twice is sanitising once. */
  lemma SanitizeIdempotent(v: string)
    ensures Sanitize(Sanitize(v)) == Sanitize(v)
  {
    SanitizeFixpoint(Sanitize(v));
  }

  /** A worked case: digits and punctuation go, letters are capitalised in place. */
  lemma SanitizeExample()
    ensures Sanitize("a1!B") == "AB"
  {
    assert "a1!B"[1..] == "1!B";
    assert "1!B"[1..] == "!B";
    assert "!B"[1..] == "B";
  }

  /**
   * `handleProductGroupingChange`: the item at `index` gets the sanitised
   * grouping, and nothing else in the list changes.
   */
  function ChangeGrouping(list: seq<ProductFormData>, index: int, value: string): (r: seq<ProductFormData>)
    requires 0 <= index < |list|
    ensures |r| == |list|
    ensures r[index].item.productGrouping == JStr(Sanitize(value))
    ensures r[index].item.productGrouping.JStr?
    ensures forall k :: 0 <= k < |r[index].item.productGrouping.s| ==> IsUpperLetter(r[index].item.productGrouping.s[k])
    ensures r[index].dealId == list[index].dealId
    ensures r[index].item == list[index].item.(productGrouping := r[index].item.productGrouping)
    ensures forall j :: 0 <= j < |list| && j != index ==> r[j] == list[j]
  {
    WithGrouping(list, index, JStr(Sanitize(value)))
  }

  /** Re-applying the same edit changes nothing. */
  lemma ChangeGroupingIdempotent(list: seq<ProductFormData>, index: int, value: string)
    requires 0 <= index < |list|
    ensures ChangeGrouping(ChangeGrouping(list, index, value), index, value) == ChangeGrouping(list, index, value)
  {
  }

  /** The last edit of an item wins. */
  lemma ChangeGroupingLastWins(list: seq<ProductFormData>, index: int, a: string, b: string)
    requires 0 <= index < |list|
    ensures ChangeGrouping(ChangeGrouping(list, index, a), index, b) == ChangeGrouping(list, index, b)
  {
  }

  /** Edits of different items commute. */
  lemma ChangeGroupingCommutes(list: seq<ProductFormData>, i: int, j: int, a: string, b: string)
    requires 0 <= i < |list| && 0 <= j < |list| && i != j
    ensures ChangeGrouping(ChangeGrouping(list, i, a), j, b) == ChangeGrouping(ChangeGrouping(list, j, b), i, a)
  {
  }

  /** Sanitising before the edit, as the single-item update does, makes no difference. */
  lemma ChangeGroupingPresanitised(list: seq<ProductFormData>, index: int, value: string)
    requires 0 <= index < |list|
    ensures ChangeGrouping(list, index, Sanitize(value)) == ChangeGrouping(list, index, value)
  {
    SanitizeIdempotent(value);
  }

  // ---------------------------------------------------------------------
  // Toasts
  // ---------------------------------------------------------------------

  datatype Variant = Success | Warning | Destructive

  /** A notification shown to the user. */
  datatype Toast = Toast(title: string, description: string, variant: Variant)

  // ---------------------------------------------------------------------
  // Single-item update with rollback
  // ---------------------------------------------------------------------

  /**
   * What `updateSingleProductGrouping` leaves behind: the editable list,
   * the payload handed to the host if any, the toast if any, and whether the
   * call itself ended by throwing.
   */
  datatype SingleUpdate = SingleUpdate(list: seq<ProductFormData>, sent: Option<JsValue>, toast: Option<Toast>, threw: bool)

  const GroupingFailurePrefix := "Failed to update product grouping: "

  /**
   * `updateSingleProductGrouping`. Nothing happens without a truthy deal id
   * and an item at `index`. Otherwise the item gets the sanitised grouping
   * at once and the whole list is sent. On failure the previous grouping
   * (or the empty string) is written back through the editor, which
   * sanitises it; a previous grouping that is truthy but not a string makes
   * that write-back throw, and the optimistic value stays.
   */
  function UpdateSingleGrouping(rt: Runtime, dealId: JsValue, editable: seq<ProductFormData>, index: int,
                                value: string, apiAvailable: bool, host: JsValue -> CallResult): (u: SingleUpdate)
    ensures !Truthy(dealId) || !(0 <= index < |editable|) ==> u == SingleUpdate(editable, None, None, false)
    ensures Truthy(dealId) && 0 <= index < |editable| ==>
              u.sent == (if apiAvailable then Some(BuildPayload(rt, dealId, ChangeGrouping(editable, index, value))) else None)
  {
    var sanitized := Sanitize(value);
    if !Truthy(dealId) || !(0 <= index < |editable|) then SingleUpdate(editable, None, None, false)
    else
      var product := editable[index];
      var optimistic := ChangeGrouping(editable, index, sanitized);
      var toSend := WithGrouping(editable, index, JStr(sanitized));
      ChangeGroupingPresanitised(editable, index, value);
      var update := UpdateProductSubformArray(rt, dealId, toSend, apiAvailable, host);
      match update.result
      case Ok(_) =>
        SingleUpdate(optimistic, update.sent,
          Some(Toast("Product Updated",
                     "Successfully updated " + ToStr(rt, product.item.name) + " grouping to " + sanitized,
                     Success)),
          false)
      case Err(t) =>
        var previous := Or(product.item.productGrouping, JStr(""));
        if previous.JStr? then
          SingleUpdate(ChangeGrouping(optimistic, index, previous.s), update.sent,
            Some(Toast("Update Failed", GroupingFailurePrefix + MessageOf(t), Destructive)),
            false)
        else
          SingleUpdate(optimistic, update.sent, None, true)
  }

  /** A successful update keeps the optimistic list: only the one grouping changed. */
  lemma SingleUpdateSuccessKeepsEdit(rt: Runtime, dealId: JsValue, editable: seq<ProductFormData>, index: int,
                                     value: string, apiAvailable: bool, host: JsValue -> CallResult)
    requires Truthy(dealId) && 0 <= index < |editable|
    requires UpdateProductSubformArray(rt, dealId, ChangeGrouping(editable, index, value), apiAvailable, host).result.Ok?
    ensures var u := UpdateSingleGrouping(rt, dealId, editable, index, value, apiAvailable, host);
      && u.list == ChangeGrouping(editable, index, value)
      && u.toast.Some? && u.toast.value.variant == Success
      && u.toast.value == Toast("Product Updated",
           "Successfully updated " + ToStr(rt, editable[index].item.name) + " grouping to " + Sanitize(value),
           Success)
  {
    ChangeGroupingPresanitised(editable, index, value);
  }

  /**
   * Rollback: when the update fails and the previous grouping was falsy or
   * a string, the item ends up with that grouping sanitised, and every other
   * item is as it was before the edit.
   */
  lemma RollbackRestoresSanitised(rt: Runtime, dealId: JsValue, editable: seq<ProductFormData>, index: int,
                                  value: string, apiAvailable: bool, host: JsValue -> CallResult)
    requires Truthy(dealId) && 0 <= index < |editable|
    requires UpdateProductSubformArray(rt, dealId, ChangeGrouping(editable, index, value), apiAvailable, host).result.Err?
    requires var g := editable[index].item.productGrouping; !Truthy(g) || g.JStr?
    ensures var u := UpdateSingleGrouping(rt, dealId, editable, index, value, apiAvailable, host);
      var g := editable[index].item.productGrouping;
      && !u.threw
      && u.list == WithGrouping(editable, index, JStr(Sanitize(if Truthy(g) then g.s else "")))
      && u.toast.Some? && u.toast.value.variant == Destructive
      && var update := UpdateProductSubformArray(rt, dealId, ChangeGrouping(editable, index, value), apiAvailable, host);
         u.toast.value == Toast("Update Failed", GroupingFailurePrefix + MessageOf(update.result.error), Destructive)
  {
    ChangeGroupingPresanitised(editable, index, value);
  }

  /**
   * When the previous grouping was already in sanitised form (one or more
   * capital letters), the rollback restores the list exactly.
   */
  lemma RollbackIsExactForSanitisedGrouping(rt: Runtime, dealId: JsValue, editable: seq<ProductFormData>,
                                            index: int, value: string, apiAvailable: bool,
                                            host: JsValue -> CallResult)
    requires Truthy(dealId) && 0 <= index < |editable|
    requires UpdateProductSubformArray(rt, dealId, ChangeGrouping(editable, index, value), apiAvailable, host).result.Err?
    requires var g := editable[index].item.productGrouping;
      g.JStr? && g.s != "" && forall k :: 0 <= k < |g.s| ==> IsUpperLetter(g.s[k])
    ensures UpdateSingleGrouping(rt, dealId, editable, index, value, apiAvailable, host).list == editable
  {
    var g := editable[index].item.productGrouping;
    RollbackRestoresSanitised(rt, dealId, editable, index, value, apiAvailable, host);
    SanitizeFixpoint(g.s);
    assert WithGrouping(editable, index, JStr(g.s)) == editable;
  }

  /** A truthy previous grouping that is not a string makes the write-back throw; the edit stays. */
  lemma RollbackThrowsOnNonStringGrouping(rt: Runtime, dealId: JsValue, editable: seq<ProductFormData>, index: int,
                                          value: string, apiAvailable: bool, host: JsValue -> CallResult)
    requires Truthy(dealId) && 0 <= index < |editable|
    requires UpdateProductSubformArray(rt, dealId, ChangeGrouping(editable, index, value), apiAvailable, host).result.Err?
    requires var g := editable[index].item.productGrouping; Truthy(g) && !g.JStr?
    ensures var u := UpdateSingleGrouping(rt, dealId, editable, index, value, apiAvailable, host);
      u.threw && u.toast.None? && u.list == ChangeGrouping(editable, index, value)
  {
    ChangeGroupingPresanitised(editable, index, value);
  }

  /**
   * A `SUCCESS` result without `details.Modified_By` rolls the edit back:
   * the success log throws inside the update, so the failure toast quotes
   * that `TypeError` and the list gets the previous grouping, sanitised.
   */
  lemma SingleUpdateRollsBackOnUnreadableSuccess(rt: Runtime, dealId: JsValue, editable: seq<ProductFormData>,
                                                 index: int, value: string, host: JsValue -> CallResult)
    requires Truthy(dealId) && 0 <= index < |editable|
    requires var g := editable[index].item.productGrouping; !Truthy(g) || g.JStr?
    ensures var response := host(BuildPayload(rt, dealId, ChangeGrouping(editable, index, value)));
      var first := if response.Resolved? then FirstResult(response.response) else JUndefined;
      var g := editable[index].item.productGrouping;
      response.Resolved? && Get(response.response, "data").JArr? && Truthy(first)
        && ReportsSuccess(first) && SuccessLogThrows(first) ==>
          var u := UpdateSingleGrouping(rt, dealId, editable, index, value, true, host);
          && u.list == WithGrouping(editable, index, JStr(Sanitize(if Truthy(g) then g.s else "")))
          && u.toast == Some(Toast("Update Failed", GroupingFailurePrefix + SuccessLogError(rt, first), Destructive))
  {
    ChangeGroupingPresanitised(editable, index, value);
  }

  // ---------------------------------------------------------------------
  // Submit
  // ---------------------------------------------------------------------

  /** The payload handed to the host, if any, and the toast the submit shows. */
  datatype Submission = Submission(sent: Option<JsValue>, toast: Toast)

  const MissingDealToast := Toast("Submission Failed", "Unable to save changes - deal information is missing", Destructive)
  const NoProductsToast := Toast("Submission Failed", "No products found to update", Destructive)
  const ApiUnavailableToast := Toast("API Unavailable", "Unable to connect to CRM system - please refresh and try again", Destructive)
  const ValidationFailedToast := Toast("Validation Failed", "Please check your product data and try again", Destructive)
  const UpdateFailurePrefix := "Failed to update products: "
  const WarningPrefix := "Update completed with status: "

  /** `Successfully updated n product(s)!`, singular exactly for one product. */
  function SuccessMessage(n: nat): (m: string)
    ensures n == 1 ==> m == "Successfully updated 1 product!"
    ensures n != 1 ==> m == "Successfully updated " + NatToString(n) + " products!"
  {
    "Successfully updated " + NatToString(n) + " product" + (if n == 1 then "" else "s") + "!"
  }

  /** The checks that run before anything is sent, in order; `None` when all pass. */
  function SubmitGuard(rt: Runtime, dealId: JsValue, editable: seq<ProductFormData>, apiAvailable: bool): Option<Toast> {
    if !Truthy(dealId) then Some(MissingDealToast)
    else if |editable| == 0 then Some(NoProductsToast)
    else if !apiAvailable then Some(ApiUnavailableToast)
    else if ValidateProductData(rt, editable) != [] then Some(ValidationFailedToast)
    else None
  }

  /**
   * The toast for a response that passed the checks: success, with the
   * count of products, exactly when the first result is truthy and reports
   * `SUCCESS`; otherwise a warning quoting its message, or "Unknown status"
   * when that message is falsy.
   */
  function ResponseToast(rt: Runtime, response: JsValue, count: nat): (t: Toast)
    ensures var first := FirstResult(response);
      t.variant == Success <==> Truthy(first) && ReportsSuccess(first)
    ensures t.variant == Success ==> t == Toast("Update Successful", SuccessMessage(count), Success)
    ensures t.variant != Success ==> t.variant == Warning && t.title == "Update Warning"
    ensures var message := Get(FirstResult(response), "message");
      t.variant != Success && Truthy(message) ==> t.description == WarningPrefix + ToStr(rt, message)
    ensures var message := Get(FirstResult(response), "message");
      t.variant != Success && !Truthy(message) ==> t.description == WarningPrefix + "Unknown status"
  {
    var first := FirstResult(response);
    if Truthy(first) && ReportsSuccess(first) then
      Toast("Update Successful", SuccessMessage(count), Success)
    else
      Toast("Update Warning", WarningPrefix + ToStr(rt, Or(Get(first, "message"), JStr("Unknown status"))), Warning)
  }

  /**
   * `handleSubmitForm`: the guards in order (deal id, non-empty list, API
   * available, validation), the first failure showing its toast with
   * nothing sent; otherwise the whole list is sent once, and the result is
   * a success, a warning or a failure toast.
   */
  function HandleSubmitForm(rt: Runtime, dealId: JsValue, editable: seq<ProductFormData>,
                            apiAvailable: bool, host: JsValue -> CallResult): (s: Submission)
    ensures !Truthy(dealId) ==> s == Submission(None, MissingDealToast)
    ensures Truthy(dealId) && |editable| == 0 ==> s == Submission(None, NoProductsToast)
    ensures Truthy(dealId) && |editable| > 0 && !apiAvailable ==> s == Submission(None, ApiUnavailableToast)
    ensures Truthy(dealId) && |editable| > 0 && apiAvailable && ValidateProductData(rt, editable) != [] ==>
              s == Submission(None, ValidationFailedToast)
    ensures s.sent.Some? <==> Truthy(dealId) && apiAvailable && ValidateProductData(rt, editable) == []
    ensures s.sent.Some? ==> s.sent.value == BuildPayload(rt, dealId, editable)
  {
    match SubmitGuard(rt, dealId, editable, apiAvailable)
    case Some(t) => Submission(None, t)
    case None =>
      var update := UpdateProductSubformArray(rt, dealId, editable, apiAvailable, host);
      match update.result
      case Ok(response) => Submission(update.sent, ResponseToast(rt, response, |editable|))
      case Err(t) => Submission(update.sent, Toast("Update Failed", UpdateFailurePrefix + MessageOf(t), Destructive))
  }

  /**
   * The outcomes once every guard passes: a host rejection or a failed
   * response check gives the failure toast with the thrown message (for a
   * `SUCCESS` result without `details.Modified_By`, the `TypeError` of the
   * success log); a checked response gives success exactly when its first
   * result reports `SUCCESS`, and otherwise a warning quoting its message.
   */
  lemma SubmitOutcomes(rt: Runtime, dealId: JsValue, editable: seq<ProductFormData>,
                       apiAvailable: bool, host: JsValue -> CallResult)
    requires Truthy(dealId) && apiAvailable && ValidateProductData(rt, editable) == []
    ensures var s := HandleSubmitForm(rt, dealId, editable, apiAvailable, host);
      var payload := BuildPayload(rt, dealId, editable);
      && (host(payload).Rejected? ==>
            s.toast == Toast("Update Failed", UpdateFailurePrefix + MessageOf(host(payload).thrown), Destructive))
      && (host(payload).Resolved? && CheckResponse(rt, host(payload).response).Err? ==>
            s.toast == Toast("Update Failed", UpdateFailurePrefix + MessageOf(CheckResponse(rt, host(payload).response).error), Destructive))
      && (host(payload).Resolved? && CheckResponse(rt, host(payload).response).Ok? ==>
            var first := FirstResult(host(payload).response);
            && (s.toast.variant == Success <==> ReportsSuccess(first))
            && (s.toast.variant == Success ==> s.toast.description == SuccessMessage(|editable|))
            && (s.toast.variant != Success ==> s.toast.variant == Warning)
            && (s.toast.variant != Success && Truthy(Get(first, "message")) ==>
                  s.toast.description == WarningPrefix + ToStr(rt, Get(first, "message")))
            && (s.toast.variant != Success && !Truthy(Get(first, "message")) ==>
                  s.toast.description == WarningPrefix + "Unknown status"))
  {
  }

  /**
   * A resolved response whose first result reports `SUCCESS` but lacks
   * `details.Modified_By` is a failure: the success log throws, and the
   * submit shows the failure toast with that `TypeError`'s message.
   */
  lemma SubmitFailsOnUnreadableSuccess(rt: Runtime, dealId: JsValue, editable: seq<ProductFormData>,
                                       apiAvailable: bool, host: JsValue -> CallResult)
    requires Truthy(dealId) && apiAvailable && ValidateProductData(rt, editable) == []
    ensures var response := host(BuildPayload(rt, dealId, editable));
      var first := if response.Resolved? then FirstResult(response.response) else JUndefined;
      response.Resolved? && Get(response.response, "data").JArr? && Truthy(first)
        && ReportsSuccess(first) && SuccessLogThrows(first) ==>
          HandleSubmitForm(rt, dealId, editable, apiAvailable, host).toast
            == Toast("Update Failed", UpdateFailurePrefix + SuccessLogError(rt, first), Destructive)
  {
  }

  // ---------------------------------------------------------------------
  // Serialisation and extraction together
  // ---------------------------------------------------------------------

  /** How the host returns a stored record: the product lookup as `{id, name}` under `Products`. */
  function AsStoredRow(record: JsValue, name: JsValue): (row: JsValue)
    requires record.JObj?
    ensures row.JObj? && Get(row, "Products") == JObj(map["id" := Get(record, "Products"), "name" := name])
  {
    JObj(record.fields["Products" := JObj(map["id" := Get(record, "Products"), "name" := name])])
  }

  /**
   * Sending an item and reading it back from the stored row gives the item
   * again, provided every field is truthy and of the type the record keeps:
   * the two mappings use the same host field for each item field.
   */
  lemma SerialiseThenExtract(rt: Runtime, p: ProductFormData, index: nat)
    requires var it := p.item;
      && Truthy(it.id) && Truthy(it.name) && Truthy(it.productType) && Truthy(it.quantity)
      && Truthy(it.terms) && Truthy(it.unitPrice) && Truthy(it.vendor) && Truthy(it.productGrouping)
      && it.totalPricing.JStr? && it.totalPricing.s != "" && it.isContract.JBool?
    ensures ExtractRow(AsStoredRow(ToRecord(rt, p), p.item.name), index) == p.item
  {
    var row := AsStoredRow(ToRecord(rt, p), p.item.name);
    assert Get(row, "Products") == JObj(map["id" := p.item.id, "name" := p.item.name]);
  }

  /** A row without `Quantity` is read as 0 and sent back as 1: the two defaults differ. */
  lemma MissingQuantityIsSentAsOne(rt: Runtime, row: JsValue, index: nat, dealId: JsValue)
    requires row.JObj? && "Quantity" !in row.fields
    ensures ExtractRow(row, index).quantity == JNum(Fin(0.0))
    ensures ToRecord(rt, ProductFormData(ExtractRow(row, index), dealId)).fields["Quantity"] == JNum(Fin(1.0))
  {
  }
}
