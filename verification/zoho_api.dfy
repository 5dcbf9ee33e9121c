/**
 * The product service: validation of the editable list, its mapping onto the
 * host's subform records, the guarded update call and the interpretation of
 * the host's response. The host's `updateRecord` is a parameter; whether it
 * exists is a flag.
 */
module ZohoApi {
  import opened Wrappers
  import opened JsValues
  import opened ProductTypes
  import opened Seqs

  const MaxProducts := 100

  const EmptyListError := "Products array cannot be empty"
  const TooManyError := "Cannot update more than 100 products at once (Zoho API limit)"
  const MissingIdSuffix := " Missing product ID"
  const InvalidNameSuffix := " Missing or invalid product name"
  const GroupingSuffix := " Product grouping must be a single letter A-Z"
  const QuantitySuffix := " Quantity must be a positive number"
  const UnitPriceSuffix := " Unit price must be a positive number"

  const MissingDealIdError := "Deal ID is required for updating products"
  const ApiUnavailableError := "Zoho CRM API is not available. Ensure the widget is properly embedded in Zoho CRM."
  const InvalidResponseError := "Invalid response format from Zoho API"
  const NoResponseDataError := "No response data received from Zoho API"

  // ---------------------------------------------------------------------
  // Validation
  // ---------------------------------------------------------------------

  predicate IsUpperLetter(c: char) {
    'A' <= c <= 'Z'
  }

  /** `/^[A-Z]$/.test(s)`: exactly one character, an upper-case ASCII letter. */
  predicate SingleUpperLetter(s: string) {
    |s| == 1 && IsUpperLetter(s[0])
  }

  /**
   * What `x === undefined || !(x < 0 || !Number.isFinite(x))` accepts: an
   * absent value, or a finite number that is not negative. A value of any
   * other type is not finite.
   */
  predicate AbsentOrNonNegative(v: JsValue) {
    v.JUndefined? || (v.JNum? && v.n.Fin? && v.n.r >= 0.0)
  }

  /**
   * The reference for the per-item checks: an item adds no error exactly
   * when it has a truthy id, a non-empty string name, a grouping that is
   * falsy or prints as one capital letter, and a quantity and unit price
   * that are absent or finite and not negative.
   */
  predicate ItemValid(rt: Runtime, p: ProductFormData) {
    && Truthy(p.item.id)
    && p.item.name.JStr? && p.item.name.s != ""
    && (Truthy(p.item.productGrouping) ==> SingleUpperLetter(ToStr(rt, p.item.productGrouping)))
    && AbsentOrNonNegative(p.item.quantity)
    && AbsentOrNonNegative(p.item.unitPrice)
  }

  /** `Product {index + 1}:`, the prefix of every error about the item at `index`. */
  function ItemPrefix(index: nat): string {
    "Product " + NatToString(index + 1) + ":"
  }

  /** One error about the item at `index`. */
  function ItemMessage(index: nat, suffix: string): (m: string)
    ensures ItemPrefix(index) <= m
  {
    ItemPrefix(index) + suffix
  }

  function ErrorIf<T>(failed: bool, message: T): seq<T> {
    if failed then [message] else []
  }

  /** The errors the validator reports for the item at `index`, in the order it checks them. */
  function ItemErrors(rt: Runtime, p: ProductFormData, index: nat): (r: seq<string>)
    ensures |r| <= 5
    ensures r == [] <==> ItemValid(rt, p)
    ensures forall e :: e in r ==> ItemPrefix(index) <= e
    ensures !Truthy(p.item.id) ==> r[0] == ItemMessage(index, MissingIdSuffix)
  {
    var item := p.item;
    ErrorIf(!Truthy(item.id), ItemMessage(index, MissingIdSuffix))
    + (ErrorIf(!Truthy(item.name) || !item.name.JStr?, ItemMessage(index, InvalidNameSuffix))
    + (ErrorIf(Truthy(item.productGrouping) && !SingleUpperLetter(ToStr(rt, item.productGrouping)),
               ItemMessage(index, GroupingSuffix))
    + (ErrorIf(!AbsentOrNonNegative(item.quantity), ItemMessage(index, QuantitySuffix))
    + ErrorIf(!AbsentOrNonNegative(item.unitPrice), ItemMessage(index, UnitPriceSuffix)))))
  }

  /** The missing-id message is reported exactly when the id is falsy. */
  lemma MissingIdReported(rt: Runtime, p: ProductFormData, index: nat)
    ensures ItemMessage(index, MissingIdSuffix) in ItemErrors(rt, p, index) <==> !Truthy(p.item.id)
  {
  }

  /** The name message is reported exactly when the name is falsy or not a string. */
  lemma InvalidNameReported(rt: Runtime, p: ProductFormData, index: nat)
    ensures ItemMessage(index, InvalidNameSuffix) in ItemErrors(rt, p, index) <==>
              !Truthy(p.item.name) || !p.item.name.JStr?
  {
  }

  /** The grouping message is reported exactly when the grouping is truthy and not one capital letter. */
  lemma GroupingReported(rt: Runtime, p: ProductFormData, index: nat)
    ensures ItemMessage(index, GroupingSuffix) in ItemErrors(rt, p, index) <==>
              Truthy(p.item.productGrouping) && !SingleUpperLetter(ToStr(rt, p.item.productGrouping))
  {
  }

  /** The quantity message is reported exactly when the quantity is present and not a finite non-negative number. */
  lemma QuantityReported(rt: Runtime, p: ProductFormData, index: nat)
    ensures ItemMessage(index, QuantitySuffix) in ItemErrors(rt, p, index) <==> !AbsentOrNonNegative(p.item.quantity)
  {
  }

  /** The unit-price message is reported exactly when the price is present and not a finite non-negative number. */
  lemma UnitPriceReported(rt: Runtime, p: ProductFormData, index: nat)
    ensures ItemMessage(index, UnitPriceSuffix) in ItemErrors(rt, p, index) <==> !AbsentOrNonNegative(p.item.unitPrice)
  {
  }

  /** Nothing but the five check messages is reported about an item. */
  lemma OnlyCheckMessagesReported(rt: Runtime, p: ProductFormData, index: nat)
    ensures forall e :: e in ItemErrors(rt, p, index) ==>
              e in {ItemMessage(index, MissingIdSuffix), ItemMessage(index, InvalidNameSuffix),
                    ItemMessage(index, GroupingSuffix), ItemMessage(index, QuantitySuffix),
                    ItemMessage(index, UnitPriceSuffix)}
  {
  }

  /** Pushing a message that is not yet in a list without repeats keeps it without repeats. */
  lemma PushKeepsDistinct<T>(failed: bool, m: T, rest: seq<T>)
    requires m !in rest
    requires forall a, b :: 0 <= a < b < |rest| ==> rest[a] != rest[b]
    ensures var r := ErrorIf(failed, m) + rest; forall a, b :: 0 <= a < b < |r| ==> r[a] != r[b]
  {
    var r := ErrorIf(failed, m) + rest;
    if failed {
      forall a, b | 0 <= a < b < |r| ensures r[a] != r[b] {
        if a == 0 {
          assert r[b] == rest[b - 1];
        } else {
          assert r[a] == rest[a - 1] && r[b] == rest[b - 1];
        }
      }
    } else {
      assert r == rest;
    }
  }

  /** Five pushes of messages with different lengths never push the same message twice. */
  lemma FivePushesDistinct(f0: bool, f1: bool, f2: bool, f3: bool, f4: bool,
                           m0: string, m1: string, m2: string, m3: string, m4: string)
    requires |m0| != |m1| && |m0| != |m2| && |m0| != |m3| && |m0| != |m4|
    requires |m1| != |m2| && |m1| != |m3| && |m1| != |m4|
    requires |m2| != |m3| && |m2| != |m4| && |m3| != |m4|
    ensures var r := ErrorIf(f0, m0) + (ErrorIf(f1, m1) + (ErrorIf(f2, m2) + (ErrorIf(f3, m3) + ErrorIf(f4, m4))));
      forall a, b :: 0 <= a < b < |r| ==> r[a] != r[b]
  {
    var e0, e1, e2, e3, e4 := ErrorIf(f0, m0), ErrorIf(f1, m1), ErrorIf(f2, m2), ErrorIf(f3, m3), ErrorIf(f4, m4);
    var t3 := e3 + e4;
    PushKeepsDistinct(f3, m3, e4);
    assert forall x :: x in t3 ==> |x| == |m3| || |x| == |m4|;
    var t2 := e2 + t3;
    PushKeepsDistinct(f2, m2, t3);
    assert forall x :: x in t2 ==> |x| == |m2| || |x| == |m3| || |x| == |m4|;
    var t1 := e1 + t2;
    PushKeepsDistinct(f1, m1, t2);
    assert forall x :: x in t1 ==> |x| == |m1| || |x| == |m2| || |x| == |m3| || |x| == |m4|;
    PushKeepsDistinct(f0, m0, t1);
  }

  /** No message is reported twice about one item: the five suffixes have different lengths. */
  lemma NoItemMessageTwice(rt: Runtime, p: ProductFormData, index: nat)
    ensures var r := ItemErrors(rt, p, index); forall a, b :: 0 <= a < b < |r| ==> r[a] != r[b]
  {
    var n := |ItemPrefix(index)|;
    var item := p.item;
    var m0, m1, m2 := ItemMessage(index, MissingIdSuffix), ItemMessage(index, InvalidNameSuffix), ItemMessage(index, GroupingSuffix);
    var m3, m4 := ItemMessage(index, QuantitySuffix), ItemMessage(index, UnitPriceSuffix);
    assert |m0| == n + 19 && |m1| == n + 32 && |m2| == n + 45 && |m3| == n + 35 && |m4| == n + 37;
    FivePushesDistinct(!Truthy(item.id), !Truthy(item.name) || !item.name.JStr?,
                       Truthy(item.productGrouping) && !SingleUpperLetter(ToStr(rt, item.productGrouping)),
                       !AbsentOrNonNegative(item.quantity), !AbsentOrNonNegative(item.unitPrice),
                       m0, m1, m2, m3, m4);
  }

  /**
   * The position of a message among the validator's five checks on one
   * item, in the order it runs them: id, name, grouping, quantity, unit
   * price; 5 for any other string.
   */
  function CheckOrder(index: nat, e: string): nat {
    if e == ItemMessage(index, MissingIdSuffix) then 0
    else if e == ItemMessage(index, InvalidNameSuffix) then 1
    else if e == ItemMessage(index, GroupingSuffix) then 2
    else if e == ItemMessage(index, QuantitySuffix) then 3
    else if e == ItemMessage(index, UnitPriceSuffix) then 4
    else 5
  }

  /** Each check's message is ranked by its check; the five suffixes have different lengths. */
  lemma CheckOrderOfMessages(index: nat)
    ensures CheckOrder(index, ItemMessage(index, MissingIdSuffix)) == 0
    ensures CheckOrder(index, ItemMessage(index, InvalidNameSuffix)) == 1
    ensures CheckOrder(index, ItemMessage(index, GroupingSuffix)) == 2
    ensures CheckOrder(index, ItemMessage(index, QuantitySuffix)) == 3
    ensures CheckOrder(index, ItemMessage(index, UnitPriceSuffix)) == 4
  {
    var n := |ItemPrefix(index)|;
    assert |ItemMessage(index, MissingIdSuffix)| == n + 19 && |ItemMessage(index, InvalidNameSuffix)| == n + 32;
    assert |ItemMessage(index, GroupingSuffix)| == n + 45 && |ItemMessage(index, QuantitySuffix)| == n + 35;
    assert |ItemMessage(index, UnitPriceSuffix)| == n + 37;
  }

  /** `rank` strictly increases along `s`. */
  predicate Ascending<T>(s: seq<T>, rank: T -> int) {
    forall a, b :: 0 <= a < b < |s| ==> rank(s[a]) < rank(s[b])
  }

  /** Pushing a message ranked below everything already collected keeps the ranks ascending. */
  lemma PushKeepsAscending<T>(failed: bool, m: T, rest: seq<T>, rank: T -> int)
    requires Ascending(rest, rank)
    requires forall e :: e in rest ==> rank(m) < rank(e)
    ensures Ascending(ErrorIf(failed, m) + rest, rank)
  {
    var r := ErrorIf(failed, m) + rest;
    if failed {
      forall a, b | 0 <= a < b < |r| ensures rank(r[a]) < rank(r[b]) {
        assert r[b] == rest[b - 1];
        if a == 0 {
          assert rest[b - 1] in rest;
        } else {
          assert r[a] == rest[a - 1];
        }
      }
    } else {
      assert r == rest;
    }
  }

  /** Five pushes of messages ranked 0 to 4 give a list with ascending ranks. */
  lemma FivePushesAscending<T>(f0: bool, f1: bool, f2: bool, f3: bool, f4: bool,
                               m0: T, m1: T, m2: T, m3: T, m4: T, rank: T -> int)
    requires rank(m0) == 0 && rank(m1) == 1 && rank(m2) == 2 && rank(m3) == 3 && rank(m4) == 4
    ensures Ascending(ErrorIf(f0, m0) + (ErrorIf(f1, m1) + (ErrorIf(f2, m2) + (ErrorIf(f3, m3) + ErrorIf(f4, m4)))), rank)
  {
    var e0, e1, e2, e3, e4 := ErrorIf(f0, m0), ErrorIf(f1, m1), ErrorIf(f2, m2), ErrorIf(f3, m3), ErrorIf(f4, m4);
    PushKeepsAscending(f3, m3, e4, rank);
    var t3 := e3 + e4;
    assert forall x :: x in t3 ==> 3 <= rank(x);
    PushKeepsAscending(f2, m2, t3, rank);
    var t2 := e2 + t3;
    assert forall x :: x in t2 ==> 2 <= rank(x);
    PushKeepsAscending(f1, m1, t2, rank);
    var t1 := e1 + t2;
    assert forall x :: x in t1 ==> 1 <= rank(x);
    PushKeepsAscending(f0, m0, t1, rank);
  }

  /**
   * The messages about one item come in the order the validator runs its
   * checks: an earlier message always belongs to an earlier check.
   */
  lemma ItemErrorsInCheckOrder(rt: Runtime, p: ProductFormData, index: nat)
    ensures var r := ItemErrors(rt, p, index);
      forall a, b :: 0 <= a < b < |r| ==> CheckOrder(index, r[a]) < CheckOrder(index, r[b])
  {
    var item := p.item;
    var m0, m1, m2 := ItemMessage(index, MissingIdSuffix), ItemMessage(index, InvalidNameSuffix), ItemMessage(index, GroupingSuffix);
    var m3, m4 := ItemMessage(index, QuantitySuffix), ItemMessage(index, UnitPriceSuffix);
    CheckOrderOfMessages(index);
    var rank := e => CheckOrder(index, e);
    FivePushesAscending(!Truthy(item.id), !Truthy(item.name) || !item.name.JStr?,
                        Truthy(item.productGrouping) && !SingleUpperLetter(ToStr(rt, item.productGrouping)),
                        !AbsentOrNonNegative(item.quantity), !AbsentOrNonNegative(item.unitPrice),
                        m0, m1, m2, m3, m4, rank);
  }

  /**
   * The validator collects rather than stops within one item: the message
   * of each check is reported exactly when the item fails that check, no
   * other message is reported, and none twice.
   */
  lemma ItemErrorsPerCheck(rt: Runtime, p: ProductFormData, index: nat)
    ensures var r := ItemErrors(rt, p, index);
      && (ItemMessage(index, MissingIdSuffix) in r <==> !Truthy(p.item.id))
      && (ItemMessage(index, InvalidNameSuffix) in r <==> !Truthy(p.item.name) || !p.item.name.JStr?)
      && (ItemMessage(index, GroupingSuffix) in r <==>
            Truthy(p.item.productGrouping) && !SingleUpperLetter(ToStr(rt, p.item.productGrouping)))
      && (ItemMessage(index, QuantitySuffix) in r <==> !AbsentOrNonNegative(p.item.quantity))
      && (ItemMessage(index, UnitPriceSuffix) in r <==> !AbsentOrNonNegative(p.item.unitPrice))
      && (forall a, b :: 0 <= a < b < |r| ==> r[a] != r[b])
  {
    MissingIdReported(rt, p, index);
    InvalidNameReported(rt, p, index);
    GroupingReported(rt, p, index);
    QuantityReported(rt, p, index);
    UnitPriceReported(rt, p, index);
    NoItemMessageTwice(rt, p, index);
  }

  /** The errors of each item, position by position. */
  function PerItemErrors(rt: Runtime, ps: seq<ProductFormData>): (r: seq<seq<string>>)
    ensures |r| == |ps|
    ensures forall i :: 0 <= i < |ps| ==> r[i] == ItemErrors(rt, ps[i], i)
  {
    seq(|ps|, i requires 0 <= i < |ps| => ItemErrors(rt, ps[i], i))
  }

  /**
   * `validateProductData`: an empty list gets one error and no item checks;
   * a list over the limit gets the limit error first and still has every
   * item checked; the result is empty exactly for a list within the limit
   * whose every item is valid, and it holds at most five errors per item.
   */
  function ValidateProductData(rt: Runtime, ps: seq<ProductFormData>): (errors: seq<string>)
    ensures |ps| == 0 ==> errors == [EmptyListError]
    ensures |ps| > MaxProducts ==> |errors| > 0 && errors[0] == TooManyError
    ensures errors == [] <==> 0 < |ps| <= MaxProducts && forall i :: 0 <= i < |ps| ==> ItemValid(rt, ps[i])
    ensures |errors| <= 1 + 5 * |ps|
  {
    if |ps| == 0 then [EmptyListError]
    else
      var perItem := PerItemErrors(rt, ps);
      ConcatEmpty(perItem);
      ConcatBound(perItem, 5);
      ErrorIf(|ps| > MaxProducts, TooManyError) + Concat(perItem)
  }

  /** The validator collects rather than stops: every error of every item is reported. */
  lemma EveryItemErrorReported(rt: Runtime, ps: seq<ProductFormData>, i: nat, e: string)
    requires i < |ps| && e in ItemErrors(rt, ps[i], i)
    ensures e in ValidateProductData(rt, ps)
  {
    ConcatContains(PerItemErrors(rt, ps), i, e);
  }

  /** Apart from the limit error, every reported error comes from the checks of one item. */
  lemma ReportedErrorHasItem(rt: Runtime, ps: seq<ProductFormData>, e: string) returns (i: nat)
    requires |ps| > 0 && e in ValidateProductData(rt, ps) && e != TooManyError
    ensures i < |ps| && e in ItemErrors(rt, ps[i], i)
  {
    i := ConcatElementFromPart(PerItemErrors(rt, ps), e);
  }

  /** An item that fails only the name check reports that one message. */
  lemma OnlyNameFails(rt: Runtime, p: ProductFormData, index: nat)
    requires Truthy(p.item.id) && !Truthy(p.item.name) && !Truthy(p.item.productGrouping)
    requires AbsentOrNonNegative(p.item.quantity) && AbsentOrNonNegative(p.item.unitPrice)
    ensures ItemErrors(rt, p, index) == [ItemMessage(index, InvalidNameSuffix)]
  {
  }

  /** An item that fails only the grouping check reports that one message. */
  lemma OnlyGroupingFails(rt: Runtime, p: ProductFormData, index: nat)
    requires Truthy(p.item.id) && p.item.name.JStr? && p.item.name.s != ""
    requires Truthy(p.item.productGrouping) && !SingleUpperLetter(ToStr(rt, p.item.productGrouping))
    requires AbsentOrNonNegative(p.item.quantity) && AbsentOrNonNegative(p.item.unitPrice)
    ensures ItemErrors(rt, p, index) == [ItemMessage(index, GroupingSuffix)]
  {
  }

  /**
   * Two malformed items, the first without a name and the second with the
   * grouping "AB", give exactly one message each, in item order.
   */
  lemma TwoMalformedItems(rt: Runtime, a: ProductFormData, b: ProductFormData)
    requires Truthy(a.item.id) && !Truthy(a.item.name) && !Truthy(a.item.productGrouping)
    requires AbsentOrNonNegative(a.item.quantity) && AbsentOrNonNegative(a.item.unitPrice)
    requires Truthy(b.item.id) && b.item.name.JStr? && b.item.name.s != "" && b.item.productGrouping == JStr("AB")
    requires AbsentOrNonNegative(b.item.quantity) && AbsentOrNonNegative(b.item.unitPrice)
    ensures ValidateProductData(rt, [a, b]) == ["Product 1:" + InvalidNameSuffix, "Product 2:" + GroupingSuffix]
  {
    OnlyNameFails(rt, a, 0);
    OnlyGroupingFails(rt, b, 1);
    var perItem := PerItemErrors(rt, [a, b]);
    assert perItem == [[ItemMessage(0, InvalidNameSuffix)], [ItemMessage(1, GroupingSuffix)]];
    assert Concat(perItem) == [ItemMessage(0, InvalidNameSuffix), ItemMessage(1, GroupingSuffix)] by {
      assert Concat(perItem[1..]) == perItem[1] + Concat(perItem[2..]);
    }
    assert ValidateProductData(rt, [a, b]) == Concat(perItem);
    FirstTwoPrefixes();
  }

  /** The prefixes of the first two items, spelled out. */
  lemma FirstTwoPrefixes()
    ensures ItemPrefix(0) == "Product 1:" && ItemPrefix(1) == "Product 2:"
  {
    assert NatToString(1) == "1" && NatToString(2) == "2";
  }

  /** Two digit strings that both sit between `p` and a colon at the head of `e` are equal. */
  lemma {:induction false} NumeralBeforeColon(p: string, a: string, b: string, e: string)
    requires forall k :: 0 <= k < |a| ==> '0' <= a[k] <= '9'
    requires forall k :: 0 <= k < |b| ==> '0' <= b[k] <= '9'
    requires p + a + ":" <= e && p + b + ":" <= e
    ensures a == b
  {
    var sa, sb := p + a + ":", p + b + ":";
    assert forall k :: 0 <= k < |a| ==> e[|p| + k] == sa[|p| + k] == a[k];
    assert forall k :: 0 <= k < |b| ==> e[|p| + k] == sb[|p| + k] == b[k];
    assert e[|p| + |a|] == sa[|p| + |a|] == ':';
    assert e[|p| + |b|] == sb[|p| + |b|] == ':';
    if |a| != |b| {
      assert false;
    }
  }

  /** Two item prefixes at the head of one string carry the same numeral. */
  lemma PrefixNumeralsAgree(i: nat, j: nat, e: string)
    requires ItemPrefix(i) <= e && ItemPrefix(j) <= e
    ensures NatToString(i + 1) == NatToString(j + 1)
  {
    var a, b := NatToString(i + 1), NatToString(j + 1);
    assert ItemPrefix(i) == "Product " + a + ":" && ItemPrefix(j) == "Product " + b + ":";
    NumeralBeforeColon("Product ", a, b, e);
  }

  /** Different numbers have different numerals. */
  lemma NatToStringInjective(m: nat, n: nat)
    requires NatToString(m) == NatToString(n)
    ensures m == n
  {
    NatToStringRoundTrip(m);
    NatToStringRoundTrip(n);
  }

  /** A prefix `Product {n}:` fixes `n`: the digits end where the colon is. */
  lemma PrefixDeterminesIndex(i: nat, j: nat, e: string)
    requires ItemPrefix(i) <= e && ItemPrefix(j) <= e
    ensures i == j
  {
    PrefixNumeralsAgree(i, j, e);
    NatToStringInjective(i + 1, j + 1);
  }

  /** Errors name their item: no error message is reported for two different positions. */
  lemma ErrorsNameTheirItem(rt: Runtime, p: ProductFormData, q: ProductFormData, i: nat, j: nat, e: string)
    requires e in ItemErrors(rt, p, i) && e in ItemErrors(rt, q, j)
    ensures i == j
  {
    PrefixDeterminesIndex(i, j, e);
  }

  // ---------------------------------------------------------------------
  // Serialisation
  // ---------------------------------------------------------------------

  /** The keys of a subform record: the product id travels under `Products`, and there is no `id`. */
  const RecordKeys: set<string> := {
    "Product_Type", "Is_Contract", "Product_Grouping", "Quantity", "Terms",
    "Pricing", "Total_Pricing", "Vendor", "Products"
  }

  /** `a ?? b`: the right operand only when the left one is `null` or `undefined`. */
  function Coalesce(a: JsValue, b: JsValue): (r: JsValue)
    ensures !Nullish(a) ==> r == a
    ensures Nullish(a) ==> r == b
  {
    if Nullish(a) then b else a
  }

  /**
   * The host record for one line item: the item's fields under their host
   * names, with defaults for falsy values (`Quantity` 1, `Terms`
   * "Co-Terminus", `Pricing` 0, `null` grouping and vendor), the total price
   * always as a string, and the row's own id left out.
   */
  function ToRecord(rt: Runtime, p: ProductFormData): (r: JsValue)
    ensures r.JObj? && r.fields.Keys == RecordKeys
    ensures "id" !in r.fields
    ensures r.fields["Products"] == p.item.id
    ensures r.fields["Product_Type"] == p.item.productType
    ensures Truthy(r.fields["Quantity"]) && Truthy(r.fields["Terms"])
    ensures Truthy(p.item.quantity) ==> r.fields["Quantity"] == p.item.quantity
    ensures !Truthy(p.item.quantity) ==> r.fields["Quantity"] == JNum(Fin(1.0))
    ensures Truthy(p.item.terms) ==> r.fields["Terms"] == p.item.terms
    ensures !Truthy(p.item.terms) ==> r.fields["Terms"] == JStr("Co-Terminus")
    ensures Truthy(p.item.unitPrice) ==> r.fields["Pricing"] == p.item.unitPrice
    ensures !Truthy(p.item.unitPrice) ==> r.fields["Pricing"] == JNum(Fin(0.0))
    ensures r.fields["Total_Pricing"].JStr?
    ensures p.item.totalPricing.JStr? ==> r.fields["Total_Pricing"] == p.item.totalPricing
    ensures !p.item.totalPricing.JStr? && Truthy(p.item.totalPricing) ==>
              r.fields["Total_Pricing"] == JStr(ToStr(rt, p.item.totalPricing))
    ensures !p.item.totalPricing.JStr? && !Truthy(p.item.totalPricing) ==> r.fields["Total_Pricing"] == JStr("0")
    ensures Truthy(p.item.productGrouping) ==> r.fields["Product_Grouping"] == p.item.productGrouping
    ensures !Truthy(p.item.productGrouping) ==> r.fields["Product_Grouping"] == JNull
    ensures Truthy(p.item.vendor) ==> r.fields["Vendor"] == p.item.vendor
    ensures !Truthy(p.item.vendor) ==> r.fields["Vendor"] == JNull
    ensures !Nullish(r.fields["Is_Contract"])
    ensures !Nullish(p.item.isContract) ==> r.fields["Is_Contract"] == p.item.isContract
    ensures Nullish(p.item.isContract) ==> r.fields["Is_Contract"] == JBool(false)
  {
    var item := p.item;
    JObj(map[
      "Product_Type" := item.productType,
      "Is_Contract" := Coalesce(item.isContract, JBool(false)),
      "Product_Grouping" := Or(item.productGrouping, JNull),
      "Quantity" := Or(item.quantity, JNum(Fin(1.0))),
      "Terms" := Or(item.terms, JStr("Co-Terminus")),
      "Pricing" := Or(item.unitPrice, JNum(Fin(0.0))),
      "Total_Pricing" :=
        if item.totalPricing.JStr? then item.totalPricing
        else JStr(ToStr(rt, Or(item.totalPricing, JNum(Fin(0.0))))),
      "Vendor" := Or(item.vendor, JNull),
      "Products" := item.id])
  }

  /** The records of a list, one per item, in order. */
  function Records(rt: Runtime, ps: seq<ProductFormData>): (rs: seq<JsValue>)
    ensures |rs| == |ps|
    ensures forall i :: 0 <= i < |ps| ==> rs[i] == ToRecord(rt, ps[i])
  {
    seq(|ps|, i requires 0 <= i < |ps| => ToRecord(rt, ps[i]))
  }

  /** The update payload: the deal id and the whole subform, both at the root. */
  function BuildPayload(rt: Runtime, dealId: JsValue, ps: seq<ProductFormData>): (r: JsValue)
    ensures r.JObj? && r.fields.Keys == {"id", "Subform_1"}
    ensures r.fields["id"] == dealId
    ensures r.fields["Subform_1"] == JArr(Records(rt, ps))
  {
    JObj(map["id" := dealId, "Subform_1" := JArr(Records(rt, ps))])
  }

  // ---------------------------------------------------------------------
  // The update call
  // ---------------------------------------------------------------------

  /** What the host's `updateRecord` promise settles to. */
  datatype CallResult = Resolved(response: JsValue) | Rejected(thrown: Thrown)

  /** The payload handed to the host, if any, and what the update returns or throws. */
  datatype Update = Update(sent: Option<JsValue>, result: Result<JsValue, Thrown>)

  /** `response.data[0]`, or `undefined` when `data` is not a non-empty array. */
  function FirstResult(response: JsValue): JsValue {
    var data := Get(response, "data");
    if data.JArr? && |data.items| > 0 then data.items[0] else JUndefined
  }

  /** `first.code === 'SUCCESS'`. */
  predicate ReportsSuccess(first: JsValue) {
    Get(first, "code") == JStr("SUCCESS")
  }

  /**
   * The success log reads `first.details.id` and then
   * `first.details.Modified_By.name`: one of the two reads throws exactly
   * when `Modified_By` is `null` or `undefined`, a nullish `details` having
   * no `Modified_By` either.
   */
  predicate SuccessLogThrows(first: JsValue) {
    Nullish(Get(Get(first, "details"), "Modified_By"))
  }

  /** The message of that `TypeError`: the `id` read fails first when `details` itself is nullish. */
  function SuccessLogError(rt: Runtime, first: JsValue): string {
    var details := Get(first, "details");
    if Nullish(details) then rt.readPropertyError(details, "id")
    else rt.readPropertyError(Get(details, "Modified_By"), "name")
  }

  /**
   * The response checks: `data` must be an array whose first element is
   * truthy, and a first element reporting `SUCCESS` must carry
   * `details.Modified_By`, which the success log reads; the response is
   * then returned unchanged, whatever its code.
   */
  function CheckResponse(rt: Runtime, response: JsValue): (r: Result<JsValue, Thrown>)
    ensures r.Ok? <==>
              && Get(response, "data").JArr? && Truthy(FirstResult(response))
              && !(ReportsSuccess(FirstResult(response)) && SuccessLogThrows(FirstResult(response)))
    ensures r.Ok? ==> r.value == response
    ensures !Get(response, "data").JArr? ==> r == Err(ErrorObject(InvalidResponseError))
    ensures Get(response, "data").JArr? && !Truthy(FirstResult(response)) ==>
              r == Err(ErrorObject(NoResponseDataError))
    ensures var first := FirstResult(response);
      Get(response, "data").JArr? && Truthy(first) && ReportsSuccess(first) && SuccessLogThrows(first) ==>
        r == Err(ErrorObject(SuccessLogError(rt, first)))
  {
    var data := Get(response, "data");
    if !Truthy(data) || !data.JArr? then Err(ErrorObject(InvalidResponseError))
    else
      var first := FirstResult(response);
      if !Truthy(first) then Err(ErrorObject(NoResponseDataError))
      else if ReportsSuccess(first) && SuccessLogThrows(first) then Err(ErrorObject(SuccessLogError(rt, first)))
      else Ok(response)
  }

  /**
   * A `SUCCESS` result without `details` fails the update with the
   * `TypeError` of reading `details.id`.
   */
  lemma BareSuccessIsRejected(rt: Runtime)
    ensures var response := JObj(map["data" := JArr([JObj(map["code" := JStr("SUCCESS")])])]);
      CheckResponse(rt, response) == Err(ErrorObject(rt.readPropertyError(JUndefined, "id")))
  {
    var first := JObj(map["code" := JStr("SUCCESS")]);
    var response := JObj(map["data" := JArr([first])]);
    assert FirstResult(response) == first;
    assert Get(first, "details") == JUndefined;
  }

  /**
   * `updateProductSubformArray`: the three guards, in order, then one host
   * call with the payload, then the response checks. A rejection from the
   * host is rethrown unchanged.
   */
  function UpdateProductSubformArray(rt: Runtime, dealId: JsValue, ps: seq<ProductFormData>,
                                     apiAvailable: bool, host: JsValue -> CallResult): (u: Update)
    ensures !Truthy(dealId) ==> u == Update(None, Err(ErrorObject(MissingDealIdError)))
    ensures Truthy(dealId) && |ps| == 0 ==> u == Update(None, Err(ErrorObject(EmptyListError)))
    ensures Truthy(dealId) && |ps| > 0 && !apiAvailable ==>
              u == Update(None, Err(ErrorObject(ApiUnavailableError)))
    ensures u.sent.Some? <==> Truthy(dealId) && |ps| > 0 && apiAvailable
    ensures u.sent.Some? ==> u.sent.value == BuildPayload(rt, dealId, ps)
    ensures u.sent.Some? && host(u.sent.value).Rejected? ==> u.result == Err(host(u.sent.value).thrown)
    ensures u.sent.Some? && host(u.sent.value).Resolved? ==>
              u.result == CheckResponse(rt, host(u.sent.value).response)
  {
    if !Truthy(dealId) then Update(None, Err(ErrorObject(MissingDealIdError)))
    else if |ps| == 0 then Update(None, Err(ErrorObject(EmptyListError)))
    else if !apiAvailable then Update(None, Err(ErrorObject(ApiUnavailableError)))
    else
      var payload := BuildPayload(rt, dealId, ps);
      match host(payload)
      case Rejected(t) => Update(Some(payload), Err(t))
      case Resolved(response) => Update(Some(payload), CheckResponse(rt, response))
  }

  /** Whatever the host does, the update succeeds only with a response that passed the checks. */
  lemma UpdateSucceedsOnlyWithCheckedResponse(rt: Runtime, dealId: JsValue, ps: seq<ProductFormData>,
                                             apiAvailable: bool, host: JsValue -> CallResult)
    ensures var u := UpdateProductSubformArray(rt, dealId, ps, apiAvailable, host);
      u.result.Ok? ==>
        && u.sent.Some?
        && host(u.sent.value) == Resolved(u.result.value)
        && var first := FirstResult(u.result.value);
        && Get(u.result.value, "data").JArr? && Truthy(first)
        && (ReportsSuccess(first) ==> !SuccessLogThrows(first))
  {
  }

  // ---------------------------------------------------------------------
  // Regrouping by product id
  // ---------------------------------------------------------------------

  /** Upper-cases the ASCII letters and leaves every other character as it is. */
  function ToUpperAscii(s: string): (r: string)
    ensures |r| == |s|
    ensures forall k :: 0 <= k < |s| && 'a' <= s[k] <= 'z' ==> r[k] == (s[k] as int - 32) as char
    ensures forall k :: 0 <= k < |s| && !('a' <= s[k] <= 'z') ==> r[k] == s[k]
  {
    seq(|s|, k requires 0 <= k < |s| => if 'a' <= s[k] <= 'z' then (s[k] as int - 32) as char else s[k])
  }

  /**
   * The list `updateProductGrouping` sends: every item whose id is
   * `productId` gets the upper-cased grouping, unfiltered; every other item
   * is kept as it is, in place.
   */
  function RegroupById(ps: seq<ProductFormData>, productId: string, grouping: string): (r: seq<ProductFormData>)
    ensures |r| == |ps|
    ensures forall i :: 0 <= i < |ps| && ps[i].item.id == JStr(productId) ==>
              r[i] == ps[i].(item := ps[i].item.(productGrouping := JStr(ToUpperAscii(grouping))))
    ensures forall i :: 0 <= i < |ps| && ps[i].item.id != JStr(productId) ==> r[i] == ps[i]
  {
    seq(|ps|, i requires 0 <= i < |ps| =>
      if ps[i].item.id == JStr(productId)
      then ps[i].(item := ps[i].item.(productGrouping := JStr(ToUpperAscii(grouping))))
      else ps[i])
  }

  /** Regrouping twice with the same arguments is regrouping once. */
  lemma RegroupIdempotent(ps: seq<ProductFormData>, productId: string, grouping: string)
    ensures RegroupById(RegroupById(ps, productId, grouping), productId, grouping)
         == RegroupById(ps, productId, grouping)
  {
  }

  /**
   * `updateProductGrouping`: the regrouped list goes through the full
   * update, with its guards, its host call and its response checks.
   */
  function UpdateProductGrouping(rt: Runtime, dealId: JsValue, productId: string, grouping: string,
                                 all: seq<ProductFormData>, apiAvailable: bool,
                                 host: JsValue -> CallResult): (u: Update)
    ensures !Truthy(dealId) ==> u == Update(None, Err(ErrorObject(MissingDealIdError)))
    ensures Truthy(dealId) && |all| == 0 ==> u == Update(None, Err(ErrorObject(EmptyListError)))
    ensures Truthy(dealId) && |all| > 0 && !apiAvailable ==> u == Update(None, Err(ErrorObject(ApiUnavailableError)))
    ensures u.sent.Some? <==> Truthy(dealId) && |all| > 0 && apiAvailable
    ensures u.sent.Some? ==> u.sent.value == BuildPayload(rt, dealId, RegroupById(all, productId, grouping))
    ensures u.sent.Some? && host(u.sent.value).Rejected? ==> u.result == Err(host(u.sent.value).thrown)
    ensures u.sent.Some? && host(u.sent.value).Resolved? ==>
              u.result == CheckResponse(rt, host(u.sent.value).response)
    ensures forall i :: 0 <= i < |all| && all[i].item.id == JStr(productId) ==>
              Get(ToRecord(rt, RegroupById(all, productId, grouping)[i]), "Product_Grouping")
              == (if grouping == "" then JNull else JStr(ToUpperAscii(grouping)))
  {
    UpdateProductSubformArray(rt, dealId, RegroupById(all, productId, grouping), apiAvailable, host)
  }
}
