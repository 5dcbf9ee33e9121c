/**
 * Facts that relate the provider's normalised deal to what the product hook
 * reads from the same raw payload.
 */
module Scenarios {
  import opened JsValues
  import opened ProductTypes
  import opened ZohoApi
  import opened ProductManagement
  import Deals
  import Provider

  /**
   * When the host sends a string id, the hook's deal id is the id of the
   * normalised deal.
   */
  lemma DealIdAgreesWithDeal(rt: Runtime, raw: JsValue)
    requires HasDealRecord(raw) && Get(Get(raw, "data"), "id").JStr?
    ensures Deals.ParseDeal(rt, raw).Some?
    ensures DealIdOf(raw) == JStr(Deals.ParseDeal(rt, raw).value.strings(Deals.Id))
  {
    assert Get(Get(raw, "data"), Deals.StringField.Id.Key()) == Get(Get(raw, "data"), "id");
  }

  /**
   * Without an id the two disagree: the deal record says "unknown", while the
   * hook's deal id is `undefined`, so nothing can be submitted.
   */
  lemma MissingIdDisagrees(rt: Runtime, raw: JsValue)
    requires HasDealRecord(raw) && "id" !in Get(raw, "data").fields
    ensures Deals.ParseDeal(rt, raw).Some?
    ensures Deals.ParseDeal(rt, raw).value.strings(Deals.Id) == "unknown"
    ensures !Truthy(DealIdOf(raw))
    ensures SeedEditable(raw) == []
  {
    MissingIdInDeal(rt, raw);
  }

  /** The deal half: the parser falls back to the sentinel id. */
  lemma MissingIdInDeal(rt: Runtime, raw: JsValue)
    requires HasDealRecord(raw) && "id" !in Get(raw, "data").fields
    ensures Deals.ParseDeal(rt, raw).Some?
    ensures Deals.ParseDeal(rt, raw).value.strings(Deals.Id) == "unknown"
  {
    assert Get(Get(raw, "data"), Deals.StringField.Id.Key()) == JUndefined;
  }

  /**
   * An array `Subform_1` is dropped by the normaliser, which keeps only
   * object-shaped subforms, yet it is exactly what the extractor reads.
   */
  lemma SubformArrayReadOnlyByHook(rt: Runtime, raw: JsValue, row: JsValue)
    requires HasDealRecord(raw)
    requires var subform := Get(Get(raw, "data"), "Subform_1"); subform.JArr? && row in subform.items
    requires IsRecord(row)
    ensures Deals.ParseDeal(rt, raw).Some?
    ensures Deals.ParseDeal(rt, raw).value.subform == map[]
    ensures |ExtractProducts(raw)| > 0
  {
    assert row in RecordRows(SubformItems(raw));
  }

  /** The mock payload's subform holds exactly its one product row. */
  lemma MockSubform()
    ensures RecordRows(SubformItems(Provider.MockPayload)) == [Provider.MockProductRow]
  {
    var data := Get(Provider.MockPayload, "data");
    assert Get(data, "Subform_1") == JArr([Provider.MockProductRow]);
    assert RecordRows([Provider.MockProductRow][1..]) == [];
  }

  /** The host fields of the mock row that the extractor reads. */
  lemma MockRowFields()
    ensures var row := Provider.MockProductRow;
      && Get(row, "Products") == JObj(map["name" := JStr("Mock Product 1"), "id" := JStr("mock-product-1")])
      && Get(row, "Product_Type") == JUndefined
      && Get(row, "Pricing") == JUndefined
      && Get(row, "Quantity") == JNum(Fin(1.0))
      && Get(row, "Is_Contract") == JBool(true)
  {
  }

  /** The rest of the mock row's fields, as the extractor reads them. */
  lemma MockRowOtherFields()
    ensures var row := Provider.MockProductRow;
      && Get(row, "Terms") == JStr("Co-Terminus")
      && Get(row, "Total_Pricing") == JNum(Fin(100.0))
      && Get(row, "Vendor") == JStr("Mock Vendor")
      && Get(row, "Product_Grouping") == JNull
  {
  }

  /** The item a row shaped like the mock row extracts to, field by field. */
  lemma ExtractMockShapedRow(row: JsValue)
    requires Get(row, "Products") == JObj(map["name" := JStr("Mock Product 1"), "id" := JStr("mock-product-1")])
    requires Get(row, "Product_Type") == JUndefined && Get(row, "Pricing") == JUndefined
    requires Get(row, "Quantity") == JNum(Fin(1.0)) && Get(row, "Is_Contract") == JBool(true)
    requires Get(row, "Terms") == JStr("Co-Terminus") && Get(row, "Total_Pricing") == JNum(Fin(100.0))
    requires Get(row, "Vendor") == JStr("Mock Vendor") && Get(row, "Product_Grouping") == JNull
    ensures ExtractRow(row, 0) == ProductItem(
      id := JStr("mock-product-1"),
      name := JStr("Mock Product 1"),
      productType := JStr(""),
      quantity := JNum(Fin(1.0)),
      terms := JStr("Co-Terminus"),
      unitPrice := JNum(Fin(0.0)),
      totalPricing := JNum(Fin(100.0)),
      vendor := JStr("Mock Vendor"),
      productGrouping := JStr(""),
      isContract := JBool(true))
  {
    var nested := Get(row, "Products");
    assert Truthy(nested) && IsRecord(nested);
    assert Get(nested, "id") == JStr("mock-product-1");
    assert Get(nested, "name") == JStr("Mock Product 1");
    var p := ExtractRow(row, 0);
    assert p.id == JStr("mock-product-1") && p.name == JStr("Mock Product 1");
    assert p.quantity == JNum(Fin(1.0)) && p.unitPrice == JNum(Fin(0.0));
  }

  /**
   * The development mock extracts to one item named from its `Products`
   * lookup. Its type and unit price come out as the defaults, because the
   * mock stores them under `Product_Type2` and `Unit_Price`, keys the
   * extractor does not read.
   */
  lemma MockExtraction()
    ensures var ps := ExtractProducts(Provider.MockPayload);
      && |ps| == 1
      && ps[0].id == JStr("mock-product-1")
      && ps[0].name == JStr("Mock Product 1")
      && ps[0].productType == JStr("")
      && ps[0].unitPrice == JNum(Fin(0.0))
      && ps[0].quantity == JNum(Fin(1.0))
      && ps[0].isContract == JBool(true)
  {
    MockSubform();
    MockRowFields();
    MockRowOtherFields();
    ExtractMockShapedRow(Provider.MockProductRow);
  }

  /** A row in the nested shape: the product lookup under `Products`, and a quantity of two. */
  const NestedRow := JObj(map[
    "Products" := JObj(map["id" := JStr("p1"), "name" := JStr("Widget")]),
    "Quantity" := JNum(Fin(2.0))])

  /** A row in the flat shape: its own `id`, a `name` but no `Product_Name`, and no quantity. */
  const FlatRow := JObj(map["id" := JStr("p2"), "name" := JStr("Gadget")])

  /** A payload whose subform mixes the two shapes, with a number between them. */
  const MixedPayload := JObj(map["data" := JObj(map[
    "id" := JStr("d1"),
    "Subform_1" := JArr([NestedRow, JNum(Fin(7.0)), FlatRow])])])

  /** A non-record between two records is dropped; the two records keep their order. */
  lemma RecordRowsSkipMiddle(a: JsValue, b: JsValue, c: JsValue)
    requires IsRecord(a) && !IsRecord(b) && IsRecord(c)
    ensures RecordRows([a, b, c]) == [a, c]
  {
    var items := [a, b, c];
    assert items[1..][1..] == [c];
    assert RecordRows([c]) == [c] + RecordRows([c][1..]);
    assert RecordRows(items[1..]) == RecordRows([c]);
  }

  /** The number is filtered out, so the flat row is the second record row. */
  lemma MixedRows()
    ensures RecordRows(SubformItems(MixedPayload)) == [NestedRow, FlatRow]
  {
    assert Get(Get(MixedPayload, "data"), "Subform_1") == JArr([NestedRow, JNum(Fin(7.0)), FlatRow]);
    RecordRowsSkipMiddle(NestedRow, JNum(Fin(7.0)), FlatRow);
  }

  /** The nested row takes id and name from its lookup. */
  lemma NestedRowExtracts()
    ensures var p := ExtractRow(NestedRow, 0);
      p.id == JStr("p1") && p.name == JStr("Widget") && p.quantity == JNum(Fin(2.0))
  {
    var nested := Get(NestedRow, "Products");
    assert nested == JObj(map["id" := JStr("p1"), "name" := JStr("Widget")]);
    assert Get(nested, "id") == JStr("p1") && Get(nested, "name") == JStr("Widget");
    assert Get(NestedRow, "Quantity") == JNum(Fin(2.0));
  }

  /** The flat row takes its own id, falls back from `Product_Name` to `name`, and gets quantity 0. */
  lemma FlatRowExtracts()
    ensures var p := ExtractRow(FlatRow, 1);
      p.id == JStr("p2") && p.name == JStr("Gadget") && p.quantity == JNum(Fin(0.0))
  {
    assert Get(FlatRow, "Products") == JUndefined;
    assert Get(FlatRow, "Product_Name") == JUndefined && Get(FlatRow, "Quantity") == JUndefined;
    assert Get(FlatRow, "id") == JStr("p2") && Get(FlatRow, "name") == JStr("Gadget");
  }

  /** Extraction reads both shapes of the same subform, numbering rows after the filter. */
  lemma MixedShapesExtraction()
    ensures var ps := ExtractProducts(MixedPayload);
      && |ps| == 2
      && ps[0].id == JStr("p1") && ps[0].name == JStr("Widget") && ps[0].quantity == JNum(Fin(2.0))
      && ps[1].id == JStr("p2") && ps[1].name == JStr("Gadget") && ps[1].quantity == JNum(Fin(0.0))
  {
    MixedRows();
    NestedRowExtracts();
    FlatRowExtracts();
  }

  /**
   * Seeding then submitting: when every guard passes, the payload carries
   * the hook's deal id and one record per plain-object row of the raw
   * `Subform_1`, in order, each naming the row's product under `Products`.
   */
  lemma SubmitSendsSeededRows(rt: Runtime, raw: JsValue, apiAvailable: bool, host: JsValue -> CallResult)
    ensures var s := HandleSubmitForm(rt, DealIdOf(raw), SeedEditable(raw), apiAvailable, host);
      s.sent.Some? ==>
        var rows := RecordRows(SubformItems(raw));
        var records := s.sent.value.fields["Subform_1"].items;
        && s.sent.value.fields["id"] == DealIdOf(raw)
        && |records| == |rows|
        && forall i :: 0 <= i < |rows| ==> records[i].fields["Products"] == ExtractRow(rows[i], i).id
  {
    var list := SeedEditable(raw);
    var s := HandleSubmitForm(rt, DealIdOf(raw), list, apiAvailable, host);
    if s.sent.Some? {
      assert s.sent.value == BuildPayload(rt, DealIdOf(raw), list);
      assert |list| == |RecordRows(SubformItems(raw))|;
    }
  }
}
