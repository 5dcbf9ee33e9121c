/**
 * The line items edited by the widget. Every field is an untyped host value:
 * the extractor only casts what it reads from `Subform_1` (`x as string`),
 * so whatever truthy value the host sent is carried through unchanged.
 */
module ProductTypes {
  import opened JsValues

  /** `ProductItem`: one row of the deal's product subform. */
  datatype ProductItem = ProductItem(
    id: JsValue,
    name: JsValue,
    productType: JsValue,
    quantity: JsValue,
    terms: JsValue,
    unitPrice: JsValue,
    totalPricing: JsValue,
    vendor: JsValue,
    productGrouping: JsValue,
    isContract: JsValue)

  /** `ProductFormData`: a line item together with the id of the deal it belongs to. */
  datatype ProductFormData = ProductFormData(item: ProductItem, dealId: JsValue)

  /** The same list with only the grouping of item `i` replaced by `g`. */
  function WithGrouping(list: seq<ProductFormData>, i: int, g: JsValue): (r: seq<ProductFormData>)
    requires 0 <= i < |list|
    ensures |r| == |list|
    ensures r[i].item.productGrouping == g
    ensures r[i] == list[i].(item := list[i].item.(productGrouping := g))
    ensures forall j :: 0 <= j < |list| && j != i ==> r[j] == list[j]
  {
    list[i := list[i].(item := list[i].item.(productGrouping := g))]
  }
}
