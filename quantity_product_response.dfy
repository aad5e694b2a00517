/** `QuantityProductResponse`: the EAN and new total of a product whose quantity changed. */
module QuantityProductResponseDto {
  import opened JavaInt
  import opened ProductRecord

  datatype QuantityProductResponse = QuantityProductResponse(ean: string, totalQuantity: Int32)

  /** `createFromProduct`: the product's ean and its quantity as the total. */
  function CreateFromProduct(product: Product): (r: QuantityProductResponse)
    ensures r.ean == product.ean && r.totalQuantity == product.quantite
  {
    QuantityProductResponse(product.ean, product.quantite)
  }

  /** Two products give the same response exactly when their ean and quantite agree; nom and prix do not matter. */
  lemma CreateFromProductEqualIff(p1: Product, p2: Product)
    ensures CreateFromProduct(p1) == CreateFromProduct(p2) <==> p1.ean == p2.ean && p1.quantite == p2.quantite
  {
  }

  /** The data mapper the quantity-change event stream is opened with. */
  function QuantityUpdatedEventData(product: Product): (r: QuantityProductResponse)
    ensures r.ean == product.ean && r.totalQuantity == product.quantite
  {
    QuantityProductResponse(product.ean, product.quantite)
  }

  /** The event stream and the update endpoint describe a product identically. */
  lemma EventDataAgreesWithCreateFromProduct(product: Product)
    ensures QuantityUpdatedEventData(product) == CreateFromProduct(product)
  {
  }
}
