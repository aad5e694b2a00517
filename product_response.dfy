/** `ProductResponse`: one product as the list endpoint returns it. */
module ProductResponseDto {
  import opened JavaInt
  import opened ProductRecord

  datatype ProductResponse = ProductResponse(ean: string, nom: string, quantite: Int32, prix: Price)

  /** `mapToProductResponse`: copies every field of the product. */
  function MapToProductResponse(product: Product): (r: ProductResponse)
    ensures r.ean == product.ean && r.nom == product.nom && r.quantite == product.quantite && r.prix == product.prix
  {
    ProductResponse(product.ean, product.nom, product.quantite, product.prix)
  }

  /** The product the response was made from, read back from it. */
  function ToProduct(response: ProductResponse): Product
  {
    Product(response.ean, response.nom, response.quantite, response.prix)
  }

  /** No field is lost: the product can be read back from its response. */
  lemma ResponseRoundTrip(product: Product)
    ensures ToProduct(MapToProductResponse(product)) == product
  {
  }
}
