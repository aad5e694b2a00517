/** `ListProductResponse`: the body of the product list endpoint. */
module ListProductResponseDto {
  import opened ProductRecord
  import opened ProductResponseDto

  datatype ListProductResponse = ListProductResponse(produits: seq<ProductResponse>)

  /**
   * `mapProductsToListResponse`: one response per product, in the same order;
   * the input, a value, is left as it was.
   */
  function MapProductsToListResponse(products: seq<Product>): (r: ListProductResponse)
    ensures |r.produits| == |products|
    ensures forall i :: 0 <= i < |products| ==> r.produits[i] == MapToProductResponse(products[i])
    decreases |products|
  {
    if products == [] then ListProductResponse([])
    else ListProductResponse([MapToProductResponse(products[0])] + MapProductsToListResponse(products[1..]).produits)
  }

  /** Mapping distributes over concatenation. */
  lemma {:induction false} MapProductsAppend(a: seq<Product>, b: seq<Product>)
    ensures MapProductsToListResponse(a + b).produits
      == MapProductsToListResponse(a).produits + MapProductsToListResponse(b).produits
  {
    if a == [] {
      assert a + b == b;
    } else {
      assert (a + b)[1..] == a[1..] + b;
      MapProductsAppend(a[1..], b);
    }
  }

  /** The list response carries the products themselves, in order. */
  lemma ListResponseRoundTrip(products: seq<Product>)
    ensures forall i :: 0 <= i < |products| ==> ToProduct(MapProductsToListResponse(products).produits[i]) == products[i]
  {
  }
}
