/** `ProductLister`: every row of the table as a domain `Product`, in table order. */
module ProductListing {
  import opened JavaInt
  import opened ProductRecord
  import opened Repositories

  /** `mapToProduct`: a row's ean, nom, quantite and prix, without its id. */
  function MapToProduct(produit: Row): (p: Product)
    ensures p == Product(produit.ean, produit.nom, produit.quantite, produit.prix)
  {
    Create(produit.ean, produit.nom, produit.quantite, produit.prix)
  }

  /**
   * `list`, given what `findAll` returned: one product per row, the i-th
   * carrying the i-th row's fields. Being a function, it changes nothing.
   */
  function List(findAll: seq<Row>): (products: seq<Product>)
    ensures |products| == |findAll|
    ensures forall i :: 0 <= i < |findAll| ==>
      products[i] == Product(findAll[i].ean, findAll[i].nom, findAll[i].quantite, findAll[i].prix)
    decreases |findAll|
  {
    if findAll == [] then [] else [MapToProduct(findAll[0])] + List(findAll[1..])
  }

  /** Listing follows the table's order: listing a concatenation lists each part in turn. */
  lemma {:induction false} ListAppend(a: seq<Row>, b: seq<Row>)
    ensures List(a + b) == List(a) + List(b)
  {
    if a == [] {
      assert a + b == b;
    } else {
      assert (a + b)[1..] == a[1..] + b;
      ListAppend(a[1..], b);
    }
  }
}
