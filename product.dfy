/** The immutable domain record `Product` (model/Product.java). */
module ProductRecord {
  import opened JavaInt

  /**
   * A price, a `BigDecimal` of precision 10 and scale 2, held as a whole
   * number of cents. No arithmetic is done on it anywhere in the core.
   */
  type Price = int

  const ZeroPrice: Price := 0

  /** All four components are required: none of them is optional. */
  datatype Product = Product(ean: string, nom: string, quantite: Int32, prix: Price)

  /** The static factory `Product.create`. */
  function Create(ean: string, nom: string, quantite: Int32, prix: Price): (p: Product)
    ensures p.ean == ean && p.nom == nom && p.quantite == quantite && p.prix == prix
  {
    Product(ean, nom, quantite, prix)
  }

  /** Record equality: two created products are equal exactly when their arguments are. */
  lemma CreateEqualIff(e1: string, n1: string, q1: Int32, p1: Price, e2: string, n2: string, q2: Int32, p2: Price)
    ensures Create(e1, n1, q1, p1) == Create(e2, n2, q2, p2) <==> e1 == e2 && n1 == n2 && q1 == q2 && p1 == p2
  {
  }
}
