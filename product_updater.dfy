/** `ProductUpdater`: add a signed delta to the quantity of the product with a given EAN. */
module ProductUpdating {
  import opened JavaInt
  import opened Wrappers
  import opened ProductRecord
  import opened Repositories
  import ProductListing

  const ProductNotFound: string := "Product not found"

  /** `mapProduitToProduct`: the same projection of a row as the lister's. */
  function MapProduitToProduct(produit: Row): (p: Product)
    ensures p == ProductListing.MapToProduct(produit)
    ensures p.ean == produit.ean && p.nom == produit.nom && p.quantite == produit.quantite && p.prix == produit.prix
  {
    Create(produit.ean, produit.nom, produit.quantite, produit.prix)
  }

  /** The table after adding `d` to the quantity of the row carrying `ean`; unchanged if there is none. */
  function ApplyDelta(t: seq<Row>, ean: string, d: Int32): seq<Row>
  {
    match IndexOfEan(t, ean)
    case None => t
    case Some(i) => t[i := t[i].(quantite := Add(t[i].quantite, d))]
  }

  /** What `updateQuantity(ean, d)` returns when the table holds `t` beforehand. */
  function UpdateOutcome(t: seq<Row>, ean: string, d: Int32): Result<Product>
  {
    match IndexOfEan(t, ean)
    case None => Err(IllegalArgumentException(ProductNotFound))
    case Some(i) => Ok(MapProduitToProduct(ApplyDelta(t, ean, d)[i]))
  }

  class ProductUpdater {
    const repository: ProduitRepository

    constructor (repository: ProduitRepository)
      ensures this.repository == repository
    {
      this.repository := repository;
    }

    /**
     * `updateQuantity`: finds the entity by EAN, updates it in place and
     * returns it as a `Product`; throws if no entity has that EAN.
     */
    method UpdateQuantity(ean: string, quantity: Int32) returns (r: Result<Product>)
      requires repository.Valid()
      modifies repository.rows
      ensures repository.Valid()
      ensures repository.FindAll() == ApplyDelta(old(repository.FindAll()), ean, quantity)
      ensures r == UpdateOutcome(old(repository.FindAll()), ean, quantity)
    {
      ghost var t := repository.FindAll();
      var found := repository.FindByEan(ean);
      match found
      case None =>
        r := Err(IllegalArgumentException(ProductNotFound));
      case Some(produit) =>
        ghost var i := IndexOfEan(t, ean).value;
        var updated := produit.UpdateQuantite(quantity);
        ghost var u := ApplyDelta(t, ean, quantity);
        forall j | 0 <= j < |t|
          ensures repository.FindAll()[j] == u[j]
        {
          if j != i {
            assert repository.rows[j] != produit by {
              assert old(repository.rows[j].ean) != old(produit.ean);
            }
          }
        }
        assert repository.FindAll() == u;
        ApplyDeltaKeepsEansUnique(t, ean, quantity);
        r := Ok(MapProduitToProduct(updated.State()));
    }
  }

  lemma ApplyDeltaFound(t: seq<Row>, ean: string, d: Int32, i: nat)
    requires IndexOfEan(t, ean) == Some(i)
    ensures |ApplyDelta(t, ean, d)| == |t|
    ensures ApplyDelta(t, ean, d)[i] == t[i].(quantite := Add(t[i].quantite, d))
    ensures forall j :: 0 <= j < |t| && j != i ==> ApplyDelta(t, ean, d)[j] == t[j]
  {
  }

  /** The update changes no EAN, so lookups by EAN find the same rows afterwards. */
  lemma {:induction false} SameEansSameIndex(t: seq<Row>, u: seq<Row>, ean: string)
    requires |t| == |u|
    requires forall k :: 0 <= k < |t| ==> t[k].ean == u[k].ean
    ensures IndexOfEan(t, ean) == IndexOfEan(u, ean)
    decreases |t|
  {
    if t != [] && t[0].ean != ean {
      SameEansSameIndex(t[1..], u[1..], ean);
    }
  }

  lemma ApplyDeltaKeepsEans(t: seq<Row>, ean: string, d: Int32)
    ensures |ApplyDelta(t, ean, d)| == |t|
    ensures forall k :: 0 <= k < |t| ==> ApplyDelta(t, ean, d)[k].ean == t[k].ean
    ensures IndexOfEan(ApplyDelta(t, ean, d), ean) == IndexOfEan(t, ean)
  {
    SameEansSameIndex(t, ApplyDelta(t, ean, d), ean);
  }

  lemma ApplyDeltaKeepsEansUnique(t: seq<Row>, ean: string, d: Int32)
    requires UniqueEans(t)
    ensures UniqueEans(ApplyDelta(t, ean, d))
  {
    ApplyDeltaKeepsEans(t, ean, d);
  }

  /** With no row carrying the EAN, the update throws "Product not found" and the table is unchanged. */
  lemma UpdateMissing(t: seq<Row>, ean: string, d: Int32)
    requires forall k :: 0 <= k < |t| ==> t[k].ean != ean
    ensures ApplyDelta(t, ean, d) == t
    ensures UpdateOutcome(t, ean, d) == Err(IllegalArgumentException("Product not found"))
  {
  }

  /**
   * A found row keeps its ean, nom and prix; the returned product reports the
   * new stored total (not the delta), which is the old one plus the delta.
   */
  lemma UpdateReportsNewTotal(t: seq<Row>, ean: string, d: Int32, i: nat)
    requires i < |t| && t[i].ean == ean && UniqueEans(t)
    ensures ApplyDelta(t, ean, d)[i].quantite == Add(t[i].quantite, d)
    ensures UpdateOutcome(t, ean, d) == Ok(Product(ean, t[i].nom, ApplyDelta(t, ean, d)[i].quantite, t[i].prix))
    ensures MinInt <= t[i].quantite + d <= MaxInt ==> UpdateOutcome(t, ean, d).value.quantite == t[i].quantite + d
  {
    IndexOfUniqueEan(t, ean, i);
  }

  /** Applying `d1` then `d2` stores what applying their Java `int` sum once does. */
  lemma ApplyDeltaTwice(t: seq<Row>, ean: string, d1: Int32, d2: Int32)
    ensures ApplyDelta(ApplyDelta(t, ean, d1), ean, d2) == ApplyDelta(t, ean, Add(d1, d2))
  {
    ApplyDeltaKeepsEans(t, ean, d1);
    match IndexOfEan(t, ean)
    case None =>
    case Some(i) =>
      AddAssociative(t[i].quantite, d1, d2);
  }

  /** A zero delta leaves the table as it was. */
  lemma ApplyZeroDelta(t: seq<Row>, ean: string)
    ensures ApplyDelta(t, ean, 0) == t
  {
    match IndexOfEan(t, ean)
    case None =>
    case Some(i) =>
      assert t[i].(quantite := Add(t[i].quantite, 0)) == t[i];
  }

  /** After an update, listing shows the EAN's quantity moved by the delta and every other product as before. */
  lemma ListAfterUpdate(t: seq<Row>, ean: string, d: Int32, i: nat)
    requires IndexOfEan(t, ean) == Some(i)
    ensures |ProductListing.List(ApplyDelta(t, ean, d))| == |t|
    ensures ProductListing.List(ApplyDelta(t, ean, d))[i]
      == ProductListing.List(t)[i].(quantite := Add(ProductListing.List(t)[i].quantite, d))
    ensures forall j :: 0 <= j < |t| && j != i ==> ProductListing.List(ApplyDelta(t, ean, d))[j] == ProductListing.List(t)[j]
  {
    ApplyDeltaFound(t, ean, d, i);
  }
}
