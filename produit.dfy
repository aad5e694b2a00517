/**
 * The JPA entity `Produit` (repositories/Produit.java) and an in-memory
 * stand-in for the Spring Data repository that loads and stores it.
 */
module Repositories {
  import opened JavaInt
  import opened Wrappers
  import opened ProductRecord

  /** The values a `Produit` holds at one moment: one row of the `produit` table. */
  datatype Row = Row(id: Int32, ean: string, nom: string, quantite: Int32, prix: Price)

  /** A managed entity. Its getters are plain reads of these fields. */
  class Produit {
    var id: Int32
    var ean: string
    var nom: string
    var quantite: Int32
    var prix: Price

    /** An entity as the persistence layer loads it from a row. */
    constructor (id: Int32, ean: string, nom: string, quantite: Int32, prix: Price)
      ensures State() == Row(id, ean, nom, quantite, prix)
    {
      this.id := id;
      this.ean := ean;
      this.nom := nom;
      this.quantite := quantite;
      this.prix := prix;
    }

    function State(): Row
      reads this
    {
      Row(id, ean, nom, quantite, prix)
    }

    method SetId(id: Int32)
      modifies this
      ensures State() == old(State()).(id := id)
    {
      this.id := id;
    }

    method SetEan(ean: string)
      modifies this
      ensures State() == old(State()).(ean := ean)
    {
      this.ean := ean;
    }

    method SetNom(nom: string)
      modifies this
      ensures State() == old(State()).(nom := nom)
    {
      this.nom := nom;
    }

    method SetQuantite(quantite: Int32)
      modifies this
      ensures State() == old(State()).(quantite := quantite)
    {
      this.quantite := quantite;
    }

    method SetPrix(prix: Price)
      modifies this
      ensures State() == old(State()).(prix := prix)
    {
      this.prix := prix;
    }

    /**
     * Adds a signed delta to the stored quantity (Java `int` addition, so it
     * wraps on overflow; there is no lower bound) and returns this same entity.
     */
    method UpdateQuantite(quantite: Int32) returns (self: Produit)
      modifies this
      ensures self == this
      ensures State() == old(State()).(quantite := Add(old(this.quantite), quantite))
      ensures quantite == 0 ==> State() == old(State())
    {
      this.quantite := Add(this.quantite, quantite);
      self := this;
    }
  }

  /** The `ean` column is not declared unique; the repository keeps it unique as its invariant. */
  ghost predicate UniqueEans(t: seq<Row>)
  {
    forall i, j :: 0 <= i < j < |t| ==> t[i].ean != t[j].ean
  }

  /** Position of the row carrying `ean`, the first one if several do. */
  function IndexOfEan(t: seq<Row>, ean: string): (r: Option<nat>)
    ensures r.Some? ==> r.value < |t| && t[r.value].ean == ean
    ensures r.Some? ==> forall k :: 0 <= k < r.value ==> t[k].ean != ean
    ensures r.None? <==> forall k :: 0 <= k < |t| ==> t[k].ean != ean
    decreases |t|
  {
    if t == [] then None
    else if t[0].ean == ean then Some(0)
    else match IndexOfEan(t[1..], ean)
      case None => None
      case Some(k) => Some(k + 1)
  }

  /** Under unique EANs, the row carrying `ean` is the only one that does. */
  lemma IndexOfUniqueEan(t: seq<Row>, ean: string, i: nat)
    requires UniqueEans(t)
    requires i < |t| && t[i].ean == ean
    ensures IndexOfEan(t, ean) == Some(i)
  {
  }

  /** The `produit` table: the managed entities in `findAll` order. */
  class ProduitRepository {
    var rows: seq<Produit>

    ghost predicate Valid()
      reads this, rows
    {
      UniqueEans(FindAll())
    }

    constructor ()
      ensures Valid() && FindAll() == []
    {
      rows := [];
    }

    /** `findAll`: the current values of every row, in table order. */
    function FindAll(): (t: seq<Row>)
      reads this, rows
      ensures |t| == |rows|
      ensures forall i :: 0 <= i < |rows| ==> t[i] == rows[i].State()
    {
      var rs := rows;
      seq(|rs|, i reads rs requires 0 <= i < |rs| => rs[i].State())
    }

    /** `findByEan`: the entity carrying `ean`, if any; EANs are unique, so there is at most one. */
    method FindByEan(ean: string) returns (found: Option<Produit>)
      requires Valid()
      ensures match IndexOfEan(FindAll(), ean)
        case None => found == None
        case Some(i) => found == Some(rows[i])
    {
      var k := 0;
      while k < |rows|
        invariant 0 <= k <= |rows|
        invariant forall j :: 0 <= j < k ==> rows[j].ean != ean
      {
        if rows[k].ean == ean {
          return Some(rows[k]);
        }
        k := k + 1;
      }
      return None;
    }
  }
}
