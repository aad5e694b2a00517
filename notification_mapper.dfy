/**
 * `ProductNotificationMapper`: a database notification whose payload is a
 * JSON object with `ean`, `nom` and `quantite` becomes a `Product` priced zero.
 */
module NotificationMapping {
  import opened JavaInt
  import opened Wrappers
  import opened ProductRecord

  /** A notification as the driver delivers it: the channel it came on and its payload text. */
  datatype PgNotification = PgNotification(name: string, parameter: string)

  /**
   * A field of the parsed payload, reduced to the answers the JSON library's
   * `asText()` and `asInt()` give for it.
   */
  datatype JsonNode = JsonNode(asText: string, asInt: Int32)

  /** The fields of a parsed payload; a tree that is not an object has none. */
  type JsonTree = map<string, JsonNode>

  /** The JSON parser, given from outside: `None` when the text does not parse. */
  type ReadTree = string -> Option<JsonTree>

  const ParseFailure: string := "Failed to parse notification payload"

  /** The fields `map` reads; a missing one makes `get` return null and the call dereferencing it throw. */
  predicate HasProductFields(tree: JsonTree)
  {
    "ean" in tree && "nom" in tree && "quantite" in tree
  }

  /** `tree` carries the ean, nom and quantite of `p`. */
  predicate Describes(tree: JsonTree, p: Product)
  {
    HasProductFields(tree)
    && tree["ean"].asText == p.ean
    && tree["nom"].asText == p.nom
    && tree["quantite"].asInt == p.quantite
  }

  /** `map`: parse the payload, read its three fields and set the price to zero. */
  function Map(notification: PgNotification, readTree: ReadTree): (r: Result<Product>)
    ensures readTree(notification.parameter).None? ==> r == Err(RuntimeException(ParseFailure))
    ensures r.Ok? ==> r.value.prix == ZeroPrice
  {
    var payload := notification.parameter;
    match readTree(payload)
    case None => Err(RuntimeException(ParseFailure))
    case Some(tree) =>
      if !HasProductFields(tree) then Err(NullPointerException)
      else
        var ean := tree["ean"].asText;
        var nom := tree["nom"].asText;
        var quantite := tree["quantite"].asInt;
        var prix := ZeroPrice;
        Ok(Create(ean, nom, quantite, prix))
  }

  /**
   * `map` succeeds exactly when the payload parses to a tree with the three
   * fields, and then returns the product that tree describes, priced zero.
   */
  lemma MapSucceedsIff(notification: PgNotification, readTree: ReadTree)
    ensures Map(notification, readTree).Ok?
      <==> readTree(notification.parameter).Some? && HasProductFields(readTree(notification.parameter).value)
    ensures Map(notification, readTree).Ok? ==>
      Describes(readTree(notification.parameter).value, Map(notification, readTree).value)
  {
  }

  /** A payload describing a product decodes back to that product with its price set to zero. */
  lemma DecodeRoundTrip(notification: PgNotification, readTree: ReadTree, p: Product)
    requires readTree(notification.parameter).Some?
    requires Describes(readTree(notification.parameter).value, p)
    ensures Map(notification, readTree) == Ok(p.(prix := ZeroPrice))
  {
  }

  /** Only the payload is read: the channel name makes no difference. */
  lemma MapIgnoresChannel(n1: PgNotification, n2: PgNotification, readTree: ReadTree)
    requires n1.parameter == n2.parameter
    ensures Map(n1, readTree) == Map(n2, readTree)
  {
  }

  /** A payload without an `ean` field yields no product. */
  lemma MissingEanFails(notification: PgNotification, readTree: ReadTree)
    requires readTree(notification.parameter).Some?
    requires "ean" !in readTree(notification.parameter).value
    ensures Map(notification, readTree) == Err(NullPointerException)
  {
  }
}
