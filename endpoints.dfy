/**
 * The compositions the HTTP controller wires together, stated over the
 * model: the update endpoint's answer and the data of a quantity event.
 */
module ProductEndpoints {
  import opened JavaInt
  import opened Wrappers
  import opened ProductRecord
  import opened Repositories
  import opened ProductUpdating
  import opened NotificationMapping
  import opened QuantityProductResponseDto
  import opened ProductResponseDto
  import opened ListProductResponseDto
  import opened ProductListing

  /** The update endpoint answers with the EAN and the new stored total. */
  lemma UpdateEndpointReportsTotal(t: seq<Row>, ean: string, d: Int32, i: nat)
    requires i < |t| && t[i].ean == ean && UniqueEans(t)
    ensures UpdateOutcome(t, ean, d).Ok?
    ensures CreateFromProduct(UpdateOutcome(t, ean, d).value)
      == QuantityProductResponse(ean, ApplyDelta(t, ean, d)[i].quantite)
  {
    UpdateReportsNewTotal(t, ean, d, i);
  }

  /** The widget payload becomes the event data `{"ean":"123","totalQuantity":5}`. */
  lemma WidgetNotificationEvent(readTree: ReadTree, channel: string, payload: string)
    requires readTree(payload) == Some(map["ean" := JsonNode("123", 123), "nom" := JsonNode("Widget", 0), "quantite" := JsonNode("5", 5)])
    ensures Map(PgNotification(channel, payload), readTree) == Ok(Product("123", "Widget", 5, ZeroPrice))
    ensures QuantityUpdatedEventData(Map(PgNotification(channel, payload), readTree).value) == QuantityProductResponse("123", 5)
  {
  }

  /** The list endpoint answers with one response per row, in table order, carrying the row's fields. */
  lemma ListEndpoint(t: seq<Row>)
    ensures |MapProductsToListResponse(List(t)).produits| == |t|
    ensures forall i :: 0 <= i < |t| ==>
      MapProductsToListResponse(List(t)).produits[i] == ProductResponse(t[i].ean, t[i].nom, t[i].quantite, t[i].prix)
  {
  }

  /** Every decoded notification becomes event data carrying the payload's `ean` text and `quantite` number. */
  lemma EventData(notification: PgNotification, readTree: ReadTree)
    requires Map(notification, readTree).Ok?
    ensures readTree(notification.parameter).Some?
    ensures var tree := readTree(notification.parameter).value;
      HasProductFields(tree)
      && QuantityUpdatedEventData(Map(notification, readTree).value)
         == QuantityProductResponse(tree["ean"].asText, tree["quantite"].asInt)
  {
  }
}
