/** The JSON document the price API returns, as Python's json module decodes it. */
module Payload {
  import opened Wrappers

  /** Objects are dicts: a repeated key keeps its last value, hence a map. */
  datatype Json =
    | JNull
    | JBool(b: bool)
    | JNumber(n: real)
    | JString(s: string)
    | JArray(items: seq<Json>)
    | JObject(fields: map<string, Json>)

  /** doc[key]: defined only on an object that has the key (else KeyError or TypeError). */
  function Field(doc: Json, key: string): (r: Option<Json>)
    ensures r.Some? <==> doc.JObject? && key in doc.fields
    ensures r.Some? ==> r.value == doc.fields[key]
  {
    if doc.JObject? && key in doc.fields then Some(doc.fields[key]) else None
  }

  /**
   * data["market_data"]["current_price"]["usd"] read as a price. A price is
   * found exactly when the document nests a number under market_data /
   * current_price / usd, and it is that number; a missing key, a non-object
   * on the path or a non-numeric price gives None, and other fields of the
   * document do not matter.
   */
  function ExtractPrice(data: Json): (r: Option<real>)
    ensures r.Some? <==>
      && data.JObject? && "market_data" in data.fields
      && data.fields["market_data"].JObject? && "current_price" in data.fields["market_data"].fields
      && data.fields["market_data"].fields["current_price"].JObject?
      && "usd" in data.fields["market_data"].fields["current_price"].fields
      && data.fields["market_data"].fields["current_price"].fields["usd"].JNumber?
    ensures r.Some? ==> data.fields["market_data"].fields["current_price"].fields["usd"] == JNumber(r.value)
  {
    match Field(data, "market_data")
    case None => None
    case Some(market) =>
      match Field(market, "current_price")
      case None => None
      case Some(current) =>
        match Field(current, "usd")
        case Some(JNumber(p)) => Some(p)
        case _ => None
  }

  /** The smallest document that carries a USD price. */
  function PriceDocument(p: real): Json {
    JObject(map["market_data" := JObject(map["current_price" := JObject(map["usd" := JNumber(p)])])])
  }

  /** The smallest document with a price yields that price. */
  lemma ExtractPriceFinds(p: real)
    ensures ExtractPrice(PriceDocument(p)) == Some(p)
  {
  }
}
