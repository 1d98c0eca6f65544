/**
 * JSON values as they travel between the browser and the server, the JSON
 * form of the model's records (what `JSON.stringify` produces, with keys whose
 * value is `undefined` left out), and the HTTP response shape.
 */
module Json {
  import opened Wrappers
  import opened Types

  datatype Json =
    | JNull
    | JBool(b: bool)
    | JNum(n: int)
    | JStr(s: string)
    | JArr(items: seq<Json>)
    | JObj(fields: map<string, Json>)

  /** The type name zod reports for a received value. */
  function TypeName(j: Json): string {
    match j
    case JNull => "null"
    case JBool(_) => "boolean"
    case JNum(_) => "number"
    case JStr(_) => "string"
    case JArr(_) => "array"
    case JObj(_) => "object"
  }

  /** Reading `obj[key]`: `None` stands for `undefined`. */
  function Lookup(fields: map<string, Json>, key: string): Option<Json> {
    if key in fields then Some(fields[key]) else None
  }

  /** An HTTP response with a JSON body. */
  datatype Response = Response(status: int, body: Json)

  /** `{ msg: m }`, the body of every error response of the server. */
  function MsgBody(m: string): Json {
    JObj(map["msg" := JStr(m)])
  }

  function StrOpt(s: Option<string>): Option<Json> {
    if s.Some? then Some(JStr(s.value)) else None
  }

  function StringsToJson(s: seq<string>): (r: seq<Json>)
    ensures |r| == |s|
    ensures forall k :: 0 <= k < |s| ==> r[k] == JStr(s[k])
  {
    if s == [] then [] else [JStr(s[0])] + StringsToJson(s[1..])
  }

  function ProductToJson(p: Product): Json {
    JObj(map[
      "id" := JStr(p.id), "name" := JStr(p.name), "brand" := JStr(p.brand), "price" := JNum(p.price),
      "type" := JStr(ProductTypeName(p.productType)), "style" := JStr(StyleName(p.style)),
      "image" := JStr(p.image), "url" := JStr(p.url)])
  }

  function OutfitToJson(o: Outfit): Json {
    JObj(map[
      "id" := JStr(o.id), "top" := ProductToJson(o.top), "bottom" := ProductToJson(o.bottom),
      "shoes" := ProductToJson(o.shoes), "dateCreated" := JStr(o.dateCreated)])
  }

  function OutfitsToJson(s: seq<Outfit>): (r: seq<Json>)
    ensures |r| == |s|
    ensures forall k :: 0 <= k < |s| ==> r[k] == OutfitToJson(s[k])
  {
    if s == [] then [] else [OutfitToJson(s[0])] + OutfitsToJson(s[1..])
  }

  /** The five keys of a billing record. */
  const BillingKeys: set<string> := {"accountNumber", "fiscalName", "cif", "fiscalAddress", "legalRep"}

  /** The JSON a billing key is written as, `None` when the field is `undefined`. */
  function BillingEntry(b: Billing, key: string): Option<Json> {
    match key
    case "accountNumber" => StrOpt(b.accountNumber)
    case "fiscalName" => StrOpt(b.fiscalName)
    case "cif" => StrOpt(b.cif)
    case "fiscalAddress" => StrOpt(b.fiscalAddress)
    case "legalRep" => StrOpt(b.legalRep)
    case _ => None
  }

  /** `JSON.stringify` of a billing record: an object of billing keys only. */
  function BillingToJson(b: Billing): (j: Json)
    ensures j.JObj? && j.fields.Keys <= BillingKeys
  {
    JObj(map k | k in BillingKeys && BillingEntry(b, k).Some? :: BillingEntry(b, k).value)
  }

  /** A billing key is written exactly when its field is defined, as its string. */
  lemma BillingKeysDefined(b: Billing)
    ensures var f := BillingToJson(b).fields;
      && ("accountNumber" in f <==> b.accountNumber.Some?)
      && ("fiscalName" in f <==> b.fiscalName.Some?)
      && ("cif" in f <==> b.cif.Some?)
      && ("fiscalAddress" in f <==> b.fiscalAddress.Some?)
      && ("legalRep" in f <==> b.legalRep.Some?)
      && forall k :: k in f ==> f[k] == BillingEntry(b, k).value
  {
  }

  /** The record written as `{}` is exactly the one with no defined field. */
  lemma BillingToJsonEmpty(b: Billing)
    ensures BillingToJson(b).fields == map[] <==> b == EmptyBilling
  {
    BillingKeysDefined(b);
    if b != EmptyBilling {
      if b.accountNumber.Some? { assert "accountNumber" in BillingToJson(b).fields; }
      else if b.fiscalName.Some? { assert "fiscalName" in BillingToJson(b).fields; }
      else if b.cif.Some? { assert "cif" in BillingToJson(b).fields; }
      else if b.fiscalAddress.Some? { assert "fiscalAddress" in BillingToJson(b).fields; }
      else { assert "legalRep" in BillingToJson(b).fields; }
    }
  }
}
