/** The payloads exchanged with callers and with the remote platform. */
module Dto {
  import opened Wrappers

  /** The free-form JSON an `Object` field holds after deserialisation (`JNull` is Java's null). */
  datatype Json =
    | JNull
    | JBool(b: bool)
    | JNumber(n: int)
    | JString(s: string)
    | JArray(items: seq<Json>)
    | JObject(members: map<string, Json>)

  /** AttributeObject: only `name` carries constraints; the rest is opaque payload. */
  datatype Attribute = Attribute(
    name: Option<string>,
    value: Json,
    meta: Json,
    attrType: Json,
    timestamp: Option<int>)

  /** The attribute map of a request or response; a `None` entry is a null map value. */
  type Attributes = map<string, Option<Attribute>>

  /** AssetCreateRequest. Every field is a nullable Java reference; `assetType` is the field `type`. */
  datatype AssetCreateRequest = AssetCreateRequest(
    version: Option<int>,
    name: Option<string>,
    accessPublicRead: Option<bool>,
    parentId: Option<string>,
    realm: Option<string>,
    assetType: Option<string>,
    path: Option<seq<string>>,
    attributes: Option<Attributes>)

  /** AssetResponse, as returned by the remote platform and handed back to the caller unchanged. */
  datatype AssetResponse = AssetResponse(
    id: Option<string>,
    version: Option<int>,
    createdOn: Option<string>,
    name: Option<string>,
    accessPublicRead: Option<bool>,
    parentId: Option<string>,
    realm: Option<string>,
    assetType: Option<string>,
    path: Option<seq<string>>,
    attributes: Option<Attributes>)

  /** TokenResponse: the only field the service reads is `accessToken`. */
  datatype TokenResponse = TokenResponse(accessToken: Option<string>)
}
