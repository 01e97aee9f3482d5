/**
 * The shapes of the two database-service responses the discovery loop reads:
 * the instance list of "describe DB instances" and the tag list of
 * "list tags for resource". Every field is optional, as the service client
 * declares it.
 */
module Rds {
  import opened Wrappers

  /** A signed 64-bit integer, the type of an endpoint port in the service client. */
  newtype int64 = x: int | -0x8000_0000_0000_0000 <= x < 0x8000_0000_0000_0000

  /** A resource tag; the key and the value may each be missing. */
  datatype Tag = Tag(key: Option<string>, value: Option<string>)

  /** The network endpoint of an instance. */
  datatype Endpoint = Endpoint(address: Option<string>, port: Option<int64>)

  /** One database instance as enumerated (only the fields the discovery loop reads). */
  datatype DbInstance = DbInstance(
    dbInstanceIdentifier: Option<string>,
    dbInstanceArn: Option<string>,
    endpoint: Option<Endpoint>)

  /** The first (and only consumed) page of "describe DB instances". */
  datatype DbInstanceMessage = DbInstanceMessage(dbInstances: Option<seq<DbInstance>>)

  /** The response of "list tags for resource". */
  datatype TagListMessage = TagListMessage(tagList: Option<seq<Tag>>)

  /** The outcome of one "list tags for resource" call: a response, or a transport/API failure. */
  datatype TagLookup = Listed(message: TagListMessage) | LookupFailed
}
