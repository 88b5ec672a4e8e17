/**
 The records the Pterodactyl REST client returns, the zero values Go gives
 them, and the client calls a read can make. The client itself is not
 modelled: each call's answer is an input, and each read reports the calls
 it made.
 */
module Client {
  import opened Wrappers
  import opened Framework

  /** A Go `(T, error)` return pair: `err` is Some(err.Error()) when the call failed. */
  datatype Reply<T> = Reply(value: T, err: Option<string>)

  /** time.Time{} written with the RFC 3339 layout; timestamps are kept as their formatted text. */
  const ZeroTime := "0001-01-01T00:00:00Z"

  datatype Node = Node(
    id: int32, uuid: string, public: bool, name: string, description: string, locationId: int32,
    fqdn: string, scheme: string, behindProxy: bool, maintenanceMode: bool,
    memory: int32, memoryOverallocate: int32, disk: int32, diskOverallocate: int32,
    uploadSize: int32, daemonListen: int32, daemonSftp: int32, daemonBase: string,
    createdAt: string, updatedAt: string)

  /** `var node pterodactyl.Node` */
  const ZeroNode := Node(0, "", false, "", "", 0, "", "", false, false, 0, 0, 0, 0, 0, 0, 0, "", ZeroTime, ZeroTime)

  datatype Location = Location(id: int32, short: string, long: string, createdAt: string, updatedAt: string)

  /** `var location pterodactyl.Location` */
  const ZeroLocation := Location(0, "", "", ZeroTime, ZeroTime)

  datatype User = User(
    id: int64, externalId: string, uuid: string, username: string, email: string,
    firstName: string, lastName: string, language: string, rootAdmin: bool, is2fa: bool,
    createdAt: string, updatedAt: string)

  /** The client methods the data sources call, with their arguments. */
  datatype Call =
    | GetNode(nodeId: int32)
    | GetNodes
    | GetLocation(locationId: int32)
    | GetLocations
    | GetUser(userId: int64)
    | GetUserUsername(username: string)
    | GetUserEmail(email: string)
    | GetUserExternalID(externalId: string)

  /** An API client value returned by NewClient; only its identity matters here. */
  datatype ApiClient = ApiClient(handle: nat)
}
