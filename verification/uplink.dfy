/** The storage client the handler talks to, reduced to the values that
    cross the boundary. Its calls are not modelled: the handler receives
    their outcomes as function parameters. */
module Uplink {

  /** A parsed access grant. Its cryptographic structure is out of scope;
      the handle only lets two grants be told apart. */
  datatype Access = Access(handle: nat)

  /** An open project; owned by one request. */
  datatype Project = Project(handle: nat)

  /** The errors the handler distinguishes: the two sentinel "not found"
      errors and everything else. */
  datatype UplinkError =
    | BucketNotFound
    | ObjectNotFound
    | OtherError(message: string)

  /** Object metadata as returned by a stat or a listing. */
  datatype ObjectInfo = ObjectInfo(key: string, isPrefix: bool, contentLength: int, created: int)
}
