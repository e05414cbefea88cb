/** Messages between client and server, and the timers that drive the server. */
module Messages {
  import opened Common

  /** Requests, reduced to the fields that decide what the server does.
      The header's operation identifier has 64 bits, the cache identifier 32. */
  datatype Request =
    | ReadRequest(op: nat, key: nat)
    | UpdateRequest(op: nat, key: nat, data: string)

  type Update = r: Request | r.UpdateRequest? witness UpdateRequest(0, 0, "")

  datatype Kind = ReadResponse | UpdateResponse

  /** `expire` is the deadline cut to 32 bits. */
  datatype Response = Response(op: nat, kind: Kind, result: OpResult, expire: nat, key: nat, data: string)

  /** The closures handed to the timer queue, as data. `User` stands for a
      closure of the application that does not call back into the cache. */
  datatype Callback =
    | LeaseExpired(key: nat)
    | CommitDeferred(key: nat)
    | Resend(response: Response)
    | User(tag: nat)

  /** `id` is the address of the timer. */
  datatype Timer = Timer(id: nat, expire: int, timeout: nat, repeat: nat, callback: Callback)

  /** The content of the queue without its order. */
  type Timers = map<nat, Timer>

  /** The key whose lease the callback ends, if it ends one. */
  predicate IsLeaseOf(c: Callback, key: nat) {
    c == LeaseExpired(key) || c == CommitDeferred(key)
  }
}
