/** The client: its table of pending requests and what it does with a response. */
module Client {
  import opened Common
  import opened Messages
  import opened SnowFlakeIds

  /** A run of the callback of request `op`, at time `at`. The deadline is as it came in the message. */
  datatype Delivery = Delivery(op: nat, result: OpResult, expire: nat, key: nat, data: string, at: int)

  /** Pending requests with the key each asks for, and the callbacks that ran. */
  datatype Client = Client(requests: map<nat, nat>, delivered: seq<Delivery>)

  const NEW_CLIENT: Client := Client(map[], [])

  datatype Receipt = NotMine | WrongKey | AckFailed | Handled

  // ---------- What each operation does ----------

  function Issued(c: Client, op: nat, key: nat): Client {
    if op in c.requests then c else c.(requests := c.requests[op := key])
  }

  /** `ackSent` tells whether the acknowledgement could be sent. */
  function ReceiptOf(c: Client, r: Response, ackSent: bool): Receipt {
    if r.op !in c.requests then NotMine
    else if c.requests[r.op] != r.key then WrongKey
    else if !ackSent then AckFailed
    else Handled
  }

  /** The callback runs first; the request leaves the table only after the acknowledgement went out. */
  function Received(c: Client, r: Response, ackSent: bool, now: int): Client {
    match ReceiptOf(c, r, ackSent)
    case NotMine => c
    case WrongKey => c
    case AckFailed => c.(delivered := c.delivered + [Delivery(r.op, r.result, r.expire, r.key, r.data, now)])
    case Handled =>
      Client(c.requests - {r.op}, c.delivered + [Delivery(r.op, r.result, r.expire, r.key, r.data, now)])
  }

  /** How often the callback of a request ran. */
  ghost function Callbacks(delivered: seq<Delivery>, op: nat): nat {
    if |delivered| == 0 then 0
    else Callbacks(delivered[..|delivered| - 1], op) + if delivered[|delivered| - 1].op == op then 1 else 0
  }

  lemma CallbacksAppended(delivered: seq<Delivery>, d: Delivery, op: nat)
    ensures Callbacks(delivered + [d], op) == Callbacks(delivered, op) + if d.op == op then 1 else 0
  {
  }

  /** Receiving the same response twice runs the callback once, if the first
      acknowledgement went out, and twice, if it did not. */
  lemma RepeatedResponse(c: Client, r: Response, first: bool, second: bool, now: int, later: int)
    requires r.op in c.requests && c.requests[r.op] == r.key
    ensures var once := Received(c, r, first, now);
      Callbacks(Received(once, r, second, later).delivered, r.op)
        == Callbacks(c.delivered, r.op) + if first then 1 else 2
  {
  }

  /** The identifiers that two clients give to their requests number `i` and
      `j` are equal exactly when six bits of their data centers and workers
      agree, their stamps do, and their numbers modulo 4096. */
  lemma RequestsCollide(datacenter: nat, worker: nat, datacenter': nat, worker': nat, i: nat, j: nat, s: nat, t: nat)
    requires datacenter < 256 && worker < 256 && datacenter' < 256 && worker' < 256
    requires s < 0x400_0000_0000 && t < 0x400_0000_0000
    ensures NthId(MachineId(datacenter, worker), i, s) == NthId(MachineId(datacenter', worker'), j, t) <==>
      && datacenter / 8 % 16 == datacenter' / 8 % 16
      && worker / 64 % 2 == worker' / 64 % 2
      && SharedBit(datacenter, worker) == SharedBit(datacenter', worker')
      && s == t
      && (i - j) % 4096 == 0
  {
    MachinesCollide(datacenter, worker, datacenter', worker');
    EqualIds(MachineId(datacenter, worker), MachineId(datacenter', worker'), i, j, s, t);
    hide NthId, MachineId, SharedBit;
  }

  /** The first identifier of the client that the sample starts as data center
      1 and worker 452, which is 196 in a byte. */
  lemma FirstIdOfSample(stamp: nat)
    requires stamp < 0x400_0000_0000
    ensures NthId(MachineId(1, 452 % 256), 0, stamp) == stamp * 0x400000 + 0x30001
  {
    LowBits(MachineId(1, 196), 0, stamp);
  }

  /** A request under an identifier that is still pending is not entered: the
      client keeps waiting under the first key, and takes the response to the
      second for a mismatch. */
  lemma ReusedIdentifier(c: Client, op: nat, key: nat, r: Response, ackSent: bool)
    requires op in c.requests && c.requests[op] != key && r.op == op && r.key == key
    ensures Issued(c, op, key).requests == c.requests
    ensures ReceiptOf(Issued(c, op, key), r, ackSent) == WrongKey
  {
  }

  // ---------- The client object ----------

  class CacheClient {
    const ids: SnowFlake
    var requests: map<nat, nat>
    var delivered: seq<Delivery>

    ghost function Model(): Client
      reads this
    {
      Client(requests, delivered)
    }

    constructor (datacenter: nat, worker: nat)
      requires datacenter < 256 && worker < 256
      ensures ids.Valid() && fresh(ids) && ids.stamps == [] && Model() == NEW_CLIENT
      ensures ids.machine == MachineId(datacenter, worker)
    {
      ids := new SnowFlake(datacenter, worker);
      requests, delivered := map[], [];
    }

    method ReadCacheAsync(key: nat, now: nat) returns (req: Request)
      requires ids.Valid()
      modifies this, ids
      ensures ids.Valid() && ids.stamps == old(ids.stamps) + [now]
      ensures req == ReadRequest(NthId(ids.machine, |old(ids.stamps)|, now), key)
      ensures Model() == Issued(old(Model()), req.op, key)
    {
      var op := ids.GenerateUniformId(now);
      if op !in requests {
        requests := requests[op := key];
      }
      req := ReadRequest(op, key);
    }

    method UpdateCacheAsync(key: nat, data: string, now: nat) returns (req: Request)
      requires ids.Valid()
      modifies this, ids
      ensures ids.Valid() && ids.stamps == old(ids.stamps) + [now]
      ensures req == UpdateRequest(NthId(ids.machine, |old(ids.stamps)|, now), key, data)
      ensures Model() == Issued(old(Model()), req.op, key)
    {
      var op := ids.GenerateUniformId(now);
      if op !in requests {
        requests := requests[op := key];
      }
      req := UpdateRequest(op, key, data);
    }

    method OnReceive(r: Response, ackSent: bool, now: int) returns (receipt: Receipt)
      modifies this
      ensures receipt == ReceiptOf(old(Model()), r, ackSent)
      ensures Model() == Received(old(Model()), r, ackSent, now)
    {
      if r.op !in requests {
        return NotMine;
      }
      if requests[r.op] != r.key {
        return WrongKey;
      }
      delivered := delivered + [Delivery(r.op, r.result, r.expire, r.key, r.data, now)];
      if !ackSent {
        return AckFailed;
      }
      requests := requests - {r.op};
      receipt := Handled;
    }
  }
}
