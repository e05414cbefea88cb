/** Operation identifiers: a time stamp, a machine and a wrapping sequence number. */
module SnowFlakeIds {
  import opened Common

  // ---------- Bit fields ----------

  /** The bits of a generator. Both identifiers lose bits, and their fields share bit 17. */
  function MachineBits(datacenter: bv8, worker: bv8): bv64 {
    (((datacenter as bv64) << 15) & 0x3E0000) | (((worker as bv64) << 10) & 0x1F0000)
  }

  function IdBits(machine: bv64, stamp: bv64, sequence: bv64): bv64 {
    Combined(machine, stamp, SequenceOf(sequence))
  }

  function StampOf(id: bv64): bv64 {
    id >> 22
  }

  function MachineOf(id: bv64): bv64 {
    id & 0x3F0000
  }

  function SequenceOf(id: bv64): bv64 {
    id & 0xFFF
  }

  function Combined(machine: bv64, stamp: bv64, low: bv64): bv64 {
    ((stamp << 22) & 0xFFFF_FFFF_FFC0_FFFF) | machine | low
  }

  /** The mask on the time stamp removes nothing and the fields do not
      overlap, so an identifier is the sum of its fields. */
  lemma IdIsSumOfFields(datacenter: bv8, worker: bv8, stamp: bv64, sequence: bv64)
    ensures var m := MachineBits(datacenter, worker);
      && MachineOf(m) == m
      && IdBits(m, stamp, sequence) == (stamp << 22) + m + (sequence & 0xFFF)
  {
  }

  /** Each field can be read back from the bits. */
  lemma FieldBits(m: bv64, s: bv64, q: bv64)
    requires MachineOf(m) == m && s < 0x400_0000_0000
    ensures var id := IdBits(m, s, q);
      StampOf(id) == s && MachineOf(id) == m && SequenceOf(id) == SequenceOf(q)
  {
  }

  /** Two identifiers are the same bits exactly when their machines, their
      stamps and the low 12 bits of their sequence numbers are. */
  lemma EqualBits(m: bv64, m': bv64, s: bv64, t: bv64, q: bv64, r: bv64)
    requires MachineOf(m) == m && MachineOf(m') == m'
    requires s < 0x400_0000_0000 && t < 0x400_0000_0000
    ensures IdBits(m, s, q) == IdBits(m', t, r) <==> m == m' && s == t && SequenceOf(q) == SequenceOf(r)
  {
    hide StampOf, MachineOf, SequenceOf, Combined;
    FieldBits(m, s, q);
    FieldBits(m', t, r);
  }

  // ---------- The fields as numbers ----------

  function MachineId(datacenter: nat, worker: nat): (m: nat)
    requires datacenter < 256 && worker < 256
    ensures m % 0x10000 == 0 && m < 0x400000
  {
    datacenter / 8 % 16 * 0x40000
    + (if SharedBit(datacenter, worker) then 0x20000 else 0)
    + worker / 64 % 2 * 0x10000
  }

  /** The value of a bit, if it is set. */
  function Bit(isSet: bool, value: nat): nat {
    if isSet then value else 0
  }

  lemma MachineIsSumOfBits(d: bv8, w: bv8)
    ensures MachineBits(d, w) as nat ==
      Bit(d & 64 != 0, 0x200000) + Bit(d & 32 != 0, 0x100000) + Bit(d & 16 != 0, 0x80000) + Bit(d & 8 != 0, 0x40000)
      + Bit(d & 4 != 0 || w & 128 != 0, 0x20000) + Bit(w & 64 != 0, 0x10000)
  {
  }

  lemma ByteIsSumOfBits(b: bv8)
    ensures b as nat ==
      16 * (Bit(b & 128 != 0, 8) + Bit(b & 64 != 0, 4) + Bit(b & 32 != 0, 2) + Bit(b & 16 != 0, 1))
      + Bit(b & 8 != 0, 8) + Bit(b & 4 != 0, 4) + Bit(b & 2 != 0, 2) + Bit(b & 1 != 0, 1)
  {
  }

  /** The fields that the shifts cut out of a byte, from its bits. */
  lemma FieldsOfByte(n: nat, b7: bool, b6: bool, b5: bool, b4: bool, b3: bool, b2: bool, low: nat)
    requires n == 16 * (Bit(b7, 8) + Bit(b6, 4) + Bit(b5, 2) + Bit(b4, 1)) + Bit(b3, 8) + Bit(b2, 4) + low && low < 4
    ensures n / 8 % 16 == Bit(b6, 8) + Bit(b5, 4) + Bit(b4, 2) + Bit(b3, 1)
    ensures n / 4 % 2 == Bit(b2, 1) && n / 64 % 2 == Bit(b6, 1) && n / 128 % 2 == Bit(b7, 1)
  {
    var high, nibble := 8 * Bit(b7, 1) + Bit(b6, 4) + Bit(b5, 2) + Bit(b4, 1), Bit(b3, 2) + Bit(b2, 1);
    assert n == 16 * high + 4 * nibble + low;
    assert n / 4 == 4 * high + nibble && n / 8 == 2 * high + Bit(b3, 1);
    assert n / 64 == 2 * Bit(b7, 1) + Bit(b6, 1) && n / 128 == Bit(b7, 1);
  }

  lemma ByteFields(b: bv8)
    ensures b as nat / 8 % 16 == Bit(b & 64 != 0, 8) + Bit(b & 32 != 0, 4) + Bit(b & 16 != 0, 2) + Bit(b & 8 != 0, 1)
    ensures b as nat / 4 % 2 == Bit(b & 4 != 0, 1) && b as nat / 64 % 2 == Bit(b & 64 != 0, 1) && b as nat / 128 % 2 == Bit(b & 128 != 0, 1)
  {
    ByteIsSumOfBits(b);
    FieldsOfByte(b as nat, b & 128 != 0, b & 64 != 0, b & 32 != 0, b & 16 != 0, b & 8 != 0, b & 4 != 0,
                 Bit(b & 2 != 0, 2) + Bit(b & 1 != 0, 1));
    hide Bit;
  }

  /** The bits the generator masks and shifts together are the number that is
      left of the two identifiers: five bits of one, two of the other, one of them shared. */
  lemma MachineBitsAreMachineId(d: bv8, w: bv8)
    ensures MachineBits(d, w) as nat == MachineId(d as nat, w as nat)
  {
    hide MachineBits;
    ByteFields(d);
    ByteFields(w);
    MachineIsSumOfBits(d, w);
    MachineIdOfBits(d as nat, w as nat, d & 64 != 0, d & 32 != 0, d & 16 != 0, d & 8 != 0, d & 4 != 0, w & 128 != 0, w & 64 != 0);
    hide MachineId, Bit;
  }

  lemma MachineIdOfBits(d: nat, w: nat, b6: bool, b5: bool, b4: bool, b3: bool, b2: bool, c7: bool, c6: bool)
    requires d < 256 && w < 256
    requires d / 8 % 16 == Bit(b6, 8) + Bit(b5, 4) + Bit(b4, 2) + Bit(b3, 1)
    requires d / 4 % 2 == Bit(b2, 1) && w / 128 % 2 == Bit(c7, 1) && w / 64 % 2 == Bit(c6, 1)
    ensures MachineId(d, w) ==
      Bit(b6, 0x200000) + Bit(b5, 0x100000) + Bit(b4, 0x80000) + Bit(b3, 0x40000) + Bit(b2 || c7, 0x20000) + Bit(c6, 0x10000)
  {
  }

  /** The low 12 bits of the 16-bit sequence number, as a number. */
  lemma SequenceBits(q: bv16)
    ensures SequenceOf(q as bv64) as nat == q as nat % 4096
  {
    SequenceSplit(q);
    RemainderIs(q as nat, (q >> 12) as nat, ((q as bv64) & 0xFFF) as nat);
  }

  lemma SequenceSplit(q: bv16)
    ensures q as nat == 4096 * ((q >> 12) as nat) + ((q as bv64) & 0xFFF) as nat
    ensures ((q as bv64) & 0xFFF) as nat < 4096
  {
  }

  lemma RemainderIs(n: nat, high: nat, low: nat)
    requires n == 4096 * high + low && low < 4096
    ensures n % 4096 == low
  {
  }

  /** A 64-bit identifier; the stamp loses what does not fit. */
  function Id(machine: nat, stamp: nat, sequence: nat): nat {
    stamp * 0x400000 % 0x1_0000_0000_0000_0000 + machine + sequence % 4096
  }

  const SEQUENCES: nat := 65536

  /** The identifier number `n` of a generator, counted from zero. */
  function NthId(machine: nat, n: nat, stamp: nat): nat {
    Id(machine, stamp, (n + 1) % SEQUENCES)
  }

  predicate IsMachine(machine: nat) {
    machine % 0x10000 == 0 && machine < 0x400000
  }

  /** A stamp that fits leaves both its fields readable. */
  lemma IdFields(machine: nat, stamp: nat, sequence: nat)
    requires IsMachine(machine) && stamp < 0x400_0000_0000
    ensures Id(machine, stamp, sequence) % 4096 == sequence % 4096
    ensures Id(machine, stamp, sequence) / 0x400000 == stamp
  {
    assert stamp * 0x400000 < 0x1_0000_0000_0000_0000;
    var low := machine + sequence % 4096;
    assert low < 0x400000;
    assert Id(machine, stamp, sequence) == stamp * 0x400000 + low;
  }

  /** Wraps at multiples of 4096 leave the low 12 bits alone. */
  lemma WrapsKeepLowBits(x: nat)
    ensures x % SEQUENCES % 4096 == x % 4096
  {
    MultipleAdded(x % SEQUENCES, x / SEQUENCES * 16);
  }

  lemma MultipleAdded(r: nat, m: nat)
    ensures (r + m * 4096) % 4096 == r % 4096
  {
  }

  lemma SameLowBits(a: nat, b: nat)
    ensures a % 4096 == b % 4096 <==> (a - b) % 4096 == 0
  {
  }

  lemma LowBits(machine: nat, n: nat, stamp: nat)
    requires IsMachine(machine) && stamp < 0x400_0000_0000
    ensures NthId(machine, n, stamp) % 4096 == (n + 1) % 4096
    ensures NthId(machine, n, stamp) / 0x400000 == stamp
    ensures NthId(machine, n, stamp) % 0x400000 == machine + (n + 1) % 4096
  {
    IdFields(machine, stamp, (n + 1) % SEQUENCES);
    WrapsKeepLowBits(n + 1);
  }

  /** Two identifiers are equal exactly when their machines and stamps are
      equal and their numbers differ by a multiple of 4096. */
  lemma EqualIds(machine: nat, machine': nat, i: nat, j: nat, s: nat, t: nat)
    requires IsMachine(machine) && IsMachine(machine') && s < 0x400_0000_0000 && t < 0x400_0000_0000
    ensures NthId(machine, i, s) == NthId(machine', j, t) <==> machine == machine' && s == t && (i - j) % 4096 == 0
  {
    hide NthId;
    LowBits(machine, i, s);
    LowBits(machine', j, t);
    SameLowBits(i + 1, j + 1);
    MachineAndSequence(machine, (i + 1) % 4096, machine', (j + 1) % 4096);
    var a, b := NthId(machine, i, s), NthId(machine', j, t);
    assert a == a / 0x400000 * 0x400000 + a % 0x400000 && b == b / 0x400000 * 0x400000 + b % 0x400000;
  }

  lemma MachineAndSequence(machine: nat, q: nat, machine': nat, r: nat)
    requires machine % 0x10000 == machine' % 0x10000 == 0 && q < 4096 && r < 4096
    ensures machine + q == machine' + r <==> machine == machine' && q == r
  {
  }

  // ---------- Runs of one generator ----------

  ghost predicate IsClock(stamps: seq<nat>) {
    && (forall i :: 0 <= i < |stamps| ==> stamps[i] < 0x400_0000_0000)
    && (forall i, j :: 0 <= i <= j < |stamps| ==> stamps[i] <= stamps[j])
  }

  /** No more than 4096 identifiers per millisecond. */
  ghost predicate WithinRate(stamps: seq<nat>) {
    forall i, j :: 0 <= i && j == i + 4096 && j < |stamps| ==> stamps[i] != stamps[j]
  }

  ghost predicate AllDistinct(machine: nat, stamps: seq<nat>) {
    forall i, j :: 0 <= i < j < |stamps| ==> NthId(machine, i, stamps[i]) != NthId(machine, j, stamps[j])
  }

  /** The identifiers of one generator are distinct exactly when it is asked
      for at most 4096 of them per millisecond, however often the sequence
      number wraps. */
  lemma IdsAreDistinct(machine: nat, stamps: seq<nat>)
    requires IsMachine(machine) && IsClock(stamps)
    ensures AllDistinct(machine, stamps) <==> WithinRate(stamps)
  {
    forall i, j | 0 <= i < j < |stamps|
      ensures WithinRate(stamps) ==> NthId(machine, i, stamps[i]) != NthId(machine, j, stamps[j])
      ensures j == i + 4096 && stamps[i] == stamps[j] ==> NthId(machine, i, stamps[i]) == NthId(machine, j, stamps[j])
    {
      EqualIds(machine, machine, i, j, stamps[i], stamps[j]);
      if (i - j) % 4096 == 0 && WithinRate(stamps) {
        var next := i + 4096;
        assert next <= j;
        assert stamps[i] != stamps[next];
      }
    }
  }

  /** What is left of an identifier when it is cut to 32 bits: ten bits of the
      stamp, the machine and the sequence. */
  lemma CutFields(machine: nat, n: nat, stamp: nat)
    requires IsMachine(machine) && stamp < 0x400_0000_0000
    ensures ToUint32(NthId(machine, n, stamp)) == stamp % 1024 * 0x400000 + (machine + (n + 1) % 4096)
    ensures machine + (n + 1) % 4096 < 0x400000
  {
    LowBits(machine, n, stamp);
    var low := machine + (n + 1) % 4096;
    hide NthId;
    CutSum(NthId(machine, n, stamp), stamp, low);
  }

  lemma CutSum(id: nat, stamp: nat, low: nat)
    requires id / 0x400000 == stamp && id % 0x400000 == low
    ensures ToUint32(id) == stamp % 1024 * 0x400000 + low
  {
    var high, rest := stamp / 1024, stamp % 1024 * 0x400000 + low;
    assert id == stamp * 0x400000 + low && stamp == high * 1024 + stamp % 1024;
    assert id == high * TWO_32 + rest;
    RemainderOf(id, high, rest);
  }

  lemma RemainderOf(id: nat, high: nat, rest: nat)
    requires id == high * TWO_32 + rest && rest < TWO_32
    ensures id % TWO_32 == rest
  {
  }

  /** Two identifiers, cut to 32 bits, are equal exactly when their machines
      are, their stamps modulo 1024 ms, and their numbers modulo 4096. */
  lemma EqualCutIds(machine: nat, machine': nat, i: nat, j: nat, s: nat, t: nat)
    requires IsMachine(machine) && IsMachine(machine') && s < 0x400_0000_0000 && t < 0x400_0000_0000
    ensures ToUint32(NthId(machine, i, s)) == ToUint32(NthId(machine', j, t)) <==>
      machine == machine' && s % 1024 == t % 1024 && (i - j) % 4096 == 0
  {
    CutFields(machine, i, s);
    CutFields(machine', j, t);
    hide NthId, ToUint32;
    SameLowBits(i + 1, j + 1);
    MachineAndSequence(machine, (i + 1) % 4096, machine', (j + 1) % 4096);
    HighAndLow(s % 1024, machine + (i + 1) % 4096, t % 1024, machine' + (j + 1) % 4096);
  }

  lemma HighAndLow(high: nat, low: nat, high': nat, low': nat)
    requires low < 0x400000 && low' < 0x400000
    ensures high * 0x400000 + low == high' * 0x400000 + low' <==> high == high' && low == low'
  {
  }

  /** Cut to 32 bits, any 4096 consecutive identifiers stay distinct. */
  lemma CutIdsAreDistinct(machine: nat, stamps: seq<nat>, i: nat, j: nat)
    requires IsMachine(machine) && IsClock(stamps) && i < j < |stamps| && j - i < 4096
    ensures ToUint32(NthId(machine, i, stamps[i])) != ToUint32(NthId(machine, j, stamps[j]))
  {
    EqualCutIds(machine, machine, i, j, stamps[i], stamps[j]);
    hide NthId, ToUint32;
  }

  /** The bit that both identifiers write to. */
  predicate SharedBit(datacenter: nat, worker: nat) {
    datacenter / 4 % 2 == 1 || worker / 128 % 2 == 1
  }

  /** Two generators have the same machine number exactly when four bits of
      the data center, one of the worker and the shared one agree: the top bit
      and the two low bits of the data center and the six low bits of the
      worker do not matter. */
  lemma MachinesCollide(datacenter: nat, worker: nat, datacenter': nat, worker': nat)
    requires datacenter < 256 && worker < 256 && datacenter' < 256 && worker' < 256
    ensures MachineId(datacenter, worker) == MachineId(datacenter', worker') <==>
      && datacenter / 8 % 16 == datacenter' / 8 % 16
      && worker / 64 % 2 == worker' / 64 % 2
      && SharedBit(datacenter, worker) == SharedBit(datacenter', worker')
  {
  }

  class SnowFlake {
    const machine: nat
    var sequence: nat
    ghost var stamps: seq<nat>

    ghost predicate Valid()
      reads this
    {
      IsMachine(machine) && sequence == |stamps| % SEQUENCES
    }

    constructor (datacenter: nat, worker: nat)
      requires datacenter < 256 && worker < 256
      ensures Valid() && stamps == [] && machine == MachineId(datacenter, worker)
    {
      machine := MachineId(datacenter, worker);
      sequence, stamps := 0, [];
    }

    /** The next identifier of the run that the stamps describe. */
    method GenerateUniformId(now: nat) returns (id: nat)
      requires Valid()
      modifies this
      ensures Valid() && stamps == old(stamps) + [now]
      ensures id == NthId(machine, |old(stamps)|, now)
    {
      sequence := (sequence + 1) % SEQUENCES;
      id := Id(machine, now, sequence);
      stamps := stamps + [now];
    }
  }
}
