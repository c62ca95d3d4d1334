/**
 * The bus and the device behind it, simulated as a passive register file.
 *
 * One transaction is what happens between the select line going low and
 * going high again: an address byte, then one data byte per register. The
 * device moves its register pointer on by one after each data byte, so a
 * burst covers consecutive registers. The simulated device echoes writes:
 * it does not tick, raise flags or protect read-only bits.
 */
module Bus {
  import opened RegisterMap

  /** One entry of the bus transcript. */
  datatype Event =
    | Transaction(address: bv8, data: seq<bv8>)  // one select-low .. select-high bracket
    | Wait(ms: nat)                               // a blocking delay between transactions

  /**
   * The register file after a write burst of `data` starting at `start`:
   * one byte lands at the pointer, then the pointer moves on.
   */
  function WriteBurst(regs: seq<bv8>, start: nat, data: seq<bv8>): (r: seq<bv8>)
    requires start + |data| <= |regs|
    ensures |r| == |regs|
    ensures forall i | 0 <= i < |r| ::
      r[i] == if start <= i < start + |data| then data[i - start] else regs[i]
    decreases |data|
  {
    if data == [] then regs
    else WriteBurst(regs[start := data[0]], start + 1, data[1..])
  }

  /** The bytes a read burst of `count` bytes starting at `start` returns, one register per byte. */
  function ReadBurst(regs: seq<bv8>, start: nat, count: nat): (r: seq<bv8>)
    requires start + count <= |regs|
    ensures r == regs[start..start + count]
    decreases count
  {
    if count == 0 then []
    else [regs[start]] + ReadBurst(regs, start + 1, count - 1)
  }

  /** Reading back a burst just written returns what was written. */
  lemma ReadAfterWrite(regs: seq<bv8>, start: nat, data: seq<bv8>)
    requires start + |data| <= |regs|
    ensures ReadBurst(WriteBurst(regs, start, data), start, |data|) == data
  {
  }

  /** A burst over the whole register file replaces it. */
  lemma WriteBurstWhole(regs: seq<bv8>, data: seq<bv8>)
    requires |data| == |regs|
    ensures WriteBurst(regs, 0, data) == data
  {
  }

  /** The simulated device: its register file and the transcript of the bus. */
  class Chip {
    var regs: seq<bv8>
    ghost var log: seq<Event>

    ghost predicate Valid()
      reads this
    {
      |regs| == REGISTER_COUNT
    }

    constructor (initial: seq<bv8>)
      requires |initial| == REGISTER_COUNT
      ensures Valid() && regs == initial && log == []
    {
      regs := initial;
      log := [];
    }

    /** A write transaction: `address` must be a framed write address and the burst must stay in the map. */
    method Write(address: bv8, data: seq<bv8>)
      requires Valid()
      requires IsWriteAddress(address) && Index(address) + |data| <= REGISTER_COUNT
      modifies this
      ensures Valid()
      ensures regs == WriteBurst(old(regs), Index(address), data)
      ensures log == old(log) + [Transaction(address, data)]
    {
      regs := WriteBurst(regs, Index(address), data);
      log := log + [Transaction(address, data)];
    }

    /** A read transaction of `count` bytes: `address` must be a framed read address and the burst must stay in the map. */
    method Read(address: bv8, count: nat) returns (data: seq<bv8>)
      requires Valid()
      requires IsReadAddress(address) && Index(address) + count <= REGISTER_COUNT
      modifies this
      ensures Valid() && regs == old(regs)
      ensures data == regs[Index(address)..Index(address) + count]
      ensures count == 1 ==> data == [regs[Index(address)]]
      ensures log == old(log) + [Transaction(address, data)]
    {
      data := ReadBurst(regs, Index(address), count);
      log := log + [Transaction(address, data)];
    }

    /** A delay between transactions; the passive register file does not change. */
    method Delay(ms: nat)
      requires Valid()
      modifies this
      ensures Valid() && regs == old(regs)
      ensures log == old(log) + [Wait(ms)]
    {
      log := log + [Wait(ms)];
    }
  }
}
