/** The mutable keeper behind admission. */
module AdmissionKeeper {
  import opened Basics
  import opened ExpiringCaches
  import opened Admission
  import opened AdmissionReplay

  datatype Outcome = Admitted | AlreadyProcessed | BlockhashNotFound

  /** The admission path over the two mutable caches and the append stream. */
  class Keeper {
    const blocks: ExpiringCache<Hash, Slot>
    const signatures: ExpiringCache<Prefix, bool>
    var latest: Slot
    var ledger: seq<Event>
    ghost var first: Slot
    ghost var chain: seq<Hash>

    ghost function Value(): State
      reads this, blocks, signatures
    {
      State(first, chain, blocks.Value(), signatures.Value(), ledger)
    }

    ghost predicate Valid()
      reads this
    {
      chain != [] && latest == first + |chain| - 1
    }

    /** Restores the block history from consecutive hashes, the oldest first. */
    constructor (slot: Slot, hashes: seq<Hash>, blockTtl: Slot, signatureTtl: Slot)
      requires hashes != []
      ensures Valid() && Value() == Restored(slot, hashes, blockTtl, signatureTtl)
      ensures fresh(blocks) && fresh(signatures)
    {
      hide After, Next, Pushed;
      blocks := new ExpiringCache(blockTtl);
      signatures := new ExpiringCache(signatureTtl);
      latest, ledger := slot, [];
      first, chain := slot, [hashes[0]];
      new;
      ghost var s := Start(slot, hashes[0], blockTtl, signatureTtl);
      var isNew := blocks.Push(hashes[0], slot, slot);
      RestoredNone(s, hashes);
      var i := 1;
      while i < |hashes|
        invariant 1 <= i <= |hashes| && Valid() && Value() == After(s, Published(hashes[1..i])).(log := [])
        invariant fresh(blocks) && fresh(signatures)
      {
        RestoredOne(s, hashes, i);
        RestoreHash(hashes[i]);
        i := i + 1;
      }
      assert hashes[1..i] == hashes[1..];
    }

    /** Pushes the next hash of a known chain, without a ledger entry. */
    method RestoreHash(hash: Hash)
      requires Valid()
      modifies this`latest, this`chain, blocks
      ensures Valid() && Value() == Next(old(Value()), Block(hash)).(log := old(ledger))
    {
      hide Pushed;
      latest := latest + 1;
      var isNew := blocks.Push(hash, latest, latest);
      chain := chain + [hash];
    }

    /** Reserves the signature, checks the recent block hash, appends. */
    method Append(prefix: Prefix, hash: Hash) returns (outcome: Outcome)
      requires Valid()
      modifies this`ledger, signatures
      ensures Valid() && Value() == Next(old(Value()), Tx(prefix, hash))
      ensures outcome == Admitted <==> Admits(old(Value()), Tx(prefix, hash))
      ensures outcome == AlreadyProcessed <==> !Pushed(old(signatures.Value()), prefix, false, latest + 1).1
    {
      hide Pushed;
      var isNew := signatures.Push(prefix, false, latest + 1);
      if !isNew {
        return AlreadyProcessed;
      }
      if hash !in blocks.index {
        return BlockhashNotFound;
      }
      ledger := ledger + [Tx(prefix, hash)];
      return Admitted;
    }

    /** Appends the next block and records its hash. */
    method PublishBlock(hash: Hash)
      requires Valid()
      modifies this, blocks
      ensures Valid() && Value() == Next(old(Value()), Block(hash))
    {
      hide Pushed;
      var slot := latest + 1;
      ledger := ledger + [Block(hash)];
      latest := slot;
      var isNew := blocks.Push(hash, slot, slot);
      chain := chain + [hash];
    }
  }

  lemma RestoredNone(s: State, hashes: seq<Hash>)
    requires hashes != []
    ensures After(s, Published(hashes[1..1])) == s
  {
  }

  /** One more restored hash is one more published block. */
  lemma RestoredOne(s: State, hashes: seq<Hash>, i: nat)
    requires 1 <= i < |hashes|
    ensures After(s, Published(hashes[1..i + 1])).(log := []) ==
            Next(After(s, Published(hashes[1..i])).(log := []), Block(hashes[i])).(log := [])
  {
    hide After, Pushed;
    assert Published(hashes[1..i + 1]) == Published(hashes[1..i]) + [Block(hashes[i])];
    AfterOne(s, Published(hashes[1..i]), Block(hashes[i]));
  }
}
