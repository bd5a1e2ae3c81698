/** Transactions, the two transaction tables and the two pubkey indexes. */
module LedgerTypes {

  /** Hashes, keys, preimages and signatures are compared or handed to the
      crypto functions, never looked into. */
  type Blob = nat
  type Txid = Blob

  const NO_HASH: Txid := 0

  /** Seconds to ticks; the block time counts in ticks here. */
  const TIMEOUT_CONST := 1_000_000_000
  const TIMELOCK_CONST := 1_000_000_000

  datatype Outpoint = Outpoint(txid: Txid, index: nat)

  datatype Input = Input(
    out: Outpoint,
    signature: Blob,
    signature2: Blob,
    preimage: Blob,
    htlcSignature: Blob)

  datatype Output = Output(
    amount: nat,
    pubkey: Blob,
    pubkey2: Blob,
    htlcTimeout: nat,
    htlcHashlock: Blob,
    htlcPubkey: Blob)

  datatype Txn = Txn(txid: Txid, inputs: seq<Input>, outputs: seq<Output>, seqNo: nat, timelock: nat)

  /** A stored transaction: when it was accepted, and which outputs are unspent. */
  datatype Wrapper = Wrapper(txn: Txn, timestamp: int, utxos: seq<bool>)

  /** The part of a transaction that its id is the hash of; signatures are not. */
  datatype Core = Core(outs: seq<Outpoint>, outputs: seq<Output>, seqNo: nat, timelock: nat)

  /** The functions of the crypto and transaction library: signature check, hash,
      the public keys an output mentions, and what a transaction id commits to. */
  datatype Crypto = Crypto(
    verifySig: (Txid, Blob, Blob) -> bool,
    sha256: Blob -> Blob,
    pubkeys: Output -> seq<Blob>,
    committed: Txid -> Core)

  type Table = map<Txid, Wrapper>
  type Index = map<Blob, set<Outpoint>>

  datatype Ledger = Ledger(db: Table, pend: Table, pubOuts: Index, pubOutsPend: Index, now: int)

  function Outs(inputs: seq<Input>): seq<Outpoint> {
    seq(|inputs|, i requires 0 <= i < |inputs| => inputs[i].out)
  }

  function OutpointsOf(txn: Txn): set<Outpoint> {
    set i | 0 <= i < |txn.inputs| :: txn.inputs[i].out
  }

  predicate HasInputs(txn: Txn) {
    |txn.inputs| > 0 && forall i :: 0 <= i < |txn.inputs| ==> txn.inputs[i].out.txid != NO_HASH
  }

  /** What the ledger expects of a transaction that reaches it: some inputs, no
      dummy input, and an id that is the hash of its body. An outpoint may be listed
      more than once; nothing in the ledger looks for that. */
  ghost predicate WellFormed(crypto: Crypto, txn: Txn) {
    && HasInputs(txn)
    && crypto.committed(txn.txid) == Core(Outs(txn.inputs), txn.outputs, txn.seqNo, txn.timelock)
  }

  function AllUnspent(txn: Txn): seq<bool> {
    seq(|txn.outputs|, i => true)
  }

  function Stored(txn: Txn, timestamp: int): Wrapper {
    Wrapper(txn, timestamp, AllUnspent(txn))
  }

  /** A table files transactions under their id, with one flag per output. */
  ghost predicate Filed(table: Table) {
    forall id :: id in table ==> table[id].txn.txid == id && |table[id].utxos| == |table[id].txn.outputs|
  }

  predicate Known(db: Table, o: Outpoint) {
    o.txid in db && o.index < |db[o.txid].txn.outputs| && o.index < |db[o.txid].utxos|
  }

  function OutputAt(db: Table, o: Outpoint): Output
    requires Known(db, o)
  {
    db[o.txid].txn.outputs[o.index]
  }

  predicate Flag(db: Table, o: Outpoint)
    requires Known(db, o)
  {
    db[o.txid].utxos[o.index]
  }

  // -------------------------------------------------------------------- indexes

  function Listed(index: Index, key: Blob): set<Outpoint> {
    if key in index then index[key] else {}
  }

  function AddKeys(index: Index, keys: seq<Blob>, o: Outpoint): Index
    decreases |keys|
  {
    if keys == [] then index
    else
      var last := keys[|keys| - 1];
      var before := AddKeys(index, keys[..|keys| - 1], o);
      before[last := Listed(before, last) + {o}]
  }

  function AddOutputs(index: Index, crypto: Crypto, txid: Txid, outputs: seq<Output>): Index
    decreases |outputs|
  {
    if outputs == [] then index
    else
      var n := |outputs| - 1;
      AddKeys(AddOutputs(index, crypto, txid, outputs[..n]), crypto.pubkeys(outputs[n]), Outpoint(txid, n))
  }

  /** Deleting from a key that is missing, or does not list the output, changes
      nothing. */
  function DelKeys(index: Index, keys: seq<Blob>, o: Outpoint): Index
    decreases |keys|
  {
    if keys == [] then index
    else
      var last := keys[|keys| - 1];
      var before := DelKeys(index, keys[..|keys| - 1], o);
      if last in before then before[last := before[last] - {o}] else before
  }

  function DelOutputs(index: Index, crypto: Crypto, txid: Txid, outputs: seq<Output>): Index
    decreases |outputs|
  {
    if outputs == [] then index
    else
      var n := |outputs| - 1;
      DelKeys(DelOutputs(index, crypto, txid, outputs[..n]), crypto.pubkeys(outputs[n]), Outpoint(txid, n))
  }

  ghost predicate Mentions(crypto: Crypto, outputs: seq<Output>, i: nat, key: Blob) {
    i < |outputs| && key in crypto.pubkeys(outputs[i])
  }

  lemma {:induction false} AddKeysLists(index: Index, keys: seq<Blob>, o: Outpoint, key: Blob)
    ensures Listed(AddKeys(index, keys, o), key) == Listed(index, key) + if key in keys then {o} else {}
    decreases |keys|
  {
    if keys != [] {
      AddKeysLists(index, keys[..|keys| - 1], o, key);
      assert keys == keys[..|keys| - 1] + [keys[|keys| - 1]];
    }
  }

  lemma {:induction false} DelKeysLists(index: Index, keys: seq<Blob>, o: Outpoint, key: Blob)
    ensures Listed(DelKeys(index, keys, o), key) == Listed(index, key) - if key in keys then {o} else {}
    decreases |keys|
  {
    if keys != [] {
      DelKeysLists(index, keys[..|keys| - 1], o, key);
      assert keys == keys[..|keys| - 1] + [keys[|keys| - 1]];
    }
  }

  lemma {:induction false} AddOutputsLists(index: Index, crypto: Crypto, txid: Txid, outputs: seq<Output>, key: Blob, o: Outpoint)
    ensures o in Listed(AddOutputs(index, crypto, txid, outputs), key) <==>
              o in Listed(index, key) || (o.txid == txid && Mentions(crypto, outputs, o.index, key))
    decreases |outputs|
  {
    if outputs != [] {
      var n := |outputs| - 1;
      AddOutputsLists(index, crypto, txid, outputs[..n], key, o);
      AddKeysLists(AddOutputs(index, crypto, txid, outputs[..n]), crypto.pubkeys(outputs[n]), Outpoint(txid, n), key);
    }
  }

  lemma {:induction false} DelOutputsLists(index: Index, crypto: Crypto, txid: Txid, outputs: seq<Output>, key: Blob, o: Outpoint)
    ensures o in Listed(DelOutputs(index, crypto, txid, outputs), key) <==>
              o in Listed(index, key) && !(o.txid == txid && Mentions(crypto, outputs, o.index, key))
    decreases |outputs|
  {
    if outputs != [] {
      var n := |outputs| - 1;
      DelOutputsLists(index, crypto, txid, outputs[..n], key, o);
      DelKeysLists(DelOutputs(index, crypto, txid, outputs[..n]), crypto.pubkeys(outputs[n]), Outpoint(txid, n), key);
    }
  }
}
