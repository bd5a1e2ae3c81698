/** What all keys hold in all unspent outputs, added up key by key over an index or
    output by output. */
module LedgerTally {
  import opened Sums
  import opened LedgerTypes
  import opened LedgerInvariant

  /** The library lists every key that an output can be claimed with. */
  ghost predicate Covers(crypto: Crypto) {
    forall o: Output :: o.pubkey in crypto.pubkeys(o) && o.pubkey2 in crypto.pubkeys(o) && o.htlcPubkey in crypto.pubkeys(o)
  }

  ghost function UnspentOutpoints(table: Table): set<Outpoint> {
    set id, i | id in table && 0 <= i < |table[id].utxos| && Known(table, Outpoint(id, i)) && Flag(table, Outpoint(id, i)) :: Outpoint(id, i)
  }

  /** What a key holds in each output. */
  ghost function OfKey(f: (Blob, Outpoint) -> int, key: Blob): Outpoint -> int {
    (o: Outpoint) => f(key, o)
  }

  ghost function OfOutput(f: (Blob, Outpoint) -> int, o: Outpoint): Blob -> int {
    (key: Blob) => f(key, o)
  }

  /** What one key holds in all outputs. */
  ghost function Row(f: (Blob, Outpoint) -> int, outs: set<Outpoint>): Blob -> int {
    (key: Blob) => SumOver(outs, OfKey(f, key))
  }

  /** What all keys hold in one output. */
  ghost function Column(f: (Blob, Outpoint) -> int, keys: set<Blob>): Outpoint -> int {
    (o: Outpoint) => SumOver(keys, OfOutput(f, o))
  }

  /** What one key holds in the outputs that the index lists for it. */
  ghost function Tally(f: (Blob, Outpoint) -> int, index: Index): Blob -> int {
    (key: Blob) => SumOver(Listed(index, key), OfKey(f, key))
  }

  /** Only the keys of an output hold anything in it. */
  ghost predicate HeldByKeys(f: (Blob, Outpoint) -> int, table: Table) {
    forall key, o :: o in UnspentOutpoints(table) && f(key, o) != 0 ==>
      var out := OutputAt(table, o); key == out.pubkey || key == out.pubkey2 || key == out.htlcPubkey
  }

  /** All keys by all outputs, added up by rows or by columns. */
  lemma {:induction false} RowsAreColumns(f: (Blob, Outpoint) -> int, keys: set<Blob>, outs: set<Outpoint>)
    ensures SumOver(keys, Row(f, outs)) == SumOver(outs, Column(f, keys))
    decreases |keys|
  {
    if keys == {} {
      SumZero(outs, Column(f, keys));
    } else {
      var key :| key in keys;
      RowsAreColumns(f, keys - {key}, outs);
      SumTake(keys, key, Row(f, outs));
      OneRow(f, keys, key, outs);
    }
  }

  lemma OneRow(f: (Blob, Outpoint) -> int, keys: set<Blob>, key: Blob, outs: set<Outpoint>)
    requires key in keys
    ensures SumOver(outs, Column(f, keys)) == SumOver(outs, OfKey(f, key)) + SumOver(outs, Column(f, keys - {key}))
  {
    forall o | o in outs ensures Column(f, keys)(o) == OfKey(f, key)(o) + Column(f, keys - {key})(o) {
      SumTake(keys, key, OfOutput(f, o));
    }
    SumPlus(outs, OfKey(f, key), Column(f, keys - {key}), Column(f, keys));
  }

  lemma {:induction false} SumSubset(some: set<Outpoint>, all: set<Outpoint>, f: Outpoint -> int)
    requires some <= all && forall o :: o in all && o !in some ==> f(o) == 0
    ensures SumOver(all, f) == SumOver(some, f)
    decreases |all - some|
  {
    if all - some == {} {
      assert all == some;
    } else {
      var o :| o in all - some;
      SumTake(all, o, f);
      SumSubset(some, all - {o}, f);
    }
  }

  lemma ListedUnspent(crypto: Crypto, table: Table, index: Index, key: Blob)
    requires UnspentIndexOk(crypto, index, table)
    ensures Listed(index, key) <= UnspentOutpoints(table)
  {
    forall o | o in Listed(index, key) ensures o in UnspentOutpoints(table) {
      assert IsUnspentOf(crypto, table, key, o);
    }
  }

  lemma OutputKeysListed(crypto: Crypto, table: Table, index: Index, o: Outpoint)
    requires UnspentIndexOk(crypto, index, table) && Covers(crypto) && o in UnspentOutpoints(table)
    ensures var out := OutputAt(table, o);
            && o in Listed(index, out.pubkey) && o in Listed(index, out.pubkey2) && o in Listed(index, out.htlcPubkey)
            && out.pubkey in index && out.pubkey2 in index && out.htlcPubkey in index
  {
    var out := OutputAt(table, o);
    assert IsUnspentOf(crypto, table, out.pubkey, o) && IsUnspentOf(crypto, table, out.pubkey2, o);
    assert IsUnspentOf(crypto, table, out.htlcPubkey, o);
  }

  /** What an exact index does not list for a key, the key has no part in. */
  lemma KeyTotal(crypto: Crypto, table: Table, index: Index, f: (Blob, Outpoint) -> int, key: Blob)
    requires UnspentIndexOk(crypto, index, table) && Covers(crypto) && HeldByKeys(f, table)
    ensures SumOver(Listed(index, key), OfKey(f, key)) == SumOver(UnspentOutpoints(table), OfKey(f, key))
  {
    ListedUnspent(crypto, table, index, key);
    forall o | o in UnspentOutpoints(table) && o !in Listed(index, key) ensures OfKey(f, key)(o) == 0 {
      OutputKeysListed(crypto, table, index, o);
      assert f(key, o) == 0;
    }
    SumSubset(Listed(index, key), UnspentOutpoints(table), OfKey(f, key));
  }

  /** Over an exact index, the tallies of all keys add up to what all keys hold in all
      unspent outputs. */
  lemma TallyTotal(crypto: Crypto, table: Table, index: Index, f: (Blob, Outpoint) -> int)
    requires UnspentIndexOk(crypto, index, table) && Covers(crypto) && HeldByKeys(f, table)
    ensures SumOver(index.Keys, Tally(f, index)) == SumOver(UnspentOutpoints(table), Column(f, index.Keys))
  {
    forall key | key in index.Keys ensures Tally(f, index)(key) == Row(f, UnspentOutpoints(table))(key) {
      KeyTotal(crypto, table, index, f, key);
    }
    SumSame(index.Keys, Tally(f, index), Row(f, UnspentOutpoints(table)));
    RowsAreColumns(f, index.Keys, UnspentOutpoints(table));
  }

  lemma OneHolder(keys: set<Blob>, a: Blob, f: Blob -> int, amount: int)
    requires a in keys && f(a) == amount && forall key :: key != a ==> f(key) == 0
    ensures SumOver(keys, f) == amount
  {
    SumTake(keys, a, f);
    SumZero(keys - {a}, f);
  }

  lemma TwoHolders(keys: set<Blob>, a: Blob, b: Blob, f: Blob -> int, amount: int)
    requires a in keys && b in keys && a != b && f(a) == amount && f(b) == amount
    requires forall key :: key != a && key != b ==> f(key) == 0
    ensures SumOver(keys, f) == 2 * amount
  {
    SumTake(keys, a, f);
    SumTake(keys - {a}, b, f);
    SumZero(keys - {a} - {b}, f);
  }
}
