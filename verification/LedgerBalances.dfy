/** Balances: what get_balance reports to the owners adds up to the unspent
    value, whatever the time. */
module LedgerBalances {
  import opened Sums
  import opened LedgerTypes
  import opened LedgerRules
  import opened LedgerInvariant
  import opened LedgerRuns
  import opened LedgerValue
  import opened LedgerConservation
  import opened LedgerTally

  /** Owned outright, owned together with another key, and claimable with the
      preimage. */
  datatype Balance = Balance(owned: int, partial: int, htlc: int)

  const NOTHING := Balance(0, 0, 0)

  function Plus(a: Balance, b: Balance): Balance {
    Balance(a.owned + b.owned, a.partial + b.partial, a.htlc + b.htlc)
  }

  /** What one output adds to the balance of a key. */
  function Share(now: int, w: Wrapper, o: Output, key: Blob): Balance {
    if TimedOut(now, w, o) then
      if key == o.pubkey || key == o.pubkey2 then
        if o.pubkey == o.pubkey2 then Balance(o.amount, 0, 0) else Balance(0, o.amount, 0)
      else NOTHING
    else if key == o.htlcPubkey then Balance(0, 0, o.amount)
    else NOTHING
  }

  function ShareAt(now: int, table: Table, key: Blob, o: Outpoint): Balance {
    if Known(table, o) then Share(now, table[o.txid], OutputAt(table, o), key) else NOTHING
  }

  /** The shares of a key in a set of outputs, added up. */
  ghost function BalanceOver(now: int, table: Table, key: Blob, outs: set<Outpoint>): Balance {
    if outs == {} then NOTHING
    else
      var o :| o in outs;
      Plus(BalanceOver(now, table, key, outs - {o}), ShareAt(now, table, key, o))
  }

  /** The outputs may be added up in any order. */
  lemma {:induction false} BalanceTake(now: int, table: Table, key: Blob, outs: set<Outpoint>, o: Outpoint)
    requires o in outs
    ensures BalanceOver(now, table, key, outs) == Plus(BalanceOver(now, table, key, outs - {o}), ShareAt(now, table, key, o))
    decreases |outs|
  {
    var x :| x in outs && BalanceOver(now, table, key, outs) == Plus(BalanceOver(now, table, key, outs - {x}), ShareAt(now, table, key, x));
    if x != o {
      BalanceTake(now, table, key, outs - {x}, o);
      BalanceTake(now, table, key, outs - {o}, x);
      assert outs - {x} - {o} == outs - {o} - {x};
      PlusSwap(BalanceOver(now, table, key, outs - {x} - {o}), ShareAt(now, table, key, o), ShareAt(now, table, key, x));
    }
  }

  lemma PlusSwap(a: Balance, b: Balance, c: Balance)
    ensures Plus(Plus(a, b), c) == Plus(Plus(a, c), b)
  {
  }

  // ------------------------------------------------------------- the three kinds

  /** What a key owns outright in an output: all of it, once the timeout has passed, if
      both keys of the output are that key. */
  ghost function OwnedIn(now: int, table: Table): (Blob, Outpoint) -> int {
    (key: Blob, o: Outpoint) =>
      if !Known(table, o) then 0
      else
        var w, out := table[o.txid], table[o.txid].txn.outputs[o.index];
        if now - w.timestamp >= out.htlcTimeout * 1_000_000_000 && out.pubkey == key && out.pubkey2 == key then out.amount else 0
  }

  /** What it owns together with another key: all of it for either, once the timeout
      has passed. */
  ghost function PartialIn(now: int, table: Table): (Blob, Outpoint) -> int {
    (key: Blob, o: Outpoint) =>
      if !Known(table, o) then 0
      else
        var w, out := table[o.txid], table[o.txid].txn.outputs[o.index];
        if now - w.timestamp >= out.htlcTimeout * 1_000_000_000 && out.pubkey != out.pubkey2
           && (out.pubkey == key || out.pubkey2 == key) then out.amount else 0
  }

  /** What it can claim with a preimage: all of it, until the timeout. */
  ghost function HtlcIn(now: int, table: Table): (Blob, Outpoint) -> int {
    (key: Blob, o: Outpoint) =>
      if !Known(table, o) then 0
      else
        var w, out := table[o.txid], table[o.txid].txn.outputs[o.index];
        if now - w.timestamp < out.htlcTimeout * 1_000_000_000 && out.htlcPubkey == key then out.amount else 0
  }

  lemma ShareKinds(now: int, table: Table, key: Blob, o: Outpoint)
    ensures ShareAt(now, table, key, o) ==
              Balance(OwnedIn(now, table)(key, o), PartialIn(now, table)(key, o), HtlcIn(now, table)(key, o))
  {
  }

  /** A balance is the sum, kind by kind, over the outputs it is taken over. */
  lemma {:induction false} BalanceKinds(now: int, table: Table, key: Blob, outs: set<Outpoint>)
    ensures var b := BalanceOver(now, table, key, outs);
            && b.owned == SumOver(outs, OfKey(OwnedIn(now, table), key))
            && b.partial == SumOver(outs, OfKey(PartialIn(now, table), key))
            && b.htlc == SumOver(outs, OfKey(HtlcIn(now, table), key))
    decreases |outs|
  {
    if outs != {} {
      var o :| o in outs;
      BalanceKinds(now, table, key, outs - {o});
      BalanceTake(now, table, key, outs, o);
      ShareKinds(now, table, key, o);
      SumTake(outs, o, OfKey(OwnedIn(now, table), key));
      SumTake(outs, o, OfKey(PartialIn(now, table), key));
      SumTake(outs, o, OfKey(HtlcIn(now, table), key));
    }
  }

  /** The balance of a key that an index reports, kind by kind. */
  ghost function ReportedOwned(now: int, table: Table, index: Index): Blob -> int {
    (key: Blob) => BalanceOver(now, table, key, Listed(index, key)).owned
  }

  ghost function ReportedPartial(now: int, table: Table, index: Index): Blob -> int {
    (key: Blob) => BalanceOver(now, table, key, Listed(index, key)).partial
  }

  ghost function ReportedHtlc(now: int, table: Table, index: Index): Blob -> int {
    (key: Blob) => BalanceOver(now, table, key, Listed(index, key)).htlc
  }

  lemma ReportedTallies(now: int, table: Table, index: Index)
    ensures SumOver(index.Keys, ReportedOwned(now, table, index)) == SumOver(index.Keys, Tally(OwnedIn(now, table), index))
    ensures SumOver(index.Keys, ReportedPartial(now, table, index)) == SumOver(index.Keys, Tally(PartialIn(now, table), index))
    ensures SumOver(index.Keys, ReportedHtlc(now, table, index)) == SumOver(index.Keys, Tally(HtlcIn(now, table), index))
  {
    forall key | key in index.Keys
      ensures ReportedOwned(now, table, index)(key) == Tally(OwnedIn(now, table), index)(key)
      ensures ReportedPartial(now, table, index)(key) == Tally(PartialIn(now, table), index)(key)
      ensures ReportedHtlc(now, table, index)(key) == Tally(HtlcIn(now, table), index)(key)
    {
      BalanceKinds(now, table, key, Listed(index, key));
    }
    SumSame(index.Keys, ReportedOwned(now, table, index), Tally(OwnedIn(now, table), index));
    SumSame(index.Keys, ReportedPartial(now, table, index), Tally(PartialIn(now, table), index));
    SumSame(index.Keys, ReportedHtlc(now, table, index), Tally(HtlcIn(now, table), index));
  }

  /** The amounts of timed-out outputs of one key, of timed-out outputs of two keys, and
      of outputs that have not timed out. */
  ghost function SingleAmount(now: int, table: Table): Outpoint -> int {
    (o: Outpoint) =>
      if !Known(table, o) then 0
      else
        var w, out := table[o.txid], table[o.txid].txn.outputs[o.index];
        if now - w.timestamp >= out.htlcTimeout * 1_000_000_000 && out.pubkey == out.pubkey2 then out.amount else 0
  }

  ghost function SharedAmount(now: int, table: Table): Outpoint -> int {
    (o: Outpoint) =>
      if !Known(table, o) then 0
      else
        var w, out := table[o.txid], table[o.txid].txn.outputs[o.index];
        if now - w.timestamp >= out.htlcTimeout * 1_000_000_000 && out.pubkey != out.pubkey2 then out.amount else 0
  }

  ghost function LockedAmount(now: int, table: Table): Outpoint -> int {
    (o: Outpoint) =>
      if !Known(table, o) then 0
      else
        var w, out := table[o.txid], table[o.txid].txn.outputs[o.index];
        if now - w.timestamp < out.htlcTimeout * 1_000_000_000 then out.amount else 0
  }

  /** All keys together, output by output. */
  lemma KindColumns(now: int, table: Table, keys: set<Blob>, o: Outpoint)
    requires Known(table, o)
    requires var out := OutputAt(table, o); out.pubkey in keys && out.pubkey2 in keys && out.htlcPubkey in keys
    ensures Column(OwnedIn(now, table), keys)(o) == SingleAmount(now, table)(o)
    ensures Column(PartialIn(now, table), keys)(o) == 2 * SharedAmount(now, table)(o)
    ensures Column(HtlcIn(now, table), keys)(o) == LockedAmount(now, table)(o)
  {
    var out := OutputAt(table, o);
    if SingleAmount(now, table)(o) == 0 {
      SumZero(keys, OfOutput(OwnedIn(now, table), o));
    } else {
      OneHolder(keys, out.pubkey, OfOutput(OwnedIn(now, table), o), out.amount);
    }
    if SharedAmount(now, table)(o) == 0 {
      SumZero(keys, OfOutput(PartialIn(now, table), o));
    } else {
      TwoHolders(keys, out.pubkey, out.pubkey2, OfOutput(PartialIn(now, table), o), out.amount);
    }
    if LockedAmount(now, table)(o) == 0 {
      SumZero(keys, OfOutput(HtlcIn(now, table), o));
    } else {
      OneHolder(keys, out.htlcPubkey, OfOutput(HtlcIn(now, table), o), out.amount);
    }
  }

  /** Over an exact index: what all keys own is the value of the timed-out outputs of
      one key, what they own in part is twice that of the timed-out outputs of two, and
      what they can claim with a preimage is that of the others. */
  lemma ReportedKinds(crypto: Crypto, now: int, table: Table, index: Index)
    requires UnspentIndexOk(crypto, index, table) && Covers(crypto)
    ensures SumOver(index.Keys, ReportedOwned(now, table, index)) == SumOver(UnspentOutpoints(table), SingleAmount(now, table))
    ensures SumOver(index.Keys, ReportedPartial(now, table, index)) == 2 * SumOver(UnspentOutpoints(table), SharedAmount(now, table))
    ensures SumOver(index.Keys, ReportedHtlc(now, table, index)) == SumOver(UnspentOutpoints(table), LockedAmount(now, table))
  {
    var outs := UnspentOutpoints(table);
    ReportedTallies(now, table, index);
    TallyTotal(crypto, table, index, OwnedIn(now, table));
    TallyTotal(crypto, table, index, PartialIn(now, table));
    TallyTotal(crypto, table, index, HtlcIn(now, table));
    forall o | o in outs
      ensures Column(OwnedIn(now, table), index.Keys)(o) == SingleAmount(now, table)(o)
      ensures Column(PartialIn(now, table), index.Keys)(o) == 2 * SharedAmount(now, table)(o)
      ensures Column(HtlcIn(now, table), index.Keys)(o) == LockedAmount(now, table)(o)
    {
      OutputKeysListed(crypto, table, index, o);
      KindColumns(now, table, index.Keys, o);
    }
    SumSame(outs, Column(OwnedIn(now, table), index.Keys), SingleAmount(now, table));
    DoubleSum(outs, SharedAmount(now, table), Column(PartialIn(now, table), index.Keys));
    SumSame(outs, Column(HtlcIn(now, table), index.Keys), LockedAmount(now, table));
  }

  lemma DoubleSum(outs: set<Outpoint>, f: Outpoint -> int, g: Outpoint -> int)
    requires forall o :: o in outs ==> g(o) == 2 * f(o)
    ensures SumOver(outs, g) == 2 * SumOver(outs, f)
  {
    SumPlus(outs, f, f, g);
  }

  /** The three amounts of an output make up its amount. */
  lemma KindsMakeAll(now: int, table: Table, outs: set<Outpoint>)
    ensures SumOver(outs, SingleAmount(now, table)) + SumOver(outs, SharedAmount(now, table))
            + SumOver(outs, LockedAmount(now, table)) == SumOver(outs, AmountOf(table))
  {
    var timedOut := (o: Outpoint) => SingleAmount(now, table)(o) + SharedAmount(now, table)(o);
    SumPlus(outs, SingleAmount(now, table), SharedAmount(now, table), timedOut);
    SumPlus(outs, timedOut, LockedAmount(now, table), AmountOf(table));
  }

  // --------------------------------------------------------------- weighing shares

  /** Owned and preimage balances in full, partial ones by half; all doubled. */
  function Weight(b: Balance): int {
    2 * b.owned + b.partial + 2 * b.htlc
  }

  /** All keys together see each output at twice its amount: once in full, or
      twice by half. */
  lemma SharesAddUp(now: int, w: Wrapper, o: Output, keys: set<Blob>, f: Blob -> int)
    requires o.pubkey in keys && o.pubkey2 in keys && o.htlcPubkey in keys
    requires forall key :: f(key) == Weight(Share(now, w, o, key))
    ensures SumOver(keys, f) == 2 * o.amount
  {
    if !TimedOut(now, w, o) {
      OneHolder(keys, o.htlcPubkey, f, 2 * o.amount);
    } else if o.pubkey == o.pubkey2 {
      OneHolder(keys, o.pubkey, f, 2 * o.amount);
    } else {
      TwoHolders(keys, o.pubkey, o.pubkey2, f, o.amount);
    }
  }

  ghost function Reported(now: int, table: Table, index: Index): Blob -> int {
    (key: Blob) => Weight(BalanceOver(now, table, key, Listed(index, key)))
  }

  /** Summed over all keys of an exact index, the weighed balances are twice the
      amounts of the unspent outputs. */
  lemma ReportedTotal(crypto: Crypto, now: int, table: Table, index: Index)
    requires UnspentIndexOk(crypto, index, table) && Covers(crypto)
    ensures SumOver(index.Keys, Reported(now, table, index)) == 2 * SumOver(UnspentOutpoints(table), AmountOf(table))
  {
    ReportedKinds(crypto, now, table, index);
    KindsMakeAll(now, table, UnspentOutpoints(table));
    WeighedKinds(now, table, index, index.Keys);
  }

  lemma {:induction false} WeighedKinds(now: int, table: Table, index: Index, keys: set<Blob>)
    ensures SumOver(keys, Reported(now, table, index)) ==
              2 * SumOver(keys, ReportedOwned(now, table, index)) + SumOver(keys, ReportedPartial(now, table, index))
              + 2 * SumOver(keys, ReportedHtlc(now, table, index))
    decreases |keys|
  {
    if keys != {} {
      var key :| key in keys;
      WeighedKinds(now, table, index, keys - {key});
      SumTake(keys, key, Reported(now, table, index));
      SumTake(keys, key, ReportedOwned(now, table, index));
      SumTake(keys, key, ReportedPartial(now, table, index));
      SumTake(keys, key, ReportedHtlc(now, table, index));
    }
  }

  // -------------------------------------------------- unspent outputs, output by output

  lemma {:induction false} SumJoin(a: set<Outpoint>, b: set<Outpoint>, f: Outpoint -> int)
    requires a !! b
    ensures SumOver(a + b, f) == SumOver(a, f) + SumOver(b, f)
    decreases |a|
  {
    if a == {} {
      assert a + b == b;
    } else {
      var o :| o in a;
      SumTake(a, o, f);
      SumTake(a + b, o, f);
      SumJoin(a - {o}, b, f);
      assert a + b - {o} == (a - {o}) + b;
    }
  }

  ghost function UnspentUpTo(id: Txid, utxos: seq<bool>): set<Outpoint> {
    set i | 0 <= i < |utxos| && utxos[i] :: Outpoint(id, i)
  }

  lemma {:induction false} OneTxnUnspent(id: Txid, outputs: seq<Output>, utxos: seq<bool>, f: Outpoint -> int)
    requires |utxos| == |outputs| && forall i: nat :: i < |outputs| ==> f(Outpoint(id, i)) == outputs[i].amount
    ensures SumOver(UnspentUpTo(id, utxos), f) == UnspentSum(outputs, utxos)
    decreases |outputs|
  {
    var n := |outputs| - 1;
    if outputs == [] {
      assert UnspentUpTo(id, utxos) == {};
    } else {
      var before := UnspentUpTo(id, utxos[..n]);
      OneTxnUnspent(id, outputs[..n], utxos[..n], f);
      assert before == set i | 0 <= i < n && utxos[i] :: Outpoint(id, i);
      if utxos[n] {
        assert UnspentUpTo(id, utxos) == before + {Outpoint(id, n)};
        SumAdd(before, Outpoint(id, n), f);
      } else {
        assert UnspentUpTo(id, utxos) == before;
      }
    }
  }

  ghost function UnspentAmong(table: Table, ids: set<Txid>): set<Outpoint> {
    set o | o in UnspentOutpoints(table) && o.txid in ids
  }

  lemma UnspentSplit(table: Table, ids: set<Txid>, id: Txid)
    requires Filed(table) && id in table && id in ids
    ensures UnspentAmong(table, ids) == UnspentAmong(table, ids - {id}) + UnspentUpTo(id, table[id].utxos)
    ensures UnspentAmong(table, ids - {id}) !! UnspentUpTo(id, table[id].utxos)
  {
    forall o | o in UnspentAmong(table, ids) ensures o in UnspentAmong(table, ids - {id}) || o in UnspentUpTo(id, table[id].utxos) {
      assert o == Outpoint(o.txid, o.index);
    }
    forall o | o in UnspentUpTo(id, table[id].utxos) ensures o in UnspentAmong(table, ids) && o.txid == id {
      assert Known(table, o) && Flag(table, o);
    }
  }

  lemma {:induction false} UnspentByTxn(table: Table, ids: set<Txid>)
    requires Filed(table) && ids <= table.Keys
    ensures SumOver(UnspentAmong(table, ids), AmountOf(table)) == SumOver(ids, UnspentOf(table))
    decreases |ids|
  {
    if ids == {} {
      assert UnspentAmong(table, ids) == {};
    } else {
      var id :| id in ids;
      UnspentByTxn(table, ids - {id});
      OneMoreTxn(table, ids, id);
    }
  }

  lemma OneMoreTxn(table: Table, ids: set<Txid>, id: Txid)
    requires Filed(table) && id in ids && id in table
    requires SumOver(UnspentAmong(table, ids - {id}), AmountOf(table)) == SumOver(ids - {id}, UnspentOf(table))
    ensures SumOver(UnspentAmong(table, ids), AmountOf(table)) == SumOver(ids, UnspentOf(table))
  {
    UnspentSplit(table, ids, id);
    SumTake(ids, id, UnspentOf(table));
    OneTxnUnspent(id, table[id].txn.outputs, table[id].utxos, AmountOf(table));
    SumJoin(UnspentAmong(table, ids - {id}), UnspentUpTo(id, table[id].utxos), AmountOf(table));
  }

  lemma UnspentIsTotal(table: Table)
    requires Filed(table)
    ensures SumOver(UnspentOutpoints(table), AmountOf(table)) == Unspent(table)
  {
    UnspentByTxn(table, table.Keys);
    assert UnspentAmong(table, table.Keys) == UnspentOutpoints(table);
  }

  // -------------------------------------------------------------------- main result

  /** In a pending table every output is unspent. */
  lemma PendingIndexIsUnspent(crypto: Crypto, w: World)
    requires Inv(crypto, w)
    ensures UnspentIndexOk(crypto, w.l.pubOutsPend, w.l.pend)
  {
    forall key: Blob, o: Outpoint ensures o in Listed(w.l.pubOutsPend, key) <==> IsUnspentOf(crypto, w.l.pend, key, o) {
      if o.txid in w.l.pend {
        assert PendingOk(crypto, w.l.db, w.l.pend[o.txid]);
      }
      PendingIsUnspent(crypto, w.l.db, w.l.pend, key, o);
      assert o in Listed(w.l.pubOutsPend, key) <==> IsPendingOf(crypto, w.l.pend, key, o);
    }
  }

  /** No output of a pending transaction is spent. */
  lemma PendingIsUnspent(crypto: Crypto, db: Table, pend: Table, key: Blob, o: Outpoint)
    requires o.txid in pend ==> PendingOk(crypto, db, pend[o.txid])
    ensures IsPendingOf(crypto, pend, key, o) <==> IsUnspentOf(crypto, pend, key, o)
  {
  }

  lemma PendingIsTotal(crypto: Crypto, w: World)
    requires Inv(crypto, w)
    ensures Unspent(w.l.pend) == SumOver(w.l.pend.Keys, PendingOf(w.l.pend))
  {
    forall id | id in w.l.pend ensures UnspentOf(w.l.pend)(id) == PendingOf(w.l.pend)(id) {
      assert PendingOk(crypto, w.l.db, w.l.pend[id]);
      AllOn(w.l.pend[id].txn.outputs, w.l.pend[id].utxos);
    }
    SumSame(w.l.pend.Keys, UnspentOf(w.l.pend), PendingOf(w.l.pend));
  }

  /** At any time of any run, for both indexes: what all keys own outright, in part and
      with a preimage is the value of the timed-out outputs of one key, twice that of
      the timed-out outputs of two, and that of the outputs not timed out. */
  lemma BalancesByKind(crypto: Crypto, ws: seq<World>, i: nat)
    requires Run(crypto, ws) && i < |ws| && Covers(crypto)
    ensures var l := ws[i].l;
            && SumOver(l.pubOuts.Keys, ReportedOwned(l.now, l.db, l.pubOuts)) ==
                 SumOver(UnspentOutpoints(l.db), SingleAmount(l.now, l.db))
            && SumOver(l.pubOuts.Keys, ReportedPartial(l.now, l.db, l.pubOuts)) ==
                 2 * SumOver(UnspentOutpoints(l.db), SharedAmount(l.now, l.db))
            && SumOver(l.pubOuts.Keys, ReportedHtlc(l.now, l.db, l.pubOuts)) ==
                 SumOver(UnspentOutpoints(l.db), LockedAmount(l.now, l.db))
    ensures var l := ws[i].l;
            && SumOver(l.pubOutsPend.Keys, ReportedOwned(l.now, l.pend, l.pubOutsPend)) ==
                 SumOver(UnspentOutpoints(l.pend), SingleAmount(l.now, l.pend))
            && SumOver(l.pubOutsPend.Keys, ReportedPartial(l.now, l.pend, l.pubOutsPend)) ==
                 2 * SumOver(UnspentOutpoints(l.pend), SharedAmount(l.now, l.pend))
            && SumOver(l.pubOutsPend.Keys, ReportedHtlc(l.now, l.pend, l.pubOutsPend)) ==
                 SumOver(UnspentOutpoints(l.pend), LockedAmount(l.now, l.pend))
  {
    RunInv(crypto, ws, i);
    PendingIndexIsUnspent(crypto, ws[i]);
    ReportedKinds(crypto, ws[i].l.now, ws[i].l.db, ws[i].l.pubOuts);
    ReportedKinds(crypto, ws[i].l.now, ws[i].l.pend, ws[i].l.pubOutsPend);
  }

  /** Balances partition the value: at any time of any run, twice what all keys
      own, plus what they own in part, plus twice what they can claim with a
      preimage, is twice the unspent total; likewise for the pending index, and
      together with what expired unsound it is twice the genesis supply and what
      repeated outpoints added. */
  lemma BalancesPartition(crypto: Crypto, ws: seq<World>, i: nat)
    requires Run(crypto, ws) && i < |ws| && Covers(crypto)
    ensures var l := ws[i].l;
            && SumOver(l.pubOuts.Keys, Reported(l.now, l.db, l.pubOuts)) == 2 * Unspent(l.db)
            && SumOver(l.pubOutsPend.Keys, Reported(l.now, l.pend, l.pubOutsPend)) ==
                 2 * SumOver(l.pend.Keys, PendingOf(l.pend))
            && SumOver(l.pubOuts.Keys, Reported(l.now, l.db, l.pubOuts))
               + SumOver(l.pubOutsPend.Keys, Reported(l.now, l.pend, l.pubOutsPend))
               + 2 * SumOver(ws[i].gone.Keys, GoneOf(ws[i].gone)) == 2 * (Unspent(ws[0].l.db) + TotalExcess(ws[i]))
  {
    RunInv(crypto, ws, i);
    Conservation(crypto, ws, i);
    var l := ws[i].l;
    ReportedTotal(crypto, l.now, l.db, l.pubOuts);
    UnspentIsTotal(l.db);
    PendingIndexIsUnspent(crypto, ws[i]);
    PendingIsTotal(crypto, ws[i]);
    ReportedTotal(crypto, l.now, l.pend, l.pubOutsPend);
    UnspentIsTotal(l.pend);
  }
}
