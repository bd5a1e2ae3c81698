/** Promotion of expired pending transactions: when it succeeds, and why the order
    of the scan does not matter. */
module LedgerPromotion {
  import opened LedgerTypes
  import opened LedgerRules
  import opened LedgerInvariant
  import opened LedgerSteps
  import opened LedgerRuns
  import opened LedgerSigning

  // ------------------------------------------------------------ when it succeeds

  lemma SoundIffSigned(crypto: Crypto, w: World, id: Txid)
    requires TablesOk(w) && BodiesOk(crypto, w) && id in w.l.pend
    ensures var txn := w.l.pend[id].txn;
            Sound(crypto, w.l, txn) <==>
              forall i :: 0 <= i < |txn.inputs| ==> InputOk(crypto, w.l.db, w.l.now, txn.txid, txn.inputs[i])
  {
    assert PendingOk(crypto, w.l.db, w.l.pend[id]);
  }

  /** An expired pending transaction is written, with its original timestamp and
      all outputs unspent, if and only if every input is signed for the branch its
      timeout selects now; otherwise nothing is written. */
  lemma PromotionSucceedsIff(crypto: Crypto, ws: seq<World>, i: nat, id: Txid)
    requires Run(crypto, ws) && i < |ws| && id in ws[i].l.pend && Expired(ws[i].l.now, ws[i].l.pend[id])
    ensures var l, p := ws[i].l, ws[i].l.pend[id];
            var r := Promote(crypto, l, id);
            && id !in r.pend
            && (if forall k :: 0 <= k < |p.txn.inputs| ==> SignedAt(crypto, l.db, l.now, id, p.txn.inputs[k])
                then id in r.db && r.db[id] == Wrapper(p.txn, p.timestamp, AllUnspent(p.txn))
                else r.db == l.db)
  {
    RunInv(crypto, ws, i);
    var w := ws[i];
    var p := w.l.pend[id];
    DroppedFacts(crypto, w, id);
    SoundIffSigned(crypto, w, id);
    AllSignedIsOk(crypto, w.l.db, w.l.now, p.txn);
    PromoteIs(crypto, w.l, id);
    if Sound(crypto, w.l, p.txn) {
      WriteFacts(crypto, DropPending(crypto, w.l, p.txn), p.txn, p.timestamp);
    }
  }

  /** Promotion cannot fail except by a branch switch: if every timeout test comes
      out as it did at acceptance, the transaction is written. */
  lemma SameBranchesPromote(crypto: Crypto, ws: seq<World>, i: nat, id: Txid)
    requires Run(crypto, ws) && i < |ws| && id in ws[i].l.pend && Expired(ws[i].l.now, ws[i].l.pend[id])
    requires var l, p := ws[i].l, ws[i].l.pend[id];
             forall k :: 0 <= k < |p.txn.inputs| && Known(l.db, p.txn.inputs[k].out) ==>
               var o := p.txn.inputs[k].out;
               TimedOut(l.now, l.db[o.txid], OutputAt(l.db, o)) == TimedOut(p.timestamp, l.db[o.txid], OutputAt(l.db, o))
    ensures id in Promote(crypto, ws[i].l, id).db
  {
    RunInv(crypto, ws, i);
    var l, p := ws[i].l, ws[i].l.pend[id];
    assert PendingOk(crypto, l.db, p);
    forall k | 0 <= k < |p.txn.inputs| ensures InputOk(crypto, l.db, l.now, id, p.txn.inputs[k]) {
      assert InputOk(crypto, l.db, p.timestamp, id, p.txn.inputs[k]);
    }
    PromotionSucceedsIff(crypto, ws, i, id);
  }

  // ------------------------------------------------------- the order of the scan

  /** The pending transactions that a scan of ledger l writes. */
  ghost predicate Promoted(crypto: Crypto, l: Ledger, id: Txid) {
    id in l.pend && Expired(l.now, l.pend[id]) && Sound(crypto, l, l.pend[id].txn)
  }

  ghost function PromotedAmong(crypto: Crypto, l: Ledger, done: set<Txid>): set<Txid> {
    set id | id in done && Promoted(crypto, l, id)
  }

  /** Tables with the given pending transactions written. */
  ghost function WithWritten(db: Table, pend: Table, ids: set<Txid>): Table {
    db + map id | id in ids && id in pend :: Stored(pend[id].txn, pend[id].timestamp)
  }

  /** All expired transactions of `done` handled at once. */
  ghost function DbAfter(crypto: Crypto, l: Ledger, done: set<Txid>): Table {
    WithWritten(l.db, l.pend, PromotedAmong(crypto, l, done))
  }

  ghost function PendAfter(l: Ledger, done: set<Txid>): Table {
    map id | id in l.pend && !(id in done && Expired(l.now, l.pend[id])) :: l.pend[id]
  }

  ghost predicate KeyAfter(crypto: Crypto, l: Ledger, done: set<Txid>, key: Blob) {
    key in l.pubOuts || exists id, i :: id in done && Promoted(crypto, l, id) && Mentions(crypto, l.pend[id].txn.outputs, i, key)
  }

  /** k is what a scan of the transactions in `done` makes of l, whatever the
      order; together with index exactness this determines k. */
  ghost predicate ScannedTo(crypto: Crypto, l: Ledger, done: set<Txid>, k: Ledger) {
    && k.now == l.now
    && k.db == DbAfter(crypto, l, done)
    && k.pend == PendAfter(l, done)
    && (forall key :: key in k.pubOuts <==> KeyAfter(crypto, l, done, key))
    && k.pubOutsPend.Keys == l.pubOutsPend.Keys
  }

  ghost function ScanAll(crypto: Crypto, w: World, order: seq<Txid>): World
    decreases |order|
  {
    if order == [] then w else AfterScan(crypto, ScanAll(crypto, w, order[..|order| - 1]), order[|order| - 1])
  }

  lemma {:induction false} ScanAllIsUpdatePend(crypto: Crypto, w: World, order: seq<Txid>)
    ensures ScanAll(crypto, w, order).l == UpdatePend(crypto, w.l, order)
    decreases |order|
  {
    if order != [] {
      ScanAllIsUpdatePend(crypto, w, order[..|order| - 1]);
    }
  }

  lemma {:induction false} IdleSpend(crypto: Crypto, l: Ledger, inputs: seq<Input>)
    requires AllKnown(l.db, inputs) && forall i :: 0 <= i < |inputs| ==> !Flag(l.db, inputs[i].out)
    ensures SpendAll(crypto, l, inputs).db == l.db
    decreases |inputs|
  {
    if inputs != [] {
      var n := |inputs| - 1;
      IdleSpend(crypto, l, inputs[..n]);
      var o := inputs[n].out;
      assert l.db[o.txid].utxos[o.index := false] == l.db[o.txid].utxos;
    }
  }

  lemma {:induction false} AddKeysKeys(index: Index, keys: seq<Blob>, o: Outpoint)
    ensures AddKeys(index, keys, o).Keys == index.Keys + set k | k in keys
    decreases |keys|
  {
    if keys != [] {
      AddKeysKeys(index, keys[..|keys| - 1], o);
      assert keys == keys[..|keys| - 1] + [keys[|keys| - 1]];
    }
  }

  lemma {:induction false} DelKeysKeys(index: Index, keys: seq<Blob>, o: Outpoint)
    ensures DelKeys(index, keys, o).Keys == index.Keys
    decreases |keys|
  {
    if keys != [] {
      DelKeysKeys(index, keys[..|keys| - 1], o);
    }
  }

  lemma {:induction false} AddOutputsKeys(index: Index, crypto: Crypto, txid: Txid, outputs: seq<Output>, key: Blob)
    ensures key in AddOutputs(index, crypto, txid, outputs) <==>
              key in index || exists i :: Mentions(crypto, outputs, i, key)
    decreases |outputs|
  {
    if outputs != [] {
      var n := |outputs| - 1;
      AddOutputsKeys(index, crypto, txid, outputs[..n], key);
      AddKeysKeys(AddOutputs(index, crypto, txid, outputs[..n]), crypto.pubkeys(outputs[n]), Outpoint(txid, n));
      if i: nat :| Mentions(crypto, outputs, i, key) {
        assert i < n ==> Mentions(crypto, outputs[..n], i, key);
      }
      if i: nat :| Mentions(crypto, outputs[..n], i, key) {
        assert Mentions(crypto, outputs, i, key);
      }
      assert Mentions(crypto, outputs, n, key) <==> key in crypto.pubkeys(outputs[n]);
    }
  }

  lemma {:induction false} DelOutputsKeys(index: Index, crypto: Crypto, txid: Txid, outputs: seq<Output>)
    ensures DelOutputs(index, crypto, txid, outputs).Keys == index.Keys
    decreases |outputs|
  {
    if outputs != [] {
      var n := |outputs| - 1;
      DelOutputsKeys(index, crypto, txid, outputs[..n]);
      DelKeysKeys(DelOutputs(index, crypto, txid, outputs[..n]), crypto.pubkeys(outputs[n]), Outpoint(txid, n));
    }
  }

  lemma {:induction false} SpendAllKeys(crypto: Crypto, l: Ledger, inputs: seq<Input>)
    requires AllKnown(l.db, inputs)
    ensures SpendAll(crypto, l, inputs).pubOuts.Keys == l.pubOuts.Keys
    decreases |inputs|
  {
    if inputs != [] {
      var n := |inputs| - 1;
      var s := SpendAll(crypto, l, inputs[..n]);
      SpendAllKeys(crypto, l, inputs[..n]);
      DelKeysKeys(s.pubOuts, crypto.pubkeys(OutputAt(s.db, inputs[n].out)), inputs[n].out);
    }
  }

  /** Whether a pending transaction is sound does not depend on what else a scan
      has done: its inputs were stored all along. */
  lemma SoundStable(crypto: Crypto, l: Ledger, k: Ledger, p: Wrapper)
    requires PendingOk(crypto, l.db, p) && Extends(l.db, k.db) && k.now == l.now
    requires p.txn.txid !in l.db && p.txn.txid !in k.db
    ensures Sound(crypto, k, p.txn) <==> Sound(crypto, l, p.txn)
  {
    forall i | 0 <= i < |p.txn.inputs|
      ensures InputOk(crypto, k.db, k.now, p.txn.txid, p.txn.inputs[i]) <==> InputOk(crypto, l.db, l.now, p.txn.txid, p.txn.inputs[i])
    {
      assert InputOk(crypto, l.db, p.timestamp, p.txn.txid, p.txn.inputs[i]);
    }
    ExtendsPending(crypto, l.db, k.db, p);
  }

  /** Writing a transaction whose inputs are marked spent already. */
  lemma IdleWrite(crypto: Crypto, k: Ledger, txn: Txn, timestamp: int)
    requires AllKnown(k.db, txn.inputs) && forall i :: 0 <= i < |txn.inputs| ==> !Flag(k.db, txn.inputs[i].out)
    ensures var r := Write(crypto, k, txn, timestamp);
            && r.db == k.db[txn.txid := Stored(txn, timestamp)] && r.pend == k.pend && r.now == k.now
            && r.pubOutsPend == k.pubOutsPend
            && forall key :: key in r.pubOuts <==> key in k.pubOuts || exists i :: Mentions(crypto, txn.outputs, i, key)
  {
    var s := SpendAll(crypto, k, txn.inputs);
    IdleSpend(crypto, k, txn.inputs);
    SpendAllKeys(crypto, k, txn.inputs);
    forall key
      ensures key in Write(crypto, k, txn, timestamp).pubOuts <==> key in k.pubOuts || exists i :: Mentions(crypto, txn.outputs, i, key)
    {
      AddOutputsKeys(s.pubOuts, crypto, txn.txid, txn.outputs, key);
    }
  }

  lemma DbAfterExtends(crypto: Crypto, l: Ledger, done: set<Txid>)
    requires forall id :: id in l.pend ==> id !in l.db
    ensures Extends(l.db, DbAfter(crypto, l, done))
  {
  }

  lemma WrittenNext(db: Table, pend: Table, ids: set<Txid>, id: Txid)
    requires id in pend
    ensures WithWritten(db, pend, ids + {id}) == WithWritten(db, pend, ids)[id := Stored(pend[id].txn, pend[id].timestamp)]
  {
  }

  lemma DbAfterNext(crypto: Crypto, l: Ledger, done: set<Txid>, id: Txid)
    ensures DbAfter(crypto, l, done + {id}) ==
              if Promoted(crypto, l, id) then DbAfter(crypto, l, done)[id := Stored(l.pend[id].txn, l.pend[id].timestamp)]
              else DbAfter(crypto, l, done)
  {
    var before, now := PromotedAmong(crypto, l, done), PromotedAmong(crypto, l, done + {id});
    if Promoted(crypto, l, id) {
      assert now == before + {id};
      WrittenNext(l.db, l.pend, before, id);
    } else {
      assert now == before;
    }
  }

  lemma PendAfterNext(l: Ledger, done: set<Txid>, id: Txid)
    ensures PendAfter(l, done + {id}) ==
              if id in l.pend && Expired(l.now, l.pend[id]) then PendAfter(l, done) - {id} else PendAfter(l, done)
  {
  }

  lemma KeyAfterNext(crypto: Crypto, l: Ledger, done: set<Txid>, id: Txid, key: Blob)
    ensures KeyAfter(crypto, l, done + {id}, key) <==>
              KeyAfter(crypto, l, done, key) || (Promoted(crypto, l, id) && exists i :: Mentions(crypto, l.pend[id].txn.outputs, i, key))
  {
    if KeyAfter(crypto, l, done, key) && key !in l.pubOuts {
      var x, i :| x in done && Promoted(crypto, l, x) && Mentions(crypto, l.pend[x].txn.outputs, i, key);
      assert x in done + {id};
    }
    if Promoted(crypto, l, id) && exists i :: Mentions(crypto, l.pend[id].txn.outputs, i, key) {
      var i :| Mentions(crypto, l.pend[id].txn.outputs, i, key);
      assert id in done + {id};
    }
  }

  /** Visiting one more transaction. */
  lemma ScanStep(crypto: Crypto, l: Ledger, done: set<Txid>, w: World, id: Txid)
    requires Inv(crypto, w) && ScannedTo(crypto, l, done, w.l) && id in l.pend && id !in done
    requires forall x :: x in l.pend ==> x !in l.db && PendingOk(crypto, l.db, l.pend[x]) && l.pend[x].txn.txid == x
    ensures ScannedTo(crypto, l, done + {id}, AfterScan(crypto, w, id).l)
  {
    var k := w.l;
    var p := l.pend[id];
    assert id in k.pend && k.pend[id] == p;
    DbAfterNext(crypto, l, done, id);
    PendAfterNext(l, done, id);
    forall key ensures KeyAfter(crypto, l, done + {id}, key) <==>
        KeyAfter(crypto, l, done, key) || (Promoted(crypto, l, id) && exists i :: Mentions(crypto, p.txn.outputs, i, key)) {
      KeyAfterNext(crypto, l, done, id, key);
    }
    if Expired(k.now, p) {
      DbAfterExtends(crypto, l, done);
      SoundStable(crypto, l, k, p);
      ExpiredStep(crypto, w, id);
    }
  }

  /** What visiting an expired transaction changes. */
  lemma ExpiredStep(crypto: Crypto, w: World, id: Txid)
    requires Inv(crypto, w) && id in w.l.pend && Expired(w.l.now, w.l.pend[id])
    ensures var k, p, r := w.l, w.l.pend[id], AfterScan(crypto, w, id).l;
            && r.now == k.now && r.pend == k.pend - {id} && r.pubOutsPend.Keys == k.pubOutsPend.Keys
            && r.db == (if Sound(crypto, k, p.txn) then k.db[id := Stored(p.txn, p.timestamp)] else k.db)
            && forall key :: key in r.pubOuts <==>
                 key in k.pubOuts || (Sound(crypto, k, p.txn) && exists i :: Mentions(crypto, p.txn.outputs, i, key))
  {
    var p := w.l.pend[id];
    var d := DropPending(crypto, w.l, p.txn);
    ScanIs(crypto, w, id);
    DelOutputsKeys(w.l.pubOutsPend, crypto, id, p.txn.outputs);
    if Sound(crypto, w.l, p.txn) {
      forall i | 0 <= i < |p.txn.inputs| ensures !Flag(d.db, p.txn.inputs[i].out) {
        assert p.txn.inputs[i].out in OutpointsOf(p.txn);
        assert Takes(w, id, p.txn.inputs[i].out);
      }
      IdleWrite(crypto, d, p.txn, p.timestamp);
    }
  }

  /** The scan visits each pending transaction once. */
  ghost predicate Enumerates(order: seq<Txid>, ids: set<Txid>) {
    && (forall id :: id in order <==> id in ids)
    && forall i, j :: 0 <= i < j < |order| ==> order[i] != order[j]
  }

  lemma PendingFacts(crypto: Crypto, w: World)
    requires Inv(crypto, w)
    ensures forall x :: x in w.l.pend ==> x !in w.l.db && PendingOk(crypto, w.l.db, w.l.pend[x]) && w.l.pend[x].txn.txid == x
  {
  }

  lemma ScannedNothing(crypto: Crypto, l: Ledger)
    ensures ScannedTo(crypto, l, {}, l)
  {
    assert PendAfter(l, {}) == l.pend;
    assert DbAfter(crypto, l, {}) == l.db;
  }

  ghost function IdsOf(order: seq<Txid>): set<Txid> {
    set id | id in order
  }

  lemma IdsNext(order: seq<Txid>)
    requires order != [] && forall i, j :: 0 <= i < j < |order| ==> order[i] != order[j]
    ensures var n := |order| - 1;
            IdsOf(order) == IdsOf(order[..n]) + {order[n]} && order[n] !in IdsOf(order[..n])
  {
    assert order == order[..|order| - 1] + [order[|order| - 1]];
  }

  lemma {:induction false} ScanPrefix(crypto: Crypto, w: World, order: seq<Txid>)
    requires Inv(crypto, w) && forall id :: id in order ==> id in w.l.pend
    requires forall i, j :: 0 <= i < j < |order| ==> order[i] != order[j]
    ensures Inv(crypto, ScanAll(crypto, w, order))
    ensures ScannedTo(crypto, w.l, IdsOf(order), ScanAll(crypto, w, order).l)
    decreases |order|
  {
    if order == [] {
      ScannedNothing(crypto, w.l);
    } else {
      ScanPrefix(crypto, w, order[..|order| - 1]);
      ScanLast(crypto, w, order);
    }
  }

  lemma ScanLast(crypto: Crypto, w: World, order: seq<Txid>)
    requires Inv(crypto, w) && order != [] && forall id :: id in order ==> id in w.l.pend
    requires forall i, j :: 0 <= i < j < |order| ==> order[i] != order[j]
    requires var v := ScanAll(crypto, w, order[..|order| - 1]);
             Inv(crypto, v) && ScannedTo(crypto, w.l, IdsOf(order[..|order| - 1]), v.l)
    ensures Inv(crypto, ScanAll(crypto, w, order))
    ensures ScannedTo(crypto, w.l, IdsOf(order), ScanAll(crypto, w, order).l)
  {
    var n := |order| - 1;
    var v := ScanAll(crypto, w, order[..n]);
    IdsNext(order);
    PendingFacts(crypto, w);
    assert order[n] in order;
    ScanKeeps(crypto, v, order[n]);
    ScanStep(crypto, w.l, IdsOf(order[..n]), v, order[n]);
  }

  /** Two ledgers that were scanned alike are equal, for index exactness leaves
      their indexes no choice. */
  lemma ScannedAlike(crypto: Crypto, l: Ledger, done: set<Txid>, a: Ledger, b: Ledger)
    requires ScannedTo(crypto, l, done, a) && ScannedTo(crypto, l, done, b) && IndexesOk(crypto, a) && IndexesOk(crypto, b)
    ensures a == b
  {
    forall key: Blob ensures Listed(a.pubOuts, key) == Listed(b.pubOuts, key) && Listed(a.pubOutsPend, key) == Listed(b.pubOutsPend, key) {
    }
    assert a.pubOuts.Keys == b.pubOuts.Keys;
    assert forall key :: key in a.pubOuts ==> a.pubOuts[key] == Listed(a.pubOuts, key) && b.pubOuts[key] == Listed(b.pubOuts, key);
    assert forall key :: key in a.pubOutsPend ==> a.pubOutsPend[key] == Listed(a.pubOutsPend, key) && b.pubOutsPend[key] == Listed(b.pubOutsPend, key);
    assert a.pubOuts == b.pubOuts;
    assert a.pubOutsPend == b.pubOutsPend;
  }

  /** The scan does not depend on its order: from any point of any run, every
      order leaves the same tables and the same indexes, and the tables are those
      of handling all expired transactions at once. */
  lemma ScanOrderIrrelevant(crypto: Crypto, ws: seq<World>, i: nat, one: seq<Txid>, two: seq<Txid>)
    requires Run(crypto, ws) && i < |ws|
    requires Enumerates(one, ws[i].l.pend.Keys) && Enumerates(two, ws[i].l.pend.Keys)
    ensures UpdatePend(crypto, ws[i].l, one) == UpdatePend(crypto, ws[i].l, two)
    ensures var l := ws[i].l;
            var r := UpdatePend(crypto, l, one);
            && r.db == l.db + (map id | id in l.pend.Keys && Promoted(crypto, l, id) :: Stored(l.pend[id].txn, l.pend[id].timestamp))
            && r.pend == map id | id in l.pend && !Expired(l.now, l.pend[id]) :: l.pend[id]
  {
    var w := ws[i];
    RunInv(crypto, ws, i);
    ScannedAll(crypto, w, one);
    ScannedAll(crypto, w, two);
    ScannedAlike(crypto, w.l, w.l.pend.Keys, UpdatePend(crypto, w.l, one), UpdatePend(crypto, w.l, two));
    ScanResult(crypto, w.l, UpdatePend(crypto, w.l, one));
  }

  lemma ScannedAll(crypto: Crypto, w: World, order: seq<Txid>)
    requires Inv(crypto, w) && Enumerates(order, w.l.pend.Keys)
    ensures ScannedTo(crypto, w.l, w.l.pend.Keys, UpdatePend(crypto, w.l, order)) && IndexesOk(crypto, UpdatePend(crypto, w.l, order))
  {
    ScanPrefix(crypto, w, order);
    ScanAllIsUpdatePend(crypto, w, order);
    assert IdsOf(order) == w.l.pend.Keys;
  }

  lemma ScanResult(crypto: Crypto, l: Ledger, r: Ledger)
    requires ScannedTo(crypto, l, l.pend.Keys, r)
    ensures r.db == l.db + map id | id in l.pend.Keys && Promoted(crypto, l, id) :: Stored(l.pend[id].txn, l.pend[id].timestamp)
    ensures r.pend == map id | id in l.pend && !Expired(l.now, l.pend[id]) :: l.pend[id]
  {
    WrittenAll(crypto, l);
    assert PendAfter(l, l.pend.Keys) == map id | id in l.pend && !Expired(l.now, l.pend[id]) :: l.pend[id];
  }

  lemma WrittenAll(crypto: Crypto, l: Ledger)
    ensures DbAfter(crypto, l, l.pend.Keys) ==
              l.db + map id | id in l.pend.Keys && Promoted(crypto, l, id) :: Stored(l.pend[id].txn, l.pend[id].timestamp)
  {
    var ids := PromotedAmong(crypto, l, l.pend.Keys);
    var all := map id | id in l.pend.Keys && Promoted(crypto, l, id) :: Stored(l.pend[id].txn, l.pend[id].timestamp);
    assert all.Keys == ids;
    WrittenIs(l, ids, all);
  }

  lemma WrittenIs(l: Ledger, ids: set<Txid>, all: Table)
    requires all.Keys == ids <= l.pend.Keys
    requires forall id :: id in ids ==> all[id] == Stored(l.pend[id].txn, l.pend[id].timestamp)
    ensures WithWritten(l.db, l.pend, ids) == l.db + all
  {
    var written := map id | id in ids && id in l.pend :: Stored(l.pend[id].txn, l.pend[id].timestamp);
    assert written == all;
  }
}
