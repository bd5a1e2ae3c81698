/** Every transition of the ledger keeps its invariant. A replacement or a
    promotion first sets the inputs of a pending transaction free and then gives
    them to one transaction, or burns them. */
module LedgerSteps {
  import opened LedgerTypes
  import opened LedgerRules
  import opened LedgerInvariant

  lemma OutpointsListed(txn: Txn, o: Outpoint)
    ensures o in OutpointsOf(txn) <==> Includes(txn.inputs, o)
  {
  }

  // ------------------------------------------------- dropping a pending transaction

  lemma DropTakers(crypto: Crypto, w: World, id: Txid)
    requires TablesOk(w) && TakersOk(w, {}) && id in w.l.pend
    ensures TakersOk(World(DropPending(crypto, w.l, w.l.pend[id].txn), w.gone), OutpointsOf(w.l.pend[id].txn))
  {
    var v := World(DropPending(crypto, w.l, w.l.pend[id].txn), w.gone);
    var free := OutpointsOf(w.l.pend[id].txn);
    forall a, o ensures Takes(v, a, o) <==> Takes(w, a, o) && a != id {
    }
    forall o | o in free ensures Takes(w, id, o) {
    }
    forall o | Known(v.l.db, o) && !Flag(v.l.db, o) && o !in free ensures exists a :: Takes(v, a, o) {
      var a :| Takes(w, a, o);
      assert Takes(v, a, o);
    }
  }

  lemma DropIndexes(crypto: Crypto, w: World, id: Txid)
    requires TablesOk(w) && IndexesOk(crypto, w.l) && id in w.l.pend
    ensures IndexesOk(crypto, DropPending(crypto, w.l, w.l.pend[id].txn))
  {
    var l, txn := w.l, w.l.pend[id].txn;
    forall key: Blob, o: Outpoint
      ensures o in Listed(DropPending(crypto, l, txn).pubOutsPend, key) <==> IsPendingOf(crypto, l.pend - {id}, key, o)
    {
      DelOutputsLists(l.pubOutsPend, crypto, id, txn.outputs, key, o);
    }
  }

  lemma DropKeeps(crypto: Crypto, w: World, id: Txid)
    requires Inv(crypto, w) && id in w.l.pend
    ensures Loose(crypto, World(DropPending(crypto, w.l, w.l.pend[id].txn), w.gone), OutpointsOf(w.l.pend[id].txn))
  {
    DropTakers(crypto, w, id);
    DropIndexes(crypto, w, id);
  }

  // ------------------------------------------------------------ burning its inputs

  lemma BurnKeeps(crypto: Crypto, w: World, txn: Txn)
    requires Loose(crypto, w, OutpointsOf(txn)) && TakerTxn(w, txn.txid).None? && WellFormed(crypto, txn)
    ensures Inv(crypto, World(w.l, w.gone[txn.txid := txn]))
  {
    var v := World(w.l, w.gone[txn.txid := txn]);
    forall a, o ensures Takes(v, a, o) <==> Takes(w, a, o) || (a == txn.txid && o in OutpointsOf(txn)) {
    }
    forall o | Known(v.l.db, o) && !Flag(v.l.db, o) ensures exists a :: Takes(v, a, o) {
      if o in OutpointsOf(txn) {
        assert Takes(v, txn.txid, o);
      } else {
        var a :| Takes(w, a, o);
        assert Takes(v, a, o);
      }
    }
  }

  // ------------------------------------------------- giving inputs to a transaction

  /** Every input is unspent or has just been set free, and all that was set free
      is among the inputs. */
  ghost predicate Available(l: Ledger, free: set<Outpoint>, txn: Txn) {
    && free <= OutpointsOf(txn)
    && forall i :: 0 <= i < |txn.inputs| ==>
         Known(l.db, txn.inputs[i].out) && (Flag(l.db, txn.inputs[i].out) || txn.inputs[i].out in free)
  }

  lemma SameIdSameInputs(crypto: Crypto, a: Txn, b: Txn)
    requires WellFormed(crypto, a) && WellFormed(crypto, b) && a.txid == b.txid
    ensures OutpointsOf(a) == OutpointsOf(b) && a.outputs == b.outputs && a.seqNo == b.seqNo && a.timelock == b.timelock
  {
    assert Outs(a.inputs) == Outs(b.inputs);
    assert forall i :: 0 <= i < |a.inputs| ==> a.inputs[i].out == Outs(a.inputs)[i];
    assert forall i :: 0 <= i < |b.inputs| ==> b.inputs[i].out == Outs(b.inputs)[i];
  }

  lemma TakerIsTaken(crypto: Crypto, w: World, txn: Txn)
    requires TablesOk(w) && BodiesOk(crypto, w) && WellFormed(crypto, txn) && txn.txid !in w.l.db
    requires TakerTxn(w, txn.txid).Some?
    ensures Takes(w, txn.txid, txn.inputs[0].out)
  {
    var other := TakerTxn(w, txn.txid).value;
    assert WellFormed(crypto, other) by {
      if txn.txid in w.l.pend {
        assert PendingOk(crypto, w.l.db, w.l.pend[txn.txid]);
      }
    }
    SameIdSameInputs(crypto, other, txn);
  }

  /** A transaction whose inputs are available is not a taker yet. */
  lemma FreshTaker(crypto: Crypto, w: World, free: set<Outpoint>, txn: Txn)
    requires Loose(crypto, w, free) && WellFormed(crypto, txn) && txn.txid !in w.l.db && Available(w.l, free, txn)
    ensures TakerTxn(w, txn.txid).None?
  {
    if TakerTxn(w, txn.txid).Some? {
      TakerIsTaken(crypto, w, txn);
    }
  }

  /** The flags and takers after txn has taken its inputs. */
  lemma GiveTakers(crypto: Crypto, w: World, v: World, free: set<Outpoint>, txn: Txn)
    requires TakersOk(w, free) && Available(w.l, free, txn)
    requires forall a, o :: Takes(v, a, o) <==> Takes(w, a, o) || (a == txn.txid && o in OutpointsOf(txn))
    requires TakerTxn(w, txn.txid).None?
    requires forall o :: Known(w.l.db, o) ==> Known(v.l.db, o) && (Flag(v.l.db, o) <==> Flag(w.l.db, o) && o !in OutpointsOf(txn))
    requires forall o :: Known(v.l.db, o) && !Known(w.l.db, o) ==> Flag(v.l.db, o)
    ensures TakersOk(v, {})
  {
    forall o | o in OutpointsOf(txn) ensures Known(w.l.db, o) && (Flag(w.l.db, o) || o in free) {
      var i :| 0 <= i < |txn.inputs| && txn.inputs[i].out == o;
    }
    forall o | Known(v.l.db, o) && !Flag(v.l.db, o) ensures exists a :: Takes(v, a, o) {
      if o in OutpointsOf(txn) {
        assert Takes(v, txn.txid, o);
      } else {
        var a :| Takes(w, a, o);
        assert Takes(v, a, o);
      }
    }
  }

  lemma SpendIndex(crypto: Crypto, l: Ledger, inputs: seq<Input>)
    requires AllKnown(l.db, inputs)
    requires UnspentIndexOk(crypto, l.pubOuts, l.db)
    ensures UnspentIndexOk(crypto, SpendAll(crypto, l, inputs).pubOuts, SpendAll(crypto, l, inputs).db)
  {
    var s := SpendAll(crypto, l, inputs);
    forall key: Blob, o: Outpoint ensures o in Listed(s.pubOuts, key) <==> IsUnspentOf(crypto, s.db, key, o) {
      SpendAllLists(crypto, l, inputs, key, o);
      ShapeKnown(l.db, s.db, o);
      if Known(l.db, o) {
        SpendAllFlags(crypto, l, inputs, o);
      }
    }
  }

  lemma AvailableKnown(l: Ledger, free: set<Outpoint>, txn: Txn)
    requires Available(l, free, txn)
    ensures AllKnown(l.db, txn.inputs)
  {
  }

  // ---------------------------------------------------------------- reserving

  lemma ReserveFacts(crypto: Crypto, l: Ledger, txn: Txn)
    requires AllKnown(l.db, txn.inputs)
    ensures var r := Reserve(crypto, l, txn);
            && SameShape(l.db, r.db) && r.pend == l.pend[txn.txid := Stored(txn, l.now)] && r.now == l.now
            && r.pubOutsPend == AddOutputs(l.pubOutsPend, crypto, txn.txid, txn.outputs)
            && forall o :: Known(l.db, o) ==> Known(r.db, o) && (Flag(r.db, o) <==> Flag(l.db, o) && o !in OutpointsOf(txn))
  {
    var k := l.(pend := l.pend[txn.txid := Stored(txn, l.now)],
                pubOutsPend := AddOutputs(l.pubOutsPend, crypto, txn.txid, txn.outputs));
    forall o | Known(l.db, o)
      ensures Known(Reserve(crypto, l, txn).db, o)
      ensures Flag(Reserve(crypto, l, txn).db, o) <==> Flag(l.db, o) && o !in OutpointsOf(txn)
    {
      SpendAllFlags(crypto, k, txn.inputs, o);
      OutpointsListed(txn, o);
    }
  }

  lemma ReserveIndexes(crypto: Crypto, l: Ledger, txn: Txn)
    requires IndexesOk(crypto, l) && AllKnown(l.db, txn.inputs) && txn.txid !in l.pend
    ensures IndexesOk(crypto, Reserve(crypto, l, txn))
  {
    var k := l.(pend := l.pend[txn.txid := Stored(txn, l.now)],
                pubOutsPend := AddOutputs(l.pubOutsPend, crypto, txn.txid, txn.outputs));
    var r := Reserve(crypto, l, txn);
    assert r == SpendAll(crypto, k, txn.inputs);
    SpendIndex(crypto, k, txn.inputs);
    forall key: Blob, o: Outpoint ensures o in Listed(k.pubOutsPend, key) <==> IsPendingOf(crypto, k.pend, key, o) {
      AddOutputsLists(l.pubOutsPend, crypto, txn.txid, txn.outputs, key, o);
    }
  }

  lemma ShapeExtends(a: Table, b: Table)
    requires SameShape(a, b)
    ensures Extends(a, b)
  {
  }

  lemma ReserveBodies(crypto: Crypto, w: World, r: Ledger, txn: Txn)
    requires BodiesOk(crypto, w) && SameShape(w.l.db, r.db) && r.pend == w.l.pend[txn.txid := Stored(txn, w.l.now)]
    requires PendingOk(crypto, w.l.db, Stored(txn, w.l.now))
    ensures BodiesOk(crypto, World(r, w.gone))
  {
    ShapeExtends(w.l.db, r.db);
    forall id | id in r.pend ensures PendingOk(crypto, r.db, r.pend[id]) {
      ExtendsPending(crypto, w.l.db, r.db, r.pend[id]);
    }
  }

  lemma ReserveKeeps(crypto: Crypto, w: World, free: set<Outpoint>, txn: Txn)
    requires Loose(crypto, w, free) && WellFormed(crypto, txn) && txn.timelock > 0 && Available(w.l, free, txn)
    requires Sound(crypto, w.l, txn)
    ensures AllKnown(w.l.db, txn.inputs) && Inv(crypto, World(Reserve(crypto, w.l, txn), w.gone))
  {
    AvailableKnown(w.l, free, txn);
    var r := Reserve(crypto, w.l, txn);
    var v := World(r, w.gone);
    FreshTaker(crypto, w, free, txn);
    ReserveFacts(crypto, w.l, txn);
    ReserveIndexes(crypto, w.l, txn);
    ReserveBodies(crypto, w, r, txn);
    ReserveTakers(crypto, w, r, free, txn);
  }

  lemma ReserveTakers(crypto: Crypto, w: World, r: Ledger, free: set<Outpoint>, txn: Txn)
    requires TablesOk(w) && TakersOk(w, free) && Available(w.l, free, txn) && TakerTxn(w, txn.txid).None?
    requires SameShape(w.l.db, r.db) && r.pend == w.l.pend[txn.txid := Stored(txn, w.l.now)]
    requires forall o :: Known(w.l.db, o) ==> Known(r.db, o) && (Flag(r.db, o) <==> Flag(w.l.db, o) && o !in OutpointsOf(txn))
    ensures TablesOk(World(r, w.gone)) && TakersOk(World(r, w.gone), {})
  {
    var v := World(r, w.gone);
    assert forall a, o :: Takes(v, a, o) <==> Takes(w, a, o) || (a == txn.txid && o in OutpointsOf(txn));
    forall o | Known(v.l.db, o) ensures Known(w.l.db, o) {
      ShapeKnown(w.l.db, r.db, o);
    }
    GiveTakers(crypto, w, v, free, txn);
  }

  // ------------------------------------------------------------------ writing

  lemma WriteFacts(crypto: Crypto, l: Ledger, txn: Txn, timestamp: int)
    requires AllKnown(l.db, txn.inputs) && txn.txid !in l.db && Filed(l.db)
    ensures var r := Write(crypto, l, txn, timestamp);
            && r.db.Keys == l.db.Keys + {txn.txid} && Filed(r.db) && r.db[txn.txid] == Stored(txn, timestamp)
            && (forall id :: id in l.db ==> r.db[id].txn == l.db[id].txn && r.db[id].timestamp == l.db[id].timestamp)
            && r.pend == l.pend && r.pubOutsPend == l.pubOutsPend && r.now == l.now
            && (forall o :: Known(l.db, o) ==> Known(r.db, o) && (Flag(r.db, o) <==> Flag(l.db, o) && o !in OutpointsOf(txn)))
            && (forall o :: Known(r.db, o) && !Known(l.db, o) ==> o.txid == txn.txid && Flag(r.db, o))
  {
    var r := Write(crypto, l, txn, timestamp);
    forall o | Known(l.db, o) ensures Known(r.db, o) && (Flag(r.db, o) <==> Flag(l.db, o) && o !in OutpointsOf(txn)) {
      SpendAllFlags(crypto, l, txn.inputs, o);
      OutpointsListed(txn, o);
    }
  }

  lemma WriteIndexes(crypto: Crypto, l: Ledger, txn: Txn, timestamp: int)
    requires IndexesOk(crypto, l) && AllKnown(l.db, txn.inputs) && txn.txid !in l.db
    ensures IndexesOk(crypto, Write(crypto, l, txn, timestamp))
  {
    var s := SpendAll(crypto, l, txn.inputs);
    var r := Write(crypto, l, txn, timestamp);
    SpendIndex(crypto, l, txn.inputs);
    assert UnspentIndexOk(crypto, s.pubOuts, s.db);
    forall key: Blob, o: Outpoint ensures o in Listed(r.pubOuts, key) <==> IsUnspentOf(crypto, r.db, key, o) {
      AddOutputsLists(s.pubOuts, crypto, txn.txid, txn.outputs, key, o);
      if o.txid == txn.txid {
        assert Known(r.db, o) <==> o.index < |txn.outputs|;
      } else {
        assert Known(s.db, o) <==> Known(r.db, o);
      }
    }
  }

  lemma WriteExtends(l: Ledger, r: Ledger, txn: Txn)
    requires forall o :: Known(l.db, o) ==> Known(r.db, o)
    requires forall id :: id in l.db ==> id in r.db && r.db[id].txn == l.db[id].txn && r.db[id].timestamp == l.db[id].timestamp
    ensures Extends(l.db, r.db)
  {
  }

  lemma WriteKeeps(crypto: Crypto, w: World, free: set<Outpoint>, txn: Txn, timestamp: int)
    requires Loose(crypto, w, free) && WellFormed(crypto, txn) && Available(w.l, free, txn) && txn.txid !in w.l.db
    ensures AllKnown(w.l.db, txn.inputs) && Inv(crypto, World(Write(crypto, w.l, txn, timestamp), w.gone))
  {
    AvailableKnown(w.l, free, txn);
    var r := Write(crypto, w.l, txn, timestamp);
    FreshTaker(crypto, w, free, txn);
    WriteFacts(crypto, w.l, txn, timestamp);
    WriteIndexes(crypto, w.l, txn, timestamp);
    WriteBodies(crypto, w, r, txn, timestamp);
    WriteTakers(crypto, w, r, free, txn, timestamp);
  }

  lemma WriteBodies(crypto: Crypto, w: World, r: Ledger, txn: Txn, timestamp: int)
    requires BodiesOk(crypto, w) && WellFormed(crypto, txn) && r.pend == w.l.pend
    requires r.db.Keys == w.l.db.Keys + {txn.txid} && r.db[txn.txid] == Stored(txn, timestamp)
    requires forall id :: id in w.l.db ==> r.db[id].txn == w.l.db[id].txn && r.db[id].timestamp == w.l.db[id].timestamp
    requires forall o :: Known(w.l.db, o) ==> Known(r.db, o)
    ensures BodiesOk(crypto, World(r, w.gone))
  {
    WriteExtends(w.l, r, txn);
    forall id | id in r.pend ensures PendingOk(crypto, r.db, r.pend[id]) {
      ExtendsPending(crypto, w.l.db, r.db, r.pend[id]);
    }
  }

  lemma WriteTakers(crypto: Crypto, w: World, r: Ledger, free: set<Outpoint>, txn: Txn, timestamp: int)
    requires TablesOk(w) && TakersOk(w, free) && Available(w.l, free, txn) && TakerTxn(w, txn.txid).None?
    requires r.pend == w.l.pend && Filed(r.db)
    requires r.db.Keys == w.l.db.Keys + {txn.txid} && r.db[txn.txid] == Stored(txn, timestamp)
    requires forall id :: id in w.l.db ==> r.db[id].txn == w.l.db[id].txn
    requires forall o :: Known(w.l.db, o) ==> Known(r.db, o) && (Flag(r.db, o) <==> Flag(w.l.db, o) && o !in OutpointsOf(txn))
    requires forall o :: Known(r.db, o) && !Known(w.l.db, o) ==> Flag(r.db, o)
    ensures TablesOk(World(r, w.gone)) && TakersOk(World(r, w.gone), {})
  {
    var v := World(r, w.gone);
    assert forall a, o :: Takes(v, a, o) <==> Takes(w, a, o) || (a == txn.txid && o in OutpointsOf(txn));
    GiveTakers(crypto, w, v, free, txn);
  }
}
