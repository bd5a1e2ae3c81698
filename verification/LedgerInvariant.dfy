/** What holds between any two transactions of any run: every outpoint has at
    most one taker, pending transactions stay signed and balanced, and the
    indexes list exactly what they should. */
module LedgerInvariant {
  import opened Options
  import opened LedgerTypes
  import opened LedgerRules

  /** History: `gone` holds the pending transactions that failed at expiry. */
  datatype World = World(l: Ledger, gone: map<Txid, Txn>)

  ghost function TakerTxn(w: World, id: Txid): Option<Txn> {
    if id in w.l.db then Some(w.l.db[id].txn)
    else if id in w.l.pend then Some(w.l.pend[id].txn)
    else if id in w.gone then Some(w.gone[id])
    else None
  }

  /** Transaction id has taken outpoint o: it spent it, reserved it, or burned it. */
  ghost predicate Takes(w: World, id: Txid, o: Outpoint) {
    TakerTxn(w, id).Some? && o in OutpointsOf(TakerTxn(w, id).value)
  }

  ghost predicate TablesOk(w: World) {
    && Filed(w.l.db) && Filed(w.l.pend)
    && w.l.db.Keys !! w.l.pend.Keys && w.l.db.Keys !! w.gone.Keys && w.l.pend.Keys !! w.gone.Keys
    && forall id :: id in w.gone ==> w.gone[id].txid == id
  }

  /** A pending transaction is timelocked and balanced, and every input carried
      a valid authorisation when it was accepted. */
  ghost predicate PendingOk(crypto: Crypto, db: Table, p: Wrapper) {
    && WellFormed(crypto, p.txn) && p.txn.timelock > 0
    && InputTotal(db, p.txn.inputs) == OutputTotal(p.txn.outputs)
    && p.utxos == AllUnspent(p.txn)
    && forall i :: 0 <= i < |p.txn.inputs| ==> InputOk(crypto, db, p.timestamp, p.txn.txid, p.txn.inputs[i])
  }

  ghost predicate BodiesOk(crypto: Crypto, w: World) {
    && (forall id :: id in w.l.pend ==> PendingOk(crypto, w.l.db, w.l.pend[id]))
    && (forall id :: id in w.l.db ==> w.l.db[id].txn.inputs == [] || WellFormed(crypto, w.l.db[id].txn))
    && (forall id :: id in w.gone ==> WellFormed(crypto, w.gone[id]))
  }

  /** No outpoint is taken twice; a taken outpoint is stored and marked spent; and
      an output marked spent was taken, unless it is in `free`, the inputs of the
      transaction that is being replaced or promoted. */
  ghost predicate TakersOk(w: World, free: set<Outpoint>) {
    && (forall a, b, o :: Takes(w, a, o) && Takes(w, b, o) ==> a == b)
    && (forall id, o :: Takes(w, id, o) ==> Known(w.l.db, o) && !Flag(w.l.db, o) && o !in free)
    && (forall o :: o in free ==> Known(w.l.db, o) && !Flag(w.l.db, o))
    && (forall o :: Known(w.l.db, o) && !Flag(w.l.db, o) && o !in free ==> exists id :: Takes(w, id, o))
  }

  ghost predicate IsUnspentOf(crypto: Crypto, db: Table, key: Blob, o: Outpoint) {
    Known(db, o) && Flag(db, o) && key in crypto.pubkeys(OutputAt(db, o))
  }

  ghost predicate IsPendingOf(crypto: Crypto, pend: Table, key: Blob, o: Outpoint) {
    o.txid in pend && Mentions(crypto, pend[o.txid].txn.outputs, o.index, key)
  }

  /** pub_outs[key] lists exactly the unspent stored outputs that mention key. */
  ghost predicate UnspentIndexOk(crypto: Crypto, index: Index, db: Table) {
    forall key: Blob, o: Outpoint :: o in Listed(index, key) <==> IsUnspentOf(crypto, db, key, o)
  }

  /** pub_outs_pend[key] lists exactly the outputs of pending transactions that
      mention key. */
  ghost predicate PendingIndexOk(crypto: Crypto, index: Index, pend: Table) {
    forall key: Blob, o: Outpoint :: o in Listed(index, key) <==> IsPendingOf(crypto, pend, key, o)
  }

  ghost predicate IndexesOk(crypto: Crypto, l: Ledger) {
    UnspentIndexOk(crypto, l.pubOuts, l.db) && PendingIndexOk(crypto, l.pubOutsPend, l.pend)
  }

  ghost predicate Loose(crypto: Crypto, w: World, free: set<Outpoint>) {
    TablesOk(w) && BodiesOk(crypto, w) && TakersOk(w, free) && IndexesOk(crypto, w.l)
  }

  ghost predicate Inv(crypto: Crypto, w: World) {
    Loose(crypto, w, {})
  }

  // --------------------------------------------------------- marking inputs spent

  ghost predicate Includes(inputs: seq<Input>, o: Outpoint) {
    exists i :: 0 <= i < |inputs| && inputs[i].out == o
  }

  lemma IncludesLast(inputs: seq<Input>, o: Outpoint)
    requires inputs != []
    ensures Includes(inputs, o) <==> Includes(inputs[..|inputs| - 1], o) || inputs[|inputs| - 1].out == o
  {
    if Includes(inputs, o) {
      var i :| 0 <= i < |inputs| && inputs[i].out == o;
      if i < |inputs| - 1 {
        assert inputs[..|inputs| - 1][i].out == o;
      }
    }
    if Includes(inputs[..|inputs| - 1], o) {
      var i :| 0 <= i < |inputs| - 1 && inputs[..|inputs| - 1][i].out == o;
      assert inputs[i].out == o;
    }
  }

  lemma ShapeKnown(a: Table, b: Table, o: Outpoint)
    requires SameShape(a, b)
    ensures Known(a, o) <==> Known(b, o)
    ensures Known(a, o) ==> OutputAt(b, o) == OutputAt(a, o) && b[o.txid].timestamp == a[o.txid].timestamp
  {
  }

  lemma {:induction false} SpendAllFlags(crypto: Crypto, l: Ledger, inputs: seq<Input>, o: Outpoint)
    requires AllKnown(l.db, inputs) && Known(l.db, o)
    ensures Known(SpendAll(crypto, l, inputs).db, o)
    ensures Flag(SpendAll(crypto, l, inputs).db, o) <==> Flag(l.db, o) && !Includes(inputs, o)
    decreases |inputs|
  {
    if inputs != [] {
      SpendAllFlags(crypto, l, inputs[..|inputs| - 1], o);
      IncludesLast(inputs, o);
    }
  }

  lemma {:induction false} SpendAllLists(crypto: Crypto, l: Ledger, inputs: seq<Input>, key: Blob, o: Outpoint)
    requires AllKnown(l.db, inputs)
    ensures o in Listed(SpendAll(crypto, l, inputs).pubOuts, key) <==>
              o in Listed(l.pubOuts, key) && !(Includes(inputs, o) && Known(l.db, o) && key in crypto.pubkeys(OutputAt(l.db, o)))
    decreases |inputs|
  {
    if inputs != [] {
      var n := |inputs| - 1;
      var s := SpendAll(crypto, l, inputs[..n]);
      SpendAllLists(crypto, l, inputs[..n], key, o);
      IncludesLast(inputs, o);
      DelKeysLists(s.pubOuts, crypto.pubkeys(OutputAt(s.db, inputs[n].out)), inputs[n].out, key);
      ShapeKnown(l.db, s.db, o);
      ShapeKnown(l.db, s.db, inputs[n].out);
    }
  }

  lemma {:induction false} ShapeInputTotal(a: Table, b: Table, inputs: seq<Input>)
    requires forall i :: 0 <= i < |inputs| ==> Known(a, inputs[i].out) && Known(b, inputs[i].out) && OutputAt(a, inputs[i].out) == OutputAt(b, inputs[i].out)
    ensures InputTotal(a, inputs) == InputTotal(b, inputs)
    decreases |inputs|
  {
    if inputs != [] {
      ShapeInputTotal(a, b, inputs[..|inputs| - 1]);
    }
  }

  /** A table that keeps all stored outputs and their times, whatever the flags. */
  ghost predicate Extends(a: Table, b: Table) {
    forall o :: Known(a, o) ==> Known(b, o) && OutputAt(b, o) == OutputAt(a, o) && b[o.txid].timestamp == a[o.txid].timestamp
  }

  lemma ExtendsPending(crypto: Crypto, a: Table, b: Table, p: Wrapper)
    requires Extends(a, b) && PendingOk(crypto, a, p)
    ensures PendingOk(crypto, b, p)
  {
    forall i | 0 <= i < |p.txn.inputs| ensures InputOk(crypto, b, p.timestamp, p.txn.txid, p.txn.inputs[i]) {
      assert InputOk(crypto, a, p.timestamp, p.txn.txid, p.txn.inputs[i]);
    }
    ShapeInputTotal(a, b, p.txn.inputs);
  }
}
