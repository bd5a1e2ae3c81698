/** Conservation: unspent stored outputs, outputs of pending transactions and
    outputs of transactions that failed at expiry always add up to the supply of
    the genesis. */
module LedgerValue {
  import opened Sums
  import opened LedgerTypes
  import opened LedgerRules
  import opened LedgerInvariant
  import opened LedgerSteps
  import opened LedgerRuns

  ghost function UnspentSum(outputs: seq<Output>, utxos: seq<bool>): nat
    requires |utxos| == |outputs|
    decreases |outputs|
  {
    if outputs == [] then 0
    else
      var n := |outputs| - 1;
      UnspentSum(outputs[..n], utxos[..n]) + if utxos[n] then outputs[n].amount else 0
  }

  ghost function UnspentOf(db: Table): Txid -> int {
    id => if id in db && |db[id].utxos| == |db[id].txn.outputs| then UnspentSum(db[id].txn.outputs, db[id].utxos) else 0
  }

  ghost function Unspent(db: Table): int {
    SumOver(db.Keys, UnspentOf(db))
  }

  ghost function PendingOf(pend: Table): Txid -> int {
    id => if id in pend then OutputTotal(pend[id].txn.outputs) else 0
  }

  ghost function GoneOf(gone: map<Txid, Txn>): Txid -> int {
    id => if id in gone then OutputTotal(gone[id].outputs) else 0
  }

  ghost function Supply(w: World): int {
    Unspent(w.l.db) + SumOver(w.l.pend.Keys, PendingOf(w.l.pend)) + SumOver(w.gone.Keys, GoneOf(w.gone))
  }

  // ---------------------------------------------------------- single tables

  lemma {:induction false} FlagOff(outputs: seq<Output>, utxos: seq<bool>, i: nat)
    requires |utxos| == |outputs| && i < |outputs|
    ensures UnspentSum(outputs, utxos[i := false]) == UnspentSum(outputs, utxos) - if utxos[i] then outputs[i].amount else 0
    decreases |outputs|
  {
    var n := |outputs| - 1;
    if i < n {
      FlagOff(outputs[..n], utxos[..n], i);
      assert utxos[i := false][..n] == utxos[..n][i := false];
    } else {
      assert utxos[i := false][..n] == utxos[..n];
    }
  }

  lemma {:induction false} AllOn(outputs: seq<Output>, utxos: seq<bool>)
    requires |utxos| == |outputs| && forall i :: 0 <= i < |utxos| ==> utxos[i]
    ensures UnspentSum(outputs, utxos) == OutputTotal(outputs)
    decreases |outputs|
  {
    if outputs != [] {
      AllOn(outputs[..|outputs| - 1], utxos[..|outputs| - 1]);
    }
  }

  lemma MarkSpentValue(crypto: Crypto, l: Ledger, o: Outpoint)
    requires Known(l.db, o) && Filed(l.db)
    ensures Unspent(MarkSpent(crypto, l, o).db) == Unspent(l.db) - if Flag(l.db, o) then AmountAt(l.db, o) else 0
  {
    var w := l.db[o.txid];
    var db := MarkSpent(crypto, l, o).db;
    assert db.Keys == l.db.Keys;
    FlagOff(w.txn.outputs, w.utxos, o.index);
    SumChange(l.db.Keys, o.txid, UnspentOf(l.db), UnspentOf(db));
  }

  /** What marking the inputs spent takes out of the unspent total. */
  ghost function Taken(crypto: Crypto, l: Ledger, inputs: seq<Input>): nat
    requires AllKnown(l.db, inputs)
    decreases |inputs|
  {
    if inputs == [] then 0
    else
      var n := |inputs| - 1;
      var s := SpendAll(crypto, l, inputs[..n]);
      Taken(crypto, l, inputs[..n]) + if Flag(s.db, inputs[n].out) then AmountAt(l.db, inputs[n].out) else 0
  }

  lemma {:induction false} SpendAllValue(crypto: Crypto, l: Ledger, inputs: seq<Input>)
    requires AllKnown(l.db, inputs) && Filed(l.db)
    ensures Unspent(SpendAll(crypto, l, inputs).db) == Unspent(l.db) - Taken(crypto, l, inputs)
    decreases |inputs|
  {
    if inputs != [] {
      var n := |inputs| - 1;
      var s := SpendAll(crypto, l, inputs[..n]);
      SpendAllValue(crypto, l, inputs[..n]);
      MarkSpentValue(crypto, s, inputs[n].out);
      ShapeKnown(l.db, s.db, inputs[n].out);
    }
  }

  lemma {:induction false} NothingTaken(crypto: Crypto, l: Ledger, inputs: seq<Input>)
    requires AllKnown(l.db, inputs) && forall i :: 0 <= i < |inputs| ==> !Flag(l.db, inputs[i].out)
    ensures Taken(crypto, l, inputs) == 0
    decreases |inputs|
  {
    if inputs != [] {
      var n := |inputs| - 1;
      NothingTaken(crypto, l, inputs[..n]);
      SpendAllFlags(crypto, l, inputs[..n], inputs[n].out);
    }
  }

  /** Every outpoint that is listed again carries nothing. */
  ghost predicate RepeatsCarryNothing(db: Table, inputs: seq<Input>) {
    forall i, j :: 0 <= i < j < |inputs| && inputs[i].out == inputs[j].out ==> AmountAt(db, inputs[j].out) == 0
  }

  lemma RepeatsLast(db: Table, inputs: seq<Input>)
    requires inputs != []
    ensures var n := |inputs| - 1;
            RepeatsCarryNothing(db, inputs) <==>
              && RepeatsCarryNothing(db, inputs[..n])
              && (Includes(inputs[..n], inputs[n].out) ==> AmountAt(db, inputs[n].out) == 0)
  {
    var n := |inputs| - 1;
    var before := inputs[..n];
    if RepeatsCarryNothing(db, inputs) && Includes(before, inputs[n].out) {
      var i :| 0 <= i < n && before[i].out == inputs[n].out;
      assert inputs[i].out == inputs[n].out;
    }
    if RepeatsCarryNothing(db, inputs) {
      assert forall i, j :: 0 <= i < j < n ==> before[i] == inputs[i] && before[j] == inputs[j];
    }
    if RepeatsCarryNothing(db, before) && (Includes(before, inputs[n].out) ==> AmountAt(db, inputs[n].out) == 0) {
      forall i, j | 0 <= i < j < |inputs| && inputs[i].out == inputs[j].out ensures AmountAt(db, inputs[j].out) == 0 {
        assert before[i] == inputs[i];
        if j < n {
          assert before[j] == inputs[j];
        }
      }
    }
  }

  ghost function AmountOf(table: Table): Outpoint -> int {
    o => AmountAt(table, o)
  }

  /** The amounts of the outpoints of a transaction, each once. */
  ghost function OnceTotal(db: Table, inputs: seq<Input>): int {
    SumOver(OutsOf(inputs), AmountOf(db))
  }

  ghost function OutsOf(inputs: seq<Input>): set<Outpoint> {
    set i | 0 <= i < |inputs| :: inputs[i].out
  }

  lemma OutsNext(inputs: seq<Input>)
    requires inputs != []
    ensures var n := |inputs| - 1;
            && OutsOf(inputs) == OutsOf(inputs[..n]) + {inputs[n].out}
            && (inputs[n].out in OutsOf(inputs[..n]) <==> Includes(inputs[..n], inputs[n].out))
  {
    var n := |inputs| - 1;
    forall o ensures o in OutsOf(inputs) <==> o in OutsOf(inputs[..n]) || o == inputs[n].out {
      IncludesLast(inputs, o);
      assert Includes(inputs, o) <==> o in OutsOf(inputs);
      assert Includes(inputs[..n], o) <==> o in OutsOf(inputs[..n]);
    }
  }

  /** What the listings of outpoints that were listed before add. */
  ghost function Excess(db: Table, inputs: seq<Input>): nat
    decreases |inputs|
  {
    if inputs == [] then 0
    else
      var n := |inputs| - 1;
      Excess(db, inputs[..n]) + if Includes(inputs[..n], inputs[n].out) then AmountAt(db, inputs[n].out) else 0
  }

  lemma {:induction false} ExcessIsRest(db: Table, inputs: seq<Input>)
    ensures InputTotal(db, inputs) == OnceTotal(db, inputs) + Excess(db, inputs)
    decreases |inputs|
  {
    if inputs != [] {
      var n := |inputs| - 1;
      ExcessIsRest(db, inputs[..n]);
      OutsNext(inputs);
      if Includes(inputs[..n], inputs[n].out) {
        assert OutsOf(inputs) == OutsOf(inputs[..n]);
      } else {
        SumAdd(OutsOf(inputs[..n]), inputs[n].out, AmountOf(db));
      }
    }
  }

  lemma {:induction false} NoExcessIff(db: Table, inputs: seq<Input>)
    ensures Excess(db, inputs) == 0 <==> RepeatsCarryNothing(db, inputs)
    decreases |inputs|
  {
    if inputs != [] {
      NoExcessIff(db, inputs[..|inputs| - 1]);
      RepeatsLast(db, inputs);
    }
  }

  lemma {:induction false} SameExcess(a: Table, b: Table, inputs: seq<Input>)
    requires Extends(a, b) && AllKnown(a, inputs)
    ensures Excess(b, inputs) == Excess(a, inputs)
    decreases |inputs|
  {
    if inputs != [] {
      SameExcess(a, b, inputs[..|inputs| - 1]);
    }
  }

  /** Unspent inputs are taken once, however often they are listed. */
  lemma {:induction false} TakenOnce(crypto: Crypto, l: Ledger, inputs: seq<Input>)
    requires AllKnown(l.db, inputs) && forall i :: 0 <= i < |inputs| ==> Flag(l.db, inputs[i].out)
    ensures Taken(crypto, l, inputs) == OnceTotal(l.db, inputs)
    decreases |inputs|
  {
    if inputs != [] {
      var n := |inputs| - 1;
      TakenOnce(crypto, l, inputs[..n]);
      SpendAllFlags(crypto, l, inputs[..n], inputs[n].out);
      OutsNext(inputs);
      if Includes(inputs[..n], inputs[n].out) {
        assert OutsOf(inputs) == OutsOf(inputs[..n]);
      } else {
        SumAdd(OutsOf(inputs[..n]), inputs[n].out, AmountOf(l.db));
      }
    }
  }

  /** What is taken against what is counted. */
  lemma TakenIsCounted(crypto: Crypto, l: Ledger, inputs: seq<Input>)
    requires AllKnown(l.db, inputs) && forall i :: 0 <= i < |inputs| ==> Flag(l.db, inputs[i].out)
    ensures Taken(crypto, l, inputs) <= InputTotal(l.db, inputs)
    ensures Taken(crypto, l, inputs) == InputTotal(l.db, inputs) <==> RepeatsCarryNothing(l.db, inputs)
  {
    TakenOnce(crypto, l, inputs);
    ExcessIsRest(l.db, inputs);
    NoExcessIff(l.db, inputs);
  }

  // -------------------------------------------------------------- transitions

  lemma DropValue(crypto: Crypto, l: Ledger, id: Txid)
    requires id in l.pend && l.pend[id].txn.txid == id
    ensures var k := DropPending(crypto, l, l.pend[id].txn);
            SumOver(k.pend.Keys, PendingOf(k.pend)) ==
              SumOver(l.pend.Keys, PendingOf(l.pend)) - OutputTotal(l.pend[id].txn.outputs)
  {
    var k := DropPending(crypto, l, l.pend[id].txn);
    SumTake(l.pend.Keys, id, PendingOf(l.pend));
    assert k.pend.Keys == l.pend.Keys - {id};
    SumSame(k.pend.Keys, PendingOf(l.pend), PendingOf(k.pend));
  }

  lemma ReserveValue(crypto: Crypto, l: Ledger, txn: Txn)
    requires AllKnown(l.db, txn.inputs) && Filed(l.db) && txn.txid !in l.pend
    ensures var r := Reserve(crypto, l, txn);
            && Unspent(r.db) == Unspent(l.db) - Taken(crypto, l, txn.inputs)
            && SumOver(r.pend.Keys, PendingOf(r.pend)) == SumOver(l.pend.Keys, PendingOf(l.pend)) + OutputTotal(txn.outputs)
  {
    var r := Reserve(crypto, l, txn);
    var k := l.(pend := l.pend[txn.txid := Stored(txn, l.now)],
                pubOutsPend := AddOutputs(l.pubOutsPend, crypto, txn.txid, txn.outputs));
    SpendAllValue(crypto, k, txn.inputs);
    SameTaken(crypto, l, k, txn.inputs);
    assert r.pend.Keys == l.pend.Keys + {txn.txid};
    SumAdd(l.pend.Keys, txn.txid, PendingOf(r.pend));
    SumSame(l.pend.Keys, PendingOf(l.pend), PendingOf(r.pend));
  }

  /** What is taken depends on the stored table only. */
  lemma {:induction false} SameTaken(crypto: Crypto, l: Ledger, k: Ledger, inputs: seq<Input>)
    requires AllKnown(l.db, inputs) && k.db == l.db
    ensures Taken(crypto, k, inputs) == Taken(crypto, l, inputs)
    decreases |inputs|
  {
    if inputs != [] {
      var n := |inputs| - 1;
      SameTaken(crypto, l, k, inputs[..n]);
      SpendAllFlags(crypto, l, inputs[..n], inputs[n].out);
      SpendAllFlags(crypto, k, inputs[..n], inputs[n].out);
    }
  }

  lemma NewEntryValue(a: Table, b: Table, txn: Txn, timestamp: int)
    requires txn.txid !in a && b == a[txn.txid := Stored(txn, timestamp)]
    ensures Unspent(b) == Unspent(a) + OutputTotal(txn.outputs)
  {
    AllOn(txn.outputs, AllUnspent(txn));
    assert b.Keys == a.Keys + {txn.txid};
    SumAdd(a.Keys, txn.txid, UnspentOf(b));
    SumSame(a.Keys, UnspentOf(a), UnspentOf(b));
  }

  lemma WriteValue(crypto: Crypto, l: Ledger, txn: Txn, timestamp: int)
    requires AllKnown(l.db, txn.inputs) && Filed(l.db) && txn.txid !in l.db
    ensures Unspent(Write(crypto, l, txn, timestamp).db) ==
              Unspent(l.db) - Taken(crypto, l, txn.inputs) + OutputTotal(txn.outputs)
  {
    var s := SpendAll(crypto, l, txn.inputs);
    SpendAllValue(crypto, l, txn.inputs);
    NewEntryValue(s.db, Write(crypto, l, txn, timestamp).db, txn, timestamp);
  }

  /** Taking the inputs of a sound transaction and filing it. */
  lemma FileValue(crypto: Crypto, k: Ledger, gone: map<Txid, Txn>, txn: Txn)
    requires AllKnown(k.db, txn.inputs) && Filed(k.db) && txn.txid !in k.db && txn.txid !in k.pend
    ensures var l := if txn.timelock > 0 then Reserve(crypto, k, txn) else Write(crypto, k, txn, k.now);
            Supply(World(l, gone)) == Supply(World(k, gone)) - Taken(crypto, k, txn.inputs) + OutputTotal(txn.outputs)
  {
    if txn.timelock > 0 {
      ReserveValue(crypto, k, txn);
    } else {
      WriteValue(crypto, k, txn, k.now);
    }
  }

  /** A transaction that replaces none: its inputs are taken once, and counted as
      often as it lists them. */
  lemma ProcessFreeValue(crypto: Crypto, w: World, txn: Txn)
    requires Inv(crypto, w) && WellFormed(crypto, txn) && Acceptable(crypto, w.l, txn) && VerdictOf(w.l, txn).Free?
    ensures Supply(World(Admit(crypto, w.l, txn), w.gone)) == Supply(w) + Excess(w.l.db, txn.inputs)
  {
    AdmitIs(crypto, w.l, txn);
    FreeAvailable(crypto, w.l, txn);
    FreshTaker(crypto, w, {}, txn);
    FileValue(crypto, w.l, w.gone, txn);
    TakenOnce(crypto, w.l, txn.inputs);
    ExcessIsRest(w.l.db, txn.inputs);
  }

  lemma RivalTaken(crypto: Crypto, k: Ledger, gone: map<Txid, Txn>, txn: Txn)
    requires TakersOk(World(k, gone), OutpointsOf(txn)) && AllKnown(k.db, txn.inputs)
    ensures Taken(crypto, k, txn.inputs) == 0
  {
    forall i | 0 <= i < |txn.inputs| ensures !Flag(k.db, txn.inputs[i].out) {
      assert txn.inputs[i].out in OutpointsOf(txn);
    }
    NothingTaken(crypto, k, txn.inputs);
  }

  lemma DropSupply(crypto: Crypto, w: World, id: Txid)
    requires Inv(crypto, w) && id in w.l.pend
    ensures var k := DropPending(crypto, w.l, w.l.pend[id].txn);
            && Loose(crypto, World(k, w.gone), OutpointsOf(w.l.pend[id].txn))
            && Supply(World(k, w.gone)) == Supply(w) - OutputTotal(w.l.pend[id].txn.outputs)
  {
    DropKeeps(crypto, w, id);
    DropValue(crypto, w.l, id);
  }

  /** A transaction that replaces another takes nothing new. The inputs are compared
      as sets, so it may list them more often than the one it pushes out. */
  lemma ReplaceValue(crypto: Crypto, w: World, txn: Txn, id: Txid)
    requires Inv(crypto, w) && WellFormed(crypto, txn) && Acceptable(crypto, w.l, txn) && VerdictOf(w.l, txn) == Replaces(id)
    ensures Supply(World(Admit(crypto, w.l, txn), w.gone)) ==
              Supply(w) + Excess(w.l.db, txn.inputs) - Excess(w.l.db, w.l.pend[id].txn.inputs)
  {
    ReplaceFacts(crypto, w, txn, id);
    AdmitIs(crypto, w.l, txn);
    FileValue(crypto, DropPending(crypto, w.l, w.l.pend[id].txn), w.gone, txn);
    SameInputsExcess(w.l.db, txn, w.l.pend[id].txn);
  }

  lemma SameInputsExcess(db: Table, a: Txn, b: Txn)
    requires SameInputs(b, a)
    ensures Excess(db, a.inputs) - Excess(db, b.inputs) == InputTotal(db, a.inputs) - InputTotal(db, b.inputs)
  {
    assert OutsOf(a.inputs) == OutpointsOf(a) && OutsOf(b.inputs) == OutpointsOf(b);
    ExcessIsRest(db, a.inputs);
    ExcessIsRest(db, b.inputs);
  }

  lemma ReplaceFacts(crypto: Crypto, w: World, txn: Txn, id: Txid)
    requires Inv(crypto, w) && WellFormed(crypto, txn) && Sound(crypto, w.l, txn)
    requires id in w.l.pend && SameInputs(w.l.pend[id].txn, txn)
    ensures var k := DropPending(crypto, w.l, w.l.pend[id].txn);
            && AllKnown(k.db, txn.inputs) && Taken(crypto, k, txn.inputs) == 0
            && Filed(k.db) && txn.txid !in k.db && txn.txid !in k.pend
            && Supply(World(k, w.gone)) == Supply(w) - InputTotal(w.l.db, w.l.pend[id].txn.inputs)
  {
    assert PendingOk(crypto, w.l.db, w.l.pend[id]);
    DropSupply(crypto, w, id);
    ReplaceTaken(crypto, w, DropPending(crypto, w.l, w.l.pend[id].txn), txn, id);
  }

  lemma ReplaceTaken(crypto: Crypto, w: World, k: Ledger, txn: Txn, id: Txid)
    requires WellFormed(crypto, txn) && Sound(crypto, w.l, txn)
    requires id in w.l.pend && SameInputs(w.l.pend[id].txn, txn) && k == DropPending(crypto, w.l, w.l.pend[id].txn)
    requires Loose(crypto, World(k, w.gone), OutpointsOf(w.l.pend[id].txn))
    ensures AllKnown(k.db, txn.inputs) && Taken(crypto, k, txn.inputs) == 0 && txn.txid !in k.pend
  {
    RivalAvailable(crypto, w.l, k, txn, w.l.pend[id].txn);
    FreshTaker(crypto, World(k, w.gone), OutpointsOf(txn), txn);
    RivalTaken(crypto, k, w.gone, txn);
  }

  lemma BurnedValue(k: Ledger, gone: map<Txid, Txn>, txn: Txn)
    requires txn.txid !in gone
    ensures Supply(World(k, gone[txn.txid := txn])) == Supply(World(k, gone)) + OutputTotal(txn.outputs)
  {
    GoneValue(gone, txn);
  }

  lemma SettleWritten(crypto: Crypto, w: World, id: Txid)
    requires Inv(crypto, w) && id in w.l.pend
    ensures var p := w.l.pend[id];
            var k := DropPending(crypto, w.l, p.txn);
            AllKnown(k.db, p.txn.inputs) && Supply(World(Write(crypto, k, p.txn, p.timestamp), w.gone)) == Supply(w)
  {
    DroppedFacts(crypto, w, id);
    DropSupply(crypto, w, id);
    PromotedValue(crypto, DropPending(crypto, w.l, w.l.pend[id].txn), w.gone, w.l.pend[id]);
  }

  lemma SettleBurned(crypto: Crypto, w: World, id: Txid)
    requires Inv(crypto, w) && id in w.l.pend
    ensures Supply(World(DropPending(crypto, w.l, w.l.pend[id].txn), w.gone[id := w.l.pend[id].txn])) == Supply(w)
  {
    DroppedFacts(crypto, w, id);
    DropSupply(crypto, w, id);
    BurnedValue(DropPending(crypto, w.l, w.l.pend[id].txn), w.gone, w.l.pend[id].txn);
  }

  lemma ScanValue(crypto: Crypto, w: World, id: Txid)
    requires Inv(crypto, w) && id in w.l.pend && Expired(w.l.now, w.l.pend[id])
    ensures Supply(AfterScan(crypto, w, id)) == Supply(w)
  {
    ScanIs(crypto, w, id);
    if Sound(crypto, w.l, w.l.pend[id].txn) {
      SettleWritten(crypto, w, id);
    } else {
      SettleBurned(crypto, w, id);
    }
  }

  lemma PromotedValue(crypto: Crypto, k: Ledger, gone: map<Txid, Txn>, p: Wrapper)
    requires Loose(crypto, World(k, gone), OutpointsOf(p.txn)) && PendingOk(crypto, k.db, p) && p.txn.txid !in k.db
    ensures AllKnown(k.db, p.txn.inputs)
    ensures Supply(World(Write(crypto, k, p.txn, p.timestamp), gone)) == Supply(World(k, gone)) + OutputTotal(p.txn.outputs)
  {
    RivalKnown(crypto, k, k, p);
    RivalTaken(crypto, k, gone, p.txn);
    WriteValue(crypto, k, p.txn, p.timestamp);
  }

  lemma GoneValue(gone: map<Txid, Txn>, txn: Txn)
    requires txn.txid !in gone
    ensures var g := gone[txn.txid := txn];
            SumOver(g.Keys, GoneOf(g)) == SumOver(gone.Keys, GoneOf(gone)) + OutputTotal(txn.outputs)
  {
    var g := gone[txn.txid := txn];
    assert g.Keys == gone.Keys + {txn.txid};
    SumAdd(gone.Keys, txn.txid, GoneOf(g));
    SumSame(gone.Keys, GoneOf(gone), GoneOf(g));
  }
}
