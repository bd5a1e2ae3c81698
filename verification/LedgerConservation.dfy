/** Conservation over whole runs. A transaction that lists an outpoint more than once
    counts it as often as it lists it, but takes it once; the supply is that of the
    genesis plus exactly this excess. */
module LedgerConservation {
  import opened Lists
  import opened Options
  import opened Sums
  import opened LedgerTypes
  import opened LedgerRules
  import opened LedgerInvariant
  import opened LedgerSteps
  import opened LedgerRuns
  import opened LedgerValue

  ghost function TakerIds(w: World): set<Txid> {
    w.l.db.Keys + w.l.pend.Keys + w.gone.Keys
  }

  ghost function ExcessAt(w: World): Txid -> int {
    (id: Txid) => if TakerTxn(w, id).Some? then Excess(w.l.db, TakerTxn(w, id).value.inputs) else 0
  }

  /** The excess of all stored, pending and gone transactions. */
  ghost function TotalExcess(w: World): int {
    SumOver(TakerIds(w), ExcessAt(w))
  }

  lemma TakerIdsAre(w: World, id: Txid)
    ensures id in TakerIds(w) <==> TakerTxn(w, id).Some?
  {
  }

  /** Nothing that was taken was counted more than once. */
  ghost predicate NothingRepeated(w: World) {
    forall id :: TakerTxn(w, id).Some? ==> RepeatsCarryNothing(w.l.db, TakerTxn(w, id).value.inputs)
  }

  lemma {:induction false} SumOfExcess(keys: set<Txid>, f: Txid -> int)
    requires forall id :: id in keys ==> f(id) >= 0
    ensures SumOver(keys, f) >= 0
    ensures SumOver(keys, f) == 0 <==> forall id :: id in keys ==> f(id) == 0
    decreases |keys|
  {
    if keys != {} {
      var id :| id in keys;
      SumTake(keys, id, f);
      SumOfExcess(keys - {id}, f);
      assert keys == keys - {id} + {id};
    }
  }

  lemma NoExcess(w: World)
    ensures TotalExcess(w) >= 0
    ensures TotalExcess(w) == 0 <==> NothingRepeated(w)
  {
    SumOfExcess(TakerIds(w), ExcessAt(w));
    forall id: Txid | TakerTxn(w, id).Some?
      ensures id in TakerIds(w) && (ExcessAt(w)(id) == 0 <==> RepeatsCarryNothing(w.l.db, TakerTxn(w, id).value.inputs))
    {
      TakerIdsAre(w, id);
      NoExcessIff(w.l.db, TakerTxn(w, id).value.inputs);
    }
    forall id | id in TakerIds(w) ensures TakerTxn(w, id).Some? {
      TakerIdsAre(w, id);
    }
  }

  // ------------------------------------------------------------- what events add

  lemma TakersKnown(w: World, free: set<Outpoint>, id: Txid)
    requires TakersOk(w, free) && TakerTxn(w, id).Some?
    ensures AllKnown(w.l.db, TakerTxn(w, id).value.inputs)
  {
    var txn := TakerTxn(w, id).value;
    forall i | 0 <= i < |txn.inputs| ensures Known(w.l.db, txn.inputs[i].out) {
      assert Takes(w, id, txn.inputs[i].out);
    }
  }

  /** The same takers over a longer table. */
  lemma SameSum(w: World, v: World, free: set<Outpoint>, ids: set<Txid>)
    requires TakersOk(w, free) && Extends(w.l.db, v.l.db)
    requires forall id :: id in ids ==> TakerTxn(v, id) == TakerTxn(w, id)
    ensures SumOver(ids, ExcessAt(v)) == SumOver(ids, ExcessAt(w))
  {
    forall id | id in ids ensures ExcessAt(v)(id) == ExcessAt(w)(id) {
      if TakerTxn(w, id).Some? {
        TakersKnown(w, free, id);
        SameExcess(w.l.db, v.l.db, TakerTxn(w, id).value.inputs);
      }
    }
    SumSame(ids, ExcessAt(v), ExcessAt(w));
  }

  /** One transaction becomes a taker. */
  lemma OneMoreTaker(w: World, v: World, free: set<Outpoint>, txn: Txn)
    requires TakersOk(w, free) && Extends(w.l.db, v.l.db) && AllKnown(w.l.db, txn.inputs)
    requires TakerTxn(w, txn.txid).None? && TakerTxn(v, txn.txid) == Some(txn)
    requires forall id :: id != txn.txid ==> TakerTxn(v, id) == TakerTxn(w, id)
    ensures TotalExcess(v) == TotalExcess(w) + Excess(w.l.db, txn.inputs)
  {
    forall id ensures id in TakerIds(v) <==> id in TakerIds(w) || id == txn.txid {
      TakerIdsAre(w, id);
      TakerIdsAre(v, id);
    }
    TakerIdsAre(w, txn.txid);
    assert TakerIds(v) == TakerIds(w) + {txn.txid};
    SumAdd(TakerIds(w), txn.txid, ExcessAt(v));
    SameSum(w, v, free, TakerIds(w));
    SameExcess(w.l.db, v.l.db, txn.inputs);
  }

  /** One transaction is a taker no more. */
  lemma OneTakerLess(w: World, v: World, id: Txid)
    requires v.l.db == w.l.db && TakerTxn(w, id).Some? && TakerTxn(v, id).None?
    requires forall x :: x != id ==> TakerTxn(v, x) == TakerTxn(w, x)
    ensures TotalExcess(v) == TotalExcess(w) - Excess(w.l.db, TakerTxn(w, id).value.inputs)
  {
    forall x ensures x in TakerIds(v) <==> x in TakerIds(w) && x != id {
      TakerIdsAre(w, x);
      TakerIdsAre(v, x);
    }
    TakerIdsAre(w, id);
    assert TakerIds(v) == TakerIds(w) - {id};
    SumTake(TakerIds(w), id, ExcessAt(w));
    SumSame(TakerIds(v), ExcessAt(v), ExcessAt(w));
  }

  lemma FiledTakers(crypto: Crypto, k: Ledger, gone: map<Txid, Txn>, txn: Txn)
    requires AllKnown(k.db, txn.inputs) && Filed(k.db) && TakerTxn(World(k, gone), txn.txid).None?
    ensures var r := if txn.timelock > 0 then Reserve(crypto, k, txn) else Write(crypto, k, txn, k.now);
            && Extends(k.db, r.db) && TakerTxn(World(r, gone), txn.txid) == Some(txn)
            && forall id :: id != txn.txid ==> TakerTxn(World(r, gone), id) == TakerTxn(World(k, gone), id)
  {
    if txn.timelock > 0 {
      ReserveFacts(crypto, k, txn);
    } else {
      WriteFacts(crypto, k, txn, k.now);
    }
  }

  lemma AdmitTaker(crypto: Crypto, w: World, txn: Txn)
    requires Inv(crypto, w) && WellFormed(crypto, txn) && Acceptable(crypto, w.l, txn)
    ensures TotalExcess(World(Admit(crypto, w.l, txn), w.gone)) ==
              TotalExcess(World(PushOut(crypto, w.l, txn), w.gone)) + Excess(w.l.db, txn.inputs)
  {
    var free := PushOutKeeps(crypto, w, txn);
    var k := PushOut(crypto, w.l, txn);
    FreshTaker(crypto, World(k, w.gone), free, txn);
    AdmitIs(crypto, w.l, txn);
    FiledTakers(crypto, k, w.gone, txn);
    OneMoreTaker(World(k, w.gone), World(Admit(crypto, w.l, txn), w.gone), free, txn);
  }

  lemma DroppedTaker(crypto: Crypto, w: World, id: Txid)
    requires Inv(crypto, w) && id in w.l.pend
    ensures TotalExcess(World(DropPending(crypto, w.l, w.l.pend[id].txn), w.gone)) ==
              TotalExcess(w) - Excess(w.l.db, w.l.pend[id].txn.inputs)
  {
    OneTakerLess(w, World(DropPending(crypto, w.l, w.l.pend[id].txn), w.gone), id);
  }

  /** What acceptance adds to the supply. */
  ghost function Added(l: Ledger, txn: Txn): int {
    Excess(l.db, txn.inputs) -
    match VerdictOf(l, txn)
    case Replaces(id) => Excess(l.db, l.pend[id].txn.inputs)
    case _ => 0
  }

  lemma AdmitAdds(crypto: Crypto, w: World, txn: Txn)
    requires Inv(crypto, w) && WellFormed(crypto, txn) && Acceptable(crypto, w.l, txn)
    ensures Supply(World(Admit(crypto, w.l, txn), w.gone)) == Supply(w) + Added(w.l, txn)
  {
    match VerdictOf(w.l, txn)
    case Free => ProcessFreeValue(crypto, w, txn);
    case Replaces(id) => ReplaceValue(crypto, w, txn, id);
  }

  lemma AdmitExcess(crypto: Crypto, w: World, txn: Txn)
    requires Inv(crypto, w) && WellFormed(crypto, txn) && Acceptable(crypto, w.l, txn)
    ensures TotalExcess(World(Admit(crypto, w.l, txn), w.gone)) == TotalExcess(w) + Added(w.l, txn)
  {
    AdmitTaker(crypto, w, txn);
    match VerdictOf(w.l, txn)
    case Free =>
    case Replaces(id) => DroppedTaker(crypto, w, id);
  }

  lemma ScanBalances(crypto: Crypto, w: World, id: Txid)
    requires Inv(crypto, w) && id in w.l.pend && Expired(w.l.now, w.l.pend[id])
    ensures Supply(AfterScan(crypto, w, id)) == Supply(w) && TotalExcess(AfterScan(crypto, w, id)) == TotalExcess(w)
  {
    ScanValue(crypto, w, id);
    ScanTakers(crypto, w, id);
    SameTakers(w, AfterScan(crypto, w, id));
  }

  lemma SameTakers(w: World, v: World)
    requires TakersOk(w, {}) && Extends(w.l.db, v.l.db)
    requires forall x: Txid :: TakerTxn(v, x) == TakerTxn(w, x)
    ensures TotalExcess(v) == TotalExcess(w)
  {
    forall x ensures x in TakerIds(v) <==> x in TakerIds(w) {
      TakerIdsAre(w, x);
      TakerIdsAre(v, x);
    }
    assert TakerIds(v) == TakerIds(w);
    SameSum(w, v, {}, TakerIds(w));
  }

  /** Promotion and expiry change where a taker is filed, not who it is. */
  lemma ScanTakers(crypto: Crypto, w: World, id: Txid)
    requires TablesOk(w) && BodiesOk(crypto, w) && id in w.l.pend && Expired(w.l.now, w.l.pend[id])
    ensures var v := AfterScan(crypto, w, id);
            Extends(w.l.db, v.l.db) && forall x: Txid :: TakerTxn(v, x) == TakerTxn(w, x)
  {
    var p := w.l.pend[id];
    ScanIs(crypto, w, id);
    if Sound(crypto, w.l, p.txn) {
      WriteFacts(crypto, DropPending(crypto, w.l, p.txn), p.txn, p.timestamp);
      WrittenTakers(w, AfterScan(crypto, w, id), id);
    } else {
      BurnedTakers(w, AfterScan(crypto, w, id), id);
    }
  }

  lemma WrittenTakers(w: World, v: World, id: Txid)
    requires TablesOk(w) && id in w.l.pend && v.gone == w.gone && v.l.pend == w.l.pend - {id}
    requires v.l.db.Keys == w.l.db.Keys + {id} && v.l.db[id].txn == w.l.pend[id].txn
    requires forall x :: x in w.l.db ==> v.l.db[x].txn == w.l.db[x].txn && v.l.db[x].timestamp == w.l.db[x].timestamp
    requires forall o :: Known(w.l.db, o) ==> Known(v.l.db, o)
    ensures Extends(w.l.db, v.l.db) && forall x: Txid :: TakerTxn(v, x) == TakerTxn(w, x)
  {
  }

  lemma BurnedTakers(w: World, v: World, id: Txid)
    requires TablesOk(w) && id in w.l.pend && v.l.db == w.l.db && v.l.pend == w.l.pend - {id}
    requires v.gone == w.gone[id := w.l.pend[id].txn]
    ensures Extends(w.l.db, v.l.db) && forall x: Txid :: TakerTxn(v, x) == TakerTxn(w, x)
  {
  }

  /** Every event adds as much to the supply as to the excess. */
  lemma EventBalances(crypto: Crypto, w: World, e: Event)
    requires Inv(crypto, w) && Possible(crypto, e)
    ensures Supply(After(crypto, w, e)) - TotalExcess(After(crypto, w, e)) == Supply(w) - TotalExcess(w)
  {
    match e
    case Clock(now) => ClockExcess(w, now);
    case Process(txn) =>
      if Acceptable(crypto, w.l, txn) {
        AdmitAdds(crypto, w, txn);
        AdmitExcess(crypto, w, txn);
      }
    case Scan(id) =>
      if id in w.l.pend && Expired(w.l.now, w.l.pend[id]) {
        ScanBalances(crypto, w, id);
      }
  }

  lemma ClockExcess(w: World, now: int)
    ensures var v := w.(l := w.l.(now := now)); TotalExcess(v) == TotalExcess(w) && Supply(v) == Supply(w)
  {
    var v := w.(l := w.l.(now := now));
    assert TakerIds(v) == TakerIds(w);
    SumSame(TakerIds(w), ExcessAt(v), ExcessAt(w));
  }

  // ----------------------------------------------------------------- main results

  /** An accepted transaction keeps the supply exactly when it counts no more than
      what it takes: as much again as the pending transaction that it pushes out, or
      else each of its outpoints once. */
  lemma AdmitConservesIff(crypto: Crypto, w: World, txn: Txn)
    requires Inv(crypto, w) && WellFormed(crypto, txn) && Acceptable(crypto, w.l, txn)
    ensures Supply(World(Admit(crypto, w.l, txn), w.gone)) == Supply(w) <==>
              match VerdictOf(w.l, txn)
              case Replaces(id) => Excess(w.l.db, txn.inputs) == Excess(w.l.db, w.l.pend[id].txn.inputs)
              case _ => RepeatsCarryNothing(w.l.db, txn.inputs)
  {
    AdmitAdds(crypto, w, txn);
    NoExcessIff(w.l.db, txn.inputs);
  }

  /** Unless it pushes out a pending transaction that repeated something of value, it
      makes no difference whether the transaction is stored, reserved or replaces
      another: the supply stays exactly when it repeats nothing of value. */
  lemma FirstRepeatAddsValue(crypto: Crypto, w: World, txn: Txn)
    requires Inv(crypto, w) && WellFormed(crypto, txn) && Acceptable(crypto, w.l, txn)
    requires forall id :: VerdictOf(w.l, txn) == Replaces(id) ==> RepeatsCarryNothing(w.l.db, w.l.pend[id].txn.inputs)
    ensures Supply(World(Admit(crypto, w.l, txn), w.gone)) == Supply(w) <==> RepeatsCarryNothing(w.l.db, txn.inputs)
  {
    AdmitConservesIff(crypto, w, txn);
    NoExcessIff(w.l.db, txn.inputs);
    match VerdictOf(w.l, txn)
    case Replaces(id) => NoExcessIff(w.l.db, w.l.pend[id].txn.inputs);
    case _ =>
  }

  lemma GenesisExcess(crypto: Crypto, w: World)
    requires Genesis(crypto, w)
    ensures TotalExcess(w) == 0 && Supply(w) == Unspent(w.l.db)
  {
    assert w.l.pend.Keys == {} && w.gone.Keys == {};
    NoExcess(w);
  }

  /** The supply without the excess. */
  ghost function Base(w: World): int {
    Supply(w) - TotalExcess(w)
  }

  lemma StepBalances(crypto: Crypto, ws: seq<World>, i: nat)
    requires Run(crypto, ws) && 0 < i < |ws|
    ensures Base(ws[i]) == Base(ws[i - 1])
  {
    RunInv(crypto, ws, i - 1);
    assert StepAt(crypto, ws, i);
    var e :| Possible(crypto, e) && ws[i] == After(crypto, ws[i - 1], e);
    EventBalances(crypto, ws[i - 1], e);
  }

  lemma {:induction false} SameAll(bases: seq<int>, i: nat)
    requires i < |bases| && forall j: nat :: 0 < j < |bases| ==> bases[j] == bases[j - 1]
    ensures bases[i] == bases[0]
  {
    if i > 0 {
      SameAll(bases, i - 1);
    }
  }

  ghost function Bases(ws: seq<World>): (r: seq<int>)
    ensures |r| == |ws| && forall j :: 0 <= j < |ws| ==> r[j] == Base(ws[j])
  {
    seq(|ws|, j requires 0 <= j < |ws| => Base(ws[j]))
  }

  lemma RunBalances(crypto: Crypto, ws: seq<World>, i: nat)
    requires Run(crypto, ws) && i < |ws|
    ensures Bases(ws)[i] == Bases(ws)[0]
  {
    forall j: nat | 0 < j < |ws| ensures Bases(ws)[j] == Bases(ws)[j - 1] {
      StepBalances(crypto, ws, j);
    }
    SameAll(Bases(ws), i);
  }

  /** At every point of every run the supply is that of the genesis plus what the
      repeated outpoints of the stored, pending and gone transactions added; so it is
      that of the genesis exactly when no repeated outpoint carried anything. */
  lemma Conservation(crypto: Crypto, ws: seq<World>, i: nat)
    requires Run(crypto, ws) && i < |ws|
    ensures Supply(ws[i]) == Unspent(ws[0].l.db) + TotalExcess(ws[i]) >= Unspent(ws[0].l.db)
    ensures Supply(ws[i]) == Unspent(ws[0].l.db) <==> NothingRepeated(ws[i])
  {
    RunBalances(crypto, ws, i);
    GenesisExcess(crypto, ws[0]);
    NoExcess(ws[i]);
  }

  /** Where every transaction lists distinct outpoints, value is conserved. */
  lemma DistinctInputsConserve(crypto: Crypto, ws: seq<World>, i: nat)
    requires Run(crypto, ws) && i < |ws|
    requires forall id :: TakerTxn(ws[i], id).Some? ==> Distinct(Outs(TakerTxn(ws[i], id).value.inputs))
    ensures Supply(ws[i]) == Unspent(ws[0].l.db)
  {
    Conservation(crypto, ws, i);
    forall id | TakerTxn(ws[i], id).Some? ensures RepeatsCarryNothing(ws[i].l.db, TakerTxn(ws[i], id).value.inputs) {
      NoRepeats(ws[i].l.db, TakerTxn(ws[i], id).value.inputs);
    }
  }

  lemma NoRepeats(db: Table, inputs: seq<Input>)
    requires Distinct(Outs(inputs))
    ensures RepeatsCarryNothing(db, inputs)
  {
    forall i, j | 0 <= i < j < |inputs| ensures inputs[i].out != inputs[j].out {
      assert Outs(inputs)[i] == inputs[i].out && Outs(inputs)[j] == inputs[j].out;
    }
  }
}
