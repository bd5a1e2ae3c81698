/** The life of an outpoint: unspent, reserved by one pending transaction, then by
    one with a larger sequence number, and finally consumed or burned, for good. */
module LedgerLifecycle {
  import opened Options
  import opened LedgerTypes
  import opened LedgerRules
  import opened LedgerInvariant
  import opened LedgerSteps
  import opened LedgerRuns

  datatype Status =
    | Absent
    | Unspent
    | Reserved(taker: Txid, seqNo: nat)
    | Consumed(taker: Txid, seqNo: nat)
    | Burned(taker: Txid, seqNo: nat)

  ghost function StatusBy(w: World, id: Txid): Status
    requires TakerTxn(w, id).Some?
  {
    if id in w.l.db then Consumed(id, w.l.db[id].txn.seqNo)
    else if id in w.l.pend then Reserved(id, w.l.pend[id].txn.seqNo)
    else Burned(id, w.gone[id].seqNo)
  }

  ghost function StatusOf(w: World, o: Outpoint): Status {
    if !Known(w.l.db, o) then Absent
    else if Flag(w.l.db, o) then Unspent
    else if exists id :: Takes(w, id, o) then (var id :| Takes(w, id, o); StatusBy(w, id))
    else Absent
  }

  /** What one event may do: bring an unspent output, let a transaction reserve or
      consume it, let one with a larger sequence number take over from the pending
      one, and consume or burn what the pending one reserved. */
  ghost predicate OneEvent(a: Status, b: Status) {
    || a == b
    || (a.Absent? && b.Unspent?)
    || (a.Unspent? && (b.Reserved? || b.Consumed?))
    || (a.Reserved? && (b.Reserved? || b.Consumed?) && b.seqNo > a.seqNo)
    || (a.Reserved? && (b.Consumed? || b.Burned?) && b.taker == a.taker && b.seqNo == a.seqNo)
  }

  /** What any number of events may do. */
  ghost predicate Later(a: Status, b: Status) {
    || a == b
    || a.Absent?
    || (a.Unspent? && !b.Absent?)
    || (a.Reserved? && !b.Absent? && !b.Unspent? && (b.seqNo > a.seqNo || (b.taker == a.taker && b.seqNo == a.seqNo)))
  }

  lemma OneEventIsLater(a: Status, b: Status)
    requires OneEvent(a, b)
    ensures Later(a, b)
  {
  }

  lemma LaterTransitive(a: Status, b: Status, c: Status)
    requires Later(a, b) && Later(b, c)
    ensures Later(a, c)
  {
  }

  lemma StatusIs(w: World, id: Txid, o: Outpoint)
    requires TakersOk(w, {}) && Takes(w, id, o)
    ensures StatusOf(w, o) == StatusBy(w, id)
  {
  }

  lemma TakenOrUnspent(w: World, o: Outpoint)
    requires TakersOk(w, {}) && Known(w.l.db, o)
    ensures StatusOf(w, o).Unspent? || exists id :: Takes(w, id, o)
  {
  }

  /** Stored and gone transactions stay; known outputs stay known, and new ones are
      unspent; and what is gone now was gone or pending. */
  ghost predicate Keeps(w: World, v: World) {
    && (forall id :: id in w.l.db ==> id in v.l.db && v.l.db[id].txn == w.l.db[id].txn)
    && (forall o :: Known(w.l.db, o) ==> Known(v.l.db, o))
    && (forall o :: Known(v.l.db, o) && !Known(w.l.db, o) ==> Flag(v.l.db, o))
    && (forall id :: id in w.gone ==> id in v.gone && v.gone[id] == w.gone[id])
    && (forall id :: id in v.gone ==> TakerTxn(w, id) == Some(v.gone[id]))
  }

  /** What became of the pending transaction id: still pending; or settled under
      its own id; or replaced, input by input, by a transaction with a larger
      sequence number. */
  ghost predicate Moved(w: World, v: World, id: Txid)
    requires id in w.l.pend
  {
    var p := w.l.pend[id].txn;
    || (id in v.l.pend && id !in v.l.db && v.l.pend[id].txn == p)
    || (id in v.l.db && v.l.db[id].txn == p)
    || (id in v.gone && id !in v.l.db && id !in v.l.pend && v.gone[id] == p)
    || (exists x :: TakerTxn(v, x).Some? && x !in v.gone && TakerTxn(v, x).value.seqNo > p.seqNo
                    && OutpointsOf(p) == OutpointsOf(TakerTxn(v, x).value))
  }

  ghost predicate Settled(w: World) {
    TablesOk(w) && TakersOk(w, {})
  }

  lemma StatusMoves(w: World, v: World, o: Outpoint)
    requires Settled(w) && Settled(v) && Keeps(w, v)
    requires forall id :: id in w.l.pend ==> Moved(w, v, id)
    ensures OneEvent(StatusOf(w, o), StatusOf(v, o))
  {
    if Known(w.l.db, o) {
      if Flag(w.l.db, o) {
        UnspentMoves(w, v, o);
      } else {
        var id :| Takes(w, id, o);
        StatusIs(w, id, o);
        if id in w.l.db || id !in w.l.pend {
          SettledStays(w, v, id, o);
        } else {
          PendingMoves(w, v, id, o);
        }
      }
    }
  }

  lemma UnspentMoves(w: World, v: World, o: Outpoint)
    requires Settled(w) && Settled(v) && Keeps(w, v) && Known(w.l.db, o) && Flag(w.l.db, o)
    ensures StatusOf(v, o).Unspent? || StatusOf(v, o).Reserved? || StatusOf(v, o).Consumed?
  {
    TakenOrUnspent(v, o);
    if id :| Takes(v, id, o) {
      StatusIs(v, id, o);
      if id in v.gone {
        assert !Takes(w, id, o);
      }
    }
  }

  lemma SettledStays(w: World, v: World, id: Txid, o: Outpoint)
    requires TablesOk(w) && Settled(v) && Keeps(w, v) && Takes(w, id, o) && id !in w.l.pend
    ensures StatusOf(v, o) == StatusBy(w, id)
  {
    assert Takes(v, id, o);
    StatusIs(v, id, o);
  }

  lemma PendingMoves(w: World, v: World, id: Txid, o: Outpoint)
    requires TablesOk(w) && Settled(v) && id in w.l.pend && Takes(w, id, o) && Moved(w, v, id)
    ensures OneEvent(StatusBy(w, id), StatusOf(v, o))
  {
    var p := w.l.pend[id].txn;
    if TakerTxn(v, id) == Some(p) {
      assert Takes(v, id, o);
      StatusIs(v, id, o);
    } else {
      var x :| TakerTxn(v, x).Some? && x !in v.gone && TakerTxn(v, x).value.seqNo > p.seqNo
               && OutpointsOf(p) == OutpointsOf(TakerTxn(v, x).value);
      assert Takes(v, x, o);
      StatusIs(v, x, o);
    }
  }

  // --------------------------------------------------------------------- events

  lemma SpendTables(crypto: Crypto, l: Ledger, txn: Txn)
    requires AllKnown(l.db, txn.inputs) && Filed(l.db) && txn.txid !in l.db && txn.txid !in l.pend
    ensures var r := if txn.timelock > 0 then Reserve(crypto, l, txn) else Write(crypto, l, txn, l.now);
            && (forall id :: id in l.db ==> id in r.db && r.db[id].txn == l.db[id].txn)
            && (forall o :: Known(l.db, o) ==> Known(r.db, o))
            && (forall o :: Known(r.db, o) && !Known(l.db, o) ==> Flag(r.db, o))
            && (forall id :: id in l.pend ==> id in r.pend && r.pend[id] == l.pend[id])
            && (r.db.Keys <= l.db.Keys + {txn.txid})
            && (if txn.timelock > 0 then txn.txid in r.pend && r.pend[txn.txid].txn == txn && txn.txid !in r.db
                else txn.txid in r.db && r.db[txn.txid].txn == txn)
  {
    if txn.timelock > 0 {
      ReserveFacts(crypto, l, txn);
    } else {
      WriteFacts(crypto, l, txn, l.now);
    }
  }

  lemma ProcessMoves(crypto: Crypto, w: World, txn: Txn)
    requires Inv(crypto, w) && WellFormed(crypto, txn) && Acceptable(crypto, w.l, txn)
    ensures var v := World(Admit(crypto, w.l, txn), w.gone);
            Keeps(w, v) && forall id :: id in w.l.pend ==> Moved(w, v, id)
  {
    var free := PushOutKeeps(crypto, w, txn);
    FreshTaker(crypto, World(PushOut(crypto, w.l, txn), w.gone), free, txn);
    AdmitIs(crypto, w.l, txn);
    AdmitMoves(crypto, w, txn);
  }

  lemma AdmitMoves(crypto: Crypto, w: World, txn: Txn)
    requires TablesOk(w) && Acceptable(crypto, w.l, txn) && AllKnown(w.l.db, txn.inputs)
    requires TakerTxn(World(PushOut(crypto, w.l, txn), w.gone), txn.txid).None?
    ensures var v := World(Admit(crypto, w.l, txn), w.gone);
            Keeps(w, v) && forall id :: id in w.l.pend ==> Moved(w, v, id)
  {
    AdmitIs(crypto, w.l, txn);
    match VerdictOf(w.l, txn)
    case Replaces(rival) => FilingMoves(crypto, w, PushOut(crypto, w.l, txn), txn, Some(rival));
    case _ => FilingMoves(crypto, w, w.l, txn, None);
  }

  lemma FilingMoves(crypto: Crypto, w: World, k: Ledger, txn: Txn, rival: Option<Txid>)
    requires TablesOk(w) && k.db == w.l.db && AllKnown(k.db, txn.inputs) && TakerTxn(World(k, w.gone), txn.txid).None?
    requires forall id :: id in w.l.pend && rival != Some(id) ==> id in k.pend && k.pend[id] == w.l.pend[id]
    requires rival.Some? ==> rival.value in w.l.pend && SameInputs(w.l.pend[rival.value].txn, txn)
                             && txn.seqNo > w.l.pend[rival.value].txn.seqNo
    ensures var v := World(if txn.timelock > 0 then Reserve(crypto, k, txn) else Write(crypto, k, txn, k.now), w.gone);
            Keeps(w, v) && forall id :: id in w.l.pend ==> Moved(w, v, id)
  {
    SpendTables(crypto, k, txn);
    FiledMoves(w, if txn.timelock > 0 then Reserve(crypto, k, txn) else Write(crypto, k, txn, k.now), txn, rival);
  }

  /** A transaction was filed, and pushed out at most a rival with its inputs. */
  lemma FiledMoves(w: World, r: Ledger, txn: Txn, rival: Option<Txid>)
    requires TablesOk(w) && txn.txid !in w.gone && TakerTxn(World(r, w.gone), txn.txid) == Some(txn)
    requires forall id :: id in w.l.db ==> id in r.db && r.db[id].txn == w.l.db[id].txn
    requires forall o :: Known(w.l.db, o) ==> Known(r.db, o)
    requires forall o :: Known(r.db, o) && !Known(w.l.db, o) ==> Flag(r.db, o)
    requires forall id :: id in w.l.pend && rival != Some(id) ==> id in r.pend && r.pend[id] == w.l.pend[id] && id != txn.txid
    requires r.db.Keys <= w.l.db.Keys + {txn.txid}
    requires rival.Some? ==> rival.value in w.l.pend && SameInputs(w.l.pend[rival.value].txn, txn)
                             && txn.seqNo > w.l.pend[rival.value].txn.seqNo
    ensures Keeps(w, World(r, w.gone)) && forall id :: id in w.l.pend ==> Moved(w, World(r, w.gone), id)
  {
  }

  lemma PromotedMoves(w: World, v: World, id: Txid)
    requires TablesOk(w) && id in w.l.pend && v.gone == w.gone && v.l.pend == w.l.pend - {id}
    requires forall x :: x in w.l.db ==> x in v.l.db && v.l.db[x].txn == w.l.db[x].txn
    requires forall o :: Known(w.l.db, o) ==> Known(v.l.db, o)
    requires forall o :: Known(v.l.db, o) && !Known(w.l.db, o) ==> Flag(v.l.db, o)
    requires v.l.db.Keys == w.l.db.Keys + {id} && v.l.db[id].txn == w.l.pend[id].txn
    ensures Keeps(w, v) && forall x :: x in w.l.pend ==> Moved(w, v, x)
  {
  }

  lemma BurnedMoves(w: World, v: World, id: Txid)
    requires TablesOk(w) && id in w.l.pend && v.l.db == w.l.db && v.l.pend == w.l.pend - {id}
    requires v.gone == w.gone[id := w.l.pend[id].txn]
    ensures Keeps(w, v) && forall x :: x in w.l.pend ==> Moved(w, v, x)
  {
  }

  lemma ScanMoves(crypto: Crypto, w: World, id: Txid)
    requires TablesOk(w) && BodiesOk(crypto, w) && id in w.l.pend && Expired(w.l.now, w.l.pend[id])
    ensures var v := AfterScan(crypto, w, id);
            Keeps(w, v) && forall x :: x in w.l.pend ==> Moved(w, v, x)
  {
    var p := w.l.pend[id];
    ScanIs(crypto, w, id);
    if Sound(crypto, w.l, p.txn) {
      WriteFacts(crypto, DropPending(crypto, w.l, p.txn), p.txn, p.timestamp);
      PromotedMoves(w, AfterScan(crypto, w, id), id);
    } else {
      BurnedMoves(w, AfterScan(crypto, w, id), id);
    }
  }

  /** One event takes an outpoint at most one step on. */
  lemma EventMoves(crypto: Crypto, w: World, e: Event, o: Outpoint)
    requires Inv(crypto, w) && Possible(crypto, e)
    ensures OneEvent(StatusOf(w, o), StatusOf(After(crypto, w, e), o))
  {
    var v := After(crypto, w, e);
    EventKeeps(crypto, w, e);
    match e
    case Clock(_) => StatusMoves(w, v, o);
    case Process(txn) =>
      if Acceptable(crypto, w.l, txn) {
        ProcessMoves(crypto, w, txn);
        StatusMoves(w, v, o);
      } else {
        assert v == w;
      }
    case Scan(id) =>
      if id in w.l.pend && Expired(w.l.now, w.l.pend[id]) {
        ScanMoves(crypto, w, id);
        StatusMoves(w, v, o);
      }
  }

  /** Whatever happens between two points of a run, an outpoint only moves on:
      unspent, reserved with growing sequence numbers, then consumed or burned. */
  lemma {:induction false} Lifecycle(crypto: Crypto, ws: seq<World>, i: nat, j: nat, o: Outpoint)
    requires Run(crypto, ws) && i <= j < |ws|
    ensures Later(StatusOf(ws[i], o), StatusOf(ws[j], o))
    decreases j - i
  {
    if i < j {
      Lifecycle(crypto, ws, i, j - 1, o);
      RunInv(crypto, ws, j - 1);
      assert StepAt(crypto, ws, j);
      var e :| Possible(crypto, e) && ws[j] == After(crypto, ws[j - 1], e);
      EventMoves(crypto, ws[j - 1], e, o);
      OneEventIsLater(StatusOf(ws[j - 1], o), StatusOf(ws[j], o));
      LaterTransitive(StatusOf(ws[i], o), StatusOf(ws[j - 1], o), StatusOf(ws[j], o));
    }
  }
}
