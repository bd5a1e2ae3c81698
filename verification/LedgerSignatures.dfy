/** What a transaction needs to be taken, spelt out over runs: the signatures of the
    branch that the timeout selects, the balance, and nothing pending in its way. */
module LedgerSignatures {
  import opened Lists
  import opened LedgerTypes
  import opened LedgerRules
  import opened LedgerInvariant
  import opened LedgerSteps
  import opened LedgerRuns
  import opened LedgerPromotion
  import opened LedgerBlocks
  import opened LedgerSigning

  /** No pending transaction has the same inputs, and all of them are unspent. */
  ghost predicate Unclaimed(l: Ledger, txn: Txn) {
    && (forall id :: id in l.pend ==> OutpointsOf(l.pend[id].txn) != OutpointsOf(txn))
    && forall k :: 0 <= k < |txn.inputs| && Known(l.db, txn.inputs[k].out) ==> Flag(l.db, txn.inputs[k].out)
  }

  /** The pending transaction has the same inputs, a smaller sequence number, and a
      timelock that still runs. */
  ghost predicate Outranked(l: Ledger, id: Txid, txn: Txn) {
    && id in l.pend && OutpointsOf(l.pend[id].txn) == OutpointsOf(txn)
    && l.now - l.pend[id].timestamp <= l.pend[id].txn.timelock * 1_000_000_000
    && txn.seqNo > l.pend[id].txn.seqNo
  }

  /** What the ledger takes: a transaction that is not stored, is signed and balanced,
      and that nothing pending stands in the way of. */
  ghost predicate Takeable(crypto: Crypto, l: Ledger, txn: Txn) {
    && txn.txid !in l.db && AllSigned(crypto, l.db, l.now, txn)
    && InputTotal(l.db, txn.inputs) == OutputTotal(txn.outputs)
    && (Unclaimed(l, txn) || exists id :: Outranked(l, id, txn))
  }

  /** The outcome of the search, spelt out. */
  lemma VerdictSays(l: Ledger, txn: Txn)
    requires OnlyVerdict(l, txn, VerdictOf(l, txn))
    ensures VerdictOf(l, txn).Free? <==> forall id :: id in l.pend ==> OutpointsOf(l.pend[id].txn) != OutpointsOf(txn)
    ensures forall id :: VerdictOf(l, txn) == Replaces(id) <==> Outranked(l, id, txn)
  {
    forall id ensures VerdictOf(l, txn) == Replaces(id) <==> Outranked(l, id, txn) {
      if Outranked(l, id, txn) {
        assert IsVerdict(l, txn, Replaces(id));
      }
    }
    if forall id :: id in l.pend ==> OutpointsOf(l.pend[id].txn) != OutpointsOf(txn) {
      assert IsVerdict(l, txn, Free);
    }
  }

  lemma TakeableIs(crypto: Crypto, l: Ledger, txn: Txn)
    requires Filed(l.db) && OnlyVerdict(l, txn, VerdictOf(l, txn))
    ensures Takeable(crypto, l, txn) <==> Acceptable(crypto, l, txn)
  {
    SoundIsSigned(crypto, l, txn);
    VerdictSays(l, txn);
    if AllSigned(crypto, l.db, l.now, txn) {
      forall k | 0 <= k < |txn.inputs| ensures Known(l.db, txn.inputs[k].out) {
        assert SignedAt(crypto, l.db, l.now, txn.txid, txn.inputs[k]);
      }
    }
  }

  // -------------------------------------------------------------- block transactions

  /** The table files the transaction under its id, with this time and all outputs
      unspent. */
  ghost predicate FiledAs(table: Table, txn: Txn, timestamp: int) {
    && txn.txid in table && table[txn.txid].txn == txn && table[txn.txid].timestamp == timestamp
    && |table[txn.txid].utxos| == |txn.outputs| && forall k :: 0 <= k < |txn.outputs| ==> table[txn.txid].utxos[k]
  }

  /** The step stored or reserved the transaction of this id. */
  ghost predicate Newcomer(w: World, v: World, id: Txid) {
    (id in v.l.db && id !in w.l.db) || (id in v.l.pend && id !in w.l.pend)
  }

  lemma FiledWhere(crypto: Crypto, k: Ledger, txn: Txn)
    requires AllKnown(k.db, txn.inputs) && Filed(k.db) && txn.txid !in k.db && txn.txid !in k.pend
    ensures var r := if txn.timelock > 0 then Reserve(crypto, k, txn) else Write(crypto, k, txn, k.now);
            && FiledAs(if txn.timelock > 0 then r.pend else r.db, txn, k.now)
            && r.db.Keys == (if txn.timelock > 0 then k.db.Keys else k.db.Keys + {txn.txid})
            && r.pend.Keys == (if txn.timelock > 0 then k.pend.Keys + {txn.txid} else k.pend.Keys)
            && forall o :: o in OutpointsOf(txn) ==> Known(r.db, o) && !Flag(r.db, o)
  {
    if txn.timelock > 0 {
      ReserveFacts(crypto, k, txn);
    } else {
      WriteFacts(crypto, k, txn, k.now);
    }
  }

  lemma TakenWhere(crypto: Crypto, w: World, txn: Txn)
    requires Inv(crypto, w) && WellFormed(crypto, txn) && Acceptable(crypto, w.l, txn)
    ensures var k, r := PushOut(crypto, w.l, txn), Admit(crypto, w.l, txn);
            && k.db == w.l.db && k.pend.Keys <= w.l.pend.Keys && txn.txid !in w.l.db && txn.txid !in k.pend && txn.txid !in w.gone
            && FiledAs(if txn.timelock > 0 then r.pend else r.db, txn, w.l.now)
            && r.db.Keys == (if txn.timelock > 0 then k.db.Keys else k.db.Keys + {txn.txid})
            && r.pend.Keys == (if txn.timelock > 0 then k.pend.Keys + {txn.txid} else k.pend.Keys)
            && forall o :: o in OutpointsOf(txn) ==> Known(r.db, o) && !Flag(r.db, o)
  {
    var free := PushOutKeeps(crypto, w, txn);
    FreshTaker(crypto, World(PushOut(crypto, w.l, txn), w.gone), free, txn);
    AdmitIs(crypto, w.l, txn);
    FiledWhere(crypto, PushOut(crypto, w.l, txn), txn);
  }

  /** Two transactions of one id have one sequence number. */
  lemma RivalDiffers(crypto: Crypto, w: World, id: Txid, txn: Txn)
    requires TablesOk(w) && BodiesOk(crypto, w) && WellFormed(crypto, txn) && Outranked(w.l, id, txn)
    ensures id != txn.txid
  {
    assert PendingOk(crypto, w.l.db, w.l.pend[id]);
  }

  lemma RivalLeaves(crypto: Crypto, w: World, id: Txid, txn: Txn)
    requires Inv(crypto, w) && WellFormed(crypto, txn) && Outranked(w.l, id, txn)
    ensures id != txn.txid && PushOut(crypto, w.l, txn).pend == w.l.pend - {id}
  {
    InvOnlyVerdict(crypto, w, txn);
    VerdictSays(w.l, txn);
    RivalDiffers(crypto, w, id, txn);
    assert w.l.pend[id].txn.txid == id;
  }

  lemma NotPendingYet(crypto: Crypto, w: World, txn: Txn)
    requires Inv(crypto, w) && WellFormed(crypto, txn) && txn.txid !in PushOut(crypto, w.l, txn).pend
    ensures txn.txid !in w.l.pend
  {
    InvOnlyVerdict(crypto, w, txn);
    VerdictSays(w.l, txn);
    match VerdictOf(w.l, txn)
    case Replaces(id) => RivalLeaves(crypto, w, id, txn);
    case _ =>
  }

  /** At any point of any run, a block transaction is taken if and only if it is
      takeable: it is then filed with the time of the ledger, among the pending ones if
      it has a timelock and among the stored ones otherwise; its inputs are spent; and
      what it outranks is pending no more. Otherwise nothing changes. */
  lemma TakenIff(crypto: Crypto, ws: seq<World>, i: nat, txn: Txn)
    requires Run(crypto, ws) && i < |ws| && WellFormed(crypto, txn)
    ensures var w, v := ws[i], After(crypto, ws[i], Process(txn));
            && (Newcomer(w, v, txn.txid) <==> Takeable(crypto, w.l, txn))
            && (!Takeable(crypto, w.l, txn) ==> v == w)
            && (Takeable(crypto, w.l, txn) ==>
                  && FiledAs(if txn.timelock > 0 then v.l.pend else v.l.db, txn, w.l.now)
                  && (forall o :: o in OutpointsOf(txn) ==> Known(v.l.db, o) && !Flag(v.l.db, o))
                  && forall id :: Outranked(w.l, id, txn) ==> id !in v.l.pend)
  {
    RunInv(crypto, ws, i);
    TakenOrNot(crypto, ws[i], txn);
  }

  lemma RivalsLeave(crypto: Crypto, w: World, txn: Txn)
    requires Inv(crypto, w) && WellFormed(crypto, txn)
    requires Admit(crypto, w.l, txn).pend.Keys <= PushOut(crypto, w.l, txn).pend.Keys + {txn.txid}
    ensures forall id :: Outranked(w.l, id, txn) ==> id !in Admit(crypto, w.l, txn).pend
  {
    forall id | Outranked(w.l, id, txn) ensures id !in Admit(crypto, w.l, txn).pend {
      RivalLeaves(crypto, w, id, txn);
    }
  }

  lemma AcceptedIsTaken(crypto: Crypto, w: World, txn: Txn)
    requires Inv(crypto, w) && WellFormed(crypto, txn) && Acceptable(crypto, w.l, txn)
    ensures var r := Admit(crypto, w.l, txn);
            && FiledAs(if txn.timelock > 0 then r.pend else r.db, txn, w.l.now)
            && txn.txid !in w.l.db && txn.txid !in w.l.pend
            && (forall o :: o in OutpointsOf(txn) ==> Known(r.db, o) && !Flag(r.db, o))
            && forall id :: Outranked(w.l, id, txn) ==> id !in r.pend
  {
    TakenWhere(crypto, w, txn);
    NotPendingYet(crypto, w, txn);
    RivalsLeave(crypto, w, txn);
  }

  lemma TakenOrNot(crypto: Crypto, w: World, txn: Txn)
    requires Inv(crypto, w) && WellFormed(crypto, txn)
    ensures var v := After(crypto, w, Process(txn));
            && (Newcomer(w, v, txn.txid) <==> Takeable(crypto, w.l, txn))
            && (!Takeable(crypto, w.l, txn) ==> v == w)
            && (Takeable(crypto, w.l, txn) ==>
                  && FiledAs(if txn.timelock > 0 then v.l.pend else v.l.db, txn, w.l.now)
                  && (forall o :: o in OutpointsOf(txn) ==> Known(v.l.db, o) && !Flag(v.l.db, o))
                  && forall id :: Outranked(w.l, id, txn) ==> id !in v.l.pend)
  {
    InvOnlyVerdict(crypto, w, txn);
    TakeableIs(crypto, w.l, txn);
    if Acceptable(crypto, w.l, txn) {
      AcceptedIsTaken(crypto, w, txn);
    } else {
      assert After(crypto, w, Process(txn)) == w;
    }
  }

  /** A transaction of a block leaves the mempool. It is noted as invalid if and only if
      it is neither taken nor stored already; the ids noted before stay. */
  lemma NotedIff(crypto: Crypto, ws: seq<World>, i: nat, p: Pool, txn: Txn)
    requires Run(crypto, ws) && i < |ws| && WellFormed(crypto, txn)
    ensures var q := PoolAfter(crypto, p, ws[i].l, txn);
            && q.txns == p.txns - {txn.txid}
            && (Distinct(p.order) ==> q.order == WithoutFirst(p.order, txn.txid))
            && q.invalid == p.invalid + if Takeable(crypto, ws[i].l, txn) || txn.txid in ws[i].l.db then [] else [txn.txid]
  {
    RunInv(crypto, ws, i);
    InvOnlyVerdict(crypto, ws[i], txn);
    TakeableIs(crypto, ws[i].l, txn);
    if Distinct(p.order) {
      RemovedOnce(p.order, txn.txid);
    }
  }

  lemma RemovedOnce(order: seq<Txid>, id: Txid)
    requires Distinct(order)
    ensures WithoutFirst(WithoutFirst(order, id), id) == WithoutFirst(order, id)
  {
    if id in order {
      var i :| 0 <= i < |order| && order[i] == id;
      WithoutFirstAt(order, i);
      WithoutAbsent(order[..i] + order[i + 1..], id);
    } else {
      WithoutAbsent(order, id);
    }
  }

  lemma {:induction false} WithoutAbsent(order: seq<Txid>, id: Txid)
    requires id !in order
    ensures WithoutFirst(order, id) == order
  {
    if order != [] {
      WithoutAbsent(order[1..], id);
    }
  }

  // ---------------------------------------------------------------------- the scan

  /** At any point of any run, visiting a pending transaction does something if and only
      if its timelock has passed. It then leaves the pending table; it is stored, with
      the time it was accepted at and all outputs unspent, if and only if it is signed
      for the branches that apply now, and otherwise its inputs are gone with it. */
  lemma PromotedIff(crypto: Crypto, ws: seq<World>, i: nat, id: Txid)
    requires Run(crypto, ws) && i < |ws| && id in ws[i].l.pend
    ensures var w, v := ws[i], After(crypto, ws[i], Scan(id));
            var p := w.l.pend[id];
            if w.l.now - p.timestamp > p.txn.timelock * 1_000_000_000 then
              && p.txn.txid == id && v.l.pend == w.l.pend - {id} && id !in w.l.db
              && (if AllSigned(crypto, w.l.db, w.l.now, p.txn) then FiledAs(v.l.db, p.txn, p.timestamp) && v.gone == w.gone
                  else v.l.db == w.l.db && v.gone == w.gone[id := p.txn])
            else v == w
  {
    RunInv(crypto, ws, i);
    PromotedOrNot(crypto, ws[i], id);
  }

  lemma PromotedOrNot(crypto: Crypto, w: World, id: Txid)
    requires TablesOk(w) && BodiesOk(crypto, w) && id in w.l.pend
    ensures var v, p := After(crypto, w, Scan(id)), w.l.pend[id];
            if w.l.now - p.timestamp > p.txn.timelock * 1_000_000_000 then
              && p.txn.txid == id && v.l.pend == w.l.pend - {id} && id !in w.l.db
              && (if AllSigned(crypto, w.l.db, w.l.now, p.txn) then FiledAs(v.l.db, p.txn, p.timestamp) && v.gone == w.gone
                  else v.l.db == w.l.db && v.gone == w.gone[id := p.txn])
            else v == w
  {
    if Expired(w.l.now, w.l.pend[id]) {
      ScanIs(crypto, w, id);
      SignedIffSound(crypto, w, id);
      if Sound(crypto, w.l, w.l.pend[id].txn) {
        PromotedWhere(crypto, w, id);
      }
    }
  }

  lemma SignedIffSound(crypto: Crypto, w: World, id: Txid)
    requires TablesOk(w) && BodiesOk(crypto, w) && id in w.l.pend
    ensures AllSigned(crypto, w.l.db, w.l.now, w.l.pend[id].txn) <==> Sound(crypto, w.l, w.l.pend[id].txn)
  {
    SoundIffSigned(crypto, w, id);
    AllSignedIsOk(crypto, w.l.db, w.l.now, w.l.pend[id].txn);
  }

  lemma PromotedWhere(crypto: Crypto, w: World, id: Txid)
    requires TablesOk(w) && BodiesOk(crypto, w) && id in w.l.pend && Expired(w.l.now, w.l.pend[id])
    requires Sound(crypto, w.l, w.l.pend[id].txn)
    ensures var v, p := AfterScan(crypto, w, id), w.l.pend[id];
            && FiledAs(v.l.db, p.txn, p.timestamp) && v.l.pend == w.l.pend - {id} && v.l.db.Keys == w.l.db.Keys + {id}
  {
    ScanIs(crypto, w, id);
    WriteFacts(crypto, DropPending(crypto, w.l, w.l.pend[id].txn), w.l.pend[id].txn, w.l.pend[id].timestamp);
  }

  /** A visit notes an id as invalid if and only if its timelock has passed and it is not
      signed for the branches that apply now. */
  lemma ScanNotedIff(crypto: Crypto, ws: seq<World>, i: nat, p: Pool, id: Txid)
    requires Run(crypto, ws) && i < |ws| && id in ws[i].l.pend
    ensures var l := ws[i].l;
            PoolAfterScan(crypto, p, ws[i], id).invalid == p.invalid +
              if l.now - l.pend[id].timestamp > l.pend[id].txn.timelock * 1_000_000_000 && !AllSigned(crypto, l.db, l.now, l.pend[id].txn)
              then [id] else []
  {
    RunInv(crypto, ws, i);
    SignedIffSound(crypto, ws[i], id);
  }

  // -------------------------------------------------------------------- every step

  lemma ScannedNewcomer(crypto: Crypto, w: World, x: Txid, id: Txid)
    requires TablesOk(w) && BodiesOk(crypto, w) && Newcomer(w, AfterScan(crypto, w, x), id)
    ensures x == id && id in AfterScan(crypto, w, id).l.db && id in w.l.pend && Sound(crypto, w.l, w.l.pend[id].txn)
    ensures AfterScan(crypto, w, id).l.db[id].txn == w.l.pend[id].txn
  {
    if x in w.l.pend && Expired(w.l.now, w.l.pend[x]) {
      ScanIs(crypto, w, x);
      if Sound(crypto, w.l, w.l.pend[x].txn) {
        PromotedWhere(crypto, w, x);
      }
    }
  }

  /** What the step stored or reserved under this id was signed and balanced. */
  ghost predicate SignedThere(crypto: Crypto, w: World, v: World, id: Txid)
    requires Newcomer(w, v, id)
  {
    var txn := if id in v.l.db then v.l.db[id].txn else v.l.pend[id].txn;
    && txn.txid == id && AllSigned(crypto, w.l.db, w.l.now, txn)
    && InputTotal(w.l.db, txn.inputs) == OutputTotal(txn.outputs)
  }

  lemma EventNewcomer(crypto: Crypto, w: World, e: Event, id: Txid)
    requires Inv(crypto, w) && Possible(crypto, e) && Newcomer(w, After(crypto, w, e), id)
    ensures SignedThere(crypto, w, After(crypto, w, e), id)
  {
    EventSound(crypto, w, e, id);
    var v := After(crypto, w, e);
    SoundIsSigned(crypto, w.l, if id in v.l.db then v.l.db[id].txn else v.l.pend[id].txn);
  }

  lemma EventSound(crypto: Crypto, w: World, e: Event, id: Txid)
    requires Inv(crypto, w) && Possible(crypto, e) && Newcomer(w, After(crypto, w, e), id)
    ensures var v := After(crypto, w, e);
            var txn := if id in v.l.db then v.l.db[id].txn else v.l.pend[id].txn;
            txn.txid == id && Sound(crypto, w.l, txn)
  {
    match e
    case Clock(_) =>
    case Scan(x) => ScannedNewcomer(crypto, w, x, id);
    case Process(txn) =>
      if Acceptable(crypto, w.l, txn) {
        TakenWhere(crypto, w, txn);
      }
  }

  lemma StepNewcomer(crypto: Crypto, w: World, v: World, id: Txid)
    requires Inv(crypto, w) && Newcomer(w, v, id) && exists e :: Possible(crypto, e) && v == After(crypto, w, e)
    ensures SignedThere(crypto, w, v, id)
  {
    var e :| Possible(crypto, e) && v == After(crypto, w, e);
    EventNewcomer(crypto, w, e, id);
  }

  /** Whatever a step of a run stores or reserves, from a block or from the pending table,
      was signed at that moment: for every input, by both keys of the output if its
      timeout has passed, and by preimage and third key otherwise. */
  lemma NewcomersSigned(crypto: Crypto, ws: seq<World>, i: nat, id: Txid)
    requires Run(crypto, ws) && 0 < i < |ws| && Newcomer(ws[i - 1], ws[i], id)
    ensures SignedThere(crypto, ws[i - 1], ws[i], id)
  {
    RunInv(crypto, ws, i - 1);
    assert StepAt(crypto, ws, i);
    StepNewcomer(crypto, ws[i - 1], ws[i], id);
  }
}
