/** Blocks and the mempool: what processing a block or scanning the pending
    table does, transaction by transaction. */
module LedgerBlocks {
  import opened Lists
  import opened LedgerTypes
  import opened LedgerRules
  import opened LedgerInvariant
  import opened LedgerRuns
  import opened LedgerPromotion

  /** A block that passed through Raft: its time and the ids of its transactions. */
  datatype Block = Block(time: int, ids: seq<Txid>)

  /** The transactions that wait, the order they came in, and the ids found
      invalid. */
  datatype Pool = Pool(txns: map<Txid, Txn>, order: seq<Txid>, invalid: seq<Txid>)

  function Discard(p: Pool, id: Txid): Pool {
    Pool(p.txns - {id}, WithoutFirst(p.order, id), p.invalid)
  }

  function Reject(p: Pool, id: Txid): Pool {
    Discard(p.(invalid := p.invalid + [id]), id)
  }

  /** What a failed verification does to the mempool: a transaction that is
      stored already is not invalid. */
  function Failed(p: Pool, stored: bool, id: Txid): Pool {
    if stored then Discard(p, id) else Reject(p, id)
  }

  /** A transaction leaves the mempool when it is processed, accepted or not. */
  function Processed(p: Pool, accepted: bool, stored: bool, id: Txid): (r: Pool)
    ensures r.txns == p.txns - {id}
  {
    Discard(if accepted then p else Failed(p, stored, id), id)
  }

  ghost function PoolAfter(crypto: Crypto, p: Pool, l: Ledger, txn: Txn): Pool {
    Processed(p, Acceptable(crypto, l, txn), txn.txid in l.db, txn.txid)
  }

  ghost function AdmitAll(crypto: Crypto, l: Ledger, txns: seq<Txn>): Ledger
    decreases |txns|
  {
    if txns == [] then l else Admit(crypto, AdmitAll(crypto, l, txns[..|txns| - 1]), txns[|txns| - 1])
  }

  ghost function PoolAfterAll(crypto: Crypto, p: Pool, l: Ledger, txns: seq<Txn>): Pool
    decreases |txns|
  {
    if txns == [] then p
    else
      var n := |txns| - 1;
      PoolAfter(crypto, PoolAfterAll(crypto, p, l, txns[..n]), AdmitAll(crypto, l, txns[..n]), txns[n])
  }

  ghost predicate Pooled(txns: map<Txid, Txn>, ids: seq<Txid>) {
    forall id :: id in ids ==> id in txns
  }

  ghost function Lookup(txns: map<Txid, Txn>, ids: seq<Txid>): (r: seq<Txn>)
    requires Pooled(txns, ids)
  {
    seq(|ids|, i requires 0 <= i < |ids| => txns[ids[i]])
  }

  ghost function PoolAfterScan(crypto: Crypto, p: Pool, w: World, id: Txid): Pool {
    if id in w.l.pend && Expired(w.l.now, w.l.pend[id]) && !Sound(crypto, w.l, w.l.pend[id].txn) then Reject(p, id) else p
  }

  ghost function PoolAfterScanAll(crypto: Crypto, p: Pool, w: World, order: seq<Txid>): Pool
    decreases |order|
  {
    if order == [] then p
    else
      var n := |order| - 1;
      PoolAfterScan(crypto, PoolAfterScanAll(crypto, p, w, order[..n]), ScanAll(crypto, w, order[..n]), order[n])
  }

  // ------------------------------------------------------------ what blocks mean

  lemma AdmitNext(crypto: Crypto, p: Pool, l: Ledger, txns: seq<Txn>, i: nat)
    requires i < |txns|
    ensures AdmitAll(crypto, l, txns[..i + 1]) == Admit(crypto, AdmitAll(crypto, l, txns[..i]), txns[i])
    ensures PoolAfterAll(crypto, p, l, txns[..i + 1]) ==
              PoolAfter(crypto, PoolAfterAll(crypto, p, l, txns[..i]), AdmitAll(crypto, l, txns[..i]), txns[i])
  {
    assert txns[..i + 1][..i] == txns[..i];
  }

  lemma ScanNext(crypto: Crypto, p: Pool, w: World, order: seq<Txid>, id: Txid)
    ensures ScanAll(crypto, w, order + [id]) == AfterScan(crypto, ScanAll(crypto, w, order), id)
    ensures PoolAfterScanAll(crypto, p, w, order + [id]) ==
              PoolAfterScan(crypto, PoolAfterScanAll(crypto, p, w, order), ScanAll(crypto, w, order), id)
  {
    assert (order + [id])[..|order|] == order;
  }

  lemma AfterLeaves(crypto: Crypto, p: Pool, l: Ledger, txn: Txn)
    ensures PoolAfter(crypto, p, l, txn).txns == p.txns - {txn.txid}
  {
  }

  ghost function TxidsOf(txns: seq<Txn>): set<Txid> {
    set i | 0 <= i < |txns| :: txns[i].txid
  }

  /** A block empties its own transactions out of the mempool and leaves every
      other one where it was. */
  lemma {:induction false} BlockLeavesPool(crypto: Crypto, p: Pool, l: Ledger, txns: seq<Txn>)
    ensures PoolAfterAll(crypto, p, l, txns).txns == p.txns - TxidsOf(txns)
    decreases |txns|
  {
    if txns != [] {
      var n := |txns| - 1;
      BlockLeavesPool(crypto, p, l, txns[..n]);
      AfterLeaves(crypto, PoolAfterAll(crypto, p, l, txns[..n]), AdmitAll(crypto, l, txns[..n]), txns[n]);
      TxidsNext(txns);
      TakeBoth(p.txns, TxidsOf(txns[..n]), {txns[n].txid});
    }
  }

  lemma TakeBoth(m: map<Txid, Txn>, a: set<Txid>, b: set<Txid>)
    ensures m - a - b == m - (a + b)
  {
  }

  lemma TxidsNext(txns: seq<Txn>)
    requires txns != []
    ensures TxidsOf(txns) == TxidsOf(txns[..|txns| - 1]) + {txns[|txns| - 1].txid}
  {
    var n := |txns| - 1;
    forall id | id in TxidsOf(txns) ensures id in TxidsOf(txns[..n]) + {txns[n].txid} {
      var i :| 0 <= i < |txns| && txns[i].txid == id;
      assert i < n ==> txns[..n][i].txid == id;
    }
    forall id | id in TxidsOf(txns[..n]) ensures id in TxidsOf(txns) {
      var i :| 0 <= i < n && txns[..n][i].txid == id;
      assert txns[i].txid == id;
    }
  }

  /** The search over the pending table can only end with v. */
  ghost predicate OnlyVerdict(l: Ledger, txn: Txn, v: Verdict) {
    forall u :: IsVerdict(l, txn, u) ==> u == v
  }

  lemma InvOnlyVerdict(crypto: Crypto, w: World, txn: Txn)
    requires Inv(crypto, w) && WellFormed(crypto, txn)
    ensures OnlyVerdict(w.l, txn, VerdictOf(w.l, txn))
  {
    forall u | IsVerdict(w.l, txn, u) ensures u == VerdictOf(w.l, txn) {
      OneVerdict(crypto, w, txn, u);
    }
  }

  ghost predicate InputsOk(crypto: Crypto, db: Table, now: int, txn: Txn, n: nat)
    requires n <= |txn.inputs|
  {
    forall k :: 0 <= k < n ==> InputOk(crypto, db, now, txn.txid, txn.inputs[k])
  }

  ghost predicate InputUnspent(db: Table, inp: Input) {
    Known(db, inp.out) && Flag(db, inp.out)
  }

  /** Nothing pending stands in the way: a transaction gives way, or none has the
      same inputs and the first n inputs are unspent. */
  ghost predicate Unopposed(db: Table, txn: Txn, v: Verdict, n: nat)
    requires n <= |txn.inputs|
  {
    !v.Blocked? && (v.Free? ==> forall k :: 0 <= k < n ==> InputUnspent(db, txn.inputs[k]))
  }

  lemma NextInput(crypto: Crypto, db: Table, now: int, txn: Txn, v: Verdict, i: nat)
    requires i < |txn.inputs|
    ensures InputsOk(crypto, db, now, txn, i + 1) <==>
              InputsOk(crypto, db, now, txn, i) && InputOk(crypto, db, now, txn.txid, txn.inputs[i])
    ensures InputsOk(crypto, db, now, txn, |txn.inputs|) ==> InputsOk(crypto, db, now, txn, i + 1)
    ensures Unopposed(db, txn, v, i + 1) <==> Unopposed(db, txn, v, i) && (v.Free? ==> InputUnspent(db, txn.inputs[i]))
    ensures Unopposed(db, txn, v, |txn.inputs|) ==> Unopposed(db, txn, v, i + 1)
  {
  }

  /** The rules of acceptance, as the verification of a transaction checks them. */
  ghost predicate Passes(crypto: Crypto, l: Ledger, txn: Txn, checkPend: bool, v: Verdict) {
    && txn.txid !in l.db
    && InputsOk(crypto, l.db, l.now, txn, |txn.inputs|)
    && InputTotal(l.db, txn.inputs) == OutputTotal(txn.outputs)
    && (checkPend ==> Unopposed(l.db, txn, v, |txn.inputs|))
  }

  lemma PassesIsAcceptable(crypto: Crypto, l: Ledger, txn: Txn)
    ensures Passes(crypto, l, txn, true, VerdictOf(l, txn)) <==> Acceptable(crypto, l, txn)
  {
    SoundInputs(crypto, l, txn);
  }

  lemma SoundInputs(crypto: Crypto, l: Ledger, txn: Txn)
    ensures Sound(crypto, l, txn) <==>
              && txn.txid !in l.db && InputsOk(crypto, l.db, l.now, txn, |txn.inputs|)
              && InputTotal(l.db, txn.inputs) == OutputTotal(txn.outputs)
  {
  }

  /** l and p are what the first `done` transactions of a block make of l0 and
      p0; they were all in the mempool, none of them twice. */
  ghost predicate ProcessedTo(crypto: Crypto, l0: Ledger, p0: Pool, ids: seq<Txid>, done: nat, l: Ledger, p: Pool) {
    && done <= |ids| && Pooled(p0.txns, ids[..done]) && Distinct(ids[..done])
    && l == AdmitAll(crypto, l0, Lookup(p0.txns, ids[..done]))
    && p == PoolAfterAll(crypto, p0, l0, Lookup(p0.txns, ids[..done]))
  }

  lemma LookedUpIds(txns: map<Txid, Txn>, ids: seq<Txid>)
    requires Pooled(txns, ids) && forall id :: id in txns ==> txns[id].txid == id
    ensures TxidsOf(Lookup(txns, ids)) == set id | id in ids
  {
    var found := Lookup(txns, ids);
    forall id | id in ids ensures id in TxidsOf(found) {
      var i :| 0 <= i < |ids| && ids[i] == id;
      assert found[i].txid == id;
    }
  }

  lemma ProcessedPool(crypto: Crypto, l0: Ledger, p0: Pool, ids: seq<Txid>, done: nat, l: Ledger, p: Pool)
    requires ProcessedTo(crypto, l0, p0, ids, done, l, p) && FiledPool(p0)
    ensures p.txns == p0.txns - set id | id in ids[..done]
  {
    BlockLeavesPool(crypto, p0, l0, Lookup(p0.txns, ids[..done]));
    LookedUpIds(p0.txns, ids[..done]);
  }

  lemma ProcessedNext(crypto: Crypto, l0: Ledger, p0: Pool, ids: seq<Txid>, done: nat, l: Ledger, p: Pool)
    requires ProcessedTo(crypto, l0, p0, ids, done, l, p) && FiledPool(p0) && done < |ids| && ids[done] in p.txns
    ensures ProcessedTo(crypto, l0, p0, ids, done + 1, Admit(crypto, l, p.txns[ids[done]]), PoolAfter(crypto, p, l, p.txns[ids[done]]))
  {
    ProcessedPool(crypto, l0, p0, ids, done, l, p);
    NewId(ids, done);
    NextLookup(p0.txns, ids, done);
    AdmitNext(crypto, p0, l0, Lookup(p0.txns, ids[..done + 1]), done);
  }

  lemma NewId(ids: seq<Txid>, done: nat)
    requires done < |ids| && Distinct(ids[..done]) && ids[done] !in (set id | id in ids[..done])
    ensures Distinct(ids[..done + 1])
  {
    var some, more := ids[..done], ids[..done + 1];
    assert more == some + [ids[done]];
    assert forall i :: 0 <= i < done ==> some[i] in (set id | id in some);
  }

  lemma NextLookup(txns: map<Txid, Txn>, ids: seq<Txid>, done: nat)
    requires done < |ids| && Pooled(txns, ids[..done]) && ids[done] in txns
    ensures ids[..done + 1] == ids[..done] + [ids[done]] && Pooled(txns, ids[..done + 1])
    ensures Lookup(txns, ids[..done + 1])[..done] == Lookup(txns, ids[..done])
    ensures Lookup(txns, ids[..done + 1])[done] == txns[ids[done]]
    ensures Lookup(txns, ids[..done + 1])[..done + 1] == Lookup(txns, ids[..done + 1])
  {
  }

  /** A block stops early exactly when an id is missing or listed twice. */
  lemma ProcessedStuck(crypto: Crypto, l0: Ledger, p0: Pool, ids: seq<Txid>, done: nat, l: Ledger, p: Pool)
    requires ProcessedTo(crypto, l0, p0, ids, done, l, p) && FiledPool(p0) && done < |ids| && ids[done] !in p.txns
    ensures !(Distinct(ids) && Pooled(p0.txns, ids))
  {
    ProcessedPool(crypto, l0, p0, ids, done, l, p);
    if ids[done] in p0.txns {
      var i :| 0 <= i < done && ids[..done][i] == ids[done];
      assert ids[i] == ids[done];
    }
  }

  /** The index lists the outputs of the transactions in `ids`, and no others. */
  ghost predicate Indexes(crypto: Crypto, index: Index, db: Table, ids: set<Txid>) {
    forall key: Blob, o: Outpoint :: o in Listed(index, key) <==>
      o.txid in ids && o.txid in db && Mentions(crypto, db[o.txid].txn.outputs, o.index, key)
  }

  lemma IndexesNext(crypto: Crypto, index: Index, db: Table, ids: set<Txid>, id: Txid)
    requires Indexes(crypto, index, db, ids) && id in db
    ensures Indexes(crypto, AddOutputs(index, crypto, id, db[id].txn.outputs), db, ids + {id})
  {
    var next := AddOutputs(index, crypto, id, db[id].txn.outputs);
    forall key: Blob, o: Outpoint
      ensures o in Listed(next, key) <==>
                o.txid in ids + {id} && o.txid in db && Mentions(crypto, db[o.txid].txn.outputs, o.index, key)
    {
      AddOutputsLists(index, crypto, id, db[id].txn.outputs, key, o);
    }
  }

  lemma AllIndexed(crypto: Crypto, index: Index, db: Table)
    requires Indexes(crypto, index, db, db.Keys)
    requires forall id :: id in db ==> db[id].utxos == AllUnspent(db[id].txn)
    ensures UnspentIndexOk(crypto, index, db)
  {
  }

  lemma SpendNext(crypto: Crypto, l: Ledger, inputs: seq<Input>, i: nat)
    requires AllKnown(l.db, inputs) && i < |inputs|
    ensures AllKnown(l.db, inputs[..i]) && AllKnown(l.db, inputs[..i + 1])
    ensures var s := SpendAll(crypto, l, inputs[..i]);
            Known(s.db, inputs[i].out) && SpendAll(crypto, l, inputs[..i + 1]) == MarkSpent(crypto, s, inputs[i].out)
  {
    assert inputs[..i + 1][..i] == inputs[..i];
    ShapeKnown(l.db, SpendAll(crypto, l, inputs[..i]).db, inputs[i].out);
  }

  lemma RefusedIs(crypto: Crypto, l: Ledger, txn: Txn)
    requires !Acceptable(crypto, l, txn)
    ensures Admit(crypto, l, txn) == l
  {
  }

  // ------------------------------------------------------------------------ runs

  /** The run reaches w. */
  ghost predicate Reaches(crypto: Crypto, trace: seq<World>, w: World) {
    Run(crypto, trace) && trace[|trace| - 1] == w
  }

  lemma ReachedInv(crypto: Crypto, trace: seq<World>, w: World)
    requires Reaches(crypto, trace, w)
    ensures Inv(crypto, w)
  {
    RunInv(crypto, trace, |trace| - 1);
  }

  /** The mempool files transactions under their id. */
  ghost predicate FiledPool(p: Pool) {
    forall id :: id in p.txns ==> p.txns[id].txid == id
  }

  /** The transactions of a block that the mempool has are well formed. */
  ghost predicate BlockOk(crypto: Crypto, txns: map<Txid, Txn>, ids: seq<Txid>) {
    forall id :: id in ids && id in txns ==> WellFormed(crypto, txns[id])
  }

  lemma FiledProcessed(p: Pool, accepted: bool, stored: bool, id: Txid)
    requires FiledPool(p)
    ensures FiledPool(Processed(p, accepted, stored, id))
  {
    assert Processed(p, accepted, stored, id).txns == p.txns - {id};
  }

  lemma ReachedFacts(crypto: Crypto, trace: seq<World>, w: World, txn: Txn)
    requires Reaches(crypto, trace, w) && WellFormed(crypto, txn)
    ensures Filed(w.l.db) && OnlyVerdict(w.l, txn, VerdictOf(w.l, txn))
  {
    ReachedInv(crypto, trace, w);
    InvOnlyVerdict(crypto, w, txn);
  }

  lemma Extend(crypto: Crypto, trace: seq<World>, w: World, e: Event)
    requires Reaches(crypto, trace, w) && Possible(crypto, e)
    ensures Reaches(crypto, trace + [After(crypto, w, e)], After(crypto, w, e))
  {
    var longer := trace + [After(crypto, w, e)];
    forall i | 0 < i < |longer| ensures StepAt(crypto, longer, i) {
      if i < |trace| {
        assert StepAt(crypto, trace, i);
        var f :| Possible(crypto, f) && trace[i] == After(crypto, trace[i - 1], f);
      }
    }
  }

  lemma ProcessReaches(crypto: Crypto, trace: seq<World>, w: World, txn: Txn)
    requires Reaches(crypto, trace, w) && WellFormed(crypto, txn)
    ensures var v := World(Admit(crypto, w.l, txn), w.gone); Reaches(crypto, trace + [v], v)
  {
    Extend(crypto, trace, w, Process(txn));
  }

  lemma ScanReaches(crypto: Crypto, trace: seq<World>, w: World, id: Txid)
    requires Reaches(crypto, trace, w)
    ensures var v := AfterScan(crypto, w, id); Reaches(crypto, trace + [v], v)
  {
    Extend(crypto, trace, w, Scan(id));
  }

  /** The two ways an expired pending transaction goes, with what the
      verification of it needs. */
  lemma ExpiryIs(crypto: Crypto, trace: seq<World>, w: World, id: Txid)
    requires Reaches(crypto, trace, w) && id in w.l.pend && Expired(w.l.now, w.l.pend[id])
    ensures var p := w.l.pend[id];
            var k := DropPending(crypto, w.l, p.txn);
            && p.txn.txid == id && id !in k.db && Filed(k.db) && WellFormed(crypto, p.txn)
            && (Sound(crypto, k, p.txn) <==> Sound(crypto, w.l, p.txn))
            && (Sound(crypto, k, p.txn) ==>
                  AllKnown(k.db, p.txn.inputs) && AfterScan(crypto, w, id) == World(Write(crypto, k, p.txn, p.timestamp), w.gone))
            && (!Sound(crypto, k, p.txn) ==> AfterScan(crypto, w, id) == World(k, w.gone[id := p.txn]))
  {
    ReachedInv(crypto, trace, w);
    ScanIs(crypto, w, id);
    PromoteIs(crypto, w.l, id);
  }

  lemma UnexpiredIs(crypto: Crypto, p: Pool, w: World, id: Txid)
    requires id in w.l.pend && !Expired(w.l.now, w.l.pend[id])
    ensures AfterScan(crypto, w, id) == w && PoolAfterScan(crypto, p, w, id) == p
  {
  }

  /** A scan only removes the transaction it visits. */
  lemma ScanPend(crypto: Crypto, trace: seq<World>, w: World, id: Txid, x: Txid)
    requires Reaches(crypto, trace, w) && id in w.l.pend && x in w.l.pend && x != id
    ensures x in AfterScan(crypto, w, id).l.pend && AfterScan(crypto, w, id).l.pend[x] == w.l.pend[x]
  {
    if Expired(w.l.now, w.l.pend[id]) {
      ExpiryIs(crypto, trace, w, id);
    }
  }

  ghost predicate Unvisited(snapshot: Table, todo: set<Txid>, pend: Table) {
    forall id :: id in todo ==> id in snapshot && id in pend && pend[id] == snapshot[id]
  }

  lemma StillUnvisited(crypto: Crypto, trace: seq<World>, w: World, snapshot: Table, todo: set<Txid>, id: Txid)
    requires Reaches(crypto, trace, w) && id in todo && Unvisited(snapshot, todo, w.l.pend)
    ensures Unvisited(snapshot, todo - {id}, AfterScan(crypto, w, id).l.pend)
  {
    forall x | x in todo - {id}
      ensures x in snapshot && x in AfterScan(crypto, w, id).l.pend && AfterScan(crypto, w, id).l.pend[x] == snapshot[x]
    {
      ScanPend(crypto, trace, w, id, x);
    }
  }

  /** What a whole scan leaves, whatever its order. */
  lemma ScanLeaves(crypto: Crypto, trace: seq<World>, w: World, order: seq<Txid>)
    requires Reaches(crypto, trace, w) && Enumerates(order, w.l.pend.Keys)
    ensures var r := ScanAll(crypto, w, order).l;
            && r.db == w.l.db + (map id | id in w.l.pend.Keys && Promoted(crypto, w.l, id) :: Stored(w.l.pend[id].txn, w.l.pend[id].timestamp))
            && r.pend == map id | id in w.l.pend && !Expired(w.l.now, w.l.pend[id]) :: w.l.pend[id]
  {
    ReachedInv(crypto, trace, w);
    ScanOrderIrrelevant(crypto, trace, |trace| - 1, order, order);
    ScanAllIsUpdatePend(crypto, w, order);
  }

  lemma FiledScanned(p: Pool, q: Pool)
    requires FiledPool(p) && forall id :: id in q.txns ==> id in p.txns && q.txns[id] == p.txns[id]
    ensures FiledPool(q)
  {
  }

  lemma EnumerateNext(order: seq<Txid>, all: set<Txid>, todo: set<Txid>, id: Txid)
    requires Enumerates(order, all - todo) && id in todo && todo <= all
    ensures Enumerates(order + [id], all - (todo - {id}))
  {
  }

  lemma ClockReaches(crypto: Crypto, trace: seq<World>, w: World, now: int)
    requires Reaches(crypto, trace, w)
    ensures var v := w.(l := w.l.(now := now)); Reaches(crypto, trace + [v], v)
  {
    Extend(crypto, trace, w, Clock(now));
  }

  /** A block whose ids are all in the mempool stops at the first repetition. */
  lemma StopsAtRepetition(crypto: Crypto, l0: Ledger, p0: Pool, ids: seq<Txid>, done: nat, l: Ledger, p: Pool)
    requires ProcessedTo(crypto, l0, p0, ids, done, l, p) && FiledPool(p0) && Pooled(p0.txns, ids)
    requires done < |ids| && ids[done] !in p.txns
    ensures ids[done] in ids[..done] && Distinct(ids[..done])
  {
    ProcessedPool(crypto, l0, p0, ids, done, l, p);
  }
}
