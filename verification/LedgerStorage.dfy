/** The storage of a node: the tables, indexes, mempool and block queue that its
    methods update in place, proved against the rules of the ledger. */
module LedgerStorage {
  import opened Lists
  import opened Sums
  import opened LedgerTypes
  import opened LedgerRules
  import opened LedgerInvariant
  import opened LedgerRuns
  import opened LedgerPromotion
  import opened LedgerBalances
  import opened LedgerTally
  import opened LedgerBlocks
  import opened LedgerSigning
  import opened LedgerSignatures

  /** How often a block with missing transactions is put off. */
  const BACKOFF_AMOUNT := 300

  /** Which of the two indexes a method works on. */
  datatype Which = PubOuts | PubOutsPend

  /** What one turn of the processing loop came to: nothing to do; a transaction
      of the block is missing and the block waits, or the missing ones are asked
      for; the block listed an id twice; or the block was processed. */
  datatype Turn = Idle | PutOff | Fetch | Raised(done: nat) | Finished

  class Storage {
    const crypto: Crypto
    var db: Table
    var pend: Table
    var pubOuts: Index
    var pubOutsPend: Index
    var currentTime: int
    var mempool: map<Txid, Txn>
    var mempoolList: seq<Txid>
    var invalidTxns: seq<Txid>
    var blockQueue: seq<Block>
    var processing: bool
    var missedCounter: nat
    var txnsProcessed: nat
    var txnsAccepted: nat
    ghost var gone: map<Txid, Txn>
    ghost var trace: seq<World>

    ghost function View(): Ledger
      reads this
    {
      Ledger(db, pend, pubOuts, pubOutsPend, currentTime)
    }

    ghost function Now(): World
      reads this
    {
      World(View(), gone)
    }

    ghost function Waiting(): Pool
      reads this
    {
      Pool(mempool, mempoolList, invalidTxns)
    }

    /** The state is the end of a run of the ledger. */
    ghost predicate Valid()
      reads this
    {
      Reaches(crypto, trace, Now()) && FiledPool(Waiting())
    }

    // -------------------------------------------------------------------- start

    constructor (crypto: Crypto, coinbase: seq<Txn>)
      requires forall i :: 0 <= i < |coinbase| ==> coinbase[i].inputs == []
      ensures Valid() && this.crypto == crypto
      ensures trace == [Now()]
      ensures forall id :: id in db <==> exists i :: 0 <= i < |coinbase| && coinbase[i].txid == id
      ensures forall id :: id in db ==> db[id].txn in coinbase && db[id].timestamp == 0
      ensures pend == map[] && mempool == map[] && blockQueue == [] && !processing
    {
      this.crypto := crypto;
      db, pend, pubOuts, pubOutsPend, currentTime := map[], map[], map[], map[], 0;
      mempool, mempoolList, invalidTxns, blockQueue := map[], [], [], [];
      processing, missedCounter, txnsProcessed, txnsAccepted, gone := false, 0, 0, 0, map[];
      new;
      var i := 0;
      while i < |coinbase|
        invariant i <= |coinbase|
        invariant pend == map[] && pubOuts == map[] && pubOutsPend == map[] && gone == map[] && mempool == map[]
        invariant blockQueue == [] && !processing
        invariant forall id :: id in db <==> exists k :: 0 <= k < i && coinbase[k].txid == id
        invariant forall id :: id in db ==> db[id].txn in coinbase && db[id] == Stored(db[id].txn, 0) && db[id].txn.txid == id
      {
        if coinbase[i].txid !in db {
          db := db[coinbase[i].txid := Stored(coinbase[i], 0)];
        }
        i := i + 1;
      }
      IndexStored();
      assert PendingIndexOk(crypto, pubOutsPend, pend);
      trace := [Now()];
    }

    /** Every output of a fresh table is unspent, so all of them are listed. */
    method IndexStored()
      requires pubOuts == map[] && forall id :: id in db ==> db[id] == Stored(db[id].txn, 0) && db[id].txn.txid == id
      modifies this`pubOuts, this`pubOutsPend
      ensures pubOutsPend == old(pubOutsPend)
      ensures UnspentIndexOk(crypto, pubOuts, db)
    {
      var todo := db.Keys;
      while todo != {}
        invariant todo <= db.Keys && pubOutsPend == old(pubOutsPend)
        invariant Indexes(crypto, pubOuts, db, db.Keys - todo)
        decreases |todo|
      {
        var id :| id in todo;
        IndexesNext(crypto, pubOuts, db, db.Keys - todo, id);
        assert db.Keys - todo + {id} == db.Keys - (todo - {id});
        AddTxnToBalanceIndex(db[id].txn, PubOuts);
        todo := todo - {id};
      }
      assert db.Keys - todo == db.Keys;
      AllIndexed(crypto, pubOuts, db);
    }

    // ------------------------------------------------------------------ indexes

    method AddTxnToBalanceIndex(txn: Txn, which: Which)
      modifies this`pubOuts, this`pubOutsPend
      ensures pubOuts == if which.PubOuts? then AddOutputs(old(pubOuts), crypto, txn.txid, txn.outputs) else old(pubOuts)
      ensures pubOutsPend == if which.PubOutsPend? then AddOutputs(old(pubOutsPend), crypto, txn.txid, txn.outputs) else old(pubOutsPend)
    {
      var index := if which.PubOuts? then pubOuts else pubOutsPend;
      ghost var was := index;
      var i := 0;
      while i < |txn.outputs|
        invariant i <= |txn.outputs|
        invariant index == AddOutputs(was, crypto, txn.txid, txn.outputs[..i])
      {
        var keys := crypto.pubkeys(txn.outputs[i]);
        ghost var before := index;
        var k := 0;
        while k < |keys|
          invariant k <= |keys|
          invariant index == AddKeys(before, keys[..k], Outpoint(txn.txid, i))
        {
          index := index[keys[k] := Listed(index, keys[k]) + {Outpoint(txn.txid, i)}];
          assert keys[..k + 1][..k] == keys[..k];
          k := k + 1;
        }
        assert keys[..k] == keys;
        assert txn.outputs[..i + 1][..i] == txn.outputs[..i];
        i := i + 1;
      }
      assert txn.outputs[..i] == txn.outputs;
      if which.PubOuts? {
        pubOuts := index;
      } else {
        pubOutsPend := index;
      }
    }

    method DelOutFromBalanceIndex(keys: seq<Blob>, o: Outpoint, which: Which)
      modifies this`pubOuts, this`pubOutsPend
      ensures pubOuts == if which.PubOuts? then DelKeys(old(pubOuts), keys, o) else old(pubOuts)
      ensures pubOutsPend == if which.PubOutsPend? then DelKeys(old(pubOutsPend), keys, o) else old(pubOutsPend)
    {
      var index := if which.PubOuts? then pubOuts else pubOutsPend;
      ghost var was := index;
      var k := 0;
      while k < |keys|
        invariant k <= |keys|
        invariant index == DelKeys(was, keys[..k], o)
      {
        if keys[k] in index {
          index := index[keys[k] := index[keys[k]] - {o}];
        }
        assert keys[..k + 1][..k] == keys[..k];
        k := k + 1;
      }
      assert keys[..k] == keys;
      if which.PubOuts? {
        pubOuts := index;
      } else {
        pubOutsPend := index;
      }
    }

    // ----------------------------------------------------------------- balances

    /** The table is chosen by comparing the index, by value, with pub_outs. A
        pending index that happens to equal pub_outs lists nothing, so the choice
        is right all the same. */
    method GetBalance(pubkey: Blob, which: Which) returns (b: Balance)
      requires Valid()
      ensures var table := if which.PubOuts? then db else pend;
              var index := if which.PubOuts? then pubOuts else pubOutsPend;
              && b == BalanceOver(currentTime, table, pubkey, Listed(index, pubkey))
              && b.owned == SumOver(Listed(index, pubkey), OfKey(OwnedIn(currentTime, table), pubkey))
              && b.partial == SumOver(Listed(index, pubkey), OfKey(PartialIn(currentTime, table), pubkey))
              && b.htlc == SumOver(Listed(index, pubkey), OfKey(HtlcIn(currentTime, table), pubkey))
    {
      ghost var listed := Listed(if which.PubOuts? then pubOuts else pubOutsPend, pubkey);
      BalanceKinds(currentTime, if which.PubOuts? then db else pend, pubkey, listed);
      var index := if which.PubOuts? then pubOuts else pubOutsPend;
      if pubkey !in index {
        return NOTHING;
      }
      var table := if index == pubOuts then db else pend;
      TableChoice(pubkey, which);
      b := AddShares(pubkey, table, index[pubkey]);
    }

    method AddShares(pubkey: Blob, table: Table, outs: set<Outpoint>) returns (b: Balance)
      requires forall o :: o in outs ==> Known(table, o)
      ensures b == BalanceOver(currentTime, table, pubkey, outs)
    {
      b := NOTHING;
      var todo := outs;
      ghost var done: set<Outpoint> := {};
      while todo != {}
        invariant todo !! done && todo + done == outs
        invariant b == BalanceOver(currentTime, table, pubkey, done)
        decreases |todo|
      {
        var o :| o in todo;
        BalanceTake(currentTime, table, pubkey, done + {o}, o);
        assert done + {o} - {o} == done;
        b := AddShare(b, pubkey, table[o.txid], table[o.txid].txn.outputs[o.index]);
        done := done + {o};
        todo := todo - {o};
      }
      assert done == outs;
    }

    method AddShare(before: Balance, pubkey: Blob, w: Wrapper, out: Output) returns (b: Balance)
      ensures b == Plus(before, Share(currentTime, w, out, pubkey))
    {
      var bal, partial, htlc := before.owned, before.partial, before.htlc;
      if pubkey in [out.pubkey, out.pubkey2] && currentTime - w.timestamp >= out.htlcTimeout * TIMEOUT_CONST {
        if out.pubkey == out.pubkey2 {
          bal := bal + out.amount;
        } else {
          partial := partial + out.amount;
        }
      }
      if pubkey == out.htlcPubkey && currentTime - w.timestamp < out.htlcTimeout * TIMEOUT_CONST {
        htlc := htlc + out.amount;
      }
      b := Balance(bal, partial, htlc);
    }

    lemma TableChoice(pubkey: Blob, which: Which)
      requires Valid()
      requires pubkey in (if which.PubOuts? then pubOuts else pubOutsPend)
      ensures var index := if which.PubOuts? then pubOuts else pubOutsPend;
              var table := if index == pubOuts then db else pend;
              && (forall o :: o in index[pubkey] ==> Known(table, o))
              && (index[pubkey] != {} ==> table == if which.PubOuts? then db else pend)
    {
      ReachedInv(crypto, trace, Now());
      var index := if which.PubOuts? then pubOuts else pubOutsPend;
      forall o | o in index[pubkey]
        ensures Known(if which.PubOuts? then db else pend, o) && (index == pubOuts <==> which.PubOuts?)
      {
        assert o in Listed(index, pubkey);
        assert o in Listed(pubOuts, pubkey) <==> IsUnspentOf(crypto, db, pubkey, o);
        assert o in Listed(pubOutsPend, pubkey) <==> IsPendingOf(crypto, pend, pubkey, o);
      }
    }

    // ------------------------------------------------------------------ mempool

    method AddToMempool(txn: Txn)
      requires Valid()
      modifies this`mempool, this`mempoolList
      ensures Valid()
      ensures mempool == old(mempool)[txn.txid := txn] && mempoolList == old(mempoolList) + [txn.txid]
    {
      mempool := mempool[txn.txid := txn];
      mempoolList := mempoolList + [txn.txid];
    }

    method RemoveFromMempool(txid: Txid)
      modifies this`mempool, this`mempoolList
      ensures Waiting() == Discard(old(Waiting()), txid)
    {
      mempool := mempool - {txid};
      mempoolList := WithoutFirst(mempoolList, txid);
    }

    method RemoveInvalidTxnFromMempool(txid: Txid)
      modifies this`mempool, this`mempoolList, this`invalidTxns
      ensures Waiting() == Reject(old(Waiting()), txid)
    {
      invalidTxns := invalidTxns + [txid];
      RemoveFromMempool(txid);
    }

    // ------------------------------------------------------------- verification

    /** Where only one outcome is possible, the search finds it. */
    method CheckPendReplacement(txn: Txn, ghost only: Verdict) returns (v: Verdict)
      requires OnlyVerdict(View(), txn, only)
      ensures v == only
    {
      var todo := pend.Keys;
      while todo != {}
        invariant todo <= pend.Keys
        invariant forall id :: id in pend && id !in todo ==> !SameInputs(pend[id].txn, txn)
        decreases |todo|
      {
        var id :| id in todo;
        if OutpointsOf(pend[id].txn) == OutpointsOf(txn) {
          v := if currentTime - pend[id].timestamp > pend[id].txn.timelock * TIMELOCK_CONST then Blocked
               else if txn.seqNo <= pend[id].txn.seqNo then Blocked
               else Replaces(id);
          assert IsVerdict(View(), txn, v);
          return;
        }
        todo := todo - {id};
      }
      v := Free;
      assert IsVerdict(View(), txn, v);
    }

    /** The existence and signature checks for one input. */
    method VerifyInput(txid: Txid, inp: Input) returns (ok: bool, amount: nat, unspent: bool)
      requires Filed(db)
      ensures ok <==> InputOk(crypto, db, currentTime, txid, inp)
      ensures ok <==> SignedAt(crypto, db, currentTime, txid, inp)
      ensures ok ==> amount == AmountAt(db, inp.out) && unspent == InputUnspent(db, inp)
    {
      ok, amount, unspent := false, 0, false;
      if inp.out.txid !in db {
        return;
      }
      var w := db[inp.out.txid];
      if inp.out.index >= |w.txn.outputs| {
        return;
      }
      var spent := w.txn.outputs[inp.out.index];
      amount, unspent := spent.amount, w.utxos[inp.out.index];
      if currentTime - w.timestamp >= spent.htlcTimeout * TIMEOUT_CONST {
        if !crypto.verifySig(txid, spent.pubkey, inp.signature) || !crypto.verifySig(txid, spent.pubkey2, inp.signature2) {
          return;
        }
      } else {
        if crypto.sha256(inp.preimage) != spent.htlcHashlock {
          return;
        }
        if !crypto.verifySig(txid, spent.htlcPubkey, inp.htlcSignature) {
          return;
        }
      }
      ok := true;
    }

    method VerifyTxn(txn: Txn, checkPend: bool) returns (ok: bool)
      requires Filed(db) && HasInputs(txn) && (checkPend ==> OnlyVerdict(View(), txn, VerdictOf(View(), txn)))
      modifies this`pend, this`pubOuts, this`pubOutsPend, this`mempool, this`mempoolList, this`invalidTxns
      ensures ok <==> if checkPend then Acceptable(crypto, old(View()), txn) else Sound(crypto, old(View()), txn)
      ensures checkPend ==> (ok <==> Takeable(crypto, old(View()), txn))
      ensures !checkPend ==> (ok <==> txn.txid !in old(db) && AllSigned(crypto, old(db), currentTime, txn)
                                      && InputTotal(old(db), txn.inputs) == OutputTotal(txn.outputs))
      ensures View() == if ok && checkPend then PushOut(crypto, old(View()), txn) else old(View())
      ensures Waiting() == if ok then old(Waiting()) else Failed(old(Waiting()), txn.txid in old(db), txn.txid)
    {
      if checkPend {
        PassesIsAcceptable(crypto, View(), txn);
        TakeableIs(crypto, View(), txn);
      } else {
        SoundInputs(crypto, View(), txn);
        SoundIsSigned(crypto, View(), txn);
      }
      ok := Verified(txn, checkPend, VerdictOf(View(), txn));
    }

    /** The checks in the order they are made; `v` is the outcome of the search
        over the pending table. */
    method Verified(txn: Txn, checkPend: bool, ghost v: Verdict) returns (ok: bool)
      requires Filed(db) && |txn.inputs| > 0 && (checkPend ==> OnlyVerdict(View(), txn, v))
      requires v.Replaces? ==> v.rival in pend
      modifies this`pend, this`pubOuts, this`pubOutsPend, this`mempool, this`mempoolList, this`invalidTxns
      ensures ok <==> Passes(crypto, old(View()), txn, checkPend, v)
      ensures ok ==> AllSigned(crypto, old(db), currentTime, txn)
      ensures View() == if ok && checkPend && v.Replaces? then DropPending(crypto, old(View()), old(pend)[v.rival].txn) else old(View())
      ensures Waiting() == if ok then old(Waiting()) else Failed(old(Waiting()), txn.txid in old(db), txn.txid)
    {
      if txn.txid in db {
        RemoveFromMempool(txn.txid);
        return false;
      }
      var valid, hasCoins, check := VerifyInputs(txn, checkPend, v);
      if !valid {
        RemoveInvalidTxnFromMempool(txn.txid);
        return false;
      }
      var spendsCoins := SumOutputs(txn.outputs);
      if hasCoins != spendsCoins {
        RemoveInvalidTxnFromMempool(txn.txid);
        return false;
      }
      AllSignedIsOk(crypto, db, currentTime, txn);
      if checkPend && check.Replaces? {
        DelFromPending(pend[check.rival].txn);
      }
      return true;
    }

    method VerifyInputs(txn: Txn, checkPend: bool, ghost v: Verdict) returns (ok: bool, hasCoins: nat, check: Verdict)
      requires Filed(db) && |txn.inputs| > 0 && (checkPend ==> OnlyVerdict(View(), txn, v))
      ensures ok <==> InputsOk(crypto, db, currentTime, txn, |txn.inputs|) && (checkPend ==> Unopposed(db, txn, v, |txn.inputs|))
      ensures ok ==> hasCoins == InputTotal(db, txn.inputs) && (checkPend ==> check == v)
    {
      ok, hasCoins, check := false, 0, Free;
      var i := 0;
      while i < |txn.inputs|
        invariant i <= |txn.inputs| && !ok
        invariant InputsOk(crypto, db, currentTime, txn, i)
        invariant hasCoins == InputTotal(db, txn.inputs[..i])
        invariant checkPend && i > 0 ==> check == v && Unopposed(db, txn, v, i)
      {
        var valid, amount, unspent := VerifyInput(txn.txid, txn.inputs[i]);
        NextInput(crypto, db, currentTime, txn, v, i);
        if !valid {
          return;
        }
        hasCoins := hasCoins + amount;
        assert txn.inputs[..i + 1][..i] == txn.inputs[..i];
        if checkPend {
          check := CheckPendReplacement(txn, v);
          if check.Blocked? || (check.Free? && !unspent) {
            return;
          }
        }
        i := i + 1;
      }
      assert txn.inputs[..i] == txn.inputs;
      ok := true;
    }

    method SumOutputs(outputs: seq<Output>) returns (total: nat)
      ensures total == OutputTotal(outputs)
    {
      total := 0;
      var i := 0;
      while i < |outputs|
        invariant i <= |outputs| && total == OutputTotal(outputs[..i])
      {
        total := total + outputs[i].amount;
        assert outputs[..i + 1][..i] == outputs[..i];
        i := i + 1;
      }
      assert outputs[..i] == outputs;
    }

    // ---------------------------------------------------------------- transitions

    method DelFromPending(txn: Txn)
      modifies this`pend, this`pubOuts, this`pubOutsPend
      ensures View() == DropPending(crypto, old(View()), txn)
    {
      pend := pend - {txn.txid};
      var i := 0;
      while i < |txn.outputs|
        invariant i <= |txn.outputs| && pubOuts == old(pubOuts) && pend == old(pend) - {txn.txid}
        invariant pubOutsPend == DelOutputs(old(pubOutsPend), crypto, txn.txid, txn.outputs[..i])
      {
        DelOutFromBalanceIndex(crypto.pubkeys(txn.outputs[i]), Outpoint(txn.txid, i), PubOutsPend);
        assert txn.outputs[..i + 1][..i] == txn.outputs[..i];
        i := i + 1;
      }
      assert txn.outputs[..i] == txn.outputs;
    }

    method SpendOutput(o: Outpoint)
      requires Known(db, o)
      modifies this`db, this`pubOuts, this`pubOutsPend
      ensures View() == MarkSpent(crypto, old(View()), o)
    {
      var w := db[o.txid];
      w := w.(utxos := w.utxos[o.index := false]);
      db := db[o.txid := w];
      DelOutFromBalanceIndex(crypto.pubkeys(w.txn.outputs[o.index]), o, PubOuts);
    }

    /** Mark the inputs spent and take them out of the index. */
    method SpendInputs(txn: Txn)
      requires AllKnown(db, txn.inputs)
      modifies this`db, this`pubOuts, this`pubOutsPend
      ensures View() == SpendAll(crypto, old(View()), txn.inputs)
    {
      var i := 0;
      while i < |txn.inputs|
        invariant i <= |txn.inputs| && AllKnown(old(db), txn.inputs) && AllKnown(old(db), txn.inputs[..i])
        invariant View() == SpendAll(crypto, old(View()), txn.inputs[..i])
      {
        SpendNext(crypto, old(View()), txn.inputs, i);
        SpendOutput(txn.inputs[i].out);
        i := i + 1;
      }
      assert txn.inputs[..i] == txn.inputs;
    }

    method WriteTxnToDb(txn: Txn, timestamp: int)
      requires AllKnown(db, txn.inputs)
      modifies this`db, this`pubOuts, this`pubOutsPend
      ensures View() == Write(crypto, old(View()), txn, timestamp)
    {
      SpendInputs(txn);
      db := db[txn.txid := Stored(txn, timestamp)];
      AddTxnToBalanceIndex(txn, PubOuts);
    }

    // -------------------------------------------------------------------- blocks

    /** Verify a transaction and, if it passes, file it as pending or store it. */
    method AdmitTxn(txn: Txn) returns (ok: bool)
      requires Reaches(crypto, trace, Now()) && WellFormed(crypto, txn)
      modifies this`db, this`pend, this`pubOuts, this`pubOutsPend, this`mempool, this`mempoolList, this`invalidTxns
      ensures ok <==> Acceptable(crypto, old(View()), txn)
      ensures View() == Admit(crypto, old(View()), txn)
      ensures Waiting() == if ok then old(Waiting()) else Failed(old(Waiting()), txn.txid in old(db), txn.txid)
    {
      ghost var l := View();
      ReachedFacts(crypto, trace, Now(), txn);
      ok := VerifyTxn(txn, true);
      if ok {
        AdmitIs(crypto, l, txn);
        FileTxn(txn);
      } else {
        RefusedIs(crypto, l, txn);
      }
    }

    method FileTxn(txn: Txn)
      requires AllKnown(db, txn.inputs)
      modifies this`db, this`pend, this`pubOuts, this`pubOutsPend
      ensures View() == if txn.timelock > 0 then Reserve(crypto, old(View()), txn) else Write(crypto, old(View()), txn, old(currentTime))
    {
      var timestamp := currentTime;
      if txn.timelock > 0 {
        pend := pend[txn.txid := Stored(txn, timestamp)];
        AddTxnToBalanceIndex(txn, PubOutsPend);
        SpendInputs(txn);
      } else {
        WriteTxnToDb(txn, timestamp);
      }
    }

    /** One transaction of a block. */
    method ProcessTxn(txid: Txid) returns (ok: bool)
      requires Valid() && txid in mempool && WellFormed(crypto, mempool[txid])
      modifies this`db, this`pend, this`pubOuts, this`pubOutsPend, this`mempool, this`mempoolList, this`invalidTxns
      modifies this`txnsProcessed, this`txnsAccepted, this`trace
      ensures Valid() && trace == old(trace) + [Now()]
      ensures ok <==> Acceptable(crypto, old(View()), old(mempool)[txid])
      ensures View() == Admit(crypto, old(View()), old(mempool)[txid])
      ensures Waiting() == Processed(old(Waiting()), ok, txid in old(db), txid)
      ensures txnsProcessed == old(txnsProcessed) + 1 && txnsAccepted == old(txnsAccepted) + if ok then 1 else 0
    {
      ghost var p := Waiting();
      ghost var stored := txid in db;
      ProcessReaches(crypto, trace, Now(), mempool[txid]);
      ok := AdmitTxn(mempool[txid]);
      Settle(ok, txid);
      FiledProcessed(p, ok, stored, txid);
      trace := trace + [Now()];
    }

    method Settle(ok: bool, txid: Txid)
      modifies this`mempool, this`mempoolList, this`txnsProcessed, this`txnsAccepted
      ensures Waiting() == Discard(old(Waiting()), txid)
      ensures txnsProcessed == old(txnsProcessed) + 1 && txnsAccepted == old(txnsAccepted) + if ok then 1 else 0
    {
      if ok {
        txnsAccepted := txnsAccepted + 1;
      }
      txnsProcessed := txnsProcessed + 1;
      RemoveFromMempool(txid);
    }

    /** The transactions of a block, one after the other. The loop stops with an
        exception at the first one that is not in the mempool: it never was, or
        the block lists it twice. */
    method ProcessIds(ids: seq<Txid>) returns (done: nat)
      requires Valid() && BlockOk(crypto, mempool, ids)
      modifies this`db, this`pend, this`pubOuts, this`pubOutsPend, this`mempool, this`mempoolList, this`invalidTxns
      modifies this`txnsProcessed, this`txnsAccepted, this`trace
      ensures Valid() && old(trace) <= trace
      ensures ProcessedTo(crypto, old(View()), old(Waiting()), ids, done, View(), Waiting())
      ensures done < |ids| ==> ids[done] !in mempool
      ensures txnsProcessed == old(txnsProcessed) + done
    {
      done := 0;
      while done < |ids|
        invariant Valid() && old(trace) <= trace && BlockOk(crypto, mempool, ids)
        invariant ProcessedTo(crypto, old(View()), old(Waiting()), ids, done, View(), Waiting())
        invariant txnsProcessed == old(txnsProcessed) + done
      {
        if ids[done] !in mempool {
          return;
        }
        ProcessedNext(crypto, old(View()), old(Waiting()), ids, done, View(), Waiting());
        var ok := ProcessTxn(ids[done]);
        done := done + 1;
      }
    }

    /** A block finishes exactly when its ids are distinct and in the mempool;
        otherwise it stays at the head of the queue. */
    method ProcessBlock(ids: seq<Txid>) returns (done: nat)
      requires Valid() && blockQueue != [] && BlockOk(crypto, mempool, ids)
      modifies this`db, this`pend, this`pubOuts, this`pubOutsPend, this`mempool, this`mempoolList, this`invalidTxns
      modifies this`txnsProcessed, this`txnsAccepted, this`trace, this`blockQueue, this`processing
      ensures Valid() && old(trace) <= trace
      ensures ProcessedTo(crypto, old(View()), old(Waiting()), ids, done, View(), Waiting())
      ensures done < |ids| ==> ids[done] !in mempool
      ensures done == |ids| <==> Distinct(ids) && Pooled(old(mempool), ids)
      ensures txnsProcessed == old(txnsProcessed) + done
      ensures if done == |ids| then blockQueue == old(blockQueue)[1..] && !processing
              else blockQueue == old(blockQueue) && processing == old(processing)
    {
      ghost var l, p := View(), Waiting();
      done := ProcessIds(ids);
      if done < |ids| {
        ProcessedStuck(crypto, l, p, ids, done, View(), Waiting());
      } else {
        assert ids[..done] == ids;
        blockQueue := blockQueue[1..];
        processing := false;
      }
    }

    // ---------------------------------------------------------- the pending table

    /** An expired transaction leaves the pending table, and is stored with its
        original timestamp if it passes the verification again. */
    method ExpireTxn(id: Txid)
      requires Valid() && id in pend && Expired(currentTime, pend[id])
      modifies this`db, this`pend, this`pubOuts, this`pubOutsPend, this`mempool, this`mempoolList, this`invalidTxns
      modifies this`gone, this`trace
      ensures Valid() && trace == old(trace) + [Now()]
      ensures Now() == AfterScan(crypto, old(Now()), id)
      ensures Waiting() == PoolAfterScan(crypto, old(Waiting()), old(Now()), id)
    {
      ScanReaches(crypto, trace, Now(), id);
      ghost var p := Waiting();
      Expire(id);
      FiledScanned(p, Waiting());
      trace := trace + [Now()];
    }

    method Expire(id: Txid)
      requires Reaches(crypto, trace, Now()) && id in pend && Expired(currentTime, pend[id])
      modifies this`db, this`pend, this`pubOuts, this`pubOutsPend, this`mempool, this`mempoolList, this`invalidTxns
      modifies this`gone
      ensures Now() == AfterScan(crypto, old(Now()), id)
      ensures Waiting() == PoolAfterScan(crypto, old(Waiting()), old(Now()), id)
    {
      var txn, timestamp := pend[id].txn, pend[id].timestamp;
      ExpiryIs(crypto, trace, Now(), id);
      DelFromPending(txn);
      var ok := VerifyTxn(txn, false);
      if ok {
        WriteTxnToDb(txn, timestamp);
      } else {
        gone := gone[id := txn];
      }
    }

    /** The scan over a snapshot of the pending table, in any order. */
    method UpdatePend() returns (ghost order: seq<Txid>)
      requires Valid()
      modifies this`db, this`pend, this`pubOuts, this`pubOutsPend, this`mempool, this`mempoolList, this`invalidTxns
      modifies this`gone, this`trace
      ensures Valid() && old(trace) <= trace
      ensures Enumerates(order, old(pend).Keys)
      ensures Now() == ScanAll(crypto, old(Now()), order)
      ensures Waiting() == PoolAfterScanAll(crypto, old(Waiting()), old(Now()), order)
    {
      var snapshot := pend;
      var todo := snapshot.Keys;
      order := [];
      while todo != {}
        invariant Valid() && old(trace) <= trace
        invariant todo <= old(pend).Keys && Unvisited(snapshot, todo, pend)
        invariant Enumerates(order, old(pend).Keys - todo)
        invariant Now() == ScanAll(crypto, old(Now()), order)
        invariant Waiting() == PoolAfterScanAll(crypto, old(Waiting()), old(Now()), order)
        decreases |todo|
      {
        var id :| id in todo;
        StillUnvisited(crypto, trace, Now(), snapshot, todo, id);
        ScanNext(crypto, old(Waiting()), old(Now()), order, id);
        EnumerateNext(order, old(pend).Keys, todo, id);
        if currentTime - snapshot[id].timestamp > snapshot[id].txn.timelock * TIMELOCK_CONST {
          ExpireTxn(id);
        } else {
          UnexpiredIs(crypto, Waiting(), Now(), id);
        }
        order := order + [id];
        todo := todo - {id};
      }
      assert old(pend).Keys - todo == old(pend).Keys;
    }

    // --------------------------------------------------------------- the block queue

    /** A block that Raft applies first makes the pending table catch up. */
    method AddBlockToQueue(block: Block) returns (ghost order: seq<Txid>)
      requires Valid()
      modifies this`db, this`pend, this`pubOuts, this`pubOutsPend, this`mempool, this`mempoolList, this`invalidTxns
      modifies this`gone, this`trace, this`blockQueue
      ensures Valid() && old(trace) <= trace
      ensures Enumerates(order, old(pend).Keys) && Now() == ScanAll(crypto, old(Now()), order)
      ensures Waiting() == PoolAfterScanAll(crypto, old(Waiting()), old(Now()), order)
      ensures blockQueue == old(blockQueue) + [block]
    {
      order := UpdatePend();
      blockQueue := blockQueue + [block];
    }

    method FindMissing(ids: seq<Txid>) returns (missing: seq<Txid>)
      ensures missing == [] <==> Pooled(mempool, ids)
      ensures forall id :: id in missing <==> id in ids && id !in mempool
    {
      missing := [];
      var i := 0;
      while i < |ids|
        invariant i <= |ids|
        invariant forall id :: id in missing <==> id in ids[..i] && id !in mempool
      {
        if ids[i] !in mempool {
          missing := missing + [ids[i]];
        }
        assert ids[..i + 1] == ids[..i] + [ids[i]];
        i := i + 1;
      }
      assert ids[..i] == ids;
      assert missing != [] ==> missing[0] in missing;
    }

    /** One turn of the processing loop. The block's time becomes the current
        time even when the block has to wait. */
    method TryProcess() returns (turn: Turn)
      requires Valid() && (blockQueue != [] ==> BlockOk(crypto, mempool, blockQueue[0].ids))
      modifies this`db, this`pend, this`pubOuts, this`pubOutsPend, this`mempool, this`mempoolList, this`invalidTxns
      modifies this`txnsProcessed, this`txnsAccepted, this`trace, this`blockQueue, this`processing
      modifies this`currentTime, this`missedCounter
      ensures Valid() && old(trace) <= trace
      ensures turn.Idle? <==> old(processing) || old(blockQueue) == []
      ensures turn.Idle? ==> Now() == old(Now()) && Waiting() == old(Waiting()) && blockQueue == old(blockQueue) && processing == old(processing)
      ensures !turn.Idle? ==> (turn.PutOff? || turn.Fetch? <==> !Pooled(old(mempool), old(blockQueue)[0].ids))
      ensures turn.PutOff? || turn.Fetch? ==>
                && View() == old(View()).(now := old(blockQueue)[0].time) && Waiting() == old(Waiting())
                && blockQueue == old(blockQueue)
                && (turn.Fetch? <==> old(missedCounter) >= BACKOFF_AMOUNT)
                && processing == turn.Fetch?
                && missedCounter == if turn.Fetch? then 0 else old(missedCounter) + 1
      ensures turn.Raised? || turn.Finished? ==>
                var ids := old(blockQueue)[0].ids;
                var done := if turn.Finished? then |ids| else turn.done;
                ProcessedTo(crypto, old(View()).(now := old(blockQueue)[0].time), old(Waiting()), ids, done, View(), Waiting())
      ensures turn.Finished? ==> blockQueue == old(blockQueue)[1..] && !processing && Distinct(old(blockQueue)[0].ids)
      ensures turn.Raised? ==>
                var ids := old(blockQueue)[0].ids;
                blockQueue == old(blockQueue) && processing && turn.done < |ids| && ids[turn.done] in ids[..turn.done]
    {
      if processing || blockQueue == [] {
        return Idle;
      }
      var block := blockQueue[0];
      ClockReaches(crypto, trace, Now(), block.time);
      currentTime := block.time;
      trace := trace + [Now()];
      processing := true;
      turn := TakeBlock(block);
    }

    method TakeBlock(block: Block) returns (turn: Turn)
      requires Valid() && blockQueue != [] && blockQueue[0] == block && processing && BlockOk(crypto, mempool, block.ids)
      modifies this`db, this`pend, this`pubOuts, this`pubOutsPend, this`mempool, this`mempoolList, this`invalidTxns
      modifies this`txnsProcessed, this`txnsAccepted, this`trace, this`blockQueue, this`processing
      modifies this`missedCounter
      ensures Valid() && old(trace) <= trace && !turn.Idle?
      ensures turn.PutOff? || turn.Fetch? <==> !Pooled(old(mempool), block.ids)
      ensures turn.PutOff? || turn.Fetch? ==>
                && View() == old(View()) && Waiting() == old(Waiting()) && blockQueue == old(blockQueue)
                && (turn.Fetch? <==> old(missedCounter) >= BACKOFF_AMOUNT)
                && processing == turn.Fetch?
                && missedCounter == if turn.Fetch? then 0 else old(missedCounter) + 1
      ensures turn.Raised? || turn.Finished? ==>
                var done := if turn.Finished? then |block.ids| else turn.done;
                ProcessedTo(crypto, old(View()), old(Waiting()), block.ids, done, View(), Waiting())
      ensures turn.Finished? ==> blockQueue == old(blockQueue)[1..] && !processing && Distinct(block.ids)
      ensures turn.Raised? ==>
                blockQueue == old(blockQueue) && processing && turn.done < |block.ids| && block.ids[turn.done] in block.ids[..turn.done]
    {
      var missing := FindMissing(block.ids);
      if missing != [] {
        missedCounter := missedCounter + 1;
        if missedCounter > BACKOFF_AMOUNT {
          missedCounter := 0;
          return Fetch;
        }
        processing := false;
        return PutOff;
      }
      ghost var l, p := View(), Waiting();
      var done := ProcessBlock(block.ids);
      if done < |block.ids| {
        StopsAtRepetition(crypto, l, p, block.ids, done, View(), Waiting());
        return Raised(done);
      }
      return Finished;
    }
  }
}
