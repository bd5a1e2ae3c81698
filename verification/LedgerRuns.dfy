/** Runs of the ledger: blocks of transactions, clock changes and scans of the
    pending table, in any order, from a genesis of input-free transactions. */
module LedgerRuns {
  import opened LedgerTypes
  import opened LedgerRules
  import opened LedgerInvariant
  import opened LedgerSteps

  datatype Event = Clock(now: int) | Process(txn: Txn) | Scan(id: Txid)

  ghost predicate Possible(crypto: Crypto, e: Event) {
    e.Process? ==> WellFormed(crypto, e.txn)
  }

  ghost function After(crypto: Crypto, w: World, e: Event): World {
    match e
    case Clock(now) => w.(l := w.l.(now := now))
    case Process(txn) => w.(l := Admit(crypto, w.l, txn))
    case Scan(id) => AfterScan(crypto, w, id)
  }

  /** A pending transaction that expires unsound is gone, and so are its inputs. */
  ghost function AfterScan(crypto: Crypto, w: World, id: Txid): World {
    if id in w.l.pend && Expired(w.l.now, w.l.pend[id]) then
      var txn := w.l.pend[id].txn;
      if Sound(crypto, w.l, txn) then w.(l := Promote(crypto, w.l, id))
      else World(Promote(crypto, w.l, id), w.gone[id := txn])
    else w
  }

  ghost predicate Genesis(crypto: Crypto, w: World) {
    && Filed(w.l.db) && w.l.pend == map[] && w.gone == map[]
    && (forall id :: id in w.l.db ==> w.l.db[id].txn.inputs == [] && w.l.db[id].utxos == AllUnspent(w.l.db[id].txn))
    && IndexesOk(crypto, w.l)
  }

  ghost predicate StepAt(crypto: Crypto, ws: seq<World>, i: nat)
    requires 0 < i < |ws|
  {
    exists e :: Possible(crypto, e) && ws[i] == After(crypto, ws[i - 1], e)
  }

  ghost predicate Run(crypto: Crypto, ws: seq<World>) {
    && |ws| > 0
    && Genesis(crypto, ws[0])
    && forall i :: 0 < i < |ws| ==> StepAt(crypto, ws, i)
  }

  lemma GenesisInv(crypto: Crypto, w: World)
    requires Genesis(crypto, w)
    ensures Inv(crypto, w)
  {
    forall id, o ensures !Takes(w, id, o) {
    }
    forall o | Known(w.l.db, o) ensures Flag(w.l.db, o) {
    }
  }

  // ------------------------------------------------------ transitions spelt out

  lemma AdmitIs(crypto: Crypto, l: Ledger, txn: Txn)
    requires Acceptable(crypto, l, txn)
    ensures var k := PushOut(crypto, l, txn);
            && k.db == l.db && AllKnown(k.db, txn.inputs)
            && Admit(crypto, l, txn) == if txn.timelock > 0 then Reserve(crypto, k, txn) else Write(crypto, k, txn, k.now)
  {
  }

  lemma PromoteIs(crypto: Crypto, l: Ledger, id: Txid)
    requires id in l.pend
    ensures var p := l.pend[id];
            var k := DropPending(crypto, l, p.txn);
            && (Sound(crypto, k, p.txn) <==> Sound(crypto, l, p.txn))
            && (Sound(crypto, l, p.txn) ==> AllKnown(k.db, p.txn.inputs) && Promote(crypto, l, id) == Write(crypto, k, p.txn, p.timestamp))
            && (!Sound(crypto, l, p.txn) ==> Promote(crypto, l, id) == k)
  {
  }

  lemma ScanIs(crypto: Crypto, w: World, id: Txid)
    requires TablesOk(w) && BodiesOk(crypto, w) && id in w.l.pend && Expired(w.l.now, w.l.pend[id])
    ensures var p := w.l.pend[id];
            var k := DropPending(crypto, w.l, p.txn);
            && p.txn.txid == id && id !in w.gone && id !in k.db && k.db == w.l.db && PendingOk(crypto, w.l.db, p)
            && (Sound(crypto, w.l, p.txn) ==>
                  AllKnown(k.db, p.txn.inputs) && AfterScan(crypto, w, id) == World(Write(crypto, k, p.txn, p.timestamp), w.gone))
            && (!Sound(crypto, w.l, p.txn) ==> AfterScan(crypto, w, id) == World(k, w.gone[id := p.txn]))
  {
    PromoteIs(crypto, w.l, id);
    assert PendingOk(crypto, w.l.db, w.l.pend[id]);
  }

  lemma DroppedFacts(crypto: Crypto, w: World, id: Txid)
    requires TablesOk(w) && BodiesOk(crypto, w) && id in w.l.pend
    ensures var p := w.l.pend[id];
            var k := DropPending(crypto, w.l, p.txn);
            PendingOk(crypto, k.db, p) && p.txn.txid == id && id !in k.db && id !in w.gone
  {
  }

  // ---------------------------------------------------------------- the verdict

  lemma OneRival(crypto: Crypto, w: World, a: Txid, b: Txid, txn: Txn)
    requires Inv(crypto, w) && WellFormed(crypto, txn) && a in w.l.pend && b in w.l.pend
    requires SameInputs(w.l.pend[a].txn, txn) && SameInputs(w.l.pend[b].txn, txn)
    ensures a == b
  {
    var o := txn.inputs[0].out;
    assert o in OutpointsOf(txn);
    assert Takes(w, a, o) && Takes(w, b, o);
  }

  /** The search over the pending table has one outcome, whatever its order. */
  lemma OneVerdict(crypto: Crypto, w: World, txn: Txn, v: Verdict)
    requires Inv(crypto, w) && WellFormed(crypto, txn) && IsVerdict(w.l, txn, v)
    ensures v == VerdictOf(w.l, txn)
  {
    var u := VerdictOf(w.l, txn);
    if !u.Free? && !v.Free? {
      var a :| a in w.l.pend && SameInputs(w.l.pend[a].txn, txn) && (v.Replaces? ==> v.rival == a) && (GivesWay(w.l, a, txn) <==> v.Replaces?);
      var b :| b in w.l.pend && SameInputs(w.l.pend[b].txn, txn) && (u.Replaces? ==> u.rival == b) && (GivesWay(w.l, b, txn) <==> u.Replaces?);
      OneRival(crypto, w, a, b, txn);
    }
  }

  // -------------------------------------------------------------- what events keep

  lemma FreeAvailable(crypto: Crypto, l: Ledger, txn: Txn)
    requires Acceptable(crypto, l, txn) && VerdictOf(l, txn).Free?
    ensures Available(l, {}, txn)
  {
    forall i | 0 <= i < |txn.inputs| ensures Known(l.db, txn.inputs[i].out) {
      assert InputOk(crypto, l.db, l.now, txn.txid, txn.inputs[i]);
    }
  }

  lemma RivalAvailable(crypto: Crypto, l: Ledger, k: Ledger, txn: Txn, rival: Txn)
    requires Sound(crypto, l, txn) && k.db == l.db && SameInputs(rival, txn)
    ensures Available(k, OutpointsOf(rival), txn)
  {
    forall i | 0 <= i < |txn.inputs| ensures Known(k.db, txn.inputs[i].out) && txn.inputs[i].out in OutpointsOf(rival) {
      assert InputOk(crypto, l.db, l.now, txn.txid, txn.inputs[i]);
      assert txn.inputs[i].out in OutpointsOf(txn);
    }
  }

  /** Before its inputs are taken, an acceptable transaction leaves a ledger whose
      free outpoints it is about to take. */
  lemma PushOutKeeps(crypto: Crypto, w: World, txn: Txn) returns (free: set<Outpoint>)
    requires Inv(crypto, w) && Acceptable(crypto, w.l, txn)
    ensures var k := PushOut(crypto, w.l, txn);
            && k.db == w.l.db && k.now == w.l.now
            && Loose(crypto, World(k, w.gone), free) && Available(k, free, txn)
            && (free == {} || free == OutpointsOf(txn))
  {
    match VerdictOf(w.l, txn)
    case Replaces(id) =>
      DropKeeps(crypto, w, id);
      free := OutpointsOf(w.l.pend[id].txn);
      RivalAvailable(crypto, w.l, PushOut(crypto, w.l, txn), txn, w.l.pend[id].txn);
    case _ =>
      FreeAvailable(crypto, w.l, txn);
      free := {};
  }

  lemma ProcessKeeps(crypto: Crypto, w: World, txn: Txn)
    requires Inv(crypto, w) && WellFormed(crypto, txn)
    ensures Inv(crypto, After(crypto, w, Process(txn)))
  {
    if Acceptable(crypto, w.l, txn) {
      var free := PushOutKeeps(crypto, w, txn);
      var k := PushOut(crypto, w.l, txn);
      assert Sound(crypto, k, txn);
      if txn.timelock > 0 {
        ReserveKeeps(crypto, World(k, w.gone), free, txn);
      } else {
        WriteKeeps(crypto, World(k, w.gone), free, txn, w.l.now);
      }
    }
  }

  lemma ScanKeeps(crypto: Crypto, w: World, id: Txid)
    requires Inv(crypto, w)
    ensures Inv(crypto, AfterScan(crypto, w, id))
  {
    if id in w.l.pend && Expired(w.l.now, w.l.pend[id]) {
      var txn := w.l.pend[id].txn;
      var k := DropPending(crypto, w.l, txn);
      assert PendingOk(crypto, w.l.db, w.l.pend[id]);
      DropKeeps(crypto, w, id);
      RivalKnown(crypto, w.l, k, w.l.pend[id]);
      if Sound(crypto, w.l, txn) {
        assert Sound(crypto, k, txn);
        WriteKeeps(crypto, World(k, w.gone), OutpointsOf(txn), txn, w.l.pend[id].timestamp);
      } else {
        assert !Sound(crypto, k, txn);
        BurnKeeps(crypto, World(k, w.gone), txn);
      }
    }
  }

  lemma RivalKnown(crypto: Crypto, l: Ledger, k: Ledger, p: Wrapper)
    requires PendingOk(crypto, l.db, p) && k.db == l.db
    ensures Available(k, OutpointsOf(p.txn), p.txn)
  {
    forall i | 0 <= i < |p.txn.inputs| ensures Known(k.db, p.txn.inputs[i].out) {
      assert InputOk(crypto, l.db, p.timestamp, p.txn.txid, p.txn.inputs[i]);
    }
  }

  lemma EventKeeps(crypto: Crypto, w: World, e: Event)
    requires Inv(crypto, w) && Possible(crypto, e)
    ensures Inv(crypto, After(crypto, w, e))
  {
    match e
    case Clock(now) => ClockKeeps(crypto, w, now);
    case Process(txn) => ProcessKeeps(crypto, w, txn);
    case Scan(id) => ScanKeeps(crypto, w, id);
  }

  lemma ClockKeeps(crypto: Crypto, w: World, now: int)
    requires Inv(crypto, w)
    ensures Inv(crypto, After(crypto, w, Clock(now)))
  {
    var v := After(crypto, w, Clock(now));
    assert forall id, o :: Takes(v, id, o) <==> Takes(w, id, o);
  }

  lemma {:induction false} RunInv(crypto: Crypto, ws: seq<World>, i: nat)
    requires Run(crypto, ws) && i < |ws|
    ensures Inv(crypto, ws[i])
  {
    if i == 0 {
      GenesisInv(crypto, ws[0]);
    } else {
      RunInv(crypto, ws, i - 1);
      assert StepAt(crypto, ws, i);
      var e :| Possible(crypto, e) && ws[i] == After(crypto, ws[i - 1], e);
      EventKeeps(crypto, ws[i - 1], e);
    }
  }

  // ---------------------------------------------------------- no double spending

  /** In every run, an output marked spent was taken by exactly one transaction:
      stored, pending, or gone; and nothing else has a taker. */
  lemma OneTaker(crypto: Crypto, ws: seq<World>, i: nat, o: Outpoint)
    requires Run(crypto, ws) && i < |ws| && Known(ws[i].l.db, o)
    ensures !Flag(ws[i].l.db, o) <==> exists id :: Takes(ws[i], id, o)
    ensures forall a, b :: Takes(ws[i], a, o) && Takes(ws[i], b, o) ==> a == b
  {
    RunInv(crypto, ws, i);
  }

  /** Index exactness, at every point of every run. */
  lemma IndexesExact(crypto: Crypto, ws: seq<World>, i: nat, key: Blob, o: Outpoint)
    requires Run(crypto, ws) && i < |ws|
    ensures o in Listed(ws[i].l.pubOuts, key) <==>
              Known(ws[i].l.db, o) && Flag(ws[i].l.db, o) && key in crypto.pubkeys(OutputAt(ws[i].l.db, o))
    ensures o in Listed(ws[i].l.pubOutsPend, key) <==>
              o.txid in ws[i].l.pend && Mentions(crypto, ws[i].l.pend[o.txid].txn.outputs, o.index, key)
  {
    RunInv(crypto, ws, i);
  }
}
