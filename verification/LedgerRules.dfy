/** The rules of the ledger as functions: when a transaction is accepted, and
    what accepting, reserving, replacing and promoting do to the tables and
    indexes. */
module LedgerRules {
  import opened LedgerTypes

  predicate TimedOut(now: int, w: Wrapper, o: Output) {
    now - w.timestamp >= o.htlcTimeout * TIMEOUT_CONST
  }

  /** The input is signed for the branch that the timeout selects. */
  predicate Authorised(crypto: Crypto, txid: Txid, inp: Input, o: Output, timedOut: bool) {
    if timedOut then
      crypto.verifySig(txid, o.pubkey, inp.signature) && crypto.verifySig(txid, o.pubkey2, inp.signature2)
    else
      crypto.sha256(inp.preimage) == o.htlcHashlock && crypto.verifySig(txid, o.htlcPubkey, inp.htlcSignature)
  }

  /** The input refers to a stored output and may spend it at time `now`. */
  predicate InputOk(crypto: Crypto, db: Table, now: int, txid: Txid, inp: Input) {
    Known(db, inp.out) &&
    Authorised(crypto, txid, inp, OutputAt(db, inp.out), TimedOut(now, db[inp.out.txid], OutputAt(db, inp.out)))
  }

  function OutputTotal(outputs: seq<Output>): nat
    decreases |outputs|
  {
    if outputs == [] then 0 else OutputTotal(outputs[..|outputs| - 1]) + outputs[|outputs| - 1].amount
  }

  function AmountAt(db: Table, o: Outpoint): nat {
    if Known(db, o) then OutputAt(db, o).amount else 0
  }

  /** The amounts of the listed outpoints, each as often as it is listed. */
  function InputTotal(db: Table, inputs: seq<Input>): nat
    decreases |inputs|
  {
    if inputs == [] then 0
    else InputTotal(db, inputs[..|inputs| - 1]) + AmountAt(db, inputs[|inputs| - 1].out)
  }

  /** A pending transaction can only be replaced by one with the same inputs. */
  predicate SameInputs(a: Txn, b: Txn) {
    OutpointsOf(a) == OutpointsOf(b)
  }

  predicate Expired(now: int, w: Wrapper) {
    now - w.timestamp > w.txn.timelock * TIMELOCK_CONST
  }

  /** No pending transaction has the same inputs; one has and must stay; or one
      has and gives way. */
  datatype Verdict = Free | Blocked | Replaces(rival: Txid)

  ghost predicate IsVerdict(l: Ledger, txn: Txn, v: Verdict) {
    match v
    case Free => forall id :: id in l.pend ==> !SameInputs(l.pend[id].txn, txn)
    case Blocked =>
      exists id :: id in l.pend && SameInputs(l.pend[id].txn, txn) && !GivesWay(l, id, txn)
    case Replaces(id) => id in l.pend && SameInputs(l.pend[id].txn, txn) && GivesWay(l, id, txn)
  }

  predicate GivesWay(l: Ledger, id: Txid, txn: Txn)
    requires id in l.pend
  {
    !Expired(l.now, l.pend[id]) && txn.seqNo > l.pend[id].txn.seqNo
  }

  /** The verdict of the search; it is the only one where pending transactions
      never share inputs (LedgerRuns.OneVerdict). */
  ghost function VerdictOf(l: Ledger, txn: Txn): (v: Verdict)
    ensures IsVerdict(l, txn, v)
  {
    if exists id :: id in l.pend && SameInputs(l.pend[id].txn, txn) then
      var id :| id in l.pend && SameInputs(l.pend[id].txn, txn);
      if GivesWay(l, id, txn) then Replaces(id) else Blocked
    else Free
  }

  /** Acceptance, apart from conflicts: new, every input in order, balanced. */
  ghost predicate Sound(crypto: Crypto, l: Ledger, txn: Txn) {
    && txn.txid !in l.db
    && (forall i :: 0 <= i < |txn.inputs| ==> InputOk(crypto, l.db, l.now, txn.txid, txn.inputs[i]))
    && InputTotal(l.db, txn.inputs) == OutputTotal(txn.outputs)
  }

  /** Acceptance of a transaction from a block. */
  ghost predicate Acceptable(crypto: Crypto, l: Ledger, txn: Txn) {
    && Sound(crypto, l, txn)
    && !VerdictOf(l, txn).Blocked?
    && (VerdictOf(l, txn).Free? ==> forall i :: 0 <= i < |txn.inputs| ==> Flag(l.db, txn.inputs[i].out))
  }

  // ---------------------------------------------------------------- transitions

  function MarkSpent(crypto: Crypto, l: Ledger, o: Outpoint): Ledger
    requires Known(l.db, o)
  {
    var w := l.db[o.txid];
    l.(db := l.db[o.txid := w.(utxos := w.utxos[o.index := false])],
       pubOuts := DelKeys(l.pubOuts, crypto.pubkeys(OutputAt(l.db, o)), o))
  }

  ghost predicate AllKnown(db: Table, inputs: seq<Input>) {
    forall i :: 0 <= i < |inputs| ==> Known(db, inputs[i].out)
  }

  ghost predicate SameShape(a: Table, b: Table) {
    && b.Keys == a.Keys
    && forall id :: id in a ==> b[id].txn == a[id].txn && b[id].timestamp == a[id].timestamp && |b[id].utxos| == |a[id].utxos|
  }

  ghost function SpendAll(crypto: Crypto, l: Ledger, inputs: seq<Input>): (r: Ledger)
    requires AllKnown(l.db, inputs)
    ensures SameShape(l.db, r.db) && r.pend == l.pend && r.pubOutsPend == l.pubOutsPend && r.now == l.now
    decreases |inputs|
  {
    if inputs == [] then l
    else MarkSpent(crypto, SpendAll(crypto, l, inputs[..|inputs| - 1]), inputs[|inputs| - 1].out)
  }

  function DropPending(crypto: Crypto, l: Ledger, txn: Txn): Ledger {
    l.(pend := l.pend - {txn.txid}, pubOutsPend := DelOutputs(l.pubOutsPend, crypto, txn.txid, txn.outputs))
  }

  /** A timelocked transaction is filed as pending and its inputs are taken. */
  ghost function Reserve(crypto: Crypto, l: Ledger, txn: Txn): Ledger
    requires AllKnown(l.db, txn.inputs)
  {
    SpendAll(crypto,
             l.(pend := l.pend[txn.txid := Stored(txn, l.now)],
                pubOutsPend := AddOutputs(l.pubOutsPend, crypto, txn.txid, txn.outputs)),
             txn.inputs)
  }

  ghost function Write(crypto: Crypto, l: Ledger, txn: Txn, timestamp: int): Ledger
    requires AllKnown(l.db, txn.inputs)
  {
    var s := SpendAll(crypto, l, txn.inputs);
    s.(db := s.db[txn.txid := Stored(txn, timestamp)],
       pubOuts := AddOutputs(s.pubOuts, crypto, txn.txid, txn.outputs))
  }

  /** The pending transaction that an acceptable transaction pushes out. */
  ghost function PushOut(crypto: Crypto, l: Ledger, txn: Txn): Ledger {
    match VerdictOf(l, txn)
    case Replaces(id) => DropPending(crypto, l, l.pend[id].txn)
    case _ => l
  }

  /** What processing one transaction of a block does. */
  ghost function Admit(crypto: Crypto, l: Ledger, txn: Txn): Ledger {
    if Acceptable(crypto, l, txn) then
      var k := PushOut(crypto, l, txn);
      if txn.timelock > 0 then Reserve(crypto, k, txn) else Write(crypto, k, txn, l.now)
    else l
  }

  /** An expired pending transaction leaves the pending table; it is written with
      its original timestamp if it is still sound. */
  ghost function Promote(crypto: Crypto, l: Ledger, id: Txid): Ledger
    requires id in l.pend
  {
    var w := l.pend[id];
    var k := DropPending(crypto, l, w.txn);
    if Sound(crypto, k, w.txn) then Write(crypto, k, w.txn, w.timestamp) else k
  }

  ghost function Visit(crypto: Crypto, l: Ledger, id: Txid): Ledger {
    if id in l.pend && Expired(l.now, l.pend[id]) then Promote(crypto, l, id) else l
  }

  /** The scan over the pending transactions, in the given order. */
  ghost function UpdatePend(crypto: Crypto, l: Ledger, order: seq<Txid>): Ledger
    decreases |order|
  {
    if order == [] then l
    else Visit(crypto, UpdatePend(crypto, l, order[..|order| - 1]), order[|order| - 1])
  }
}
