/** The signatures that spending an output takes, spelt out. */
module LedgerSigning {
  import opened LedgerTypes
  import opened LedgerRules

  /** The input names a stored output. Once its timeout has passed, both keys have
      signed; until then, the preimage is known and the third key has signed. */
  predicate SignedAt(crypto: Crypto, db: Table, now: int, txid: Txid, inp: Input) {
    && inp.out.txid in db && inp.out.index < |db[inp.out.txid].txn.outputs|
    && var w := db[inp.out.txid];
    var out := w.txn.outputs[inp.out.index];
    if now - w.timestamp >= out.htlcTimeout * 1_000_000_000 then
      crypto.verifySig(txid, out.pubkey, inp.signature) && crypto.verifySig(txid, out.pubkey2, inp.signature2)
    else
      crypto.sha256(inp.preimage) == out.htlcHashlock && crypto.verifySig(txid, out.htlcPubkey, inp.htlcSignature)
  }

  ghost predicate AllSigned(crypto: Crypto, db: Table, now: int, txn: Txn) {
    forall k :: 0 <= k < |txn.inputs| ==> SignedAt(crypto, db, now, txn.txid, txn.inputs[k])
  }

  lemma SignedIsOk(crypto: Crypto, db: Table, now: int, txid: Txid, inp: Input)
    requires Filed(db)
    ensures SignedAt(crypto, db, now, txid, inp) <==> InputOk(crypto, db, now, txid, inp)
  {
  }

  lemma AllSignedIsOk(crypto: Crypto, db: Table, now: int, txn: Txn)
    requires Filed(db)
    ensures AllSigned(crypto, db, now, txn) <==>
              forall k :: 0 <= k < |txn.inputs| ==> InputOk(crypto, db, now, txn.txid, txn.inputs[k])
  {
    forall k | 0 <= k < |txn.inputs|
      ensures SignedAt(crypto, db, now, txn.txid, txn.inputs[k]) <==> InputOk(crypto, db, now, txn.txid, txn.inputs[k])
    {
      SignedIsOk(crypto, db, now, txn.txid, txn.inputs[k]);
    }
  }

  lemma SoundIsSigned(crypto: Crypto, l: Ledger, txn: Txn)
    requires Filed(l.db)
    ensures Sound(crypto, l, txn) <==>
              txn.txid !in l.db && AllSigned(crypto, l.db, l.now, txn) && InputTotal(l.db, txn.inputs) == OutputTotal(txn.outputs)
  {
    AllSignedIsOk(crypto, l.db, l.now, txn);
  }
}
