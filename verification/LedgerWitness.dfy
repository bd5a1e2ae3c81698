/** Inputs on which two properties of the ledger fail: a transaction that lists an
    outpoint twice, and a block that lists a transaction twice. */
module LedgerWitness {
  import opened Lists
  import opened LedgerTypes
  import opened LedgerRules
  import opened LedgerInvariant
  import opened LedgerRuns
  import opened LedgerValue
  import opened LedgerBlocks

  const COIN := Txn(1, [], [Output(5, 0, 0, 0, 0, 0)], 0, 0)
  const TWICE := Input(Outpoint(1, 0), 0, 0, 0, 0)
  const PAY := Txn(2, [TWICE, TWICE], [Output(10, 0, 0, 0, 0, 0)], 0, 0)

  /** Signatures that verify, and outputs that mention no key. */
  function Lenient(): Crypto {
    Crypto((_, _, _) => true, _ => 0, _ => [], _ => Core([Outpoint(1, 0), Outpoint(1, 0)], PAY.outputs, 0, 0))
  }

  function Mint(): World {
    World(Ledger(map[1 := Stored(COIN, 0)], map[], map[], map[], 0), map[])
  }

  lemma MintIsGenesis()
    ensures Genesis(Lenient(), Mint())
  {
  }

  lemma PayIsAcceptable()
    ensures WellFormed(Lenient(), PAY) && Acceptable(Lenient(), Mint().l, PAY) && VerdictOf(Mint().l, PAY).Free?
  {
    assert Outs(PAY.inputs) == [Outpoint(1, 0), Outpoint(1, 0)];
    assert [TWICE, TWICE][..1] == [TWICE];
    assert InputTotal(Mint().l.db, [TWICE]) == 5;
    assert OutputTotal(PAY.outputs) == 10;
  }

  lemma PayExcess()
    ensures Excess(Mint().l.db, PAY.inputs) == 5
  {
    assert [TWICE, TWICE][..1] == [TWICE];
    assert Includes([TWICE], [TWICE][0].out);
    assert Excess(Mint().l.db, [TWICE]) == 0;
  }

  /** A transaction that lists an output of 5 twice and pays 10 is accepted, and the
      supply grows by 5. */
  lemma RepeatedOutpointAddsValue() returns (crypto: Crypto, ws: seq<World>)
    ensures Run(crypto, ws) && |ws| == 2 && Supply(ws[1]) == Supply(ws[0]) + 5
  {
    crypto := Lenient();
    MintIsGenesis();
    PayIsAcceptable();
    PayExcess();
    GenesisInv(crypto, Mint());
    ProcessFreeValue(crypto, Mint(), PAY);
    ProcessReaches(crypto, [Mint()], Mint(), PAY);
    ws := [Mint()] + [World(Admit(crypto, Mint().l, PAY), Mint().gone)];
  }

  /** A block that lists a waiting transaction twice: processing, which stops at an id
      that the mempool lacks, stops behind the first listing, and the transaction is
      not in the mempool any more. */
  lemma RepeatedIdStops(crypto: Crypto, l0: Ledger, p0: Pool, id: Txid, done: nat, l: Ledger, p: Pool)
    requires FiledPool(p0) && id in p0.txns && ProcessedTo(crypto, l0, p0, [id, id], done, l, p)
    requires done < 2 ==> [id, id][done] !in p.txns
    ensures done == 1 && id !in p.txns
  {
    assert !Distinct([id, id]) && [id, id][..2] == [id, id];
    ProcessedPool(crypto, l0, p0, [id, id], done, l, p);
  }
}
