/** The reconciliation of one wallet transaction: resolve the output its
    first input spends, classify its outputs, derive the fee, require a
    confirming block and assemble the summary. */
module Reconciliation {
  import opened Wrappers
  import opened Transactions
  import opened Classification
  import opened Report

  /** Address and amount of the output an input spends. */
  datatype SpentOutput = SpentOutput(address: Address, amount: nat)

  /** `o` is the output that the first of `vin` points to on `node`. */
  ghost predicate Spends(vin: seq<TxIn>, node: Node, o: SpentOutput)
  {
    && |vin| > 0
    && vin[0].prevTxid.Some? && vin[0].prevVout.Some?
    && vin[0].prevTxid.value in node.outputsOf
    && vin[0].prevVout.value < |node.outputsOf[vin[0].prevTxid.value]|
    && node.outputsOf[vin[0].prevTxid.value][vin[0].prevVout.value]
       == TxOut(Some(o.address), o.amount)
  }

  /** Resolves the first input to the output it spends; each missing piece
      stops the resolution with its own error, in the order the source
      checks them. */
  function ResolveInput(vin: seq<TxIn>, node: Node): (r: Result<SpentOutput, Error>)
    ensures r.Ok? ==> Spends(vin, node, r.value)
    ensures r.Err? ==> forall o :: !Spends(vin, node, o)
    ensures |vin| == 0 ==> r == Err(NoInputs)
    ensures |vin| > 0 && vin[0].prevTxid.None? ==> r == Err(MissingInputTxid)
    ensures |vin| > 0 && vin[0].prevTxid.Some? && vin[0].prevVout.None?
            ==> r == Err(MissingInputVout)
    ensures |vin| > 0 && vin[0].prevTxid.Some? && vin[0].prevVout.Some?
            && vin[0].prevTxid.value !in node.outputsOf
            ==> r == Err(PrevTxNotFound)
    ensures |vin| > 0 && vin[0].prevTxid.Some? && vin[0].prevVout.Some?
            && vin[0].prevTxid.value in node.outputsOf
            && vin[0].prevVout.value >= |node.outputsOf[vin[0].prevTxid.value]|
            ==> r == Err(PrevOutIndexOutOfRange)
    ensures |vin| > 0 && vin[0].prevTxid.Some? && vin[0].prevVout.Some?
            && vin[0].prevTxid.value in node.outputsOf
            && vin[0].prevVout.value < |node.outputsOf[vin[0].prevTxid.value]|
            && node.outputsOf[vin[0].prevTxid.value][vin[0].prevVout.value].address.None?
            ==> r == Err(MissingInputAddress)
  {
    if |vin| == 0 then Err(NoInputs)
    else if vin[0].prevTxid.None? then Err(MissingInputTxid)
    else if vin[0].prevVout.None? then Err(MissingInputVout)
    else if vin[0].prevTxid.value !in node.outputsOf then Err(PrevTxNotFound)
    else
      var outs := node.outputsOf[vin[0].prevTxid.value];
      var n := vin[0].prevVout.value;
      if n >= |outs| then Err(PrevOutIndexOutOfRange)
      else if outs[n].address.None? then Err(MissingInputAddress)
      else Ok(SpentOutput(outs[n].address.value, outs[n].amount))
  }

  /** Input value minus the two recorded output values, never clamped. */
  function Fee(inputAmount: nat, recipientAmount: nat, changeAmount: nat): (fee: int)
    ensures fee + recipientAmount + changeAmount == inputAmount
    ensures fee < 0 <==> recipientAmount + changeAmount > inputAmount
  {
    inputAmount - (recipientAmount + changeAmount)
  }

  /** The confirming block's height and hash. */
  function Confirm(blockhash: Option<BlockHash>, node: Node): (r: Result<(nat, BlockHash), Error>)
    ensures r.Ok? <==> blockhash.Some? && blockhash.value in node.heightOf
    ensures r.Ok? ==> r.value == (node.heightOf[blockhash.value], blockhash.value)
    ensures r.Err? ==> r.error == if blockhash.None? then MissingBlockhash else BlockNotFound
  {
    match blockhash
    case None => Err(MissingBlockhash)
    case Some(h) => if h in node.heightOf then Ok((node.heightOf[h], h)) else Err(BlockNotFound)
  }

  /** The whole reconciliation as a function of the node's answers. */
  function Reconciled(txid: Txid, trader: Address, tx: WalletTx, node: Node): Result<Summary, Error>
  {
    match ResolveInput(tx.decoded.vin, node)
    case Err(e) => Err(e)
    case Ok(spent) =>
      var split := Classified(tx.decoded.vout, trader);
      var fee := Fee(spent.amount, split.recipientAmount, split.changeAmount);
      match Confirm(tx.blockhash, node)
      case Err(e) => Err(e)
      case Ok((height, hash)) =>
        Ok(Summary(txid, spent.address, spent.amount,
                   split.recipientAddress, split.recipientAmount,
                   split.changeAddress, split.changeAmount,
                   fee, height, hash))
  }

  /** The source's sequence of steps, with the classification loop. */
  method Reconcile(txid: Txid, trader: Address, tx: WalletTx, node: Node)
    returns (r: Result<Summary, Error>)
    ensures r == Reconciled(txid, trader, tx, node)
    ensures r.Ok? ==> r.value.fee + r.value.recipientAmount + r.value.changeAmount
                      == r.value.inputAmount
    ensures tx.blockhash.None? ==> r.Err?
  {
    var resolved := ResolveInput(tx.decoded.vin, node);
    if resolved.Err? {
      return Err(resolved.error);
    }
    var spent := resolved.value;
    var split := Classify(tx.decoded.vout, trader);
    var fee := Fee(spent.amount, split.recipientAmount, split.changeAmount);
    var confirmed := Confirm(tx.blockhash, node);
    if confirmed.Err? {
      return Err(confirmed.error);
    }
    var (height, hash) := confirmed.value;
    r := Ok(Summary(txid, spent.address, spent.amount,
                    split.recipientAddress, split.recipientAmount,
                    split.changeAddress, split.changeAmount,
                    fee, height, hash));
  }

  /** A successful reconciliation reports the spent output of the first
      input, the classified outputs, the conserving fee and the confirming
      block, under the txid it was asked about. */
  lemma ReconciledSummary(txid: Txid, trader: Address, tx: WalletTx, node: Node)
    requires Reconciled(txid, trader, tx, node).Ok?
    ensures var s := Reconciled(txid, trader, tx, node).value;
            && s.txid == txid
            && Spends(tx.decoded.vin, node, SpentOutput(s.inputAddress, s.inputAmount))
            && Split(s.recipientAddress, s.recipientAmount, s.changeAddress, s.changeAmount)
               == Classified(tx.decoded.vout, trader)
            && s.fee + s.recipientAmount + s.changeAmount == s.inputAmount
            && tx.blockhash == Some(s.blockHash)
            && s.blockHash in node.heightOf && s.blockHeight == node.heightOf[s.blockHash]
  {
  }

  /** Reconciliation fails exactly when input resolution or confirmation
      fails, with the error of the first step that fails. */
  lemma ReconciledErrors(txid: Txid, trader: Address, tx: WalletTx, node: Node)
    ensures Reconciled(txid, trader, tx, node).Err?
            <==> (forall o :: !Spends(tx.decoded.vin, node, o)) || Confirm(tx.blockhash, node).Err?
    ensures ResolveInput(tx.decoded.vin, node).Err?
            ==> Reconciled(txid, trader, tx, node) == Err(ResolveInput(tx.decoded.vin, node).error)
    ensures ResolveInput(tx.decoded.vin, node).Ok? && Confirm(tx.blockhash, node).Err?
            ==> Reconciled(txid, trader, tx, node) == Err(Confirm(tx.blockhash, node).error)
  {
  }

  /** An unconfirmed transaction never yields a summary. */
  lemma UnconfirmedRejected(txid: Txid, trader: Address, tx: WalletTx, node: Node)
    requires tx.blockhash.None?
    ensures Reconciled(txid, trader, tx, node)
            == Err(if ResolveInput(tx.decoded.vin, node).Err?
                   then ResolveInput(tx.decoded.vin, node).error else MissingBlockhash)
  {
  }

  /** Only the first input is looked at: inputs after it change nothing. */
  lemma OnlyFirstInput(txid: Txid, trader: Address, tx: WalletTx, more: seq<TxIn>, node: Node)
    requires |tx.decoded.vin| > 0
    ensures var tx' := tx.(decoded := tx.decoded.(vin := [tx.decoded.vin[0]] + more));
            Reconciled(txid, trader, tx', node) == Reconciled(txid, trader, tx, node)
  {
  }

  /** A coinbase-like first input, with no previous output, is rejected
      before anything else is looked up. */
  lemma CoinbaseRejected(txid: Txid, trader: Address, tx: WalletTx, node: Node)
    requires |tx.decoded.vin| > 0 && tx.decoded.vin[0] == TxIn(None, None)
    ensures Reconciled(txid, trader, tx, node) == Err(MissingInputTxid)
  {
  }

  /** The workflow's own transfer: a 101 BTC output at A is spent into
      20 BTC to the trader at B and 80.9999 BTC of change at C, leaving a
      fee of 0.0001 BTC. */
  lemma TransferScenario()
    ensures
      var coinbase := "prev";
      var node := Node(map[coinbase := [TxOut(Some("A"), 10_100_000_000)]], map["blk" := 102]);
      var tx := WalletTx(DecodedTx([TxIn(Some(coinbase), Some(0))],
                                   [TxOut(Some("B"), 2_000_000_000), TxOut(Some("C"), 8_099_990_000)]),
                         Some("blk"));
      Reconciled("tx", "B", tx, node)
      == Ok(Summary("tx", "A", 10_100_000_000, "B", 2_000_000_000, "C", 8_099_990_000,
                    10_000, 102, "blk"))
  {
  }

  /** Nothing clamps the fee: outputs worth more than the spent output
      give a negative fee rather than an error. */
  lemma NegativeFeeScenario()
    ensures
      var node := Node(map["prev" := [TxOut(Some("A"), 100)]], map["blk" := 7]);
      var tx := WalletTx(DecodedTx([TxIn(Some("prev"), Some(0))],
                                   [TxOut(Some("B"), 80), TxOut(Some("C"), 30)]),
                         Some("blk"));
      Reconciled("tx", "B", tx, node).Ok? && Reconciled("tx", "B", tx, node).value.fee == -10
  {
  }
}
