/** The transaction data the reconciliation reads, as the node returns it.
    Amounts are whole satoshis; addresses, txids and block hashes are
    opaque strings compared for equality. */
module Transactions {
  import opened Wrappers

  type Address = string
  type Txid = string
  type BlockHash = string

  /** An input of a decoded transaction: a pointer to the output it spends.
      A coinbase input carries neither part. */
  datatype TxIn = TxIn(prevTxid: Option<Txid>, prevVout: Option<nat>)

  /** An output: the address of its script (absent for scripts without one)
      and its value in satoshis. */
  datatype TxOut = TxOut(address: Option<Address>, amount: nat)

  /** The result of decoding a transaction's raw hex. */
  datatype DecodedTx = DecodedTx(vin: seq<TxIn>, vout: seq<TxOut>)

  /** What the wallet reports about the transaction: its decoded body and,
      once it is mined, the hash of the confirming block. */
  datatype WalletTx = WalletTx(decoded: DecodedTx, blockhash: Option<BlockHash>)

  /** The node's answers to the two follow-up queries: the outputs of a
      transaction by txid, and the height of a block by hash. A txid or hash
      missing from a map is a query that fails. */
  datatype Node = Node(outputsOf: map<Txid, seq<TxOut>>, heightOf: map<BlockHash, nat>)

  /** Each way the reconciliation stops. The first six are aborts of the
      program (an out-of-range index, `expect` or `unwrap`); PrevTxNotFound
      and BlockNotFound are node errors propagated with `?`. */
  datatype Error =
    | NoInputs               // `vin[0]` of an empty input list
    | MissingInputTxid       // the first input has no previous txid
    | MissingInputVout       // the first input has no previous output index
    | PrevTxNotFound         // the node does not know the previous transaction
    | PrevOutIndexOutOfRange // the index is past the previous transaction's outputs
    | MissingInputAddress    // the spent output has no address
    | MissingBlockhash       // the transaction is not confirmed
    | BlockNotFound          // the node does not know the confirming block
}
