# Transaction reconciliation kernel

A Dafny model of the reconciliation step of a regtest wallet workflow
(`rust/src/main.rs`). Given a confirmed wallet transaction and the trader's
address, the program resolves the output spent by the transaction's first
input, classifies each output as going to the trader (the recipient) or
elsewhere (the change), derives the fee and reports the confirming block.
The result is a ten-line report.

The node's answers are plain inputs here:

- `WalletTx` is what `get_transaction` and `decode_raw_transaction` return: the decoded inputs and outputs, and the block hash if the transaction is mined.
- `Node` holds the answers to the two follow-up queries as maps: previous transaction outputs by txid (`get_raw_transaction_info`) and block heights by hash (`get_block_info`).

Amounts are whole satoshis. Addresses, txids and hashes are opaque strings
compared for equality.

Each abort of the program is a distinct `Error` value:

- an out-of-range `vin[0]` or output index;
- an `expect` or `unwrap` on a missing txid, index, address or block hash;
- a failed node query propagated with `?`.

The checks happen in the order the source runs them.

Modules:

- `Transactions` (transactions.dfy): the data model and the error taxonomy.
- `Classification` (classification.dfy): the output-classification loop (`Classify`), the function it is proved against (`Classified`, built on `LastWithRole`), and the lemmas about last-match-wins.
- `Reconciliation` (reconciliation.dfy): input resolution, fee and confirmation as functions returning `Result`. `Reconcile` is the source's step sequence as a method. `Reconciled` is the same computation as a function, used by the lemmas.
- `Report` (report.dfy): the summary, its ten report lines in their fixed order, and the positional reading that inverts them.
- `Wrappers` (wrappers.dfy): `Option` and `Result`.

Two points about the code that the model keeps:

- Outputs without an address are on neither side (`rust/src/main.rs:71`). Only addressed outputs that do not match the trader are change.
- The code indexes `vin[0]` without checking that there is an input. The model reports this case as `NoInputs`.

`Reconciled` is a function, so reconciling twice against the same node answers gives the same summary.

## Model

| member | source | states |
|---|---|---|
| Classification.RoleOf | rust/src/main.rs:71-81 | an output without address is on no side; an output is on the recipient side exactly when its address equals the trader's |
| Classification.LastWithRole | rust/src/main.rs:70-83 | the index found is on the requested side and no later output is; no index is found exactly when no output is on that side |
| Classification.Classify | rust/src/main.rs:65-83 | the loop over the outputs, with its four locals starting at `""`/0, ends with the last recipient output's address and amount and the last change output's address and amount |
| Classification.LastMatchWins | rust/src/main.rs:75-81 | an output on a side is the one recorded for that side whenever no later output is on the same side (earlier ones are overwritten) |
| Classification.NoMatchKeepsDefaults | rust/src/main.rs:65-68 | no output is on a side exactly when no index is found for it; then the side keeps `""` and 0 |
| Classification.AppendOverwrites | rust/src/main.rs:75-81 | one more output on a side overwrites that side's pair and leaves the other side's pair unchanged |
| Classification.UnaddressedIgnored | rust/src/main.rs:71 | inserting an output without address at any position changes neither recorded pair |
| Classification.UnaddressedIgnoredBothSides | rust/src/main.rs:70-83 | the whole classification is unchanged by inserting an output without address anywhere |
| Classification.OneOfEach | rust/src/main.rs:70-83 | with exactly one trader output and one other addressed output, those two are the recipient and the change, wherever they stand in the list |
| Classification.OrderIndependent | rust/src/main.rs:70-83 | for one trader output and one other addressed output, both orders give the same classification |
| Reconciliation.ResolveInput | rust/src/main.rs:51-62 | success gives the address and amount of the output that the first input points to; failure means no such addressed output exists; each failure is named by the first check that fails, in the source's order: NoInputs, MissingInputTxid, MissingInputVout, PrevTxNotFound, PrevOutIndexOutOfRange, MissingInputAddress |
| Reconciliation.Fee | rust/src/main.rs:86 | fee + recipient amount + change amount equals the input amount; the fee is negative exactly when the two outputs exceed the input |
| Reconciliation.Confirm | rust/src/main.rs:89-91 | succeeds exactly when the block hash is present and the node knows its block, giving that block's height and hash; otherwise MissingBlockhash or BlockNotFound |
| Reconciliation.Reconcile | rust/src/main.rs:51-104 | the step sequence equals the functional reconciliation, conserves value on success and never succeeds without a block hash |
| Reconciliation.ReconciledSummary | rust/src/main.rs:51-104 | a summary carries the requested txid, the output spent by the first input, the classified outputs, the conserving fee and the confirming block's height and hash |
| Reconciliation.ReconciledErrors | rust/src/main.rs:51-91 | reconciliation fails exactly when input resolution or confirmation fails, with input errors taking precedence |
| Reconciliation.UnconfirmedRejected | rust/src/main.rs:89 | a transaction with no block hash yields an error, MissingBlockhash unless input resolution failed first |
| Reconciliation.OnlyFirstInput | rust/src/main.rs:51 | inputs after the first do not affect the result |
| Reconciliation.CoinbaseRejected | rust/src/main.rs:51-52 | a first input with no previous txid or index yields MissingInputTxid |
| Reconciliation.TransferScenario | rust/src/main.rs:51-91 | spending 101 BTC into 20 BTC to the trader and 80.9999 BTC of change gives a fee of 10000 satoshis |
| Reconciliation.NegativeFeeScenario | rust/src/main.rs:86 | outputs worth more than the input give a negative fee, not an error |
| Report.ReportLines | rust/src/main.rs:95-104 | the report has exactly ten lines |
| Report.ParseReport | rust/src/main.rs:95-104 | a report that reads back has exactly ten lines |
| Report.ReportRoundTrip | rust/src/main.rs:95-104 | reading the ten lines back by position gives the summary that was written, so the order is txid, input address, input amount, recipient address, recipient amount, change address, change amount, fee, block height, block hash |
| Report.ParsedReportIsWritten | rust/src/main.rs:95-104 | any line sequence that reads back as a summary is exactly that summary's report |

## Left out

- The node calls that create clients, generate addresses, mine blocks and send funds (`rust/src/main.rs:14-48`) are network I/O. Their results are inputs of the model.
- Creating `out.txt`, the `writeln!` calls and the final `println!` are file and console I/O. The report is modelled as its ten field values. An I/O error while writing is not modelled.
- The `to_btc()` conversions to `f64`, the floating-point fee subtraction and the eight-place fee formatting are left out. The model uses exact integer satoshis, so the rounding of `f64` arithmetic is not captured.
- Address parsing and network checking (`assume_checked`) are library calls. Addresses are opaque strings, and two addresses are equal exactly when their strings are.
- The endpoint and credential constants are configuration only.
- A node query failing for transport or authentication reasons is not modelled. Only two lookups can fail in the model: the previous transaction (`rust/src/main.rs:54`) and the confirming block (`rust/src/main.rs:90`). `get_transaction` and `decode_raw_transaction` for the reconciled txid (`rust/src/main.rs:47-48`) cannot fail, because their result is a given input.
- The output index is a `nat`. Its 32-bit range in the source does not change any outcome.
