/** The reconciliation summary and the ten-line report it is written as:
    one field per line, in a fixed order, read back by position only. */
module Report {
  import opened Wrappers
  import opened Transactions

  datatype Summary = Summary(
    txid: Txid,
    inputAddress: Address, inputAmount: nat,
    recipientAddress: Address, recipientAmount: nat,
    changeAddress: Address, changeAmount: nat,
    fee: int,
    blockHeight: nat, blockHash: BlockHash)

  /** The value on one line of the report. */
  datatype Field = Text(text: string) | Sats(sats: int) | Height(height: nat)

  /** The report's lines, in the order they are written. */
  function ReportLines(s: Summary): (r: seq<Field>)
    ensures |r| == 10
  {
    [Text(s.txid),
     Text(s.inputAddress), Sats(s.inputAmount),
     Text(s.recipientAddress), Sats(s.recipientAmount),
     Text(s.changeAddress), Sats(s.changeAmount),
     Sats(s.fee),
     Height(s.blockHeight), Text(s.blockHash)]
  }

  /** Positional reading of a report: ten lines of the expected kinds. */
  function ParseReport(r: seq<Field>): (s: Option<Summary>)
    ensures s.Some? ==> |r| == 10
  {
    if |r| != 10 then None
    else if && r[0].Text? && r[1].Text? && r[2].Sats? && r[2].sats >= 0
            && r[3].Text? && r[4].Sats? && r[4].sats >= 0
            && r[5].Text? && r[6].Sats? && r[6].sats >= 0
            && r[7].Sats? && r[8].Height? && r[9].Text?
    then Some(Summary(r[0].text, r[1].text, r[2].sats, r[3].text, r[4].sats,
                      r[5].text, r[6].sats, r[7].sats, r[8].height, r[9].text))
    else None
  }

  /** Reading back a written report gives the summary that was written. */
  lemma ReportRoundTrip(s: Summary)
    ensures ParseReport(ReportLines(s)) == Some(s)
  {
  }

  /** Every report that reads back is exactly the one its summary writes. */
  lemma ParsedReportIsWritten(r: seq<Field>)
    ensures ParseReport(r).Some? ==> ReportLines(ParseReport(r).value) == r
  {
  }
}
