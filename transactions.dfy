/** The transaction record as the batch sees it. Its own rendering
    (`Transaction#to_s`) and validation (`Transaction#valid?`) live in a file
    this model does not include; the batch receives them as function
    parameters. */
module Transactions {

  datatype Transaction = Transaction(
    traceBsb: string,
    traceAccountNumber: string,
    nameOfRemitter: string,
    amount: int,               // cents; positive is a credit, negative a debit
    bsb: string,
    accountNumber: string,
    accountName: string,
    transactionCode: string,
    indicator: string,
    lodgementReference: string)

  /** `Transaction.new(trace_bsb:, trace_account_number:, name_of_remitter:)`:
      the three batch values are copied in; every other field is unset. */
  function Defaults(traceBsb: string, traceAccountNumber: string, nameOfRemitter: string): (t: Transaction)
    ensures t.traceBsb == traceBsb && t.traceAccountNumber == traceAccountNumber
    ensures t.nameOfRemitter == nameOfRemitter
    ensures t.amount == 0
  {
    Transaction(traceBsb, traceAccountNumber, nameOfRemitter, 0, "", "", "", "", "", "")
  }

  /** A configuration block that leaves the defaulted trace fields alone. */
  predicate KeepsTrace(configure: Transaction -> Transaction, t: Transaction) {
    var c := configure(t);
    c.traceBsb == t.traceBsb && c.traceAccountNumber == t.traceAccountNumber
      && c.nameOfRemitter == t.nameOfRemitter
  }
}
