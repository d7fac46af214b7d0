/** The batch (`class Aba`): its header fields, its ordered transactions,
    the transaction factory, `valid?` and `to_s`. */
module Aba {
  import opened Text
  import opened Timestamps
  import opened Validations
  import opened Transactions
  import opened Records

  // ---------------------------------------------------------------------
  // valid?

  /** The batch's own declared checks: presence of the bank mnemonic, user
      name, user id, description and process date, and the BSB shape. */
  predicate HeaderValid(h: Header) {
    && Present(h.financialInstitution)
    && Present(h.userName)
    && Present(h.userId)
    && Present(h.description)
    && h.processAt.Some?
    && BsbValid(h.bsb)
  }

  /** `ts.inject(res) { |res, t| res &&= t.valid? }`. */
  function Fold(ts: seq<Transaction>, res: bool, txValid: Transaction -> bool): bool
  {
    if ts == [] then res else Fold(ts[1..], res && txValid(ts[0]), txValid)
  }

  /** The transactions whose `valid?` the fold calls: `res &&= t.valid?`
      evaluates `t.valid?` only while `res` is still true. */
  function Checked(ts: seq<Transaction>, res: bool, txValid: Transaction -> bool): seq<Transaction>
  {
    if ts == [] then []
    else (if res then [ts[0]] else []) + Checked(ts[1..], res && txValid(ts[0]), txValid)
  }

  /** The fold is the conjunction of its seed and every transaction's check. */
  lemma {:induction false} FoldIsConjunction(ts: seq<Transaction>, res: bool, txValid: Transaction -> bool)
    ensures Fold(ts, res, txValid) <==> res && forall i :: 0 <= i < |ts| ==> txValid(ts[i])
  {
    if ts != [] {
      FoldIsConjunction(ts[1..], res && txValid(ts[0]), txValid);
      if res && txValid(ts[0]) {
        assert forall i :: 1 <= i < |ts| ==> ts[i] == ts[1..][i - 1];
      }
    }
  }

  /** `valid?`: the batch's own checks and then every transaction's. */
  function BatchValid(h: Header, ts: seq<Transaction>, txValid: Transaction -> bool): (r: bool)
    ensures r <==> HeaderValid(h) && forall i :: 0 <= i < |ts| ==> txValid(ts[i])
  {
    FoldIsConjunction(ts, true, txValid);
    HeaderValid(h) && Fold(ts, true, txValid)
  }

  /** Index of the first transaction that fails its check, |ts| if none does. */
  function FirstInvalid(ts: seq<Transaction>, txValid: Transaction -> bool): (k: nat)
    ensures k <= |ts|
    ensures forall i :: 0 <= i < k ==> txValid(ts[i])
    ensures k < |ts| ==> !txValid(ts[k])
  {
    if ts == [] || !txValid(ts[0]) then 0 else 1 + FirstInvalid(ts[1..], txValid)
  }

  /** Which transactions `valid?` evaluates: none when the batch's own
      checks fail (`&&` stops there); otherwise every transaction up to and
      including the first invalid one, and no later one. */
  function ValidityChecked(h: Header, ts: seq<Transaction>, txValid: Transaction -> bool): seq<Transaction>
  {
    if HeaderValid(h) then Checked(ts, true, txValid) else []
  }

  lemma {:induction false} CheckedAfterFailure(ts: seq<Transaction>, txValid: Transaction -> bool)
    ensures Checked(ts, false, txValid) == []
  {
    if ts != [] {
      CheckedAfterFailure(ts[1..], txValid);
    }
  }

  lemma {:induction false} CheckedIsPrefix(ts: seq<Transaction>, txValid: Transaction -> bool)
    ensures var k := FirstInvalid(ts, txValid);
      Checked(ts, true, txValid) == if k < |ts| then ts[..k + 1] else ts
  {
    if ts != [] {
      if txValid(ts[0]) {
        CheckedIsPrefix(ts[1..], txValid);
        var k := FirstInvalid(ts[1..], txValid);
        if k < |ts| - 1 {
          assert [ts[0]] + ts[1..][..k + 1] == ts[..k + 2];
        } else {
          assert [ts[0]] + ts[1..] == ts;
        }
      } else {
        CheckedAfterFailure(ts[1..], txValid);
        assert [ts[0]] + [] == ts[..1];
      }
    }
  }

  /** Short-circuit evaluation of `valid?`. */
  lemma ValidShortCircuits(h: Header, ts: seq<Transaction>, txValid: Transaction -> bool)
    ensures !HeaderValid(h) ==> ValidityChecked(h, ts, txValid) == []
    ensures HeaderValid(h) ==> var k := FirstInvalid(ts, txValid);
      ValidityChecked(h, ts, txValid) == if k < |ts| then ts[..k + 1] else ts
  {
    CheckedIsPrefix(ts, txValid);
  }

  // ---------------------------------------------------------------------
  // The batch

  class Batch {
    var bsb: string
    var accountNumber: string
    var financialInstitution: string
    var userName: string
    var userId: string
    var description: string
    var processAt: Option<Timestamp>
    var nameOfRemitter: string
    /** In the order they were added; changed only by AddTransaction. */
    var transactions: seq<Transaction>

    function Fields(): Header
      reads this
    {
      Header(bsb, accountNumber, financialInstitution, userName, userId, description,
             processAt, nameOfRemitter)
    }

    /** `Aba.new { |aba| ... }`: the setup block's assignments are the
        given header; the batch starts with no transactions. */
    constructor (config: Header)
      ensures Fields() == config
      ensures transactions == []
    {
      bsb := config.bsb;
      accountNumber := config.accountNumber;
      financialInstitution := config.financialInstitution;
      userName := config.userName;
      userId := config.userId;
      description := config.description;
      processAt := config.processAt;
      nameOfRemitter := config.nameOfRemitter;
      transactions := [];
    }

    /** `transaction { |t| ... }`: a new transaction takes the batch's
        current BSB, account number and remitter name, the block configures
        it, and it is appended after every earlier one. */
    method AddTransaction(configure: Transaction -> Transaction)
      modifies this
      ensures Fields() == old(Fields())
      ensures transactions
           == old(transactions) + [configure(Defaults(old(bsb), old(accountNumber), old(nameOfRemitter)))]
      ensures KeepsTrace(configure, Defaults(old(bsb), old(accountNumber), old(nameOfRemitter))) ==>
                var t := transactions[|transactions| - 1];
                t.traceBsb == old(bsb) && t.traceAccountNumber == old(accountNumber)
                && t.nameOfRemitter == old(nameOfRemitter)
    {
      var t := Defaults(bsb, accountNumber, nameOfRemitter);
      t := configure(t);
      transactions := transactions + [t];
    }

    /** `valid?`. */
    function IsValid(txValid: Transaction -> bool): (r: bool)
      reads this
      ensures r <==> HeaderValid(Fields()) && forall t :: t in transactions ==> txValid(t)
    {
      BatchValid(Fields(), transactions, txValid)
    }

    /** `batch_control_record`: one pass accumulates the net, credit and
        debit totals, then the record is rendered from them. */
    method BatchControlRecord() returns (output: string)
      ensures output == BatchControl(transactions)
    {
      var net, credit, debit := 0, 0, 0;
      var i := 0;
      while i < |transactions|
        invariant i <= |transactions|
        invariant net == NetTotal(transactions[..i])
        invariant credit == CreditTotal(transactions[..i])
        invariant debit == DebitTotal(transactions[..i])
      {
        var t := transactions[i];
        assert transactions[..i + 1][..i] == transactions[..i];
        net := net + t.amount;
        if t.amount > 0 {
          credit := credit + t.amount;
        }
        if t.amount < 0 {
          debit := debit + t.amount;
        }
        i := i + 1;
      }
      assert transactions[..i] == transactions;
      output := "7";
      output := output + "999-999";
      output := output + Spaces(12);
      output := output + AmountField(net, 10);
      output := output + AmountField(credit, 10);
      output := output + AmountField(debit, 10);
      output := output + Spaces(24);
      output := output + AmountField(|transactions|, 6);
      output := output + Spaces(40);
      ControlFieldsAppended(AmountField(net, 10), AmountField(credit, 10), AmountField(debit, 10),
                            AmountField(|transactions|, 6));
    }

    /** `to_s`. */
    method ToS(render: Transaction -> string) returns (output: string)
      requires Renderable(Fields())
      ensures output == Document(Fields(), transactions, render)
    {
      output := DescriptiveRecord(Fields()) + CRLF;
      output := output + Join(Lines(transactions, render), CRLF);
      var trailer := BatchControlRecord();
      output := output + CRLF + trailer;
    }
  }

  /** Rendering twice without changing the batch gives the same text. */
  method RenderTwice(batch: Batch, render: Transaction -> string) returns (first: string, second: string)
    requires Renderable(batch.Fields())
    ensures first == second
  {
    first := batch.ToS(render);
    second := batch.ToS(render);
  }

  /** A transaction keeps the values it was created with when the batch's
      fields change afterwards. */
  method ReassignAfterTransaction(batch: Batch, configure: Transaction -> Transaction, newBsb: string)
    modifies batch
    ensures batch.bsb == newBsb
    ensures |batch.transactions| == |old(batch.transactions)| + 1
    ensures batch.transactions[..|old(batch.transactions)|] == old(batch.transactions)
    ensures batch.transactions[|old(batch.transactions)|]
         == configure(Defaults(old(batch.bsb), old(batch.accountNumber), old(batch.nameOfRemitter)))
  {
    batch.AddTransaction(configure);
    batch.bsb := newBsb;
  }
}

module Examples {
  import opened Text
  import opened Validations
  import opened Timestamps
  import opened Transactions
  import opened Records
  import opened Aba

  const Payroll: Header :=
    Header("013-999", "123456", "ANZ", "Test User", "1", "Payroll",
           Some(Timestamp(2024, 1, 1, 9, 0)), "")

  /** The payroll batch passes the batch's own checks. */
  lemma PayrollHeaderValid()
    ensures HeaderValid(Payroll)
  {
    assert !IsWhitespace("ANZ"[0]);
    assert !IsWhitespace("Test User"[0]);
    assert !IsWhitespace("1"[0]);
    assert !IsWhitespace("Payroll"[0]);
    BsbExamples();
  }

  /** The header of a payroll batch processed at 09:00 on 1 January 2024:
      the BSB fills its 7 columns with no gap before the account number,
      which is padded to 9, and the user id becomes 000001. */
  lemma PayrollHeader(h: Header)
    requires h.bsb == Payroll.bsb && h.accountNumber == Payroll.accountNumber
    requires h.financialInstitution == Payroll.financialInstitution
    requires h.userName == Payroll.userName && h.userId == Payroll.userId
    requires h.description == Payroll.description && h.processAt == Payroll.processAt
    ensures Renderable(h) && WithinWidths(h)
    ensures var r := DescriptiveRecord(h);
      && |r| == 120
      && r[..23] == "0013-999123456    01ANZ"
      && r[56..62] == "000001"
      && r[74..84] == "0101240900"
  {
    DescriptivePrefix(h);
    DescriptiveRecordLayout(h);
    PayrollPadding();
  }

  lemma PayrollPadding()
    ensures LJust("013-999", 7, ' ') == "013-999"
    ensures LJust("123456", 9, ' ') == "123456   "
    ensures RJust("1", 6, '0') == "000001"
    ensures Strftime(Timestamp(2024, 1, 1, 9, 0)) == "0101240900"
  {
    assert LJust("013-999", 7, ' ') == "013-999" + [];
  }

  /** The trailer of a batch holding one credit of 100.00: 10000 cents as net
      and credit total, no debit, one item. */
  lemma OneCreditTrailer(t: Transaction)
    requires t.amount == 10000
    ensures var r := BatchControl([t]);
      && |r| == 120
      && r[20..30] == "0000010000"
      && r[30..40] == "0000010000"
      && r[40..50] == "0000000000"
      && r[74..80] == "000001"
  {
    assert [t][..0] == [];
    assert NetTotal([t]) == 10000 && CreditTotal([t]) == 10000 && DebitTotal([t]) == 0;
    ControlRecordLayout(10000, 10000, 0, 1);
    assert Decimal(10000) == "10000";
    assert AmountField(10000, 10) == "0000010000";
    ZeroAmountField(10);
    assert AmountField(1, 6) == "000001";
  }
}
