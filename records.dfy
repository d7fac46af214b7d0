/** The two fixed-width records the batch writes itself (the descriptive
    record, type 0, and the batch control record, type 7), the totals behind
    the control record, and the whole file as `to_s` assembles it. */
module Records {
  import opened Text
  import opened Timestamps
  import opened Transactions

  datatype Option<T> = None | Some(value: T)

  /** The batch's header fields (its `attr_accessor`s). */
  datatype Header = Header(
    bsb: string,
    accountNumber: string,
    financialInstitution: string,
    userName: string,
    userId: string,
    description: string,
    processAt: Option<Timestamp>,
    nameOfRemitter: string)

  /** `strftime` can be called: `process_at` is set (calling it on nil raises). */
  predicate Renderable(h: Header) {
    h.processAt.Some? && h.processAt.value.Valid()
  }

  /** Every header field within its nominal width, the bank mnemonic exactly 3. */
  predicate WithinWidths(h: Header) {
    && |h.bsb| <= 7
    && |h.accountNumber| <= 9
    && |h.financialInstitution| == 3
    && |h.userName| <= 26
    && |h.userId| <= 6
    && |h.description| <= 12
  }

  const CRLF: string := "\r\n"

  // ---------------------------------------------------------------------
  // Descriptive record

  /** The descriptive record's fields, given its variable fields as padded. */
  function DescriptiveFields(bsb: string, accountNumber: string, financialInstitution: string,
                             userName: string, userId: string, description: string,
                             processAt: string): seq<string>
  {
    [ "0",                                   // record type
      bsb,
      accountNumber,
      " ",                                   // reserved
      "01",                                  // sequence number
      financialInstitution,
      Spaces(7),                             // reserved
      userName,
      userId,
      description,
      processAt,
      Spaces(36) ]                           // reserved
  }

  /** Start of each descriptive-record field when every field has its width. */
  const DescriptiveOffsets: seq<nat> := [0, 1, 8, 17, 18, 20, 23, 30, 56, 62, 74, 84, 120]

  /** `descriptive_record`: record type, BSB and account number left-justified,
      sequence number, bank mnemonic as given, user name left-justified, user
      id zero-padded, description left-justified, `DDMMYYHHmm`, reserved. */
  function DescriptiveRecord(h: Header): string
    requires Renderable(h)
  {
    Concat(DescriptiveFields(LJust(h.bsb, 7, ' '), LJust(h.accountNumber, 9, ' '),
                             h.financialInstitution, LJust(h.userName, 26, ' '),
                             RJust(h.userId, 6, '0'), LJust(h.description, 12, ' '),
                             Strftime(h.processAt.value)))
  }

  /** Where the twelve descriptive-record fields sit when each has its width. */
  lemma DescriptiveColumns(bsb: string, accountNumber: string, financialInstitution: string,
                           userName: string, userId: string, description: string,
                           processAt: string)
    requires |bsb| == 7 && |accountNumber| == 9 && |financialInstitution| == 3
    requires |userName| == 26 && |userId| == 6 && |description| == 12 && |processAt| == 10
    ensures var r := Concat(DescriptiveFields(bsb, accountNumber, financialInstitution,
                                              userName, userId, description, processAt));
      && |r| == 120
      && r[0..1] == "0" && r[1..8] == bsb && r[8..17] == accountNumber && r[17..18] == " "
      && r[18..20] == "01" && r[20..23] == financialInstitution && r[23..30] == Spaces(7)
      && r[30..56] == userName && r[56..62] == userId && r[62..74] == description
      && r[74..84] == processAt && r[84..120] == Spaces(36)
  {
    var fields := DescriptiveFields(bsb, accountNumber, financialInstitution,
                                    userName, userId, description, processAt);
    var offsets := DescriptiveOffsets;
    assert Tiles(fields, offsets);
    ConcatLength(fields, offsets);
    ConcatField(fields, offsets, 0);
    ConcatField(fields, offsets, 1);
    ConcatField(fields, offsets, 2);
    ConcatField(fields, offsets, 3);
    ConcatField(fields, offsets, 4);
    ConcatField(fields, offsets, 5);
    ConcatField(fields, offsets, 6);
    ConcatField(fields, offsets, 7);
    ConcatField(fields, offsets, 8);
    ConcatField(fields, offsets, 9);
    ConcatField(fields, offsets, 10);
    ConcatField(fields, offsets, 11);
  }

  /** The descriptive record's layout: with every field within its width it
      is exactly 120 characters, each field at its fixed column; the record
      type, sequence number and date/time are there whatever the names hold. */
  lemma DescriptiveRecordLayout(h: Header)
    requires Renderable(h) && WithinWidths(h)
    ensures var r := DescriptiveRecord(h);
      && |r| == 120
      && r[0..1] == "0"
      && r[1..8] == LJust(h.bsb, 7, ' ')
      && r[8..17] == LJust(h.accountNumber, 9, ' ')
      && r[17..18] == " "
      && r[18..20] == "01"
      && r[20..23] == h.financialInstitution
      && r[23..30] == Spaces(7)
      && r[30..56] == LJust(h.userName, 26, ' ')
      && r[56..62] == RJust(h.userId, 6, '0')
      && r[62..74] == LJust(h.description, 12, ' ')
      && r[74..84] == Strftime(h.processAt.value)
      && AllDigits(r[74..84])
      && r[84..120] == Spaces(36)
  {
    DescriptiveColumns(LJust(h.bsb, 7, ' '), LJust(h.accountNumber, 9, ' '),
                       h.financialInstitution, LJust(h.userName, 26, ' '),
                       RJust(h.userId, 6, '0'), LJust(h.description, 12, ' '),
                       Strftime(h.processAt.value));
  }

  /** The first 23 columns run record type, BSB, account number, a blank,
      sequence number and bank mnemonic together with no separator. */
  lemma DescriptivePrefix(h: Header)
    requires Renderable(h) && WithinWidths(h)
    ensures var r := DescriptiveRecord(h);
      && |r| == 120
      && r[..23] == "0" + LJust(h.bsb, 7, ' ') + LJust(h.accountNumber, 9, ' ') + " 01"
                    + h.financialInstitution
  {
    DescriptiveRecordLayout(h);
    LeadingColumns(DescriptiveRecord(h));
  }

  lemma LeadingColumns(r: string)
    requires |r| >= 23
    ensures r[..23] == r[0..1] + r[1..8] + r[8..17] + r[17..18] + r[18..20] + r[20..23]
  {
  }

  // ---------------------------------------------------------------------
  // Totals

  function Abs(n: int): nat { if n < 0 then -n else n }

  /** Sum of every amount. */
  function NetTotal(ts: seq<Transaction>): int
  {
    if ts == [] then 0 else NetTotal(ts[..|ts| - 1]) + ts[|ts| - 1].amount
  }

  /** Sum of the positive amounts. */
  function CreditTotal(ts: seq<Transaction>): int
  {
    if ts == [] then 0
    else CreditTotal(ts[..|ts| - 1]) + (if ts[|ts| - 1].amount > 0 then ts[|ts| - 1].amount else 0)
  }

  /** Sum of the negative amounts. */
  function DebitTotal(ts: seq<Transaction>): int
  {
    if ts == [] then 0
    else DebitTotal(ts[..|ts| - 1]) + (if ts[|ts| - 1].amount < 0 then ts[|ts| - 1].amount else 0)
  }

  /** The totals reconcile: the net is credit plus debit, credits are never
      negative and debits never positive, so the net's magnitude is the
      difference of the credit and debit magnitudes. */
  lemma {:induction false} TotalsReconcile(ts: seq<Transaction>)
    ensures NetTotal(ts) == CreditTotal(ts) + DebitTotal(ts)
    ensures CreditTotal(ts) >= 0 && DebitTotal(ts) <= 0
    ensures Abs(NetTotal(ts)) == Abs(Abs(CreditTotal(ts)) - Abs(DebitTotal(ts)))
  {
    if ts != [] {
      TotalsReconcile(ts[..|ts| - 1]);
    }
  }

  /** Only credits add to the credit total and only debits to the debit total. */
  lemma {:induction false} TotalsOfSameSign(ts: seq<Transaction>)
    ensures (forall i :: 0 <= i < |ts| ==> ts[i].amount >= 0) ==> DebitTotal(ts) == 0 && CreditTotal(ts) == NetTotal(ts)
    ensures (forall i :: 0 <= i < |ts| ==> ts[i].amount <= 0) ==> CreditTotal(ts) == 0 && DebitTotal(ts) == NetTotal(ts)
  {
    if ts != [] {
      TotalsOfSameSign(ts[..|ts| - 1]);
    }
  }

  // ---------------------------------------------------------------------
  // Batch control record

  /** An amount field: `n.abs.to_s.rjust(width, "0")`. */
  function AmountField(n: int, width: nat): (r: string)
    ensures AllDigits(r) && ParseDecimal(r) == Abs(n)
  {
    ZeroPaddedRoundTrip(Abs(n), width);
    RJust(Decimal(Abs(n)), width, '0')
  }

  /** The control record's fields, given its three amount fields and its
      item-count field as rendered. */
  function ControlFields(net: string, credit: string, debit: string, count: string): seq<string>
  {
    [ "7",                                   // record type
      "999-999",                             // BSB format filler
      Spaces(12),                            // reserved
      net,
      credit,
      debit,
      Spaces(24),                            // reserved
      count,                                 // item count
      Spaces(40) ]                           // reserved
  }

  const ControlOffsets: seq<nat> := [0, 1, 8, 20, 30, 40, 50, 74, 80, 120]

  /** The control record for given totals and item count. */
  function ControlRecord(net: int, credit: int, debit: int, count: nat): string
  {
    Concat(ControlFields(AmountField(net, 10), AmountField(credit, 10), AmountField(debit, 10),
                         AmountField(count, 6)))
  }

  /** The concatenated control record is its fields appended one by one. */
  lemma ControlFieldsAppended(net: string, credit: string, debit: string, count: string)
    ensures Concat(ControlFields(net, credit, debit, count))
         == "7" + "999-999" + Spaces(12) + net + credit + debit + Spaces(24) + count + Spaces(40)
  {
    var f1 := ["7"];
    var f2 := f1 + ["999-999"];
    var f3 := f2 + [Spaces(12)];
    var f4 := f3 + [net];
    var f5 := f4 + [credit];
    var f6 := f5 + [debit];
    var f7 := f6 + [Spaces(24)];
    var f8 := f7 + [count];
    var f9 := f8 + [Spaces(40)];
    assert f9 == ControlFields(net, credit, debit, count);
    assert Concat(f1) == "7" by { ConcatAppend([], "7"); }
    ConcatAppend(f1, "999-999");
    ConcatAppend(f2, Spaces(12));
    ConcatAppend(f3, net);
    ConcatAppend(f4, credit);
    ConcatAppend(f5, debit);
    ConcatAppend(f6, Spaces(24));
    ConcatAppend(f7, count);
    ConcatAppend(f8, Spaces(40));
  }

  /** The batch control record of a transaction list. */
  function BatchControl(ts: seq<Transaction>): string
  {
    ControlRecord(NetTotal(ts), CreditTotal(ts), DebitTotal(ts), |ts|)
  }

  lemma AmountFieldWidth(n: int, width: nat)
    requires width >= 1 && Abs(n) < Pow10(width)
    ensures |AmountField(n, width)| == width
  {
    DecimalFits(Abs(n), width);
  }

  /** Where the nine control-record fields sit when each has its width. */
  lemma ControlColumns(net: string, credit: string, debit: string, count: string)
    requires |net| == 10 && |credit| == 10 && |debit| == 10 && |count| == 6
    ensures var r := Concat(ControlFields(net, credit, debit, count));
      && |r| == 120
      && r[0..8] == "7999-999" && r[8..20] == Spaces(12)
      && r[20..30] == net && r[30..40] == credit && r[40..50] == debit
      && r[50..74] == Spaces(24) && r[74..80] == count && r[80..120] == Spaces(40)
  {
    var fields, offsets := ControlFields(net, credit, debit, count), ControlOffsets;
    assert Tiles(fields, offsets);
    ConcatLength(fields, offsets);
    ConcatField(fields, offsets, 0);
    ConcatField(fields, offsets, 1);
    ConcatField(fields, offsets, 2);
    ConcatField(fields, offsets, 3);
    ConcatField(fields, offsets, 4);
    ConcatField(fields, offsets, 5);
    ConcatField(fields, offsets, 6);
    ConcatField(fields, offsets, 7);
    ConcatField(fields, offsets, 8);
    var r := Concat(fields);
    assert r[0..8] == r[0..1] + r[1..8];
  }

  /** The control record's layout: 120 characters when each amount is below
      10^10 and the count below 10^6, with the filler, the digit-only amount
      fields and the item count at their fixed columns. */
  lemma ControlRecordLayout(net: int, credit: int, debit: int, count: nat)
    requires Abs(net) < Pow10(10) && Abs(credit) < Pow10(10) && Abs(debit) < Pow10(10)
    requires count < Pow10(6)
    ensures var r := ControlRecord(net, credit, debit, count);
      && |r| == 120
      && r[0..8] == "7999-999"
      && r[8..20] == Spaces(12)
      && r[20..30] == AmountField(net, 10)
      && r[30..40] == AmountField(credit, 10)
      && r[40..50] == AmountField(debit, 10)
      && r[50..74] == Spaces(24)
      && r[74..80] == AmountField(count, 6)
      && r[80..120] == Spaces(40)
  {
    AmountFieldWidth(net, 10);
    AmountFieldWidth(credit, 10);
    AmountFieldWidth(debit, 10);
    AmountFieldWidth(count, 6);
    ControlColumns(AmountField(net, 10), AmountField(credit, 10), AmountField(debit, 10),
                   AmountField(count, 6));
  }

  /** What a bank reads from a control record: the three amounts and the
      item count, if the record has its shape. */
  datatype ControlTotals = ControlTotals(net: nat, credit: nat, debit: nat, count: nat)

  function ReadControl(r: string): Option<ControlTotals>
  {
    if && |r| == 120 && r[..8] == "7999-999"
       && AllDigits(r[20..30]) && AllDigits(r[30..40]) && AllDigits(r[40..50]) && AllDigits(r[74..80])
    then Some(ControlTotals(ParseDecimal(r[20..30]), ParseDecimal(r[30..40]), ParseDecimal(r[40..50]),
                            ParseDecimal(r[74..80])))
    else None
  }

  /** Reading a control record back gives the magnitudes of its totals and
      its count, as long as each fits its field. */
  lemma ControlRecordRoundTrip(net: int, credit: int, debit: int, count: nat)
    requires Abs(net) < Pow10(10) && Abs(credit) < Pow10(10) && Abs(debit) < Pow10(10)
    requires count < Pow10(6)
    ensures ReadControl(ControlRecord(net, credit, debit, count))
         == Some(ControlTotals(Abs(net), Abs(credit), Abs(debit), count))
  {
    ControlRecordLayout(net, credit, debit, count);
    var r := ControlRecord(net, credit, debit, count);
    var n, c, d, k := AmountField(net, 10), AmountField(credit, 10), AmountField(debit, 10), AmountField(count, 6);
    assert r[20..30] == n && r[30..40] == c && r[40..50] == d && r[74..80] == k;
    assert r[..8] == r[0..8];
  }

  /** The trailer of a batch whose credit and debit totals stay below 10^10
      and whose item count is below 10^6 reads back as the magnitudes of the
      net, credit and debit totals and the number of transactions, and its
      net field is the difference of its credit and debit fields. */
  lemma BatchControlReconciles(ts: seq<Transaction>)
    requires Abs(CreditTotal(ts)) < Pow10(10) && Abs(DebitTotal(ts)) < Pow10(10)
    requires |ts| < Pow10(6)
    ensures ReadControl(BatchControl(ts))
         == Some(ControlTotals(Abs(NetTotal(ts)), Abs(CreditTotal(ts)), Abs(DebitTotal(ts)), |ts|))
    ensures Abs(NetTotal(ts)) == Abs(Abs(CreditTotal(ts)) - Abs(DebitTotal(ts)))
  {
    NetWithinCreditAndDebit(ts);
    ControlRecordRoundTrip(NetTotal(ts), CreditTotal(ts), DebitTotal(ts), |ts|);
  }

  /** The net total is never larger in magnitude than both the credit and
      the debit total. */
  lemma NetWithinCreditAndDebit(ts: seq<Transaction>)
    ensures Abs(NetTotal(ts)) <= Max(Abs(CreditTotal(ts)), Abs(DebitTotal(ts)))
    ensures Abs(NetTotal(ts)) == Abs(Abs(CreditTotal(ts)) - Abs(DebitTotal(ts)))
  {
    TotalsReconcile(ts);
  }

  // ---------------------------------------------------------------------
  // The whole file

  /** `transactions.map { |t| t.to_s }`. */
  function Lines(ts: seq<Transaction>, render: Transaction -> string): (ls: seq<string>)
    ensures |ls| == |ts| && forall i :: 0 <= i < |ts| ==> ls[i] == render(ts[i])
  {
    seq(|ts|, i requires 0 <= i < |ts| => render(ts[i]))
  }

  /** `to_s`: descriptive record, CRLF, the transaction lines joined by CRLF,
      CRLF, batch control record. */
  function Document(h: Header, ts: seq<Transaction>, render: Transaction -> string): string
    requires Renderable(h)
  {
    DescriptiveRecord(h) + CRLF + Join(Lines(ts, render), CRLF) + CRLF + BatchControl(ts)
  }

  lemma {:induction false} JoinCons(x: string, xs: seq<string>, sep: string)
    requires xs != []
    ensures Join([x] + xs, sep) == x + sep + Join(xs, sep)
  {
    var n := |xs|;
    if n > 1 {
      JoinCons(x, xs[..n - 1], sep);
      assert ([x] + xs)[..n] == [x] + xs[..n - 1];
    } else {
      assert [x] + xs == [x, xs[0]];
    }
  }

  /** Header, CRLF, joined lines, CRLF, trailer is the CRLF-join of all the
      lines, an empty body standing for one empty line. */
  lemma JoinFrame(header: string, lines: seq<string>, trailer: string)
    ensures var body := if lines == [] then [""] else lines;
      header + CRLF + Join(lines, CRLF) + CRLF + trailer == Join([header] + body + [trailer], CRLF)
  {
    var body := if lines == [] then [""] else lines;
    assert Join(body, CRLF) == Join(lines, CRLF);
    var tail := body + [trailer];
    assert tail[..|tail| - 1] == body;
    assert Join(tail, CRLF) == Join(body, CRLF) + CRLF + trailer;
    JoinCons(header, tail, CRLF);
    assert [header] + body + [trailer] == [header] + tail;
  }

  /** The file is the CRLF-join of its lines: the descriptive record, one line
      per transaction in order, and the control record. With no transactions
      an empty line stands between the two records. */
  lemma DocumentLines(h: Header, ts: seq<Transaction>, render: Transaction -> string)
    requires Renderable(h)
    ensures var body := if ts == [] then [""] else Lines(ts, render);
      Document(h, ts, render) == Join([DescriptiveRecord(h)] + body + [BatchControl(ts)], CRLF)
  {
    JoinFrame(DescriptiveRecord(h), Lines(ts, render), BatchControl(ts));
  }

  /** An empty batch still has a line between header and trailer: the
      joined transaction lines are the empty string, so the two line
      terminators meet and leave a blank line. */
  lemma EmptyBatchBlankLine(h: Header, ts: seq<Transaction>, render: Transaction -> string)
    requires Renderable(h) && |ts| == 0
    ensures Document(h, ts, render) == DescriptiveRecord(h) + CRLF + CRLF + BatchControl(ts)
  {
    assert Lines(ts, render) == [];
    NothingBetween(DescriptiveRecord(h), Join(Lines(ts, render), CRLF), BatchControl(ts));
  }

  lemma NothingBetween(header: string, body: string, trailer: string)
    requires body == []
    ensures header + CRLF + body + CRLF + trailer == header + CRLF + CRLF + trailer
  {
  }

  lemma ZeroAmountField(width: nat)
    requires width >= 1
    ensures AmountField(0, width) == Repeat('0', width)
  {
    assert Decimal(0) == "0";
  }

  /** The trailer of an empty batch has all-zero totals and item count. */
  lemma EmptyBatchTrailer()
    ensures |BatchControl([])| == 120
    ensures BatchControl([])[20..50] == Repeat('0', 30)
    ensures BatchControl([])[74..80] == "000000"
  {
    ControlRecordLayout(0, 0, 0, 0);
    var r := BatchControl([]);
    ZeroAmountField(10);
    ZeroAmountField(6);
    assert r[20..50] == r[20..30] + r[30..40] + r[40..50];
  }
}
