# ABA batch encoder

A Dafny model of the `Aba` class in `lib/aba.rb`. The class collects the
details of one direct-entry batch and renders it as an ABA ("Cemtex") text
file in the Australian banking format. The file has three parts:

- a descriptive record (type `0`) that carries the funds account, the
  user's identity and the processing date;
- the transaction records, which each transaction renders itself;
- a batch control record (type `7`) that carries the net, credit and debit
  totals in cents and the item count.

The records are joined by CR LF. The class also answers `valid?`: the
batch's own field checks, then every transaction's check.

The model is split into six modules:

- `Text`: Ruby's `ljust`, `rjust`, `Integer#to_s`, `Array#join`, and
  field-by-field string building with its column offsets.
- `Timestamps`: `process_at` and `strftime("%d%m%y%H%M")`.
- `Validations`: the presence and BSB checks the class declares.
- `Transactions`: the transaction value as the batch creates it.
- `Records`: the descriptive record, the totals, the control record, a
  reader for the control record, and the whole file.
- `Aba`: the class itself (`Aba.Batch`), with `valid?` as a fold. A last
  module, `Examples`, works one payroll batch through.

Transactions render and validate themselves in code that is not part of
this model. `Transaction#to_s` is the parameter `render` and
`Transaction#valid?` is the parameter `txValid`. Every property proved
about the file and about `valid?` holds whatever those two functions do.

## Model

| member | source | states |
|---|---|---|
| Text.LJust | lib/aba.rb:52-55 | `ljust`: the result is `max(|s|, width)` long, starts with `s` unchanged and is filled after it with the pad character only; a value longer than the field is not truncated |
| Text.RJust | lib/aba.rb:73 | `rjust`: the result is `max(|s|, width)` long, ends with `s` unchanged and is filled before it with the pad character only |
| Text.TrimEndLJust | lib/aba.rb:70 | trimming trailing pad characters off a left-justified field gives the value back whenever the value does not itself end in the pad character |
| Text.ParseDecimalOfDecimal | lib/aba.rb:106 | `Integer#to_s` (modelled by `Text.Decimal`) read back as a decimal numeral is the number itself |
| Text.ZeroPaddedRoundTrip | lib/aba.rb:106-118 | a zero-padded amount field holds digits only, and reading it back gives the amount; leading zeros do not change the value |
| Text.DecimalFits | lib/aba.rb:106-118 | the numeral of `n` fits in `k` columns exactly when `n < 10^k`; this is when a zero-padded field keeps its width |
| Text.ConcatLength | lib/aba.rb:47-83 | fields appended one after another end at the sum of their widths |
| Text.ConcatField | lib/aba.rb:47-83 | field `k` of a record built by successive appends sits at columns `[offset k, offset k+1)` |
| Timestamps.YearOfCentury | lib/aba.rb:79 | `%y` is a number below 100 that differs from the year by a multiple of 100 |
| Timestamps.Strftime | lib/aba.rb:79 | `strftime("%d%m%y%H%M")` of a valid time is exactly ten digits |
| Timestamps.StrftimeFields | lib/aba.rb:79 | the ten digits read back as day, month, year modulo 100, hour and minute, in that order |
| Validations.BsbFormatPresent | lib/aba.rb:14 | a BSB of the form `ddd-ddd` is present, passes the BSB check and holds no whitespace |
| Validations.BsbExamples | lib/aba.rb:14 | `013-999` passes the BSB check; `12-3456`, `abc-def` and `0139999` fail it |
| Transactions.Defaults | lib/aba.rb:25 | a new transaction takes the given trace BSB, trace account number and remitter name |
| Records.DescriptiveRecordLayout | lib/aba.rb:47-83 | `descriptive_record` is modelled by `Records.DescriptiveRecord`; with every field within its width, the header is exactly 120 characters: record type `0`, BSB, account, blank, sequence `01`, bank mnemonic, 7 blanks, user name, zero-padded user id, description, the ten-digit date and time, and 36 blanks, each at its fixed column |
| Records.DescriptivePrefix | lib/aba.rb:49-64 | the first 23 columns are `0`, the padded BSB, the padded account number, a blank, `01` and the bank mnemonic, with no other separator |
| Records.TotalsReconcile | lib/aba.rb:95-103 | net total = credit total + debit total; the credit total is never negative and the debit total never positive; the absolute net total is the difference of the absolute credit and debit totals |
| Records.TotalsOfSameSign | lib/aba.rb:99-103 | with no negative amounts the debit total is 0 and the credit total is the net total; with no positive amounts the reverse holds |
| Records.NetWithinCreditAndDebit | lib/aba.rb:95-106 | the absolute net total never exceeds the larger of the absolute credit and debit totals, so the net field never needs more columns than those two |
| Records.AmountField | lib/aba.rb:106-118 | an amount field (`abs.to_s.rjust(w, "0")`) is digits only and reads back as the absolute amount |
| Records.AmountFieldWidth | lib/aba.rb:106-118 | an amount below `10^width` fills exactly `width` columns |
| Records.ControlFieldsAppended | lib/aba.rb:87-121 | the control record `Records.ControlRecord` is `7`, `999-999`, 12 blanks, net, credit and debit fields, 24 blanks, the count and 40 blanks, appended in that order |
| Records.ControlRecordLayout | lib/aba.rb:85-122 | with amounts below `10^10` and the count below `10^6`, the control record is exactly 120 characters, with the `7999-999` prefix, the fillers and the four numeric fields at their fixed columns |
| Records.ControlRecordRoundTrip | lib/aba.rb:105-118 | reading a rendered control record back gives the absolute net, credit and debit totals and the item count |
| Records.BatchControlReconciles | lib/aba.rb:95-118 | a batch's trailer (`batch_control_record`, modelled by `Records.BatchControl`) reads back as its absolute net, credit and debit totals and its transaction count, and the net field equals the difference of the credit and debit fields |
| Records.Lines | lib/aba.rb:39 | `map(&:to_s)`: one line per transaction, in order, each its rendering |
| Records.JoinCons | lib/aba.rb:39 | `Array#join`, modelled by `Text.Join`: joining a list with a separator puts the separator between the first item and the join of the rest |
| Records.JoinFrame | lib/aba.rb:34-43 | header, CR LF, the joined lines, CR LF and trailer is the CR LF join of header, lines and trailer, with one empty line when there are no lines |
| Records.DocumentLines | lib/aba.rb:34-43 | the file `Records.Document` (what `to_s` returns) is the CR LF join of the header, each transaction's line in order and the trailer; an empty batch has one empty line between header and trailer |
| Records.EmptyBatchBlankLine | lib/aba.rb:36-42 | the file of an empty batch is the header, two CR LF pairs and the trailer |
| Records.ZeroAmountField | lib/aba.rb:106-118 | a zero amount renders as all zeros across its field |
| Records.EmptyBatchTrailer | lib/aba.rb:85-122 | an empty batch's trailer is 120 characters, with all three totals `0000000000` and the count `000000` |
| Aba.FoldIsConjunction | lib/aba.rb:31 | `inject(res) { res &&= t.valid? }`, modelled by `Aba.Fold`, is true exactly when the seed and every transaction's check are true |
| Aba.BatchValid | lib/aba.rb:30-32 | `valid?` is true exactly when the batch's own checks (`Aba.HeaderValid`) hold and every transaction is valid |
| Aba.FirstInvalid | lib/aba.rb:31 | the first transaction that fails its check, or the count of transactions if none fails: every earlier one passes and the one found fails |
| Aba.CheckedAfterFailure | lib/aba.rb:31 | once the fold's value is false, `&&=` evaluates no later transaction |
| Aba.CheckedIsPrefix | lib/aba.rb:31 | the fold evaluates (`Aba.Checked` lists what it evaluates) the transactions up to and including the first invalid one, and no later one |
| Aba.ValidShortCircuits | lib/aba.rb:30-32 | `valid?` evaluates no transaction when the batch's own checks fail, and otherwise evaluates them up to and including the first invalid one |
| Aba.Batch.constructor | lib/aba.rb:16-21 | a new batch has the fields its setup block assigns and no transactions |
| Aba.Batch.AddTransaction | lib/aba.rb:24-28 | `transaction`: the header fields are unchanged, and the transactions are the old ones followed by the configured transaction, which was created with the batch's current BSB, account number and remitter name |
| Aba.Batch.IsValid | lib/aba.rb:30-32 | the batch is valid exactly when its header checks pass and every transaction it holds is valid |
| Aba.Batch.BatchControlRecord | lib/aba.rb:85-122 | the single pass over the transactions produces the control record of their net, credit and debit totals and count |
| Aba.Batch.ToS | lib/aba.rb:34-43 | `to_s` produces the header, CR LF, the CR LF-joined transaction lines, CR LF and the control record |
| Aba.RenderTwice | lib/aba.rb:34-43 | rendering does not change the batch: two renderings in a row are identical |
| Aba.ReassignAfterTransaction | lib/aba.rb:24-28 | a transaction keeps the BSB it was created with when the batch's BSB is reassigned later; the earlier transactions are untouched |
| Examples.PayrollHeaderValid | lib/aba.rb:13-14 | the payroll batch (BSB `013-999`, ANZ, user `Test User`, id `1`, `Payroll`) passes the batch's own checks |
| Examples.PayrollHeader | lib/aba.rb:47-83 | that batch's header begins `0013-999123456    01ANZ`, has user id `000001` and date field `0101240900` |
| Examples.OneCreditTrailer | lib/aba.rb:85-122 | with one credit of 10000 cents, the trailer's net and credit fields are `0000010000`, its debit field `0000000000` and its count `000001` |

## Left out

- `aba/version`, `aba/validations` and `aba/transaction` are not part of this model. `Transaction#to_s` and `Transaction#valid?` are the function parameters `render` and `txValid`.
- The presence and BSB checks behind `validates_presence_of` and `validates_bsb` follow an assumed behaviour, because their code is not part of this model. A field is present when it is not blank (blank means empty or only whitespace). The BSB check accepts a blank value or `ddd-ddd`.
- The `errors` list that validation fills is not modelled; `valid?` is modelled by its boolean result only. How `super.valid?` dispatches into the validation module is not modelled either.
- Ruby blocks become values. The setup block of `Aba.new` is the `Header` given to the constructor, and the block of `transaction` is a function `Transaction -> Transaction`.
- An unset (nil) string field is the empty string. For presence that is exact. Rendering a nil field would raise in Ruby (`NoMethodError` from `ljust` or `rjust` on nil, `TypeError` from `output += nil` for `financial_institution`), and that failure is not modelled. A nil `process_at` is `None`, and rendering requires a valid date and time, since `strftime` on nil raises.
- `process_at` keeps only the calendar fields the format shows. Time zones, seconds and locale do not appear in the record.
- Records.DescriptiveRecordLayout, Records.ControlRecordLayout: column positions are proved only when every field is within its width. Over-long values are neither truncated nor rejected, in the source as in the model, and they shift every later column. `Text.LJust` and `Text.RJust` state that behaviour.
- Records.BatchControlReconciles: the read-back is proved for totals below 10^10 cents and fewer than 10^6 transactions, the widths of the fields.
- Amounts are unbounded integers (Ruby `Integer`). There is no overflow in the source or in the model.
- Aba.ValidShortCircuits: `valid?` stops at the first failure, because `&&` and `&&=` short-circuit, so transactions after the first invalid one are not checked.
- Examples.PayrollHeader: there is no gap between a 7-character BSB and the account number, since `ljust(7)` adds no padding to it; the header begins `0013-999123456    01ANZ`.
- Records.EmptyBatchBlankLine: an empty batch renders as three lines (header, an empty line, trailer), because joining no lines gives the empty string between the two CR LF pairs.
- Transactions.Defaults: an amount the transaction block never sets is modelled as 0. What `Transaction.new` does with `amount` is in code that is not part of this model; if it stays nil, Ruby raises `TypeError` in the totals loop (lib/aba.rb:100), which the model does not capture.
- Aba.ReassignAfterTransaction: the snapshot is proved for reassignment through `bsb=` only. Strings and transactions are values in the model, so the sharing of Ruby objects is not modelled: the new transaction receives the batch's own String objects, and the batch appends the very object the block configured. In-place changes through such shared references (`aba.bsb << "x"`, or changing a transaction after it was added) would alter what `to_s` renders, and the model does not capture them.
