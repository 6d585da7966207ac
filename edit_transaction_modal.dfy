/** The client's edit-transaction dialog: the form it opens on a stored transaction,
    the commission percentage it displays for the stored rate, its "amount after
    commission" preview, and the update it sends back to `PATCH /transactions/:id`. */
module EditTransactionModal {
  import opened Common
  import opened Text
  import opened Store
  import opened Movement
  import opened TransactionForm
  import opened TransactionController

  /** The values of the dialog's form; `commission` is the percentage shown. */
  datatype EditForm = EditForm(
    amount: real,
    commission: real,
    note: string,
    movement: string,
    customerId: nat,
    currencyId: nat)

  /** The percentage the dialog shows for a stored rate: a non-zero rate times 100,
      and 0 otherwise, which is the rate times 100 in either case. Read back as a
      rate it is the stored rate again. */
  function DisplayedCommission(stored: real): (shown: real)
    ensures shown == stored * 100.0
    ensures SubmittedCommission(Some(shown)) == stored
    ensures shown > 0.0 <==> stored > 0.0
    ensures shown == 0.0 <==> stored == 0.0
  {
    if stored != 0.0 then stored * 100.0 else 0.0
  }

  /** The form the dialog is reset to when it opens on a stored transaction: the
      values the transaction list hands it, with the rate shown as a percentage and
      a missing note as the empty text. */
  function FormOf(row: TransactionRow): (f: EditForm)
    ensures f.amount == row.amount && f.movement == row.movement
    ensures f.customerId == row.customerId && f.currencyId == row.currencyId
    ensures f.commission == row.commission * 100.0
    ensures row.note.Some? ==> f.note == row.note.value
  {
    EditForm(row.amount, DisplayedCommission(row.commission), Given(row.note, ""), row.movement, row.customerId, row.currencyId)
  }

  /** The update the dialog sends as written: the form values unchanged, so the
      percentage arrives where the server expects a rate. */
  function SubmittedUpdateAsWritten(f: EditForm): (u: TransactionUpdate)
    ensures u.commission == Some(f.commission)
    ensures u.amount == f.amount && u.movement == Some(f.movement) && u.note == Some(f.note)
    ensures u.customerId == f.customerId && u.currencyId == f.currencyId
  {
    TransactionUpdate(f.amount, Some(f.commission), Some(f.note), Some(f.movement), f.customerId, f.currencyId)
  }

  /** The update the dialog is meant to send: the percentage divided by 100, as the
      new-transaction form does, and every other value unchanged. */
  function SubmittedUpdate(f: EditForm): (u: TransactionUpdate)
    ensures u.commission.Some? && u.commission.value * 100.0 == f.commission
    ensures u.amount == f.amount && u.movement == Some(f.movement) && u.note == Some(f.note)
    ensures u.customerId == f.customerId && u.currencyId == f.currencyId
  {
    TransactionUpdate(f.amount, Some(SubmittedCommission(Some(f.commission))), Some(f.note), Some(f.movement),
                      f.customerId, f.currencyId)
  }

  /** As written, saving the dialog without touching it multiplies a non-zero
      stored rate by 100. */
  lemma ResaveInflatesRate(row: TransactionRow)
    requires row.commission != 0.0
    ensures Rate(SubmittedUpdateAsWritten(FormOf(row)).commission) == row.commission * 100.0
    ensures Rate(SubmittedUpdateAsWritten(FormOf(row)).commission) != row.commission
  {
    assert FormOf(row).commission == row.commission * 100.0;
  }

  /** A 1000 cheque withdrawal at a 5% rate (stored 0.05) earns 50; if the payload of
      an unchanged save through the dialog as written reached `updateTransaction`,
      the rate would become 5 and the earning 5000. */
  lemma ResavedCheckWithdrawal(m: string)
    requires m == "withdrawal-check"
    ensures var row := TransactionRow(1000.0, 0.05, None, m, 1, 1, 0);
      var rate := Rate(SubmittedUpdateAsWritten(FormOf(row)).commission);
      && CommissionAmount(m, 1000.0, 0.05) == 50.0
      && rate == 5.0
      && CommissionAmount(m, 1000.0, rate) == 5000.0
  {
    WithdrawalCheckRule(m);
    ResaveInflatesRate(TransactionRow(1000.0, 0.05, None, m, 1, 1, 0));
  }

  /** With the division, saving the dialog without touching it keeps the stored
      rate, and so the commission the server records for the transaction. */
  lemma ResaveKeepsRate(row: TransactionRow)
    ensures Rate(SubmittedUpdate(FormOf(row)).commission) == row.commission
    ensures CommissionAmount(row.movement, row.amount, Rate(SubmittedUpdate(FormOf(row)).commission))
         == CommissionAmount(row.movement, row.amount, row.commission)
    ensures SubmittedUpdate(FormOf(row)).movement == Some(row.movement)
    ensures SubmittedUpdate(FormOf(row)).amount == row.amount
  {
  }

  /** The commission field and the preview depend on the movement the dialog was
      opened with. On a check movement with a positive amount and rate, the preview
      shown on opening is the amount plus the commission the server recorded. */
  lemma OpenedPreviewMatchesRecord(row: TransactionRow)
    requires CommissionFieldShown(row.movement) && row.amount > 0.0 && row.commission > 0.0
    ensures AmountAfterCommission(Some(row.amount), Some(FormOf(row).commission))
         == row.amount + CommissionAmount(row.movement, row.amount, row.commission)
  {
    CheckMovementEarns(row.movement, row.amount, row.commission);
    PreviewIsAmountPlusRate(row.amount, FormOf(row).commission, row.commission);
  }

  /** The two check movements earn `amount * rate` at a positive rate. */
  lemma CheckMovementEarns(m: string, amount: real, rate: real)
    requires CommissionFieldShown(m) && rate > 0.0
    ensures CommissionAmount(m, amount, rate) == amount * rate
  {
    if m == "withdrawal-check" {
      WithdrawalCheckRule(m);
    } else {
      DepositCheckRule(m);
    }
    EarnedCommission(m, amount, rate);
  }
}
