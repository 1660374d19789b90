/**
 * The component state of the budget screen and the form handler that
 * changes it: adding an advance, an exceptional payment, a reimbursement or
 * an expense, repaying an advance in full or in part, and deleting a fixed
 * or an annual expense.
 *
 * `Submit` is the specification of the form handler on a snapshot of the
 * state; the class `BudgetApp` holds the state in fields, as the
 * component's `useState` hooks do, and its `HandleForm` method is proved to
 * perform `Submit`.
 */
module Store {
  import opened JsBuiltins
  import opened Records
  import opened Totals

  /** `modal.type`; a repayment also carries `modal.data`, the advance
      whose row was tapped. `Blank` is the type `''` of a closed dialog. */
  datatype ModalType = Blank | Pending | Exceptional | Reimbursement | Expense | RepayPartial(debt: Record)

  datatype Modal = Modal(open: bool, modalType: ModalType)

  const ClosedModal: Modal := Modal(false, Blank)

  /** `form.cat`: 'fixed' or 'annual'. */
  datatype Category = Fixed | Annual

  /** The dialog's inputs: the label, the amount as typed, the category. */
  datatype Form = Form(name: string, amountText: string, cat: Category)

  const EmptyForm: Form := Form("", "", Fixed)

  /** What `parseFloat(form.amount)` gives: a number or NaN. */
  datatype Parsed = NaN | Num(value: real)

  /** All the component's state but the active tab. */
  datatype Snapshot = Snapshot(
    fixedExpenses: seq<Record>, annualExpenses: seq<Record>, pending: seq<Record>,
    history: seq<HistoryEntry>, reimbursements: seq<Record>, exceptionalPaid: seq<Record>,
    modal: Modal, form: Form)

  /** The initial values of the `useState` hooks. */
  const Seed: Snapshot := Snapshot(
    [Record(1, "Crédit Immo", 1250.0), Record(2, "Charges Copro", 260.0), Record(4, "Crèche", 1281.83)],
    [Record(101, "Taxe Foncière", 2700.0), Record(102, "Assurances/Divers", 1848.0)],
    [Record(1, "Dépenses 2025", 155.0)],
    [], [], [], ClosedModal, EmptyForm)

  /** The `totals` memo of a snapshot. */
  function TotalsOf(s: Snapshot): Summary
  {
    ComputeTotals(s.fixedExpenses, s.annualExpenses, s.pending, s.reimbursements, s.exceptionalPaid)
  }

  /** `addLog`: the new entry goes first. */
  function Log(history: seq<HistoryEntry>, name: string, amount: real, t: LogType, id: int, date: string): (r: seq<HistoryEntry>)
    ensures |r| == |history| + 1
    ensures r[0] == HistoryEntry(id, name, amount, t, date) && r[1..] == history
  {
    [HistoryEntry(id, name, amount, t, date)] + history
  }

  /** An amount `handleForm` turns away. */
  function BadAmount(val: Parsed): (r: bool)
    ensures val.NaN? ==> r
    ensures !r ==> val.Num? && val.value > 0.0
  {
    val.NaN? || val.value <= 0.0
  }

  /** A submission `handleForm` turns away: a bad amount, or an empty label
      for any dialog but a repayment (whose dialog has no label input). */
  function Rejected(s: Snapshot, val: Parsed): (r: bool)
    ensures BadAmount(val) ==> r
    ensures s.modal.modalType.RepayPartial? ==> (r <==> BadAmount(val))
    ensures !s.modal.modalType.RepayPartial? && s.form.name == "" ==> r
  {
    BadAmount(val) || (!s.modal.modalType.RepayPartial? && s.form.name == "")
  }

  /** The branch of `handleForm` for an accepted amount `v`; `now` is the
      `Date.now()` that names a new record, `logNow` and `date` the clock
      and the formatted day `addLog` reads. */
  function Apply(s: Snapshot, v: real, now: int, logNow: int, date: string): (r: Snapshot)
    ensures r.modal == s.modal && r.form == s.form
    ensures r.history == s.history || (|r.history| == |s.history| + 1 && r.history[1..] == s.history)
    ensures s.modal.modalType.Blank? ==> r == s
  {
    match s.modal.modalType
    case Pending =>
      s.(pending := [Record(now, s.form.name, v)] + s.pending)
    case Exceptional =>
      s.(exceptionalPaid := [Record(now, s.form.name, v)] + s.exceptionalPaid,
         history := Log(s.history, s.form.name, v, Payment, logNow, date))
    case Reimbursement =>
      s.(reimbursements := [Record(now, s.form.name, v)] + s.reimbursements,
         history := Log(s.history, s.form.name, v, Reimb, logNow, date))
    case Expense =>
      if s.form.cat == Fixed then s.(fixedExpenses := s.fixedExpenses + [Record(now, s.form.name, v)])
      else s.(annualExpenses := s.annualExpenses + [Record(now, s.form.name, v)])
    case RepayPartial(debt) =>
      if v >= debt.amount then
        s.(pending := RemoveId(s.pending, debt.id),
           history := Log(s.history, "Remboursé: " + debt.name, debt.amount, Reimb, logNow, date))
      else
        s.(pending := Decrement(s.pending, debt.id, v),
           history := Log(s.history, "Partiel: " + debt.name, v, Reimb, logNow, date))
    case Blank => s
  }

  /** `handleForm`: turn the submission away, or apply its branch, close
      the dialog and clear the form. */
  function Submit(s: Snapshot, val: Parsed, now: int, logNow: int, date: string): (r: Snapshot)
    ensures Rejected(s, val) ==> r == s
    ensures !Rejected(s, val) ==> r.modal == ClosedModal && r.form == EmptyForm
    ensures r.history == s.history || (|r.history| == |s.history| + 1 && r.history[1..] == s.history)
  {
    if Rejected(s, val) then s
    else Apply(s, val.value, now, logNow, date).(modal := ClosedModal, form := EmptyForm)
  }

  /** The trash icon of a fixed expense. */
  function DeleteFixed(s: Snapshot, id: int): (r: Snapshot)
    ensures forall x :: x in r.fixedExpenses <==> x in s.fixedExpenses && x.id != id
    ensures |r.fixedExpenses| == |s.fixedExpenses| - CountId(s.fixedExpenses, id)
    ensures r.(fixedExpenses := s.fixedExpenses) == s
  {
    s.(fixedExpenses := RemoveId(s.fixedExpenses, id))
  }

  /** The trash icon of an annual expense. */
  function DeleteAnnual(s: Snapshot, id: int): (r: Snapshot)
    ensures forall x :: x in r.annualExpenses <==> x in s.annualExpenses && x.id != id
    ensures |r.annualExpenses| == |s.annualExpenses| - CountId(s.annualExpenses, id)
    ensures r.(annualExpenses := s.annualExpenses) == s
  {
    s.(annualExpenses := RemoveId(s.annualExpenses, id))
  }

  /** Every advance still owes something. */
  predicate PendingPositive(pending: seq<Record>)
  {
    forall i :: 0 <= i < |pending| ==> pending[i].amount > 0.0
  }

  /** The advance shown in a repayment dialog is the current state of that
      advance (the state cannot change while the dialog is open). */
  predicate DialogCurrent(s: Snapshot)
  {
    s.modal.modalType.RepayPartial? ==> IsCurrent(s.pending, s.modal.modalType.debt)
  }

  /** Tapping an advance of a list with distinct ids opens a dialog that
      shows the current advance. */
  lemma OpenedRepayIsCurrent(s: Snapshot, d: Record)
    requires UniqueIds(s.pending) && d in s.pending
    ensures DialogCurrent(s.(modal := Modal(true, RepayPartial(d))))
  {
    UniqueCount(s.pending, d);
  }

  // ---------------------------------------------------------------------
  // Properties of the form handler

  /** Repaying at least the remaining amount deletes the advance, keeps the
      others in order, and logs one reimbursement of the amount that was
      owed (not of the amount paid). When the advance is the only one with
      its id, one advance fewer is pending and the cash at hand grows by
      the amount owed. */
  lemma RepayInFull(s: Snapshot, v: real, now: int, logNow: int, date: string)
    requires s.modal.modalType.RepayPartial? && v > 0.0
    requires v >= s.modal.modalType.debt.amount
    ensures var debt := s.modal.modalType.debt;
      var r := Submit(s, Num(v), now, logNow, date);
      && r.pending == RemoveId(s.pending, debt.id)
      && (forall i :: 0 <= i < |r.pending| ==> r.pending[i].id != debt.id)
      && r.history == [HistoryEntry(logNow, "Remboursé: " + debt.name, debt.amount, Reimb, date)] + s.history
      && r.fixedExpenses == s.fixedExpenses && r.annualExpenses == s.annualExpenses
      && r.reimbursements == s.reimbursements && r.exceptionalPaid == s.exceptionalPaid
    ensures var debt := s.modal.modalType.debt;
      var r := Submit(s, Num(v), now, logNow, date);
      UniqueIds(s.pending) && debt in s.pending ==>
        |r.pending| == |s.pending| - 1 &&
        TotalsOf(r).realCash == TotalsOf(s).realCash + debt.amount
  {
    var debt := s.modal.modalType.debt;
    var r := Submit(s, Num(v), now, logNow, date);
    forall i | 0 <= i < |r.pending| ensures r.pending[i].id != debt.id {
      assert r.pending[i] in r.pending;
    }
    if UniqueIds(s.pending) && debt in s.pending {
      UniqueCount(s.pending, debt);
      SumRemoveId(s.pending, debt);
    }
  }

  /** Repaying less than the remaining amount keeps every advance in its
      place and lowers only those with the debt's id, by the amount paid,
      so that the current advance still owes something; it logs one
      reimbursement of the amount paid. When the advance is the only one
      with its id, the cash at hand grows by the amount paid. */
  lemma RepayInPart(s: Snapshot, v: real, now: int, logNow: int, date: string)
    requires s.modal.modalType.RepayPartial? && v > 0.0
    requires v < s.modal.modalType.debt.amount
    ensures var debt := s.modal.modalType.debt;
      var r := Submit(s, Num(v), now, logNow, date);
      && |r.pending| == |s.pending|
      && (forall i :: 0 <= i < |s.pending| && s.pending[i].id != debt.id ==> r.pending[i] == s.pending[i])
      && (forall i :: 0 <= i < |s.pending| && s.pending[i].id == debt.id ==>
            r.pending[i] == s.pending[i].(amount := s.pending[i].amount - v))
      && r.history == [HistoryEntry(logNow, "Partiel: " + debt.name, v, Reimb, date)] + s.history
      && r.fixedExpenses == s.fixedExpenses && r.annualExpenses == s.annualExpenses
      && r.reimbursements == s.reimbursements && r.exceptionalPaid == s.exceptionalPaid
    ensures var debt := s.modal.modalType.debt;
      var r := Submit(s, Num(v), now, logNow, date);
      IsCurrent(s.pending, debt) ==>
        forall i :: 0 <= i < |s.pending| && s.pending[i].id == debt.id ==> r.pending[i].amount > 0.0
    ensures var debt := s.modal.modalType.debt;
      var r := Submit(s, Num(v), now, logNow, date);
      UniqueIds(s.pending) && debt in s.pending ==>
        TotalsOf(r).realCash == TotalsOf(s).realCash + v
  {
    var debt := s.modal.modalType.debt;
    var r := Submit(s, Num(v), now, logNow, date);
    assert r == s.(pending := Decrement(s.pending, debt.id, v),
                   history := Log(s.history, "Partiel: " + debt.name, v, Reimb, logNow, date),
                   modal := ClosedModal, form := EmptyForm);
    if UniqueIds(s.pending) && debt in s.pending {
      UniqueCount(s.pending, debt);
      SumDecrement(s.pending, debt.id, v);
      assert TotalsOf(r).realCash == RealCash(s.reimbursements, s.exceptionalPaid, r.pending);
    }
  }

  /** Adding an advance puts one record, with the label and the amount
      typed, in front of the advances; nothing is logged and the cash at
      hand falls by the amount. */
  lemma AddPending(s: Snapshot, v: real, now: int, logNow: int, date: string)
    requires s.modal.modalType == Pending && s.form.name != "" && v > 0.0
    ensures var r := Submit(s, Num(v), now, logNow, date);
      && r.pending == [Record(now, s.form.name, v)] + s.pending
      && r.history == s.history
      && r.fixedExpenses == s.fixedExpenses && r.annualExpenses == s.annualExpenses
      && r.reimbursements == s.reimbursements && r.exceptionalPaid == s.exceptionalPaid
      && TotalsOf(r).realCash == TotalsOf(s).realCash - v
      && TotalsOf(r).virement == TotalsOf(s).virement
  {
    SumCons(Record(now, s.form.name, v), s.pending);
  }

  /** An exceptional payment goes in front of the payments and is logged
      once as a payment with the same label and amount; the cash at hand
      falls by the amount. */
  lemma AddExceptional(s: Snapshot, v: real, now: int, logNow: int, date: string)
    requires s.modal.modalType == Exceptional && s.form.name != "" && v > 0.0
    ensures var r := Submit(s, Num(v), now, logNow, date);
      && r.exceptionalPaid == [Record(now, s.form.name, v)] + s.exceptionalPaid
      && r.history == [HistoryEntry(logNow, r.exceptionalPaid[0].name, r.exceptionalPaid[0].amount, Payment, date)] + s.history
      && r.fixedExpenses == s.fixedExpenses && r.annualExpenses == s.annualExpenses
      && r.pending == s.pending && r.reimbursements == s.reimbursements
      && Sum(r.exceptionalPaid) == Sum(s.exceptionalPaid) + v
      && TotalsOf(r).realCash == TotalsOf(s).realCash - v
  {
    SumCons(Record(now, s.form.name, v), s.exceptionalPaid);
  }

  /** A reimbursement goes in front of the reimbursements and is logged
      once as a reimbursement with the same label and amount; the cash at
      hand grows by the amount. */
  lemma AddReimbursement(s: Snapshot, v: real, now: int, logNow: int, date: string)
    requires s.modal.modalType == Reimbursement && s.form.name != "" && v > 0.0
    ensures var r := Submit(s, Num(v), now, logNow, date);
      && r.reimbursements == [Record(now, s.form.name, v)] + s.reimbursements
      && r.history == [HistoryEntry(logNow, r.reimbursements[0].name, r.reimbursements[0].amount, Reimb, date)] + s.history
      && r.fixedExpenses == s.fixedExpenses && r.annualExpenses == s.annualExpenses
      && r.pending == s.pending && r.exceptionalPaid == s.exceptionalPaid
      && Sum(r.reimbursements) == Sum(s.reimbursements) + v
      && TotalsOf(r).realCash == TotalsOf(s).realCash + v
  {
    SumCons(Record(now, s.form.name, v), s.reimbursements);
  }

  /** A new expense goes at the end of the fixed expenses when the
      category is 'fixed' and of the annual expenses otherwise, and raises
      that list's total by its amount; nothing is logged. */
  lemma AddExpense(s: Snapshot, v: real, now: int, logNow: int, date: string)
    requires s.modal.modalType == Expense && s.form.name != "" && v > 0.0
    ensures var r := Submit(s, Num(v), now, logNow, date);
      && r.history == s.history && r.pending == s.pending
      && r.reimbursements == s.reimbursements && r.exceptionalPaid == s.exceptionalPaid
      && (s.form.cat == Fixed ==>
            r.fixedExpenses == s.fixedExpenses + [Record(now, s.form.name, v)] &&
            r.annualExpenses == s.annualExpenses &&
            TotalsOf(r).totalFixed == TotalsOf(s).totalFixed + v)
      && (s.form.cat == Annual ==>
            r.annualExpenses == s.annualExpenses + [Record(now, s.form.name, v)] &&
            r.fixedExpenses == s.fixedExpenses &&
            TotalsOf(r).totalAnnual == TotalsOf(s).totalAnnual + v)
      && TotalsOf(r).realCash == TotalsOf(s).realCash
  {
    var e := Record(now, s.form.name, v);
    SumAppend(s.fixedExpenses, [e]);
    SumAppend(s.annualExpenses, [e]);
    assert Sum([e]) == v by { assert [e][..0] == []; }
  }

  /** No submission leaves an advance that owes nothing or less. */
  lemma SubmitKeepsPendingPositive(s: Snapshot, val: Parsed, now: int, logNow: int, date: string)
    requires PendingPositive(s.pending) && DialogCurrent(s)
    ensures PendingPositive(Submit(s, val, now, logNow, date).pending)
  {
    var r := Submit(s, val, now, logNow, date);
    if !Rejected(s, val) && s.modal.modalType.RepayPartial? {
      var debt := s.modal.modalType.debt;
      var v := val.value;
      if v >= debt.amount {
        forall i | 0 <= i < |r.pending| ensures r.pending[i].amount > 0.0 {
          assert r.pending[i] in s.pending;
        }
      } else {
        RepayInPart(s, v, now, logNow, date);
      }
    }
  }

  /** Deleting the one fixed expense with an id lowers the fixed total by
      its amount, and deleting an id no expense has changes nothing. */
  lemma DeleteFixedEffect(s: Snapshot, e: Record)
    ensures UniqueIds(s.fixedExpenses) && e in s.fixedExpenses ==>
      TotalsOf(DeleteFixed(s, e.id)).totalFixed == TotalsOf(s).totalFixed - e.amount
    ensures CountId(s.fixedExpenses, e.id) == 0 ==> DeleteFixed(s, e.id) == s
  {
    if UniqueIds(s.fixedExpenses) && e in s.fixedExpenses {
      UniqueCount(s.fixedExpenses, e);
      SumRemoveId(s.fixedExpenses, e);
    }
    if CountId(s.fixedExpenses, e.id) == 0 {
      RemoveIdAbsent(s.fixedExpenses, e.id);
    }
  }

  /** The same for an annual expense, with the annual total. */
  lemma DeleteAnnualEffect(s: Snapshot, e: Record)
    ensures UniqueIds(s.annualExpenses) && e in s.annualExpenses ==>
      TotalsOf(DeleteAnnual(s, e.id)).totalAnnual == TotalsOf(s).totalAnnual - e.amount
    ensures CountId(s.annualExpenses, e.id) == 0 ==> DeleteAnnual(s, e.id) == s
  {
    if UniqueIds(s.annualExpenses) && e in s.annualExpenses {
      UniqueCount(s.annualExpenses, e);
      SumRemoveId(s.annualExpenses, e);
    }
    if CountId(s.annualExpenses, e.id) == 0 {
      RemoveIdAbsent(s.annualExpenses, e.id);
    }
  }

  /** The figures of the initial state: fixed expenses of 2791.83 with a
      nursery of 1281.83, a provision of 379 (4548 / 12), a transfer of
      ceil((2791.83 - 1281.83 + 379) / 2) = ceil(944.5) = 945 each, and a
      cash of 1429 - 155 = 1274 that the chart raises by 379 a month. */
  lemma SeedTotals()
    ensures TotalsOf(Seed).totalFixed == 2791.83
    ensures TotalsOf(Seed).totalAnnual == 4548.0
    ensures TotalsOf(Seed).provision == 379
    ensures TotalsOf(Seed).virement == 945
    ensures TotalsOf(Seed).realCash == 1274.0
    ensures TotalsOf(Seed).projection[0] == Point("Jan", 1274)
    ensures TotalsOf(Seed).projection[11] == Point("Déc", 1274 + 11 * 379)
  {
    SeedSums();
    SeedProvision();
    SeedVirement();
    SeedProjection();
  }

  lemma SeedProvision()
    ensures TotalsOf(Seed).provision == 379
  {
    SeedSums();
  }

  lemma SeedVirement()
    ensures TotalsOf(Seed).virement == 945
  {
    SeedSums();
    CrecheOfSeed();
    SeedProvision();
  }

  lemma SeedProjection()
    ensures TotalsOf(Seed).realCash == 1274.0
    ensures TotalsOf(Seed).projection[0] == Point("Jan", 1274)
    ensures TotalsOf(Seed).projection[11] == Point("Déc", 1274 + 11 * 379)
  {
    SeedSums();
    SeedProvision();
    var r := Projection(1274.0, 379);
    assert TotalsOf(Seed).projection == r;
    assert r[0].solde == Round(1274.0 + 0.0);
    assert r[11].solde == Round(1274.0 + (379 * 11) as real);
    RoundShift(0.0, 1274);
    RoundShift(0.0, 1274 + 11 * 379);
  }

  lemma SeedSums()
    ensures Sum(Seed.fixedExpenses) == 2791.83
    ensures Sum(Seed.annualExpenses) == 4548.0
    ensures Sum(Seed.pending) == 155.0
  {
    var f0, f1, f2 := Record(1, "Crédit Immo", 1250.0), Record(2, "Charges Copro", 260.0), Record(4, "Crèche", 1281.83);
    SumCons(f0, [f1, f2]);
    SumCons(f1, [f2]);
    SumCons(f2, []);
    assert Seed.fixedExpenses == [f0] + ([f1] + ([f2] + []));
    var a0, a1 := Record(101, "Taxe Foncière", 2700.0), Record(102, "Assurances/Divers", 1848.0);
    SumCons(a0, [a1]);
    SumCons(a1, []);
    assert Seed.annualExpenses == [a0] + ([a1] + []);
    SumCons(Seed.pending[0], []);
    assert Seed.pending == [Seed.pending[0]] + [];
  }

  /** The nursery of the initial state is its third fixed expense:
      neither "Crédit Immo" nor "Charges Copro" contains "crèche". */
  lemma CrecheOfSeed()
    ensures Creche(Seed.fixedExpenses) == 1281.83
  {
    SeedLoanNotCreche();
    SeedChargesNotCreche();
    SeedCrecheName();
  }

  lemma SeedLoanNotCreche()
    ensures !IsCreche(Record(1, "Crédit Immo", 1250.0))
  {
    NoGraveNoCreche(Record(1, "Crédit Immo", 1250.0));
  }

  lemma SeedChargesNotCreche()
    ensures !IsCreche(Record(2, "Charges Copro", 260.0))
  {
    NoGraveNoCreche(Record(2, "Charges Copro", 260.0));
  }

  lemma SeedCrecheName()
    ensures IsCreche(Record(4, "Crèche", 1281.83))
  {
    var t := ToLower("Crèche");
    ToLowerAt("Crèche");
    assert t == CrecheKey by {
      assert t[0] == LowerChar('C') == 'c';
    }
    assert OccursAt(t, CrecheKey, 0);
    IncludesIff(t, CrecheKey);
  }

  // ---------------------------------------------------------------------
  // The component

  /** The component's state hooks and its handlers. */
  class BudgetApp {
    var fixedExpenses: seq<Record>
    var annualExpenses: seq<Record>
    var pending: seq<Record>
    var history: seq<HistoryEntry>
    var reimbursements: seq<Record>
    var exceptionalPaid: seq<Record>
    var modal: Modal
    var form: Form

    function State(): Snapshot
      reads this
    {
      Snapshot(fixedExpenses, annualExpenses, pending, history, reimbursements, exceptionalPaid, modal, form)
    }

    constructor ()
      ensures State() == Seed
    {
      fixedExpenses := Seed.fixedExpenses;
      annualExpenses := Seed.annualExpenses;
      pending := Seed.pending;
      history := [];
      reimbursements := [];
      exceptionalPaid := [];
      modal := ClosedModal;
      form := EmptyForm;
    }

    /** The buttons that open a dialog. */
    method OpenModal(t: ModalType)
      requires t.RepayPartial? ==> t.debt in pending
      modifies this
      ensures State() == old(State()).(modal := Modal(true, t))
    {
      modal := Modal(true, t);
    }

    /** The dialog's close button. */
    method CloseModal()
      modifies this
      ensures State() == old(State()).(modal := ClosedModal)
    {
      modal := ClosedModal;
    }

    /** The dialog's inputs, the category buttons and the Max button. */
    method SetForm(f: Form)
      modifies this
      ensures State() == old(State()).(form := f)
    {
      form := f;
    }

    /** `addLog`: one entry in front of the history, nothing else. */
    method AddLog(name: string, amount: real, t: LogType, logNow: int, date: string)
      modifies this
      ensures State() == old(State()).(history := Log(old(history), name, amount, t, logNow, date))
    {
      history := [HistoryEntry(logNow, name, amount, t, date)] + history;
    }

    /** `handleForm`, given what `parseFloat(form.amount)` gave. */
    method HandleForm(val: Parsed, now: int, logNow: int, date: string)
      modifies this
      ensures State() == Submit(old(State()), val, now, logNow, date)
    {
      if val.NaN? || val.value <= 0.0 {
        return;
      }
      var v := val.value;
      if !modal.modalType.RepayPartial? && form.name == "" {
        return;
      }
      match modal.modalType {
        case Pending =>
          pending := [Record(now, form.name, v)] + pending;
        case Exceptional =>
          exceptionalPaid := [Record(now, form.name, v)] + exceptionalPaid;
          AddLog(form.name, v, Payment, logNow, date);
        case Reimbursement =>
          reimbursements := [Record(now, form.name, v)] + reimbursements;
          AddLog(form.name, v, Reimb, logNow, date);
        case Expense =>
          var item := Record(now, form.name, v);
          if form.cat == Fixed {
            fixedExpenses := fixedExpenses + [item];
          } else {
            annualExpenses := annualExpenses + [item];
          }
        case RepayPartial(debt) =>
          if v >= debt.amount {
            pending := RemoveId(pending, debt.id);
            AddLog("Remboursé: " + debt.name, debt.amount, Reimb, logNow, date);
          } else {
            pending := Decrement(pending, debt.id, v);
            AddLog("Partiel: " + debt.name, v, Reimb, logNow, date);
          }
        case Blank =>
      }
      modal := ClosedModal;
      form := EmptyForm;
    }

    /** The trash icon of a fixed expense. */
    method DeleteFixedExpense(id: int)
      modifies this
      ensures State() == DeleteFixed(old(State()), id)
    {
      fixedExpenses := RemoveId(fixedExpenses, id);
    }

    /** The trash icon of an annual expense. */
    method DeleteAnnualExpense(id: int)
      modifies this
      ensures State() == DeleteAnnual(old(State()), id)
    {
      annualExpenses := RemoveId(annualExpenses, id);
    }
  }
}
