/**
 * The submit / confirm / cancel guard that gates Payment and Purchase entry
 * (app.py, process_payment and process_purchase).
 *
 * Each kind of transaction keeps a `pending` flag (a confirmation dialog is
 * open) and the submit-button count it last acted on.  Shiny re-runs the
 * effect with the three buttons' cumulative click counts; one run executes
 * three guarded blocks in order, in the same pass: open the dialog, confirm
 * and insert, cancel.  `Pass` is that run as a function of the old state;
 * the classes `PaymentEntry` and `PurchaseEntry` perform it in place and
 * are proved to agree with it.
 */
module Workflow {
  import opened Wrappers

  datatype Kind = PaymentKind | PurchaseKind

  /** Cumulative click counts of the submit, confirm and cancel buttons. */
  datatype Counters = Counters(submit: nat, confirm: nat, cancel: nat)

  /** Per-kind state: a dialog is pending, and the submit count last recorded. */
  datatype Guard = Guard(pending: bool, submitCount: int)

  /** What a pass shows or logs: dialog shown/removed, success notice, error log line. */
  datatype UiEvent = ModalShown | ModalRemoved | SuccessNotice | ErrorLogged

  /**
   * What the database answers when the confirm block resolves its names:
   * the id of the enrollee (Payment) or item (Purchase), and the school id,
   * each absent when no row matched; or an exception from a lookup or the
   * insert.
   */
  datatype Lookup = Found(subject: Option<int>, school: Option<int>) | DbError

  /** How the insert inside the confirm block ended. */
  datatype Attempt<R> = Inserted(record: R) | Skipped | Raised

  datatype PaymentForm = PaymentForm(feeType: string, amount: int, month: string, year: int)
  datatype PaymentRecord = PaymentRecord(enrolleeId: int, feeType: string, amount: int,
                                         month: string, year: int, schoolId: int)

  datatype PurchaseForm = PurchaseForm(quantity: int, amount: int, month: string, year: int)
  datatype PurchaseRecord = PurchaseRecord(itemId: int, quantity: int, amount: int,
                                           schoolId: int, month: string, year: int)

  /** The new state, the row written (if any) and the UI events of one pass. */
  datatype PassResult<R> = PassResult(guard: Guard, row: Option<R>, events: seq<UiEvent>)

  /**
   * The Payment insert: both the enrollee and the school must resolve, else
   * an error is logged and nothing is written; a database exception is
   * caught and logged.
   */
  function PaymentAttempt(lookup: Lookup, form: PaymentForm): (a: Attempt<PaymentRecord>)
    ensures a.Inserted? <==> lookup.Found? && lookup.subject.Some? && lookup.school.Some?
    ensures a.Inserted? ==>
      a.record == PaymentRecord(lookup.subject.value, form.feeType, form.amount,
                                form.month, form.year, lookup.school.value)
    ensures lookup.Found? && !a.Inserted? ==> a.Skipped?
    ensures lookup.DbError? ==> a.Raised?
  {
    match lookup
    case DbError => Raised
    case Found(enrollee, school) =>
      if enrollee.Some? && school.Some? then
        Inserted(PaymentRecord(enrollee.value, form.feeType, form.amount, form.month, form.year, school.value))
      else
        Skipped
  }

  /**
   * The Purchase insert resolves item and school inside the INSERT itself;
   * when either finds no row the statement fails and the exception is
   * caught and logged, so there is no "skipped" outcome.
   */
  function PurchaseAttempt(lookup: Lookup, form: PurchaseForm): (a: Attempt<PurchaseRecord>)
    ensures a.Inserted? <==> lookup.Found? && lookup.subject.Some? && lookup.school.Some?
    ensures a.Inserted? ==>
      a.record == PurchaseRecord(lookup.subject.value, form.quantity, form.amount,
                                 lookup.school.value, form.month, form.year)
    ensures !a.Skipped?
  {
    match lookup
    case DbError => Raised
    case Found(item, school) =>
      if item.Some? && school.Some? then
        Inserted(PurchaseRecord(item.value, form.quantity, form.amount, school.value, form.month, form.year))
      else
        Raised
  }

  /**
   * The submit count recorded on cancel: one below the current count for
   * Payment, -1 for Purchase.  Either way the current count exceeds it.
   */
  function CancelReset(kind: Kind, submit: nat): (c: int)
    ensures c < submit
    ensures kind.PurchaseKind? ==> c == -1
    ensures kind.PaymentKind? ==> c + 1 == submit
  {
    match kind
    case PaymentKind => submit - 1
    case PurchaseKind => -1
  }

  /** The success notice or the error log line that follows an insert attempt. */
  function Outcome<R>(a: Attempt<R>): seq<UiEvent>
  {
    if a.Inserted? then [SuccessNotice] else [ErrorLogged]
  }

  /** True when the open-dialog block fires for this state and these counters. */
  predicate Opens(g: Guard, c: Counters)
  {
    c.submit > 0 && c.submit > g.submitCount && !g.pending
  }

  /**
   * One run of the effect, exactly as written: `req` stops it while the
   * submit count is 0; then the three blocks run in order, each testing the
   * state the previous one left.
   */
  function Pass<R>(kind: Kind, g: Guard, c: Counters, attempt: Attempt<R>): (r: PassResult<R>)
    ensures c.submit == 0 ==> r == PassResult(g, None, [])
    ensures r.row.Some? ==> attempt == Inserted(r.row.value) && !r.guard.pending
    ensures |r.events| <= 3
  {
    if c.submit == 0 then PassResult(g, None, [])
    else
      // open the dialog
      var opens := c.submit > g.submitCount && !g.pending;
      var g1 := if opens then Guard(true, c.submit) else g;
      var e1 := if opens then [ModalShown] else [];
      // confirm: insert, then always remove the dialog and clear pending
      var confirms := c.confirm > 0 && g1.pending;
      var g2 := if confirms then g1.(pending := false) else g1;
      var row := if confirms && attempt.Inserted? then Some(attempt.record) else None;
      var e2 := if confirms then Outcome(attempt) + [ModalRemoved] else [];
      // cancel
      var cancels := c.cancel > 0 && g2.pending;
      var g3 := if cancels then Guard(false, CancelReset(kind, c.submit)) else g2;
      var e3 := if cancels then [ModalRemoved] else [];
      PassResult(g3, row, e1 + e2 + e3)
  }

  /**
   * A new dialog opens exactly when the submit count exceeds the recorded
   * one and nothing is pending; it is the first event of the pass, and if no
   * confirm or cancel click is on record the pass ends pending with the
   * current submit count recorded.
   */
  lemma PassOpensDialog<R>(kind: Kind, g: Guard, c: Counters, attempt: Attempt<R>)
    ensures var r := Pass(kind, g, c, attempt);
      (ModalShown in r.events <==> Opens(g, c)) &&
      (Opens(g, c) ==> r.events[0] == ModalShown) &&
      (Opens(g, c) && c.confirm == 0 && c.cancel == 0 ==> r.guard == Guard(true, c.submit))
  {
  }

  /**
   * Once a confirm click is on record, every pass ends with nothing pending:
   * when the confirm block ran it removed the dialog, whether the insert
   * succeeded, was skipped or raised, and left the recorded count alone.
   */
  lemma PassConfirmClearsPending<R>(kind: Kind, g: Guard, c: Counters, attempt: Attempt<R>)
    requires c.submit > 0 && c.confirm > 0
    ensures var r := Pass(kind, g, c, attempt);
      !r.guard.pending &&
      ((g.pending || Opens(g, c)) ==>
         r.guard.submitCount == (if Opens(g, c) then c.submit else g.submitCount) &&
         r.events[|r.events| - 1] == ModalRemoved &&
         (SuccessNotice in r.events <==> attempt.Inserted?) &&
         (ErrorLogged in r.events <==> !attempt.Inserted?))
  {
  }

  /**
   * A row is written exactly when the confirm block runs and the insert
   * succeeds, and it is the attempted record, announced by a success notice.
   */
  lemma PassWritesRow<R>(kind: Kind, g: Guard, c: Counters, attempt: Attempt<R>)
    ensures var r := Pass(kind, g, c, attempt);
      (r.row.Some? <==> c.submit > 0 && c.confirm > 0 && (g.pending || Opens(g, c)) && attempt.Inserted?) &&
      (r.row.Some? ==> r.row.value == attempt.record && SuccessNotice in r.events)
  {
  }

  /**
   * A Payment row is written only when both the enrollee and the school
   * lookups return a row; otherwise nothing is written and an error is logged.
   */
  lemma PaymentNeedsBothLookups(g: Guard, c: Counters, lookup: Lookup, form: PaymentForm)
    requires c.submit > 0 && c.confirm > 0 && (g.pending || Opens(g, c))
    ensures var r := Pass(PaymentKind, g, c, PaymentAttempt(lookup, form));
      (r.row.Some? <==> lookup.Found? && lookup.subject.Some? && lookup.school.Some?) &&
      (r.row.None? ==> ErrorLogged in r.events && SuccessNotice !in r.events) &&
      (r.row.Some? ==> r.row.value.enrolleeId == lookup.subject.value &&
                       r.row.value.schoolId == lookup.school.value)
  {
    PassWritesRow(PaymentKind, g, c, PaymentAttempt(lookup, form));
    PassConfirmClearsPending(PaymentKind, g, c, PaymentAttempt(lookup, form));
  }

  /**
   * A cancel click while the dialog is pending (and no confirm on record)
   * clears pending, writes nothing, removes the dialog and records a count
   * below the current submit count: submit - 1 for Payment, -1 for Purchase.
   */
  lemma PassCancelResets<R>(kind: Kind, g: Guard, c: Counters, attempt: Attempt<R>)
    requires c.submit > 0 && c.confirm == 0 && c.cancel > 0 && (g.pending || Opens(g, c))
    ensures var r := Pass(kind, g, c, attempt);
      r.guard == Guard(false, CancelReset(kind, c.submit)) &&
      c.submit > r.guard.submitCount &&
      r.row.None? &&
      r.events[|r.events| - 1] == ModalRemoved
  {
  }

  /**
   * The confirm guard only asks that the confirm count be positive, and the
   * count never resets: once Confirm has been clicked, the next new submit
   * opens the dialog and commits in the same pass, with no click in between.
   */
  lemma ConfirmFallsThrough<R>(kind: Kind, g: Guard, c: Counters, attempt: Attempt<R>)
    requires Opens(g, c) && c.confirm > 0 && attempt.Inserted?
    ensures var r := Pass(kind, g, c, attempt);
      r.events == [ModalShown, SuccessNotice, ModalRemoved] &&
      r.row == Some(attempt.record) &&
      r.guard == Guard(false, c.submit)
  {
  }

  /**
   * Likewise for cancel: once Cancel has been clicked (and Confirm never),
   * each new submit shows the dialog and cancels it in the same pass, and
   * re-running with the same counters does exactly that again.
   */
  lemma CancelFallsThrough<R>(kind: Kind, g: Guard, c: Counters, attempt: Attempt<R>)
    requires Opens(g, c) && c.confirm == 0 && c.cancel > 0
    ensures var r := Pass(kind, g, c, attempt);
      r.events == [ModalShown, ModalRemoved] &&
      r.row.None? &&
      r.guard == Guard(false, CancelReset(kind, c.submit)) &&
      Pass(kind, r.guard, c, attempt) == r
  {
  }

  /** With nothing pending and no new submit, a pass changes and shows nothing. */
  lemma IdleIsQuiet<R>(kind: Kind, g: Guard, c: Counters, attempt: Attempt<R>)
    requires !g.pending && c.submit <= g.submitCount
    ensures Pass(kind, g, c, attempt) == PassResult(g, None, [])
  {
  }

  // ---------------------------------------------------------------------
  // Sequences of passes

  /**
   * What one pass sees: the three click counts, and how the insert would
   * end if the confirm block ran (each pass re-reads the form and queries
   * the database afresh).
   */
  datatype Snapshot<R> = Snapshot(clicks: Counters, attempt: Attempt<R>)

  /** The state and the rows written after a sequence of passes, in order. */
  datatype RunResult<R> = RunResult(guard: Guard, rows: seq<R>)

  function Run<R>(kind: Kind, g: Guard, trace: seq<Snapshot<R>>): (r: RunResult<R>)
    ensures |r.rows| <= |trace|
    decreases |trace|
  {
    if trace == [] then RunResult(g, [])
    else
      var first := Pass(kind, g, trace[0].clicks, trace[0].attempt);
      var rest := Run(kind, first.guard, trace[1..]);
      RunResult(rest.guard, Elements(first.row) + rest.rows)
  }

  /** The confirm counts of a trace never decrease, starting from `k`. */
  predicate ConfirmsFrom<R>(k: int, trace: seq<Snapshot<R>>)
    decreases |trace|
  {
    trace == [] || (k <= trace[0].clicks.confirm && ConfirmsFrom(trace[0].clicks.confirm, trace[1..]))
  }

  /** No pass of the trace sees more than `n` submit clicks. */
  predicate SubmitsAtMost<R>(n: nat, trace: seq<Snapshot<R>>)
  {
    forall i :: 0 <= i < |trace| ==> trace[i].clicks.submit <= n
  }

  /** What every reachable guard satisfies: a pending dialog was opened by a real click. */
  predicate GuardWithin(g: Guard, n: nat)
  {
    g.submitCount <= n && (g.pending ==> 1 <= g.submitCount)
  }

  /**
   * How many more rows a run can write when no pass sees more than `n`
   * submit clicks: before any confirm click, `n`; afterwards one per submit
   * click above the recorded count, plus one for a dialog still pending.
   */
  function RowBudget(g: Guard, confirmed: bool, n: nat): int
  {
    if !confirmed then n
    else if g.pending then n - g.submitCount + 1
    else n - (if g.submitCount < 0 then 0 else g.submitCount)
  }

  lemma {:induction false} RowsWithinBudget<R>(kind: Kind, g: Guard, k: nat, n: nat, trace: seq<Snapshot<R>>)
    requires GuardWithin(g, n) && ConfirmsFrom(k, trace) && SubmitsAtMost(n, trace)
    ensures |Run(kind, g, trace).rows| <= RowBudget(g, k > 0, n)
    decreases |trace|
  {
    if trace != [] {
      var c := trace[0].clicks;
      var first := Pass(kind, g, c, trace[0].attempt);
      assert c.submit <= n;
      assert SubmitsAtMost(n, trace[1..]) by {
        forall i | 0 <= i < |trace[1..]| ensures trace[1..][i].clicks.submit <= n {
          assert trace[1..][i] == trace[i + 1];
        }
      }
      RowsWithinBudget(kind, first.guard, c.confirm, n, trace[1..]);
    }
  }

  /**
   * What the submit-count guard does keep as written: starting idle, with
   * confirm counts that never decrease, a run never writes more rows than
   * there were submit clicks.
   */
  lemma RowsBoundedBySubmits<R>(kind: Kind, n: nat, trace: seq<Snapshot<R>>)
    requires ConfirmsFrom(0, trace) && SubmitsAtMost(n, trace)
    ensures |Run(kind, Guard(false, 0), trace).rows| <= n
  {
    RowsWithinBudget(kind, Guard(false, 0), 0, n, trace);
  }

  /** A Payment record used by the counterexample below. */
  const SampleRecord := PaymentRecord(1, "Registration", 500000, "January", 2025, 1)

  /**
   * As written, a second submission is committed without its own confirm
   * click: submit, confirm, submit again gives two rows for one confirm
   * click.  With a recorded confirm count (IntendedPass) the same clicks
   * give one row, and the second dialog stays open.
   */
  lemma SecondSubmitCommitsWithoutConfirm()
    ensures var trace := [Snapshot(Counters(1, 0, 0), Inserted(SampleRecord)),
                          Snapshot(Counters(1, 1, 0), Inserted(SampleRecord)),
                          Snapshot(Counters(2, 1, 0), Inserted(SampleRecord))];
      Run(PaymentKind, Guard(false, 0), trace).rows == [SampleRecord, SampleRecord] &&
      IntendedRun(IntendedGuard(false, 0, 0, 0), trace)
        == IntendedRunResult(IntendedGuard(true, 2, 1, 0), [SampleRecord])
  {
    var a := Inserted(SampleRecord);
    var trace := [Snapshot(Counters(1, 0, 0), a), Snapshot(Counters(1, 1, 0), a), Snapshot(Counters(2, 1, 0), a)];
    assert trace[1..] == [Snapshot(Counters(1, 1, 0), a), Snapshot(Counters(2, 1, 0), a)];
    assert trace[1..][1..] == [Snapshot(Counters(2, 1, 0), a)];
    // as written: open; confirm and insert; open and insert at once
    assert Run(PaymentKind, Guard(false, 1), trace[1..][1..]).rows == [SampleRecord];
    assert Run(PaymentKind, Guard(true, 1), trace[1..]).rows == [SampleRecord, SampleRecord];
    // intended: open; confirm and insert; open and wait
    assert IntendedRun(IntendedGuard(false, 1, 1, 0), trace[1..][1..]) == IntendedRunResult(IntendedGuard(true, 2, 1, 0), []);
    assert IntendedRun(IntendedGuard(true, 1, 0, 0), trace[1..]) == IntendedRunResult(IntendedGuard(true, 2, 1, 0), [SampleRecord]);
  }

  // ---------------------------------------------------------------------
  // The intended guard: a confirm or cancel click is acted on once

  /** As Guard, plus the confirm and cancel counts last acted on. */
  datatype IntendedGuard = IntendedGuard(pending: bool, submitCount: int, confirmCount: int, cancelCount: int)

  datatype IntendedResult<R> = IntendedResult(guard: IntendedGuard, row: Option<R>, events: seq<UiEvent>)

  /**
   * The pass with the same three blocks, except that confirm and cancel
   * fire only on a click newer than the last one recorded, and the pending
   * flag alone re-arms submit detection: when a dialog closes, by confirm
   * or by cancel, the recorded submit count moves up to the current one, so
   * a submit click made while the dialog was open opens nothing later.
   */
  function IntendedPass<R>(g: IntendedGuard, c: Counters, attempt: Attempt<R>): (r: IntendedResult<R>)
    ensures r.row.Some? ==> c.confirm > g.confirmCount && attempt == Inserted(r.row.value)
    ensures (c.submit > 0 && c.confirm > g.confirmCount && (g.pending || c.submit > g.submitCount) &&
             attempt.Inserted?) ==> r.row == Some(attempt.record)
    ensures (c.submit > 0 && (g.pending || c.submit > g.submitCount) &&
             (c.confirm > g.confirmCount || c.cancel > g.cancelCount)) ==>
              !r.guard.pending && r.guard.submitCount == c.submit
    ensures c.submit > 0 ==> r.guard.confirmCount == c.confirm
  {
    if c.submit == 0 then IntendedResult(g, None, [])
    else
      var opens := c.submit > g.submitCount && !g.pending;
      var g1 := if opens then g.(pending := true, submitCount := c.submit) else g;
      var e1 := if opens then [ModalShown] else [];
      var confirms := c.confirm > g.confirmCount && g1.pending;
      var g2 := g1.(pending := g1.pending && !confirms, confirmCount := c.confirm,
                    submitCount := if confirms then c.submit else g1.submitCount);
      var row := if confirms && attempt.Inserted? then Some(attempt.record) else None;
      var e2 := if confirms then Outcome(attempt) + [ModalRemoved] else [];
      var cancels := c.cancel > g.cancelCount && g2.pending;
      var g3 := g2.(pending := g2.pending && !cancels, cancelCount := c.cancel,
                    submitCount := if cancels then c.submit else g2.submitCount);
      var e3 := if cancels then [ModalRemoved] else [];
      IntendedResult(g3, row, e1 + e2 + e3)
  }

  datatype IntendedRunResult<R> = IntendedRunResult(guard: IntendedGuard, rows: seq<R>)

  function IntendedRun<R>(g: IntendedGuard, trace: seq<Snapshot<R>>): IntendedRunResult<R>
    decreases |trace|
  {
    if trace == [] then IntendedRunResult(g, [])
    else
      var first := IntendedPass(g, trace[0].clicks, trace[0].attempt);
      var rest := IntendedRun(first.guard, trace[1..]);
      IntendedRunResult(rest.guard, Elements(first.row) + rest.rows)
  }

  /** The confirm count at the end of a trace that starts from `k`. */
  function LastConfirm<R>(k: int, trace: seq<Snapshot<R>>): int
    decreases |trace|
  {
    if trace == [] then k else LastConfirm(trace[0].clicks.confirm, trace[1..])
  }

  /**
   * With the intended guard, the rows written over any sequence of passes,
   * whatever each pass's lookups and form values, number at most the
   * confirm clicks made during it: one commit per click.
   */
  lemma {:induction false} IntendedRowsBoundedByConfirms<R>(g: IntendedGuard, k: int, trace: seq<Snapshot<R>>)
    requires g.confirmCount <= k && ConfirmsFrom(k, trace)
    ensures |IntendedRun(g, trace).rows| <= LastConfirm(k, trace) - g.confirmCount
    decreases |trace|
  {
    if trace != [] {
      var c := trace[0].clicks;
      var first := IntendedPass(g, c, trace[0].attempt);
      IntendedRowsBoundedByConfirms(first.guard, c.confirm, trace[1..]);
    }
  }

  /**
   * Several submits while the dialog is open, one confirm, then a re-run
   * with the same counters.  As written the re-run opens a new dialog and
   * commits it on the old confirm click: two rows.  The intended guard
   * commits once, and the submits made while the dialog was open open
   * nothing afterwards.
   */
  lemma OneConfirmAfterSeveralSubmits()
    ensures var a := Inserted(SampleRecord);
      Run(PaymentKind, Guard(false, 0),
          [Snapshot(Counters(1, 0, 0), a), Snapshot(Counters(2, 0, 0), a),
           Snapshot(Counters(2, 1, 0), a), Snapshot(Counters(2, 1, 0), a)]).rows
        == [SampleRecord, SampleRecord] &&
      IntendedRun(IntendedGuard(false, 0, 0, 0),
          [Snapshot(Counters(1, 0, 0), a), Snapshot(Counters(2, 0, 0), a), Snapshot(Counters(3, 0, 0), a),
           Snapshot(Counters(3, 1, 0), a), Snapshot(Counters(3, 1, 0), a)])
        == IntendedRunResult(IntendedGuard(false, 3, 1, 0), [SampleRecord])
  {
    var a := Inserted(SampleRecord);
    // as written: open; wait; confirm and insert; open and insert at once
    var w := [Snapshot(Counters(1, 0, 0), a), Snapshot(Counters(2, 0, 0), a),
              Snapshot(Counters(2, 1, 0), a), Snapshot(Counters(2, 1, 0), a)];
    assert w[1..] == [Snapshot(Counters(2, 0, 0), a), Snapshot(Counters(2, 1, 0), a), Snapshot(Counters(2, 1, 0), a)];
    assert w[1..][1..] == [Snapshot(Counters(2, 1, 0), a), Snapshot(Counters(2, 1, 0), a)];
    assert w[1..][1..][1..] == [Snapshot(Counters(2, 1, 0), a)];
    assert Run(PaymentKind, Guard(false, 1), w[1..][1..][1..]).rows == [SampleRecord];
    assert Run(PaymentKind, Guard(true, 1), w[1..][1..]).rows == [SampleRecord, SampleRecord];
    assert Run(PaymentKind, Guard(true, 1), w[1..]).rows == [SampleRecord, SampleRecord];
    // intended: open; wait; wait; confirm and insert; nothing
    var t := [Snapshot(Counters(1, 0, 0), a), Snapshot(Counters(2, 0, 0), a), Snapshot(Counters(3, 0, 0), a),
              Snapshot(Counters(3, 1, 0), a), Snapshot(Counters(3, 1, 0), a)];
    assert t[1..] == [Snapshot(Counters(2, 0, 0), a), Snapshot(Counters(3, 0, 0), a),
                      Snapshot(Counters(3, 1, 0), a), Snapshot(Counters(3, 1, 0), a)];
    assert t[1..][1..] == [Snapshot(Counters(3, 0, 0), a), Snapshot(Counters(3, 1, 0), a), Snapshot(Counters(3, 1, 0), a)];
    assert t[1..][1..][1..] == [Snapshot(Counters(3, 1, 0), a), Snapshot(Counters(3, 1, 0), a)];
    assert t[1..][1..][1..][1..] == [Snapshot(Counters(3, 1, 0), a)];
    var done := IntendedGuard(false, 3, 1, 0);
    assert IntendedRun(done, t[1..][1..][1..][1..]) == IntendedRunResult(done, []);
    assert IntendedRun(IntendedGuard(true, 1, 0, 0), t[1..][1..][1..]) == IntendedRunResult(done, [SampleRecord]);
    assert IntendedRun(IntendedGuard(true, 1, 0, 0), t[1..][1..]) == IntendedRunResult(done, [SampleRecord]);
    assert IntendedRun(IntendedGuard(true, 1, 0, 0), t[1..]) == IntendedRunResult(done, [SampleRecord]);
  }

  // ---------------------------------------------------------------------
  // The effect's state, updated in place

  /** Payment entry: the pending flag and recorded submit count of process_payment. */
  class PaymentEntry {
    var pending: bool
    var submitCount: int
    /** The payments rows this entry has inserted. */
    ghost var payments: seq<PaymentRecord>
    /** Dialogs shown and removed, notices and error log lines, in order. */
    ghost var log: seq<UiEvent>

    constructor ()
      ensures !pending && submitCount == 0 && payments == [] && log == []
    {
      pending := false;
      submitCount := 0;
      payments := [];
      log := [];
    }

    /** One run of process_payment with the given clicks and database answers. */
    method Step(c: Counters, lookup: Lookup, form: PaymentForm)
      modifies this
      ensures var r := Pass(PaymentKind, old(Guard(pending, submitCount)), c, PaymentAttempt(lookup, form));
        Guard(pending, submitCount) == r.guard &&
        payments == old(payments) + Elements(r.row) &&
        log == old(log) + r.events
    {
      if c.submit == 0 {
        return;
      }
      if c.submit > submitCount && !pending {
        pending := true;
        submitCount := c.submit;
        log := log + [ModalShown];
      }
      if c.confirm > 0 && pending {
        if lookup.Found? && lookup.subject.Some? && lookup.school.Some? {
          payments := payments + [PaymentRecord(lookup.subject.value, form.feeType, form.amount,
                                                form.month, form.year, lookup.school.value)];
          log := log + [SuccessNotice];
        } else {
          log := log + [ErrorLogged];
        }
        log := log + [ModalRemoved];
        pending := false;
      }
      if c.cancel > 0 && pending {
        pending := false;
        submitCount := c.submit - 1;
        log := log + [ModalRemoved];
      }
    }
  }

  /** Purchase entry: the pending flag and recorded submit count of process_purchase. */
  class PurchaseEntry {
    var pending: bool
    var submitCount: int
    /** The purchases rows this entry has inserted. */
    ghost var purchases: seq<PurchaseRecord>
    /** Dialogs shown and removed, notices and error log lines, in order. */
    ghost var log: seq<UiEvent>

    constructor ()
      ensures !pending && submitCount == 0 && purchases == [] && log == []
    {
      pending := false;
      submitCount := 0;
      purchases := [];
      log := [];
    }

    /** One run of process_purchase with the given clicks and database answers. */
    method Step(c: Counters, lookup: Lookup, form: PurchaseForm)
      modifies this
      ensures var r := Pass(PurchaseKind, old(Guard(pending, submitCount)), c, PurchaseAttempt(lookup, form));
        Guard(pending, submitCount) == r.guard &&
        purchases == old(purchases) + Elements(r.row) &&
        log == old(log) + r.events
    {
      if c.submit == 0 {
        return;
      }
      if c.submit > submitCount && !pending {
        pending := true;
        submitCount := c.submit;
        log := log + [ModalShown];
      }
      if c.confirm > 0 && pending {
        if lookup.Found? && lookup.subject.Some? && lookup.school.Some? {
          purchases := purchases + [PurchaseRecord(lookup.subject.value, form.quantity, form.amount,
                                                   lookup.school.value, form.month, form.year)];
          log := log + [SuccessNotice];
        } else {
          log := log + [ErrorLogged];
        }
        log := log + [ModalRemoved];
        pending := false;
      }
      if c.cancel > 0 && pending {
        pending := false;
        submitCount := -1;
        log := log + [ModalRemoved];
      }
    }
  }
}
