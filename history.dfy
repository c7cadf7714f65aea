/**
 * The history view (app.py, filtered_history_df and the two total cards).
 *
 * The union of payments and purchases arrives as a sequence of rows, each
 * tagged Payment or Purchase and carrying its school id.  Up to four filters
 * narrow it (date range, fee type, school, type), the rest is sorted newest
 * first and the school id column is dropped.  Any exception yields a frame
 * with no columns at all.  The two cards sum Amount over the Payment rows
 * and over the Purchase rows of that same result.
 */
module History {
  import opened Wrappers

  datatype TxType = Payment | Purchase

  /** The 'Type' column's text for each kind. */
  function TypeLabel(t: TxType): string
  {
    match t
    case Payment => "Payment"
    case Purchase => "Purchase"
  }

  /** The 'Category' column: a fee type for payments, a quantity for purchases. */
  datatype Category = FeeType(fee: string) | Quantity(count: int)

  /**
   * One row of the union query; `amount` is in minor units (kobo) and
   * `createdAt` in seconds.
   */
  datatype Row = Row(kind: TxType, name: string, amount: int, category: Category,
                     period: string, createdAt: int, schoolId: int)

  /** A row of the returned table: the same columns without the school id. */
  datatype Entry = Entry(kind: TxType, name: string, amount: int, category: Category,
                         period: string, createdAt: int)

  /** A picked date range: the midnights that start the first and last day. */
  datatype DateRange = DateRange(start: int, end: int)

  /** The four filter inputs; the selects offer "All" to switch a filter off. */
  datatype Filters = Filters(date: Option<DateRange>, feeType: string, school: string, txType: string)

  /** The union query's answer, or an exception while running it. */
  datatype Query = Fetched(rows: seq<Row>) | QueryFailed

  /** A table, or the column-less frame returned after an exception. */
  datatype Frame = Table(entries: seq<Entry>) | NoColumns

  const All: string := "All"

  /** One day in seconds: the end date is pushed forward by this much. */
  const Day: int := 86400

  // ---------------------------------------------------------------------
  // Selection

  /** The rows that `keep` accepts, in their original order. */
  function Filter(rows: seq<Row>, keep: Row -> bool): (r: seq<Row>)
    ensures |r| <= |rows|
    ensures forall x :: multiset(r)[x] == if keep(x) then multiset(rows)[x] else 0
  {
    if rows == [] then []
    else
      assert rows == [rows[0]] + rows[1..];
      (if keep(rows[0]) then [rows[0]] else []) + Filter(rows[1..], keep)
  }

  predicate KeepDate(date: Option<DateRange>, x: Row)
  {
    date.None? || (date.value.start <= x.createdAt && x.createdAt <= date.value.end + Day)
  }

  predicate KeepFeeType(fee: string, x: Row)
  {
    fee == All || (x.kind == Payment && x.category == FeeType(fee))
  }

  predicate KeepSchool(school: Option<int>, x: Row)
  {
    school.None? || x.schoolId == school.value
  }

  predicate KeepType(txType: string, x: Row)
  {
    txType == All || TypeLabel(x.kind) == txType
  }

  /** All four filters at once, with the school name already resolved to an id. */
  predicate Matches(f: Filters, school: Option<int>, x: Row)
  {
    KeepDate(f.date, x) && KeepFeeType(f.feeType, x) && KeepSchool(school, x) && KeepType(f.txType, x)
  }

  /**
   * Date filter: when a range is picked, keep the rows created from its
   * first midnight up to one day after its last (inclusive at both ends).
   */
  function ByDate(rows: seq<Row>, date: Option<DateRange>): (r: seq<Row>)
    ensures forall x :: multiset(r)[x] == if KeepDate(date, x) then multiset(rows)[x] else 0
  {
    if date.None? then rows
    else Filter(rows, (x: Row) => date.value.start <= x.createdAt && x.createdAt <= date.value.end + Day)
  }

  /** Fee-type filter: unless "All", keep only Payment rows of that fee type. */
  function ByFeeType(rows: seq<Row>, fee: string): (r: seq<Row>)
    ensures forall x :: multiset(r)[x] == if KeepFeeType(fee, x) then multiset(rows)[x] else 0
  {
    if fee == All then rows
    else Filter(rows, (x: Row) => x.kind == Payment && x.category == FeeType(fee))
  }

  /** School filter: when a school id was resolved, keep only its rows. */
  function BySchool(rows: seq<Row>, school: Option<int>): (r: seq<Row>)
    ensures forall x :: multiset(r)[x] == if KeepSchool(school, x) then multiset(rows)[x] else 0
  {
    if school.None? then rows
    else Filter(rows, (x: Row) => x.schoolId == school.value)
  }

  /** Type filter: unless "All", keep only rows whose Type reads as chosen. */
  function ByType(rows: seq<Row>, txType: string): (r: seq<Row>)
    ensures forall x :: multiset(r)[x] == if KeepType(txType, x) then multiset(rows)[x] else 0
  {
    if txType == All then rows
    else Filter(rows, (x: Row) => TypeLabel(x.kind) == txType)
  }

  /**
   * The four filters in the order they are applied.  Each only removes
   * rows, and together they keep a row exactly when all four accept it.
   */
  function Selected(rows: seq<Row>, f: Filters, school: Option<int>): (r: seq<Row>)
    ensures forall x :: multiset(r)[x] == if Matches(f, school, x) then multiset(rows)[x] else 0
  {
    ByType(BySchool(ByFeeType(ByDate(rows, f.date), f.feeType), school), f.txType)
  }

  // ---------------------------------------------------------------------
  // Ordering and the dropped column

  predicate RowsNewestFirst(s: seq<Row>)
  {
    forall i, j :: 0 <= i < j < |s| ==> s[i].createdAt >= s[j].createdAt
  }

  predicate NewestFirst(s: seq<Entry>)
  {
    forall i, j :: 0 <= i < j < |s| ==> s[i].createdAt >= s[j].createdAt
  }

  /** Place `x` in front of the first row that is not newer than it. */
  function Insert(x: Row, s: seq<Row>): seq<Row>
  {
    if s == [] || s[0].createdAt <= x.createdAt then [x] + s
    else [s[0]] + Insert(x, s[1..])
  }

  /** Sort by created_at, newest first. */
  function SortNewestFirst(s: seq<Row>): seq<Row>
  {
    if s == [] then [] else Insert(s[0], SortNewestFirst(s[1..]))
  }

  lemma {:induction false} InsertPermutes(x: Row, s: seq<Row>)
    ensures multiset(Insert(x, s)) == multiset(s) + multiset{x}
  {
    if s != [] && s[0].createdAt > x.createdAt {
      InsertPermutes(x, s[1..]);
      assert s == [s[0]] + s[1..];
    }
  }

  /** Inserting a row no newer than `b` into rows no newer than `b` keeps that bound. */
  lemma {:induction false} InsertBounded(x: Row, s: seq<Row>, b: int)
    requires x.createdAt <= b
    requires forall i :: 0 <= i < |s| ==> s[i].createdAt <= b
    ensures forall i :: 0 <= i < |Insert(x, s)| ==> Insert(x, s)[i].createdAt <= b
  {
    if s != [] && s[0].createdAt > x.createdAt {
      InsertBounded(x, s[1..], b);
      assert Insert(x, s) == [s[0]] + Insert(x, s[1..]);
    }
  }

  lemma {:induction false} InsertSorted(x: Row, s: seq<Row>)
    requires RowsNewestFirst(s)
    ensures RowsNewestFirst(Insert(x, s))
  {
    if s != [] && s[0].createdAt > x.createdAt {
      var rest := Insert(x, s[1..]);
      InsertSorted(x, s[1..]);
      InsertBounded(x, s[1..], s[0].createdAt);
      var r := [s[0]] + rest;
      assert Insert(x, s) == r;
      assert forall j :: 1 <= j < |r| ==> r[j] == rest[j - 1];
    }
  }

  /** The sort puts the rows newest first and neither adds nor loses any. */
  lemma {:induction false} SortNewestFirstSorts(s: seq<Row>)
    ensures RowsNewestFirst(SortNewestFirst(s))
    ensures multiset(SortNewestFirst(s)) == multiset(s)
  {
    if s != [] {
      assert s == [s[0]] + s[1..];
      SortNewestFirstSorts(s[1..]);
      InsertSorted(s[0], SortNewestFirst(s[1..]));
      InsertPermutes(s[0], SortNewestFirst(s[1..]));
    }
  }

  /** A row without its school id. */
  function Strip(x: Row): Entry
  {
    Entry(x.kind, x.name, x.amount, x.category, x.period, x.createdAt)
  }

  /** Drop the school_id column: each row, in place, loses its school id. */
  function DropSchool(s: seq<Row>): (r: seq<Entry>)
    ensures |r| == |s|
    ensures forall i :: 0 <= i < |s| ==> r[i] == Strip(s[i])
  {
    if s == [] then [] else [Strip(s[0])] + DropSchool(s[1..])
  }

  // ---------------------------------------------------------------------
  // The pipeline

  /** The school id the school filter compares with: none when "All". */
  function SchoolKey(f: Filters, lookup: Option<int>): Option<int>
  {
    if f.school == All then None else lookup
  }

  /**
   * filtered_history_df.  `lookup` is the school id the database returns
   * for the chosen school name (consulted only when it is not "All").  A
   * failed query, or a school name with no row, raises inside the try and
   * gives the column-less frame.
   */
  function FilteredHistory(q: Query, f: Filters, lookup: Option<int>): (r: Frame)
    ensures r.NoColumns? <==> q.QueryFailed? || (f.school != All && lookup.None?)
    ensures r.Table? ==> |r.entries| <= |q.rows|
  {
    if q.QueryFailed? || (f.school != All && lookup.None?) then NoColumns
    else
      var selected := Selected(q.rows, f, SchoolKey(f, lookup));
      SortNewestFirstSorts(selected);
      assert |SortNewestFirst(selected)| == |multiset(selected)|;
      Table(DropSchool(SortNewestFirst(selected)))
  }

  lemma {:induction false} InsertKeepsEntries(x: Row, s: seq<Row>)
    ensures multiset(DropSchool(Insert(x, s))) == multiset(DropSchool(s)) + multiset{Strip(x)}
  {
    if s != [] && s[0].createdAt > x.createdAt {
      InsertKeepsEntries(x, s[1..]);
      assert DropSchool(Insert(x, s)) == [Strip(s[0])] + DropSchool(Insert(x, s[1..]));
      assert DropSchool(s) == [Strip(s[0])] + DropSchool(s[1..]);
    } else {
      assert DropSchool(Insert(x, s)) == [Strip(x)] + DropSchool(s);
    }
  }

  lemma {:induction false} InsertKeepsTotal(x: Row, s: seq<Row>, t: TxType)
    ensures Total(DropSchool(Insert(x, s)), t) == (if x.kind == t then x.amount else 0) + Total(DropSchool(s), t)
  {
    if s != [] && s[0].createdAt > x.createdAt {
      InsertKeepsTotal(x, s[1..], t);
      assert DropSchool(Insert(x, s)) == [Strip(s[0])] + DropSchool(Insert(x, s[1..]));
      assert DropSchool(s) == [Strip(s[0])] + DropSchool(s[1..]);
    } else {
      assert DropSchool(Insert(x, s)) == [Strip(x)] + DropSchool(s);
    }
  }

  /** Sorting changes neither the entries nor, below, either total. */
  lemma {:induction false} SortKeepsEntries(s: seq<Row>)
    ensures multiset(DropSchool(SortNewestFirst(s))) == multiset(DropSchool(s))
  {
    if s != [] {
      SortKeepsEntries(s[1..]);
      InsertKeepsEntries(s[0], SortNewestFirst(s[1..]));
      assert DropSchool(s) == [Strip(s[0])] + DropSchool(s[1..]);
    }
  }

  lemma {:induction false} SortKeepsTotal(s: seq<Row>, t: TxType)
    ensures Total(DropSchool(SortNewestFirst(s)), t) == Total(DropSchool(s), t)
  {
    if s != [] {
      SortKeepsTotal(s[1..], t);
      InsertKeepsTotal(s[0], SortNewestFirst(s[1..]), t);
      assert DropSchool(s) == [Strip(s[0])] + DropSchool(s[1..]);
    }
  }

  /**
   * A table returned by filtered_history_df is newest first and holds,
   * without their school id, exactly the fetched rows that every filter
   * accepts, each as often as it was fetched.
   */
  lemma HistoryContents(q: Query, f: Filters, lookup: Option<int>)
    requires q.Fetched? && (f.school == All || lookup.Some?)
    ensures var es := FilteredHistory(q, f, lookup).entries;
      NewestFirst(es) &&
      multiset(es) == multiset(DropSchool(Selected(q.rows, f, SchoolKey(f, lookup))))
  {
    var sel := Selected(q.rows, f, SchoolKey(f, lookup));
    SortNewestFirstSorts(sel);
    SortKeepsEntries(sel);
  }

  /**
   * Every entry of the result comes from a fetched row that all four
   * filters accept: in the picked date range, of the chosen fee type (and
   * so a Payment), of the chosen school and of the chosen type.
   */
  lemma EntriesMatchFilters(q: Query, f: Filters, lookup: Option<int>, e: Entry)
    requires q.Fetched? && (f.school == All || lookup.Some?)
    requires e in FilteredHistory(q, f, lookup).entries
    ensures exists x :: x in q.rows && Matches(f, SchoolKey(f, lookup), x) && Strip(x) == e
  {
    var sel := Selected(q.rows, f, SchoolKey(f, lookup));
    HistoryContents(q, f, lookup);
    assert e in multiset(DropSchool(sel));
    var i :| 0 <= i < |DropSchool(sel)| && DropSchool(sel)[i] == e;
    var x := sel[i];
    assert x in multiset(sel);
    assert x in multiset(q.rows);
  }

  // ---------------------------------------------------------------------
  // Totals

  /** Sum of Amount over the entries of type `t`. */
  function Total(es: seq<Entry>, t: TxType): int
  {
    if es == [] then 0
    else (if es[0].kind == t then es[0].amount else 0) + Total(es[1..], t)
  }

  /** Sum of Amount over all entries. */
  function AmountSum(es: seq<Entry>): int
  {
    if es == [] then 0 else es[0].amount + AmountSum(es[1..])
  }

  /**
   * total_payment_card / total_purchase_card: the sum over the rows of
   * one type.  On the column-less frame the 'Type' column is missing and
   * the card raises instead of showing a total.
   */
  function CardTotal(fr: Frame, t: TxType): (r: Option<int>)
    ensures r.None? <==> fr.NoColumns?
  {
    if fr.NoColumns? then None else Some(Total(fr.entries, t))
  }

  /** The two totals partition the amounts of a table. */
  lemma {:induction false} TotalsSplitAmounts(es: seq<Entry>)
    ensures Total(es, Payment) + Total(es, Purchase) == AmountSum(es)
  {
    if es != [] {
      TotalsSplitAmounts(es[1..]);
    }
  }

  /** A total is zero when no entry has that type. */
  lemma {:induction false} TotalOfAbsentType(es: seq<Entry>, t: TxType)
    requires forall i :: 0 <= i < |es| ==> es[i].kind != t
    ensures Total(es, t) == 0
  {
    if es != [] {
      TotalOfAbsentType(es[1..], t);
    }
  }

  /**
   * Each card sums Amount over the rows of its type in the same filtered
   * set that the table shows, whatever their order; the two cards together
   * add up to the amounts of the whole table.
   */
  lemma CardTotalsOfFilteredRows(q: Query, f: Filters, lookup: Option<int>, t: TxType)
    requires q.Fetched? && (f.school == All || lookup.Some?)
    ensures var fr := FilteredHistory(q, f, lookup);
      CardTotal(fr, t) == Some(Total(DropSchool(Selected(q.rows, f, SchoolKey(f, lookup))), t)) &&
      CardTotal(fr, Payment).value + CardTotal(fr, Purchase).value == AmountSum(fr.entries)
  {
    SortKeepsTotal(Selected(q.rows, f, SchoolKey(f, lookup)), t);
    TotalsSplitAmounts(FilteredHistory(q, f, lookup).entries);
  }

  /**
   * A fee-type filter other than "All" keeps only Payment rows of that fee
   * type, so every Purchase row is gone and the purchase card shows zero.
   */
  lemma FeeTypeFilterDropsPurchases(q: Query, f: Filters, lookup: Option<int>)
    requires f.feeType != All
    requires q.Fetched? && (f.school == All || lookup.Some?)
    ensures var es := FilteredHistory(q, f, lookup).entries;
      (forall i :: 0 <= i < |es| ==> es[i].kind == Payment && es[i].category == FeeType(f.feeType)) &&
      CardTotal(FilteredHistory(q, f, lookup), Purchase) == Some(0)
  {
    var es := FilteredHistory(q, f, lookup).entries;
    forall i | 0 <= i < |es|
      ensures es[i].kind == Payment && es[i].category == FeeType(f.feeType)
    {
      EntriesMatchFilters(q, f, lookup, es[i]);
    }
    TotalOfAbsentType(es, Purchase);
  }

  /**
   * A type filter keeps only rows of that type, so the other kind's card
   * shows zero.
   */
  lemma TypeFilterKeepsOneKind(q: Query, f: Filters, lookup: Option<int>, t: TxType)
    requires f.txType == TypeLabel(t)
    requires q.Fetched? && (f.school == All || lookup.Some?)
    ensures var es := FilteredHistory(q, f, lookup).entries;
      (forall i :: 0 <= i < |es| ==> es[i].kind == t) &&
      CardTotal(FilteredHistory(q, f, lookup), if t == Payment then Purchase else Payment) == Some(0)
  {
    var es := FilteredHistory(q, f, lookup).entries;
    forall i | 0 <= i < |es|
      ensures es[i].kind == t
    {
      EntriesMatchFilters(q, f, lookup, es[i]);
      var x :| x in q.rows && Matches(f, SchoolKey(f, lookup), x) && Strip(x) == es[i];
      assert TypeLabel(x.kind) == TypeLabel(t);
      assert TypeLabel(Payment) != TypeLabel(Purchase);
    }
    TotalOfAbsentType(es, if t == Payment then Purchase else Payment);
  }

  /**
   * The date filter keeps a row exactly when it was created between the
   * first midnight of the range and one day after the last, both included.
   */
  lemma DateFilterBounds(rows: seq<Row>, d: DateRange, x: Row)
    ensures x in ByDate(rows, Some(d)) <==> x in rows && d.start <= x.createdAt <= d.end + Day
  {
    assert x in ByDate(rows, Some(d)) <==> x in multiset(ByDate(rows, Some(d)));
    assert x in rows <==> x in multiset(rows);
  }
}
