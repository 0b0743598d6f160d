/** The date-range filter applied to a loaded spreadsheet: coercion of the
    first column to dates, then an optional lower and an optional upper mask. */
module DateFilter {
  import opened Wrappers
  import opened Seqs

  /** A point on the timeline (a timestamp ordinal); later dates are larger. */
  type Date = int

  /** A row as loaded: the raw first cell and the remaining cells, untouched. */
  datatype RawRow = RawRow(first: string, rest: seq<string>)

  /** A row after coercion: `None` is the null date ("not a time") that an
      unparseable first cell becomes. */
  datatype Row = Row(date: Option<Date>, rest: seq<string>)

  /** Replaces every first cell by its parsed date, or by null where it does not
      parse; no row is dropped and the other cells are kept. */
  function Coerce(raw: seq<RawRow>, parse: string -> Option<Date>): (rows: seq<Row>)
    ensures |rows| == |raw|
    ensures forall i :: 0 <= i < |raw| ==> rows[i].date == parse(raw[i].first) && rows[i].rest == raw[i].rest
  {
    if raw == [] then []
    else [Row(parse(raw[0].first), raw[0].rest)] + Coerce(raw[1..], parse)
  }

  /** The lower mask: a null date compares false. */
  function AtOrAfter(lower: Date): Row -> bool
  {
    (row: Row) => row.date.Some? && row.date.value >= lower
  }

  /** The upper mask: a null date compares false. */
  function AtOrBefore(upper: Date): Row -> bool
  {
    (row: Row) => row.date.Some? && row.date.value <= upper
  }

  /** A bound as read from a form field. */
  datatype Bound = Unbounded | At(date: Date) | Malformed

  /** A missing or empty field (falsy) is no bound; any other text must parse. */
  function ReadBound(field: Option<string>, parse: string -> Option<Date>): (b: Bound)
    ensures b.Unbounded? <==> field.None? || field.value == ""
    ensures b.At? <==> field.Some? && field.value != "" && parse(field.value).Some?
    ensures b.At? ==> parse(field.value) == Some(b.date)
  {
    if field.None? || field.value == "" then Unbounded
    else match parse(field.value)
      case Some(d) => At(d)
      case None => Malformed
  }

  /** The date a well-formed bound stands for, or `None` for no bound. */
  function Limit(b: Bound): Option<Date>
    requires !b.Malformed?
  {
    if b.At? then Some(b.date) else None
  }

  /** The two masks as the handlers apply them: first the lower one if a lower
      bound is given, then the upper one if an upper bound is given. */
  function ApplyBounds(rows: seq<Row>, lower: Option<Date>, upper: Option<Date>): (r: seq<Row>)
    ensures lower.None? && upper.None? ==> r == rows
    ensures forall i :: 0 <= i < |r| ==> r[i] in rows && Admits(lower, upper, r[i])
    ensures forall i :: 0 <= i < |rows| && Admits(lower, upper, rows[i]) ==> rows[i] in r
    ensures forall x :: multiset(r)[x] == if Admits(lower, upper, x) then multiset(rows)[x] else 0
  {
    FilterMultiplicity(rows, AtOrAfter(if lower.Some? then lower.value else 0));
    var afterLower := if lower.Some? then Filter(rows, AtOrAfter(lower.value)) else rows;
    FilterMultiplicity(afterLower, AtOrBefore(if upper.Some? then upper.value else 0));
    if upper.Some? then Filter(afterLower, AtOrBefore(upper.value)) else afterLower
  }

  /** The inclusive range [lower, upper], either side optional. With no bound at
      all every row is admitted, null dates included; with at least one bound a
      row needs a date on the right side of each bound given. */
  predicate Admits(lower: Option<Date>, upper: Option<Date>, row: Row)
  {
    || (lower.None? && upper.None?)
    || (&& row.date.Some?
        && (lower.Some? ==> lower.value <= row.date.value)
        && (upper.Some? ==> row.date.value <= upper.value))
  }

  function Admitted(lower: Option<Date>, upper: Option<Date>): Row -> bool
  {
    (row: Row) => Admits(lower, upper, row)
  }

  /** Successive masks select exactly the rows of the inclusive range. */
  lemma {:induction false} ApplyBoundsIsRange(rows: seq<Row>, lower: Option<Date>, upper: Option<Date>)
    ensures ApplyBounds(rows, lower, upper) == Filter(rows, Admitted(lower, upper))
  {
    match (lower, upper)
    case (None, None) =>
      FilterKeepsAll(rows, Admitted(lower, upper));
    case (Some(lo), None) =>
      FilterCongruent(rows, AtOrAfter(lo), Admitted(lower, upper));
    case (None, Some(hi)) =>
      FilterCongruent(rows, AtOrBefore(hi), Admitted(lower, upper));
    case (Some(lo), Some(hi)) =>
      FilterThenFilter(rows, AtOrAfter(lo), AtOrBefore(hi), Admitted(lower, upper));
  }

  /** The filter never reorders rows. */
  lemma ApplyBoundsStable(rows: seq<Row>, lower: Option<Date>, upper: Option<Date>)
    ensures Subsequence(ApplyBounds(rows, lower, upper), rows)
  {
    ApplyBoundsIsRange(rows, lower, upper);
    FilterIsSubsequence(rows, Admitted(lower, upper));
  }

  /** Filtering an already filtered result with the same bounds changes nothing. */
  lemma ApplyBoundsIdempotent(rows: seq<Row>, lower: Option<Date>, upper: Option<Date>)
    ensures ApplyBounds(ApplyBounds(rows, lower, upper), lower, upper) == ApplyBounds(rows, lower, upper)
  {
    ApplyBoundsIsRange(rows, lower, upper);
    ApplyBoundsIsRange(ApplyBounds(rows, lower, upper), lower, upper);
    FilterIdempotent(rows, Admitted(lower, upper));
  }

  /** An inverted range, lower after upper, admits nothing. */
  lemma InvertedRangeIsEmpty(rows: seq<Row>, lower: Date, upper: Date)
    requires upper < lower
    ensures ApplyBounds(rows, Some(lower), Some(upper)) == []
  {
    ApplyBoundsIsRange(rows, Some(lower), Some(upper));
    FilterKeepsNone(rows, Admitted(Some(lower), Some(upper)));
  }

  /** A first cell that does not parse yields a row that survives when no bound
      is given and is dropped as soon as one is. */
  lemma UnparseableCellKeptOnlyWhenUnbounded(raw: seq<RawRow>, parse: string -> Option<Date>, i: nat,
                                             lower: Option<Date>, upper: Option<Date>)
    requires i < |raw| && parse(raw[i].first).None?
    ensures lower.None? && upper.None? ==> Coerce(raw, parse)[i] in ApplyBounds(Coerce(raw, parse), lower, upper)
    ensures lower.Some? || upper.Some? ==> Coerce(raw, parse)[i] !in ApplyBounds(Coerce(raw, parse), lower, upper)
  {
  }

  /** Rows dated 2024-01-01, 2024-02-01 and 2024-03-01 (as days since
      1970-01-01) with only the lower bound 2024-02-01 leave the last two rows,
      in order. */
  lemma LowerBoundOnlyExample(a: seq<string>, b: seq<string>, c: seq<string>)
    ensures ApplyBounds([Row(Some(19723), a), Row(Some(19754), b), Row(Some(19783), c)], Some(19754), None)
         == [Row(Some(19754), b), Row(Some(19783), c)]
  {
    var rows := [Row(Some(19723), a), Row(Some(19754), b), Row(Some(19783), c)];
    var keep := AtOrAfter(19754);
    assert rows[1..] == [Row(Some(19754), b), Row(Some(19783), c)];
    assert rows[1..][1..] == [Row(Some(19783), c)];
    assert rows[1..][1..][1..] == [];
    assert Filter(rows[1..][1..], keep) == [Row(Some(19783), c)];
    assert Filter(rows[1..], keep) == [Row(Some(19754), b), Row(Some(19783), c)];
    assert Filter(rows, keep) == Filter(rows[1..], keep);
  }
}
