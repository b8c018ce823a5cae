/**
 * The aggregation in dashboard/src/App.js: the `complete` callback that
 * turns the parsed CSV rows into the current-vehicles table, the three
 * totals and the per-day check-in counts, and `calculateDuration`.  The
 * date parser (`new Date(text)`), the current time and the seven day labels
 * are inputs.
 */
module Dashboard {
  import opened Wrappers
  import opened JsText

  /** A row as Papa.parse gives it with `header: true`: field name to text. */
  type Row = map<string, string>

  const PlateField: string := "License Plate"
  const CheckinField: string := "Actual Checkin Time"
  const CheckoutField: string := "Actual Checkout Time"
  const DurationField: string := "duration"

  /** `row[key]`, which is undefined when the row has no such field. */
  function Field(row: Row, key: string): Option<string>
  {
    if key in row then Some(row[key]) else None
  }

  /** JavaScript truthiness of a field value: defined and not "". */
  predicate Truthy(v: Option<string>)
  {
    v.Some? && v.value != ""
  }

  predicate HasPlate(row: Row) { Truthy(Field(row, PlateField)) }
  predicate CheckedOut(row: Row) { Truthy(Field(row, CheckoutField)) }
  predicate StillParked(row: Row) { !CheckedOut(row) }

  /** `rows.filter(keep)` */
  function Filter(rows: seq<Row>, keep: Row -> bool): (r: seq<Row>)
    ensures |r| <= |rows|
  {
    if rows == [] then []
    else Filter(rows[..|rows| - 1], keep) + (if keep(rows[|rows| - 1]) then [rows[|rows| - 1]] else [])
  }

  /** Filtering keeps the order: it distributes over concatenation. */
  lemma {:induction false} FilterAppend(a: seq<Row>, b: seq<Row>, keep: Row -> bool)
    ensures Filter(a + b, keep) == Filter(a, keep) + Filter(b, keep)
  {
    if b == [] {
      assert a + b == a;
    } else {
      var b' := b[..|b| - 1];
      FilterAppend(a, b', keep);
      assert (a + b)[..|a + b| - 1] == a + b';
      assert (a + b)[|a + b| - 1] == b[|b| - 1];
    }
  }

  /** A row survives the filter iff it is in the input and is kept. */
  lemma {:induction false} FilterExactly(rows: seq<Row>, keep: Row -> bool, row: Row)
    ensures row in Filter(rows, keep) <==> row in rows && keep(row)
  {
    if rows != [] {
      var init := rows[..|rows| - 1];
      FilterExactly(init, keep, row);
      assert rows == init + [rows[|rows| - 1]];
    }
  }

  /** A filter that keeps every row returns the rows unchanged. */
  lemma {:induction false} FilterAll(rows: seq<Row>, keep: Row -> bool)
    requires forall j :: 0 <= j < |rows| ==> keep(rows[j])
    ensures Filter(rows, keep) == rows
  {
    if rows != [] {
      var init := rows[..|rows| - 1];
      FilterAll(init, keep);
      assert init + [rows[|rows| - 1]] == rows;
    }
  }

  /** A filter that keeps no row returns nothing. */
  lemma {:induction false} FilterNone(rows: seq<Row>, keep: Row -> bool)
    requires forall j :: 0 <= j < |rows| ==> !keep(rows[j])
    ensures Filter(rows, keep) == []
  {
    if rows != [] {
      FilterNone(rows[..|rows| - 1], keep);
    }
  }

  /**
   * Every row is either still parked or checked out, never both: the two
   * filters split the rows (as a multiset), so their counts add up.
   */
  lemma {:induction false} CheckoutSplit(data: seq<Row>)
    ensures multiset(Filter(data, StillParked)) + multiset(Filter(data, CheckedOut)) == multiset(data)
    ensures |Filter(data, StillParked)| + |Filter(data, CheckedOut)| == |data|
  {
    if data != [] {
      var init := data[..|data| - 1];
      var last := data[|data| - 1];
      CheckoutSplit(init);
      assert data == init + [last];
      assert multiset(data) == multiset(init) + multiset{last};
      if CheckedOut(last) {
        assert Filter(data, StillParked) == Filter(init, StillParked);
        assert Filter(data, CheckedOut) == Filter(init, CheckedOut) + [last];
      } else {
        assert Filter(data, StillParked) == Filter(init, StillParked) + [last];
        assert Filter(data, CheckedOut) == Filter(init, CheckedOut);
      }
    }
  }

  /** `results.data.filter(d => d["License Plate"])` */
  function Data(rows: seq<Row>): seq<Row>
  {
    Filter(rows, HasPlate)
  }

  /** `data` keeps exactly the rows with a plate, in their original order. */
  lemma DataProperties(rows: seq<Row>, more: seq<Row>, row: Row)
    ensures row in Data(rows) <==> row in rows && HasPlate(row)
    ensures Data(rows + more) == Data(rows) + Data(more)
  {
    FilterExactly(rows, HasPlate, row);
    FilterAppend(rows, more, HasPlate);
  }

  /** Math.floor(a / b) for an integer a and a positive integer b. */
  function FloorDiv(a: int, b: int): (q: int)
    requires b > 0
    ensures q * b <= a < q * b + b
  {
    a / b
  }

  /** Two floor divisions in a row are one floor division by the product. */
  lemma FloorDivTwice(a: int, b: int, c: int)
    requires b > 0 && c > 0
    ensures FloorDiv(FloorDiv(a, b), c) == FloorDiv(a, b * c)
  {
    var q := FloorDiv(a, b);
    var r := FloorDiv(q, c);
    MulMonotone(r * c, q, b);
    MulMonotone(q + 1, r * c + c, b);
    Regroup(r, b, c);
    DivUnique(a, b * c, r);
  }

  lemma Regroup(r: int, b: int, c: int)
    ensures r * c * b == r * (b * c)
    ensures (r * c + c) * b == r * (b * c) + b * c
  {
  }

  lemma MulMonotone(x: int, y: int, k: int)
    requires x <= y && k > 0
    ensures x * k <= y * k
  {
  }

  lemma MulCancel(x: int, y: int, k: int)
    requires k > 0 && x * k < y * k
    ensures x < y
  {
  }

  lemma DivUnique(a: int, d: int, r: int)
    requires d > 0
    requires r * d <= a < r * d + d
    ensures a / d == r
  {
    var q := a / d;
    assert q * d <= a < q * d + d;
    MulCancel(q, r + 1, d);
    MulCancel(r, q + 1, d);
  }

  /** The five unit counts of `calculateDuration`. */
  datatype Breakdown = Breakdown(minutes: int, hours: int, days: int, weeks: int, months: int)

  const MillisPerMinute: int := 60000

  /**
   * `calculateDuration` for a valid start: each unit is the floor of the
   * elapsed milliseconds over that unit's length, a month being 30 days.
   */
  function BreakdownOf(diff: int): (p: Breakdown)
    ensures p.minutes == FloorDiv(diff, MillisPerMinute)
    ensures p.hours == FloorDiv(diff, MillisPerMinute * 60)
    ensures p.days == FloorDiv(diff, MillisPerMinute * 60 * 24)
    ensures p.weeks == FloorDiv(diff, MillisPerMinute * 60 * 24 * 7)
    ensures p.months == FloorDiv(diff, MillisPerMinute * 60 * 24 * 30)
  {
    var minutes := FloorDiv(diff, MillisPerMinute);
    var hours := FloorDiv(minutes, 60);
    var days := FloorDiv(hours, 24);
    var weeks := FloorDiv(days, 7);
    var months := FloorDiv(days, 30);
    FloorDivTwice(diff, MillisPerMinute, 60);
    FloorDivTwice(diff, MillisPerMinute * 60, 24);
    FloorDivTwice(diff, MillisPerMinute * 60 * 24, 7);
    FloorDivTwice(diff, MillisPerMinute * 60 * 24, 30);
    Breakdown(minutes, hours, days, weeks, months)
  }

  /** For a start in the past every count is non-negative and coarser units count less. */
  lemma BreakdownOrdered(diff: int)
    requires diff >= 0
    ensures var p := BreakdownOf(diff);
              0 <= p.months <= p.weeks <= p.days <= p.hours <= p.minutes
  {
    var p := BreakdownOf(diff);
    var minutes := FloorDiv(diff, MillisPerMinute);
    var hours := FloorDiv(minutes, 60);
    var days := FloorDiv(hours, 24);
    FloorDivTwice(diff, MillisPerMinute, 60);
    FloorDivTwice(diff, MillisPerMinute * 60, 24);
    FloorDivTwice(diff, MillisPerMinute * 60 * 24, 7);
    FloorDivTwice(diff, MillisPerMinute * 60 * 24, 30);
    assert p.days == days && p.weeks == FloorDiv(days, 7) && p.months == FloorDiv(days, 30);
    assert FloorDiv(days, 30) <= FloorDiv(days, 7);
  }

  /** The text of a breakdown: the five counts joined by ":". */
  function DurationText(p: Breakdown): string
  {
    JoinColon([IntToString(p.minutes), IntToString(p.hours), IntToString(p.days),
               IntToString(p.weeks), IntToString(p.months)])
  }

  /** Reads a duration text back into its five counts. */
  function ParseDuration(s: string): Option<Breakdown>
  {
    var f := SplitColon(s);
    if |f| == 5 && ParseInt(f[0]).Some? && ParseInt(f[1]).Some? && ParseInt(f[2]).Some?
       && ParseInt(f[3]).Some? && ParseInt(f[4]).Some?
    then Some(Breakdown(ParseInt(f[0]).value, ParseInt(f[1]).value, ParseInt(f[2]).value,
                        ParseInt(f[3]).value, ParseInt(f[4]).value))
    else None
  }

  /** A duration text holds exactly the five counts. */
  lemma DurationRoundTrip(p: Breakdown)
    ensures ParseDuration(DurationText(p)) == Some(p)
  {
    var parts := [IntToString(p.minutes), IntToString(p.hours), IntToString(p.days),
                  IntToString(p.weeks), IntToString(p.months)];
    SplitJoin(parts);
    IntRoundTrip(p.minutes);
    IntRoundTrip(p.hours);
    IntRoundTrip(p.days);
    IntRoundTrip(p.weeks);
    IntRoundTrip(p.months);
  }

  /** What an invalid date gives: every count is NaN. */
  const InvalidDuration: string := "NaN:NaN:NaN:NaN:NaN"

  /** What a missing or empty check-in time gives. */
  const NoDuration: string := "-"

  lemma InvalidDurationIsNotADuration()
    ensures ParseDuration(InvalidDuration) == None
  {
    SplitJoin(["NaN", "NaN", "NaN", "NaN", "NaN"]);
    var nan := ["NaN", "NaN", "NaN", "NaN", "NaN"];
    assert nan[..1] == ["NaN"] && nan[..2][..1] == ["NaN"];
    assert nan[..3][..2] == nan[..2] && nan[..4][..3] == nan[..3] && nan[..4] == nan[..|nan| - 1];
    assert JoinColon(nan[..2]) == "NaN:NaN";
    assert JoinColon(nan[..3]) == "NaN:NaN:NaN";
    assert JoinColon(nan[..4]) == "NaN:NaN:NaN:NaN";
    assert JoinColon(nan) == InvalidDuration;
    NaNIsNotANumber();
  }

  lemma NoDurationIsNotADuration()
    ensures ParseDuration(NoDuration) == None
  {
    SplitAppendPlain([], NoDuration);
    assert [] + NoDuration == NoDuration;
  }

  /**
   * `calculateDuration(checkinTime)` with `new Date(...)` as `parseDate`
   * (None for an Invalid Date, else milliseconds) and `Date.now()` as `now`:
   * "-" exactly when the time is falsy, all-NaN for an invalid date, and
   * otherwise the colon-joined breakdown of the elapsed time, a text that
   * reads back as that breakdown.
   */
  function CalculateDuration(checkinTime: Option<string>, parseDate: string -> Option<int>, now: int): (r: string)
    ensures r == NoDuration <==> !Truthy(checkinTime)
    ensures Truthy(checkinTime) && parseDate(checkinTime.value).None? ==> r == InvalidDuration
    ensures Truthy(checkinTime) && parseDate(checkinTime.value).Some? ==>
              && r == DurationText(BreakdownOf(now - parseDate(checkinTime.value).value))
              && ParseDuration(r) == Some(BreakdownOf(now - parseDate(checkinTime.value).value))
  {
    if !Truthy(checkinTime) then NoDuration
    else match parseDate(checkinTime.value)
      case None => InvalidDuration
      case Some(start) =>
        var p := BreakdownOf(now - start);
        DurationRoundTrip(p);
        NoDurationIsNotADuration();
        DurationText(p)
  }

  /** `{ ...v, duration: ... }` for every row. */
  function WithDurations(rows: seq<Row>, parseDate: string -> Option<int>, now: int): (r: seq<Row>)
    ensures |r| == |rows|
    ensures forall i :: 0 <= i < |r| ==>
              && r[i].Keys == rows[i].Keys + {DurationField}
              && (forall k :: k in rows[i] && k != DurationField ==> r[i][k] == rows[i][k])
              && r[i][DurationField] == CalculateDuration(Field(rows[i], CheckinField), parseDate, now)
  {
    if rows == [] then []
    else
      var row := rows[|rows| - 1];
      WithDurations(rows[..|rows| - 1], parseDate, now)
        + [row[DurationField := CalculateDuration(Field(row, CheckinField), parseDate, now)]]
  }

  /** `currentVehicles`: the rows not checked out, each with its duration. */
  function CurrentVehicles(data: seq<Row>, parseDate: string -> Option<int>, now: int): seq<Row>
  {
    WithDurations(Filter(data, StillParked), parseDate, now)
  }

  /** `d["Actual Checkin Time"]?.startsWith(date)` */
  predicate CheckedInOn(row: Row, date: string)
  {
    CheckinField in row && date <= row[CheckinField]
  }

  /** The filter callback of one day label. */
  function CheckedInOnFilter(date: string): Row -> bool
  {
    row => CheckedInOn(row, date)
  }

  /** The rows counted for one day label. */
  function CheckedInOnDay(data: seq<Row>, date: string): seq<Row>
  {
    Filter(data, CheckedInOnFilter(date))
  }

  /** `counts`: for each label, how many rows were checked in on that day. */
  function Counts(data: seq<Row>, labels: seq<string>): (counts: seq<nat>)
    ensures |counts| == |labels|
    ensures forall i :: 0 <= i < |labels| ==> counts[i] <= |data|
  {
    seq(|labels|, i requires 0 <= i < |labels| => |CheckedInOnDay(data, labels[i])|)
  }

  /** A row is counted for a day iff its check-in text starts with that day's label. */
  lemma CountedExactly(data: seq<Row>, date: string, row: Row)
    ensures row in CheckedInOnDay(data, date) <==> row in data && CheckinField in row && date <= row[CheckinField]
  {
    FilterExactly(data, CheckedInOnFilter(date), row);
  }

  /** Counts add up over a split of the rows. */
  lemma CountsAppend(a: seq<Row>, b: seq<Row>, labels: seq<string>, i: int)
    requires 0 <= i < |labels|
    ensures Counts(a + b, labels)[i] == Counts(a, labels)[i] + Counts(b, labels)[i]
  {
    FilterAppend(a, b, CheckedInOnFilter(labels[i]));
  }

  datatype Totals = Totals(current: nat, checkins: nat, checkouts: nat)

  /** Everything the dashboard shows. */
  datatype View = View(vehicles: seq<Row>, totals: Totals, labels: seq<string>, counts: seq<nat>)

  /**
   * The `complete` callback: filter the rows, split current from checked-out
   * vehicles, count them, and count check-ins per day label.  Every parked
   * vehicle is either current or checked out.
   */
  function Summarize(rows: seq<Row>, parseDate: string -> Option<int>, now: int, labels: seq<string>): (v: View)
    ensures v.totals.current == |v.vehicles|
    ensures v.totals.checkins == |Data(rows)|
    ensures v.totals.current + v.totals.checkouts == v.totals.checkins
    ensures v.labels == labels && |v.counts| == |labels|
    ensures forall i :: 0 <= i < |labels| ==> v.counts[i] <= v.totals.checkins
  {
    var data := Data(rows);
    var currentVehicles := CurrentVehicles(data, parseDate, now);
    CheckoutSplit(data);
    View(currentVehicles,
         Totals(|currentVehicles|, |data|, |Filter(data, CheckedOut)|),
         labels,
         Counts(data, labels))
  }
}
