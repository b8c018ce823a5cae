/**
 * The ledger that main_live.py writes, as dashboard/src/App.js reads it.
 * The ledger's columns are `License Plate` and `Timestamp`, but the
 * dashboard looks for `Actual Checkin Time` and `Actual Checkout Time`, so
 * every ledger row shows as a current vehicle with duration "-", nothing is
 * ever checked out, and no day gets a check-in.
 */
module LedgerDashboard {
  import opened Wrappers
  import opened CsvLedger
  import opened Dashboard

  /**
   * One line under `header: true`: the i-th header name maps to the i-th
   * field, as far as both go; a later duplicate name wins.
   */
  function Zip(names: seq<string>, fields: seq<string>): (row: Dashboard.Row)
    ensures forall k :: k in row ==> k in names
    ensures |names| == |fields| && (forall i, j :: 0 <= i < j < |names| ==> names[i] != names[j]) ==>
              forall i :: 0 <= i < |names| ==> names[i] in row && row[names[i]] == fields[i]
  {
    if names == [] || fields == [] then map[]
    else
      var rest := Zip(names[1..], fields[1..]);
      if names[0] in rest then rest else rest[names[0] := fields[0]]
  }

  /** The parsed rows of a CSV whose first line is the header. */
  function ParseWithHeader(lines: seq<CsvLedger.Row>): (rows: seq<Dashboard.Row>)
    ensures |rows| == if lines == [] then 0 else |lines| - 1
  {
    if lines == [] then []
    else seq(|lines| - 1, i requires 0 <= i < |lines| - 1 => Zip(lines[0], lines[i + 1]))
  }

  /** A row with none of the dashboard's date fields. */
  predicate Undated(row: Dashboard.Row)
  {
    CheckinField !in row && CheckoutField !in row
  }

  /** Rows without date fields are all still parked, none checked out, none counted for a day. */
  lemma FilterUndated(rows: seq<Dashboard.Row>, labels: seq<string>, i: int)
    requires forall j :: 0 <= j < |rows| ==> Undated(rows[j])
    requires 0 <= i < |labels|
    ensures Filter(rows, StillParked) == rows
    ensures Filter(rows, CheckedOut) == []
    ensures CheckedInOnDay(rows, labels[i]) == []
  {
    UndatedParked(rows);
    UndatedNotCheckedOut(rows);
    UndatedNotCounted(rows, labels[i]);
  }

  lemma UndatedParked(rows: seq<Dashboard.Row>)
    requires forall j :: 0 <= j < |rows| ==> Undated(rows[j])
    ensures Filter(rows, StillParked) == rows
  {
    FilterAll(rows, StillParked);
  }

  lemma UndatedNotCheckedOut(rows: seq<Dashboard.Row>)
    requires forall j :: 0 <= j < |rows| ==> Undated(rows[j])
    ensures Filter(rows, CheckedOut) == []
  {
    FilterNone(rows, CheckedOut);
  }

  lemma UndatedNotCounted(rows: seq<Dashboard.Row>, date: string)
    requires forall j :: 0 <= j < |rows| ==> Undated(rows[j])
    ensures CheckedInOnDay(rows, date) == []
  {
    FilterNone(rows, CheckedInOnFilter(date));
  }

  /** Each ledger line parses to a row with just the plate and the timestamp. */
  lemma LedgerRows(l: Ledger)
    requires WellFormed(l)
    ensures var rows := ParseWithHeader(l.lines);
              && |rows| == |Records(l)|
              && forall j :: 0 <= j < |rows| ==>
                   rows[j] == map[PlateField := l.lines[j + 1][0], "Timestamp" := l.lines[j + 1][1]]
  {
    var rows := ParseWithHeader(l.lines);
    forall j | 0 <= j < |rows|
      ensures rows[j] == map[PlateField := l.lines[j + 1][0], "Timestamp" := l.lines[j + 1][1]]
    {
      var line := l.lines[j + 1];
      assert Header[1..] == ["Timestamp"] && line[1..][1..] == [];
      assert Zip(Header[1..], line[1..]) == map["Timestamp" := line[1]];
    }
  }

  /** The view of rows that carry no dashboard date fields. */
  lemma UndatedView(rows: seq<Dashboard.Row>, parseDate: string -> Option<int>, now: int, labels: seq<string>)
    requires forall j :: 0 <= j < |rows| ==> Undated(rows[j])
    ensures var v := Summarize(rows, parseDate, now, labels);
              && v.totals.checkouts == 0
              && v.totals.current == v.totals.checkins
              && (forall i :: 0 <= i < |v.vehicles| ==> v.vehicles[i][DurationField] == NoDuration)
              && (forall i :: 0 <= i < |labels| ==> v.counts[i] == 0)
  {
    var data := Data(rows);
    forall j | 0 <= j < |data|
      ensures Undated(data[j])
    {
      FilterExactly(rows, HasPlate, data[j]);
    }
    FilterUndated(data, [""], 0);
    forall i | 0 <= i < |labels|
      ensures |CheckedInOnDay(data, labels[i])| == 0
    {
      FilterUndated(data, labels, i);
    }
  }

  /**
   * What the dashboard shows for a ledger written by main_live.py: every
   * row with a plate is a current vehicle with duration "-", nothing is
   * checked out and every day count is 0; when no plate is empty, every
   * record is counted as a check-in.
   */
  lemma LedgerSeenByDashboard(l: Ledger, parseDate: string -> Option<int>, now: int, labels: seq<string>)
    requires WellFormed(l)
    ensures var v := Summarize(ParseWithHeader(l.lines), parseDate, now, labels);
              && v.totals.checkouts == 0
              && v.totals.current == v.totals.checkins
              && (forall i :: 0 <= i < |v.vehicles| ==> v.vehicles[i][DurationField] == NoDuration)
              && (forall i :: 0 <= i < |labels| ==> v.counts[i] == 0)
    ensures (forall i :: 1 <= i < |l.lines| ==> l.lines[i][0] != "") ==>
              Summarize(ParseWithHeader(l.lines), parseDate, now, labels).totals.checkins == |Records(l)|
  {
    var rows := ParseWithHeader(l.lines);
    LedgerRows(l);
    UndatedView(rows, parseDate, now, labels);
    if forall i :: 1 <= i < |l.lines| ==> l.lines[i][0] != "" {
      forall j | 0 <= j < |rows|
        ensures HasPlate(rows[j])
      {
        assert l.lines[j + 1][0] != "";
      }
      AllHavePlates(rows);
    }
  }

  lemma {:induction false} AllHavePlates(rows: seq<Dashboard.Row>)
    requires forall j :: 0 <= j < |rows| ==> HasPlate(rows[j])
    ensures Data(rows) == rows
  {
    if rows != [] {
      AllHavePlates(rows[..|rows| - 1]);
      assert rows[..|rows| - 1] + [rows[|rows| - 1]] == rows;
    }
  }
}
