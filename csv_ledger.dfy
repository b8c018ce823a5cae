/**
 * The append-only CSV ledger written by `append_to_csv` in main_live.py.  The
 * file is a value: whether it exists and its lines, each a list of fields.
 * The timestamp, which the source reads from the clock, is a parameter.
 */
module CsvLedger {

  /** One CSV line, as the list of its fields. */
  type Row = seq<string>

  /** The header row written when the file is new. */
  const Header: Row := ["License Plate", "Timestamp"]

  /** The ledger file: whether it exists on disk, and its lines. */
  datatype Ledger = Ledger(fileExists: bool, lines: seq<Row>)

  /** A ledger file that does not exist yet. */
  const NoFile := Ledger(false, [])

  /**
   * `append_to_csv(plate_text, csv_path)`: the header is written iff the file
   * did not exist before the call; then exactly one `[plate, timestamp]` row
   * is appended, and no earlier line is altered.
   */
  function AppendToCsv(l: Ledger, plateText: string, timestamp: string): (r: Ledger)
    ensures r.fileExists
    ensures |r.lines| == |l.lines| + (if l.fileExists then 1 else 2)
    ensures r.lines[..|l.lines|] == l.lines
    ensures !l.fileExists ==> r.lines[|l.lines|] == Header
    ensures r.lines[|r.lines| - 1] == [plateText, timestamp]
  {
    var header := if l.fileExists then [] else [Header];
    Ledger(true, l.lines + header + [[plateText, timestamp]])
  }

  /**
   * A ledger as this program leaves it: a missing file has no lines, an
   * existing one starts with the header and every other line has two fields.
   */
  ghost predicate WellFormed(l: Ledger)
  {
    && (!l.fileExists ==> l.lines == [])
    && (l.fileExists ==> |l.lines| >= 1 && l.lines[0] == Header)
    && (forall i :: 1 <= i < |l.lines| ==> |l.lines[i]| == 2)
  }

  /** The data rows of a well-formed ledger (everything after the header). */
  function Records(l: Ledger): seq<Row>
    requires WellFormed(l)
  {
    if l.fileExists then l.lines[1..] else []
  }

  /**
   * Appending keeps a ledger well formed and extends its data rows by exactly
   * the new row, so the header is never duplicated.
   */
  lemma AppendRecords(l: Ledger, plateText: string, timestamp: string)
    requires WellFormed(l)
    ensures WellFormed(AppendToCsv(l, plateText, timestamp))
    ensures Records(AppendToCsv(l, plateText, timestamp)) == Records(l) + [[plateText, timestamp]]
  {
    var r := AppendToCsv(l, plateText, timestamp);
    if l.fileExists {
      assert r.lines == l.lines + [[plateText, timestamp]];
      assert r.lines[1..] == l.lines[1..] + [[plateText, timestamp]];
    } else {
      assert r.lines == [Header, [plateText, timestamp]];
    }
  }

  /**
   * Two writes to a path that does not exist yet give one header line
   * followed by the two data lines.
   */
  lemma TwoAppendsOneHeader(p1: string, t1: string, p2: string, t2: string)
    ensures AppendToCsv(AppendToCsv(NoFile, p1, t1), p2, t2).lines == [Header, [p1, t1], [p2, t2]]
  {
  }
}
