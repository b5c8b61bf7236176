// The invoice numbering sequencer: one `InvoiceSequence` row per
// (org, series, year) holding the last number handed out.

module SalesNumbering {
  import opened Common

  datatype SequenceKey = SequenceKey(org: OrgId, series: string, year: int)

  /** The `InvoiceSequence` table: `last_number` for each key that has a row. */
  type SequenceRows = map<SequenceKey, int>

  /** `last_number` of the row, or the default 0 of a row `get_or_create` would make. */
  function LastNumber(rows: SequenceRows, key: SequenceKey): int
  {
    if key in rows then rows[key] else 0
  }

  /** One call of `next_invoice_number`: the table after it and the number returned. */
  function Issue(rows: SequenceRows, key: SequenceKey): (SequenceRows, int)
  {
    var n := LastNumber(rows, key) + 1;
    (rows[key := n], n)
  }

  /** The numbers returned by `count` successive calls for the same key. */
  function IssueRun(rows: SequenceRows, key: SequenceKey, count: nat): seq<int>
    decreases count
  {
    if count == 0 then []
    else
      var (rows', n) := Issue(rows, key);
      [n] + IssueRun(rows', key, count - 1)
  }

  /** The first number of a (org, series, year) without a row is 1. */
  lemma FirstNumberIsOne(rows: SequenceRows, key: SequenceKey)
    requires key !in rows
    ensures Issue(rows, key).1 == 1
  {
  }

  /** Each call returns one more than the stored last number and stores what it returns. */
  lemma IssueIncrements(rows: SequenceRows, key: SequenceKey)
    ensures Issue(rows, key).1 == LastNumber(rows, key) + 1
    ensures LastNumber(Issue(rows, key).0, key) == Issue(rows, key).1
  {
  }

  /** Rows of other keys are untouched. */
  lemma IssueLeavesOtherKeys(rows: SequenceRows, key: SequenceKey, other: SequenceKey)
    requires other != key
    ensures LastNumber(Issue(rows, key).0, other) == LastNumber(rows, other)
    ensures other in Issue(rows, key).0 <==> other in rows
  {
  }

  /** `count` calls return the consecutive numbers after the stored one. */
  lemma {:induction false} RunIsConsecutive(rows: SequenceRows, key: SequenceKey, count: nat)
    ensures |IssueRun(rows, key, count)| == count
    ensures forall i :: 0 <= i < count ==> IssueRun(rows, key, count)[i] == LastNumber(rows, key) + 1 + i
    decreases count
  {
    if count > 0 {
      var (rows', n) := Issue(rows, key);
      RunIsConsecutive(rows', key, count - 1);
    }
  }

  /** For a fresh (org, series, year) the calls return exactly 1, 2, ..., count. */
  lemma {:induction false} FreshRunCountsFromOne(rows: SequenceRows, key: SequenceKey, count: nat)
    requires key !in rows
    ensures IssueRun(rows, key, count) == seq(count, i => i + 1)
  {
    RunIsConsecutive(rows, key, count);
  }

  /** The `InvoiceSequence` table and `next_invoice_number`. */
  class InvoiceSequences {
    var rows: SequenceRows

    constructor ()
      ensures rows == map[]
    {
      rows := map[];
    }

    /**
     * `next_invoice_number(org, series)`: `currentYear` is the year of
     * `timezone.now()` at the call.
     */
    method NextInvoiceNumber(org: OrgId, series: string, currentYear: int) returns (year: int, number: int)
      modifies this
      ensures year == currentYear
      ensures (rows, number) == Issue(old(rows), SequenceKey(org, series, currentYear))
    {
      year := currentYear;
      var key := SequenceKey(org, series, year);
      var lastNumber := 0;
      if key in rows {
        lastNumber := rows[key];
      } else {
        rows := rows[key := 0];
      }
      lastNumber := lastNumber + 1;
      rows := rows[key := lastNumber];
      number := lastNumber;
      assert rows == old(rows)[key := number];
    }
  }
}
