/**
 * logic/raport_from_csv.py `get_raport_from_csv`: the stock report. The codes
 * of the previous run (today's backup file, when there is one) start at 0,
 * then every row of the new file sets its code's quantity, the last row of a
 * code winning. The result is written back as today's backup and returned;
 * an empty result makes `report_to_write[0]` raise `IndexError`.
 */
module Raport {
  import opened Wrappers
  import opened PyDict

  /** A quantity of the report: the integer 0 a backup code starts with, or the text of a row. */
  datatype Value = Zero | Text(text: string)

  /** A row of the new file: `CODE` and `QUANTITY`. */
  datatype RaportRow = RaportRow(code: string, quantity: string)

  /** A line of the report and of the backup written. */
  datatype Line = Line(code: string, quantity: Value)

  /** `report_to_write[0]` of an empty report. */
  datatype RaportError = EmptyReport

  /** `{row['CODE']: 0 for row in data}` over the backup's codes. */
  function Reset(codes: seq<string>): (d: Dict<string, Value>)
    ensures d.Valid()
    ensures forall k | k in d.items :: d.items[k] == Zero
  {
    if codes == [] then Empty() else Reset(codes[..|codes| - 1]).Put(codes[|codes| - 1], Zero)
  }

  /** The loop `report[row['CODE']] = row['QUANTITY']`. */
  function Merge(d: Dict<string, Value>, rows: seq<RaportRow>): (d': Dict<string, Value>)
    requires d.Valid()
    ensures d'.Valid()
  {
    if rows == [] then d
    else
      var row := rows[|rows| - 1];
      Merge(d, rows[..|rows| - 1]).Put(row.code, Text(row.quantity))
  }

  /** The quantity of the last row of code `k`, `None` when no row has it. */
  function LastQuantity(rows: seq<RaportRow>, k: string): Option<string>
  {
    if rows == [] then None
    else if rows[|rows| - 1].code == k then Some(rows[|rows| - 1].quantity)
    else LastQuantity(rows[..|rows| - 1], k)
  }

  /** `LastQuantity` finds the last row of the code, and nothing when there is none. */
  lemma {:induction false} LastQuantityIsLast(rows: seq<RaportRow>, k: string)
    ensures LastQuantity(rows, k).None? <==> forall i | 0 <= i < |rows| :: rows[i].code != k
    ensures LastQuantity(rows, k).Some? ==>
      exists i | 0 <= i < |rows| :: (rows[i].code == k && LastQuantity(rows, k).value == rows[i].quantity
        && forall j | i < j < |rows| :: rows[j].code != k)
  {
    if rows != [] {
      var front := rows[..|rows| - 1];
      LastQuantityIsLast(front, k);
      if rows[|rows| - 1].code != k {
        forall i | 0 <= i < |front| ensures front[i] == rows[i] { }
        if LastQuantity(front, k).Some? {
          var i :| 0 <= i < |front| && front[i].code == k && LastQuantity(front, k).value == front[i].quantity
            && forall j | i < j < |front| :: front[j].code != k;
          assert rows[i] == front[i];
        }
      }
    }
  }

  /** After the loop a code is present when it was before or some row has it, with its last row's quantity if any. */
  lemma {:induction false} MergeAt(d: Dict<string, Value>, rows: seq<RaportRow>, k: string)
    requires d.Valid()
    ensures k in Merge(d, rows).items <==> k in d.items || LastQuantity(rows, k).Some?
    ensures k in Merge(d, rows).items ==>
      Merge(d, rows).items[k] == if LastQuantity(rows, k).Some? then Text(LastQuantity(rows, k).value) else d.items[k]
  {
    if rows != [] {
      MergeAt(d, rows[..|rows| - 1], k);
    }
  }

  /** Codes already present keep their places: the loop only appends new codes. */
  lemma {:induction false} MergeKeys(d: Dict<string, Value>, rows: seq<RaportRow>)
    requires d.Valid()
    ensures d.keys <= Merge(d, rows).keys
    ensures (forall i | 0 <= i < |rows| :: rows[i].code in d.items) ==> Merge(d, rows).keys == d.keys
  {
    if rows != [] {
      var n := |rows| - 1;
      var front := rows[..n];
      MergeKeys(d, front);
      assert Merge(d, rows) == Merge(d, front).Put(rows[n].code, Text(rows[n].quantity));
      if forall i | 0 <= i < |rows| :: rows[i].code in d.items {
        assert forall i | 0 <= i < |front| :: front[i].code in d.items by {
          forall i | 0 <= i < |front| ensures front[i].code in d.items {
            assert front[i] == rows[i];
          }
        }
        assert rows[n].code in d.items;
        MergeAt(d, front, rows[n].code);
      }
    }
  }

  /** A reset dictionary of distinct codes lists them in order. */
  lemma {:induction false} ResetKeys(codes: seq<string>)
    requires forall i, j | 0 <= i < j < |codes| :: codes[i] != codes[j]
    ensures Reset(codes).keys == codes
  {
    if codes != [] {
      var n := |codes| - 1;
      var front := codes[..n];
      assert forall i, j | 0 <= i < j < |front| :: front[i] != front[j] by {
        forall i, j | 0 <= i < j < |front| ensures front[i] != front[j] {
          assert front[i] == codes[i] && front[j] == codes[j];
        }
      }
      ResetKeys(front);
      assert codes[n] !in front by {
        forall i | 0 <= i < |front| ensures front[i] != codes[n] {
          assert front[i] == codes[i];
        }
      }
      ResetIn(front, codes[n]);
      assert Reset(codes) == Reset(front).Put(codes[n], Zero);
      assert front + [codes[n]] == codes;
    }
  }

  /** The starting dictionary: the backup's codes at 0, or empty when there is no backup file. */
  function Start(backup: Option<seq<string>>): (d: Dict<string, Value>)
    ensures d.Valid()
    ensures forall k | k in d.items :: d.items[k] == Zero
  {
    if backup.Some? then Reset(backup.value) else Empty()
  }

  /** `[{'CODE': key, 'QUANTITY': value} for key, value in report.items()]`. */
  function Lines(d: Dict<string, Value>): (lines: seq<Line>)
    requires d.Valid()
    ensures |lines| == |d.keys|
  {
    seq(|d.keys|, i requires 0 <= i < |d.keys| => Line(d.keys[i], d.items[d.keys[i]]))
  }

  /** The codes of the lines written, as the next run reads them back. */
  function Codes(lines: seq<Line>): seq<string>
  {
    seq(|lines|, i requires 0 <= i < |lines| => lines[i].code)
  }

  /** The report of a run, and the backup it writes. */
  function RaportOf(backup: Option<seq<string>>, data: seq<RaportRow>): Result<seq<Line>, RaportError>
  {
    var lines := Lines(Merge(Start(backup), data));
    if lines == [] then Err(EmptyReport) else Ok(lines)
  }

  method GetRaport(backup: Option<seq<string>>, data: seq<RaportRow>) returns (r: Result<seq<Line>, RaportError>)
    ensures r == RaportOf(backup, data)
  {
    var report: Dict<string, Value> := Empty();
    if backup.Some? {
      var codes := backup.value;
      for i := 0 to |codes|
        invariant report == Reset(codes[..i])
      {
        assert codes[..i + 1][..i] == codes[..i];
        report := report.Put(codes[i], Zero);
      }
      assert codes[..|codes|] == codes;
    }
    for i := 0 to |data|
      invariant report == Merge(Start(backup), data[..i])
    {
      assert data[..i + 1][..i] == data[..i];
      report := report.Put(data[i].code, Text(data[i].quantity));
    }
    assert data[..|data|] == data;
    var reportToWrite := Lines(report);
    if |reportToWrite| == 0 {
      return Err(EmptyReport);
    }
    return Ok(reportToWrite);
  }

  /**
   * The report holds each code of the backup or of the new file once: with
   * the quantity of its last row in the new file, or 0 when the new file
   * does not have it.
   */
  lemma RaportLines(backup: Option<seq<string>>, data: seq<RaportRow>, k: string)
    requires RaportOf(backup, data).Ok?
    ensures var lines := RaportOf(backup, data).value;
      (exists i | 0 <= i < |lines| :: lines[i].code == k) <==>
        (backup.Some? && k in backup.value) || exists j | 0 <= j < |data| :: data[j].code == k
    ensures var lines := RaportOf(backup, data).value;
      forall i | 0 <= i < |lines| && lines[i].code == k ::
        lines[i].quantity == if LastQuantity(data, k).Some? then Text(LastQuantity(data, k).value) else Zero
    ensures var lines := RaportOf(backup, data).value;
      forall i, j | 0 <= i < j < |lines| :: lines[i].code != lines[j].code
  {
    var start := Start(backup);
    var merged := Merge(start, data);
    MergeAt(start, data, k);
    LastQuantityIsLast(data, k);
    if backup.Some? {
      ResetIn(backup.value, k);
    }
    if k in merged.items {
      var i :| 0 <= i < |merged.keys| && merged.keys[i] == k;
      assert Lines(merged)[i].code == k;
    }
  }

  /** The codes of a reset dictionary are those of the backup. */
  lemma {:induction false} ResetIn(codes: seq<string>, k: string)
    ensures k in Reset(codes).items <==> k in codes
  {
    if codes != [] {
      ResetIn(codes[..|codes| - 1], k);
      assert codes == codes[..|codes| - 1] + [codes[|codes| - 1]];
    }
  }

  /** Starting again from the codes a run ended with changes no code's presence or quantity. */
  lemma RerunAt(start: Dict<string, Value>, data: seq<RaportRow>, k: string)
    requires start.Valid() && forall c | c in start.items :: start.items[c] == Zero
    ensures var merged := Merge(start, data);
      && (k in Merge(Reset(merged.keys), data).items <==> k in merged.items)
      && (k in merged.items ==> Merge(Reset(merged.keys), data).items[k] == merged.items[k])
  {
    var merged := Merge(start, data);
    var again := Reset(merged.keys);
    ResetIn(merged.keys, k);
    MergeAt(again, data, k);
    MergeAt(start, data, k);
  }

  /** Starting again from the codes a run ended with, the loop adds no code. */
  lemma RerunKeys(start: Dict<string, Value>, data: seq<RaportRow>)
    requires start.Valid()
    ensures Merge(Reset(Merge(start, data).keys), data).keys == Merge(start, data).keys
  {
    var merged := Merge(start, data);
    var again := Reset(merged.keys);
    ResetKeys(merged.keys);
    forall i | 0 <= i < |data| ensures data[i].code in again.items {
      MergeAt(start, data, data[i].code);
      LastQuantityIsLast(data, data[i].code);
      ResetIn(merged.keys, data[i].code);
    }
    MergeKeys(again, data);
  }

  /** Starting again from the codes a run ended with, every code ends with the same quantity. */
  lemma RerunItems(start: Dict<string, Value>, data: seq<RaportRow>)
    requires start.Valid() && forall c | c in start.items :: start.items[c] == Zero
    ensures Merge(Reset(Merge(start, data).keys), data).items == Merge(start, data).items
  {
    var merged := Merge(start, data);
    var merged2 := Merge(Reset(merged.keys), data);
    forall k ensures (k in merged2.items <==> k in merged.items) && (k in merged.items ==> merged2.items[k] == merged.items[k]) {
      RerunAt(start, data, k);
    }
  }

  /** The loop over the same rows from the codes it ended with ends where it did. */
  lemma RerunMerge(start: Dict<string, Value>, data: seq<RaportRow>)
    requires start.Valid() && forall c | c in start.items :: start.items[c] == Zero
    ensures Merge(Reset(Merge(start, data).keys), data) == Merge(start, data)
  {
    RerunKeys(start, data);
    RerunItems(start, data);
  }

  /**
   * Running again on the same file with the backup just written gives the
   * same report: the backup already holds every code, in the same order, and
   * the codes the new file does not have are 0 in both.
   */
  lemma RaportRerun(backup: Option<seq<string>>, data: seq<RaportRow>)
    requires RaportOf(backup, data).Ok?
    ensures RaportOf(Some(Codes(RaportOf(backup, data).value)), data) == RaportOf(backup, data)
  {
    var merged := Merge(Start(backup), data);
    assert Codes(Lines(merged)) == merged.keys;
    RerunMerge(Start(backup), data);
  }
}
