/** `ResultSaver`: the results file as an in-memory table. The file is replaced wholesale by every
    write and read back as a list of rows keyed by the CSV header. */
module ResultSaver {
  import opened Wrappers
  import opened PyValues
  import opened ContextManager

  type Row = map<string, PyValue>

  /** The CSV header, in column order. */
  function Headers(): seq<string>
  {
    ["title", "converted", "embedded", "relevant", "checkpoints", "reasoning"]
  }

  function HeaderSet(): set<string>
  {
    set h | h in Headers()
  }

  /** A row as `csv.DictWriter` writes it and `csv.DictReader` reads it back: every header field
      present, a missing one written as the empty string. */
  function Normalised(row: Row): (full: Row)
    ensures full.Keys == HeaderSet()
    ensures forall h :: h in HeaderSet() && h in row ==> full[h] == row[h]
    ensures forall h :: h in HeaderSet() && h !in row ==> full[h] == PyStr("")
  {
    map h | h in HeaderSet() :: if h in row then row[h] else PyStr("")
  }

  /** A row `DictWriter` refuses: it has a field the header does not name. */
  predicate HasForeignField(row: Row)
  {
    exists k :: k in row && k !in HeaderSet()
  }

  /** The position of the first refused row, if any. */
  function FirstForeignRow(data: seq<Row>): (j: Option<nat>)
    ensures j.Some? ==> j.value < |data| && HasForeignField(data[j.value])
    ensures j.Some? ==> forall i :: 0 <= i < j.value ==> !HasForeignField(data[i])
    ensures j.None? ==> forall i :: 0 <= i < |data| ==> !HasForeignField(data[i])
    decreases |data|
  {
    if |data| == 0 then None
    else if HasForeignField(data[0]) then Some(0)
    else match FirstForeignRow(data[1..]) {
      case None => None
      case Some(j) => Some(j + 1)
    }
  }

  function NormalisedRows(data: seq<Row>): (rows: seq<Row>)
    ensures |rows| == |data|
    ensures forall i :: 0 <= i < |data| ==> rows[i] == Normalised(data[i])
  {
    seq(|data|, i requires 0 <= i < |data| => Normalised(data[i]))
  }

  /** A row that is already complete is written and read back as it is. */
  lemma NormalisedComplete(row: Row)
    requires row.Keys == HeaderSet()
    ensures Normalised(row) == row
  {
  }

  /** What the file holds after `write_csv(data)`: the rows up to the first refused one. */
  function Written(data: seq<Row>): (written: seq<Row>)
    ensures |written| <= |data|
    ensures FirstForeignRow(data).None? <==> |written| == |data|
    ensures forall i :: 0 <= i < |written| ==> written[i].Keys == HeaderSet()
  {
    match FirstForeignRow(data) {
      case None => NormalisedRows(data)
      case Some(j) => NormalisedRows(data[..j])
    }
  }

  // ---------------------------------------------------------------- update by title

  /** An update row is applied to an existing row when their titles are equal. */
  predicate Matches(existing: Row, update: Row)
    ensures Matches(existing, update) ==> "title" in update
    ensures !("title" in existing) ==> !Matches(existing, update)
  {
    "title" in existing && "title" in update && update["title"] == existing["title"]
  }

  /** `existing_row.update(u)` for every matching `u`, in order. */
  function MergeAll(existing: Row, updates: seq<Row>): (merged: Row)
    ensures existing.Keys <= merged.Keys
    ensures "title" in existing ==> merged["title"] == existing["title"]
    decreases |updates|
  {
    if |updates| == 0 then existing
    else
      var before := MergeAll(existing, updates[..|updates| - 1]);
      var last := updates[|updates| - 1];
      if Matches(existing, last) then before + last else before
  }

  /** A row no update matches is left as it is. */
  lemma {:induction false} MergeNoMatch(existing: Row, updates: seq<Row>)
    requires forall j :: 0 <= j < |updates| ==> !Matches(existing, updates[j])
    ensures MergeAll(existing, updates) == existing
    decreases |updates|
  {
    if |updates| > 0 {
      MergeNoMatch(existing, updates[..|updates| - 1]);
    }
  }

  /** A field no matching update carries keeps its value. */
  lemma {:induction false} MergeUntouched(existing: Row, updates: seq<Row>, k: string)
    requires k in existing
    requires forall j :: 0 <= j < |updates| && Matches(existing, updates[j]) ==> k !in updates[j]
    ensures k in MergeAll(existing, updates) && MergeAll(existing, updates)[k] == existing[k]
    decreases |updates|
  {
    if |updates| > 0 {
      MergeUntouched(existing, updates[..|updates| - 1], k);
    }
  }

  /** A field takes its value from the last matching update that carries it. */
  lemma {:induction false} MergeLastWins(existing: Row, updates: seq<Row>, k: string, j: int)
    requires 0 <= j < |updates| && Matches(existing, updates[j]) && k in updates[j]
    requires forall l :: j < l < |updates| && Matches(existing, updates[l]) ==> k !in updates[l]
    ensures k in MergeAll(existing, updates) && MergeAll(existing, updates)[k] == updates[j][k]
    decreases |updates|
  {
    if j < |updates| - 1 {
      MergeLastWins(existing, updates[..|updates| - 1], k, j);
    }
  }

  /** The merged row has the existing fields plus those of the matching updates, and keeps
      its title. */
  lemma {:induction false} MergeKeys(existing: Row, updates: seq<Row>)
    requires "title" in existing
    ensures MergeAll(existing, updates).Keys ==
      existing.Keys + (set j, k | 0 <= j < |updates| && Matches(existing, updates[j]) && k in updates[j] :: k)
    ensures MergeAll(existing, updates)["title"] == existing["title"]
    decreases |updates|
  {
    if |updates| > 0 {
      MergeKeys(existing, updates[..|updates| - 1]);
    }
  }

  /** The existing rows after the in-memory merge of `update_csv`. */
  function MergedRows(rows: seq<Row>, updates: seq<Row>): (merged: seq<Row>)
    ensures |merged| == |rows|
    ensures forall i :: 0 <= i < |rows| ==> merged[i] == MergeAll(rows[i], updates)
  {
    seq(|rows|, i requires 0 <= i < |rows| => MergeAll(rows[i], updates))
  }

  /** `update_csv` looks up `updated_row['title']` for every update as soon as the table has a row. */
  predicate UpdateLacksTitle(updates: seq<Row>)
  {
    exists j :: 0 <= j < |updates| && "title" !in updates[j]
  }

  // ---------------------------------------------------------------- default entries and lookup

  /** `__create_result_list(title)[0]`: a converted, not yet embedded, unjudged document. */
  function DefaultEntry(title: string): (row: Row)
    ensures row.Keys == HeaderSet()
    ensures row["title"] == PyStr(title) && row["converted"] == PyBool(true)
    ensures row["embedded"] == PyBool(false) && row["relevant"] == PyNone
    ensures row["checkpoints"] == PyDict(map[]) && row["reasoning"] == PyDict(map[])
  {
    map["title" := PyStr(title), "converted" := PyBool(true), "embedded" := PyBool(false),
        "relevant" := PyNone, "checkpoints" := PyDict(map[]), "reasoning" := PyDict(map[])]
  }

  /** The last row whose title is the given one. */
  function LastMatch(rows: seq<Row>, title: string): (j: Option<nat>)
    ensures j.Some? ==> j.value < |rows| && "title" in rows[j.value] && rows[j.value]["title"] == PyStr(title)
    ensures j.Some? ==> forall i :: j.value < i < |rows| ==> !("title" in rows[i] && rows[i]["title"] == PyStr(title))
    ensures j.None? ==> forall i :: 0 <= i < |rows| ==> !("title" in rows[i] && rows[i]["title"] == PyStr(title))
    decreases |rows|
  {
    if |rows| == 0 then None
    else
      var last := rows[|rows| - 1];
      if "title" in last && last["title"] == PyStr(title) then Some(|rows| - 1)
      else LastMatch(rows[..|rows| - 1], title)
  }

  /** The six header fields of a row. */
  function SixFields(row: Row): Row
    requires HeaderSet() <= row.Keys
  {
    map h | h in HeaderSet() :: row[h]
  }

  class ResultSaver {
    /** The rows of the results file, as `read_csv_to_dict_list` returns them. */
    var rows: seq<Row>

    /** Every row carries exactly the header fields, as every row `csv.DictReader` returns does. */
    predicate Valid()
      reads this
    {
      forall i :: 0 <= i < |rows| ==> rows[i].Keys == HeaderSet()
    }

    /** The results file is emptied at construction only when RESET_RESULTS is the string 'True'. */
    constructor (cm: ContextManager, onDisk: seq<Row>)
      requires forall i :: 0 <= i < |onDisk| ==> onDisk[i].Keys == HeaderSet()
      ensures Valid()
      ensures rows == if Lookup(cm.cls.config, "RESET_RESULTS") == PyStr("True") then [] else onDisk
    {
      var reset := cm.GetConfig("RESET_RESULTS");
      rows := onDisk;
      if reset == PyStr("True") {
        rows := [];
      }
    }

    /** `write_csv`: the file is truncated and rewritten; a row with a field outside the header
        stops the writer with ValueError, after the rows before it. */
    method WriteCsv(data: seq<Row>) returns (r: Outcome<()>)
      modifies this
      ensures Valid()
      ensures rows == Written(data)
      ensures r == if FirstForeignRow(data).None? then Ok(()) else Raised(ValueError)
    {
      rows := [];
      for i := 0 to |data|
        invariant rows == NormalisedRows(data[..i])
        invariant forall l :: 0 <= l < i ==> !HasForeignField(data[l])
      {
        if HasForeignField(data[i]) {
          assert FirstForeignRow(data) == Some(i);
          return Raised(ValueError);
        }
        rows := rows + [Normalised(data[i])];
        assert data[..i + 1][..i] == data[..i];
      }
      assert data[..|data|] == data;
      r := Ok(());
    }

    /** `read_csv_to_dict_list`. */
    method ReadCsvToDictList() returns (data: seq<Row>)
      ensures data == rows
    {
      data := rows;
    }

    /** `update_csv`: every existing row takes the fields of the update rows with its title,
        later updates winning; the table is then written back. */
    method UpdateCsv(updatedData: seq<Row>) returns (r: Outcome<()>)
      requires Valid()
      modifies this
      ensures Valid()
      ensures |old(rows)| > 0 && UpdateLacksTitle(updatedData) ==> r == Raised(KeyError) && rows == old(rows)
      ensures !(|old(rows)| > 0 && UpdateLacksTitle(updatedData)) ==>
        rows == Written(MergedRows(old(rows), updatedData))
        && r == if FirstForeignRow(MergedRows(old(rows), updatedData)).None? then Ok(()) else Raised(ValueError)
    {
      var existingData := ReadCsvToDictList();
      var merged: seq<Row> := [];
      for i := 0 to |existingData|
        invariant rows == old(rows) == existingData
        invariant merged == MergedRows(existingData[..i], updatedData)
        invariant i > 0 ==> !UpdateLacksTitle(updatedData)
      {
        var existingRow := MergeRow(existingData[i], updatedData);
        if existingRow.Raised? {
          return Raised(KeyError);
        }
        merged := merged + [existingRow.value];
        assert existingData[..i + 1][..i] == existingData[..i];
      }
      assert existingData[..|existingData|] == existingData;
      r := WriteCsv(merged);
    }

    /** The inner loop of `update_csv` for one existing row: `existing_row.update(u)` for each
        update `u` with the same title, looking up every update's title on the way. */
    static method MergeRow(existingRow: Row, updatedData: seq<Row>) returns (r: Outcome<Row>)
      requires "title" in existingRow
      ensures UpdateLacksTitle(updatedData) <==> r == Raised(KeyError)
      ensures !UpdateLacksTitle(updatedData) ==> r == Ok(MergeAll(existingRow, updatedData))
    {
      var row := existingRow;
      for j := 0 to |updatedData|
        invariant row == MergeAll(existingRow, updatedData[..j])
        invariant forall l :: 0 <= l < j ==> "title" in updatedData[l]
      {
        var updatedRow := updatedData[j];
        if "title" !in updatedRow {
          return Raised(KeyError);
        }
        MergeKeys(existingRow, updatedData[..j]);
        assert updatedData[..j + 1][..j] == updatedData[..j];
        if row["title"] == updatedRow["title"] {
          row := row + updatedRow;
        }
      }
      assert updatedData[..|updatedData|] == updatedData;
      r := Ok(row);
    }

    /** `add_data_csv`: the existing rows followed by the new ones. */
    method AddDataCsv(newData: seq<Row>) returns (r: Outcome<()>)
      requires Valid()
      modifies this
      ensures Valid()
      ensures rows == Written(old(rows) + newData)
      ensures r == if FirstForeignRow(newData).None? then Ok(()) else Raised(ValueError)
      ensures FirstForeignRow(newData).None? ==> rows == old(rows) + NormalisedRows(newData)
    {
      var existingData := ReadCsvToDictList();
      var combinedData := existingData + newData;
      ForeignRowOnlyInNew(existingData, newData);
      r := WriteCsv(combinedData);
      if FirstForeignRow(newData).None? {
        AppendWritten(existingData, newData);
      }
    }

    /** `create_new_result_entry`: appends one default entry for the title. */
    method CreateNewResultEntry(title: string)
      requires Valid()
      modifies this
      ensures Valid()
      ensures rows == old(rows) + [DefaultEntry(title)]
    {
      var resultList := [DefaultEntry(title)];
      assert !HasForeignField(resultList[0]);
      assert FirstForeignRow(resultList) == None;
      var _ := AddDataCsv(resultList);
      NormalisedComplete(DefaultEntry(title));
    }

    /** `get_result_list`: the six fields of the last row with the title; KeyError when no row
        has it, because the row looked at is then the empty dictionary. */
    method GetResultList(title: string) returns (r: Outcome<seq<Row>>)
      requires Valid()
      ensures LastMatch(rows, title).None? <==> r == Raised(KeyError)
      ensures LastMatch(rows, title).Some? ==> r == Ok([rows[LastMatch(rows, title).value]])
    {
      var resultRow: Row := map[];
      var found: Option<nat> := None;
      var data := ReadCsvToDictList();
      for i := 0 to |data|
        invariant found == LastMatch(data[..i], title)
        invariant found.None? ==> resultRow == map[]
        invariant found.Some? ==> resultRow == data[found.value]
      {
        assert data[..i + 1][..i] == data[..i];
        if data[i]["title"] == PyStr(title) {
          resultRow := data[i];
          found := Some(i);
        }
      }
      assert data[..|data|] == data;
      if "title" !in resultRow {
        assert found.None?;
        return Raised(KeyError);
      }
      assert resultRow.Keys == HeaderSet();
      r := Ok([SixFields(resultRow)]);
      assert SixFields(resultRow) == resultRow;
    }

    /** `reset_results`: the table is emptied. */
    method ResetResults()
      modifies this
      ensures Valid()
      ensures rows == []
    {
      var _ := WriteCsv([]);
    }
  }

  /** Updates whose fields are header fields keep every row complete, so the merged table is
      written back exactly. */
  lemma UpdateWritesMerged(rows: seq<Row>, updates: seq<Row>)
    requires forall i :: 0 <= i < |rows| ==> rows[i].Keys == HeaderSet()
    requires forall j :: 0 <= j < |updates| ==> updates[j].Keys <= HeaderSet()
    ensures FirstForeignRow(MergedRows(rows, updates)).None?
    ensures Written(MergedRows(rows, updates)) == MergedRows(rows, updates)
  {
    var merged := MergedRows(rows, updates);
    forall i | 0 <= i < |rows| ensures merged[i].Keys == HeaderSet() {
      MergeKeys(rows[i], updates);
    }
    forall i | 0 <= i < |rows| ensures !HasForeignField(merged[i]) && Normalised(merged[i]) == merged[i] {
      NormalisedComplete(merged[i]);
    }
  }

  /** Appended to a complete table, new rows are refused exactly when one of them is. */
  lemma ForeignRowOnlyInNew(existing: seq<Row>, newData: seq<Row>)
    requires forall i :: 0 <= i < |existing| ==> existing[i].Keys == HeaderSet()
    ensures FirstForeignRow(existing + newData).None? <==> FirstForeignRow(newData).None?
  {
    var all := existing + newData;
    if FirstForeignRow(newData).Some? {
      var j := FirstForeignRow(newData).value;
      assert all[|existing| + j] == newData[j];
    } else {
      forall i | 0 <= i < |all| ensures !HasForeignField(all[i]) {
        if i >= |existing| {
          assert all[i] == newData[i - |existing|];
        }
      }
    }
  }

  /** Appending rows the writer accepts to a complete table. */
  lemma AppendWritten(existing: seq<Row>, newData: seq<Row>)
    requires forall i :: 0 <= i < |existing| ==> existing[i].Keys == HeaderSet()
    requires FirstForeignRow(newData).None?
    ensures FirstForeignRow(existing + newData).None?
    ensures Written(existing + newData) == existing + NormalisedRows(newData)
  {
    var all := existing + newData;
    forall i | 0 <= i < |all| ensures !HasForeignField(all[i]) {
      if i >= |existing| {
        assert all[i] == newData[i - |existing|];
      }
    }
    forall i | 0 <= i < |all| ensures NormalisedRows(all)[i] == (existing + NormalisedRows(newData))[i] {
      if i < |existing| {
        NormalisedComplete(existing[i]);
      }
    }
  }
}
