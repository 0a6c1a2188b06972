/** The batch job that finds the clinical-data Structured Report of a
    patient, reads its "attribute: value" lines into a dictionary and
    appends them as one row of ClinicalData.csv. */
module ClinicalDataSr2Csv {
  import opened Common
  import opened Dicom

  /** SOP Class UID of a Comprehensive SR. */
  const ComprehensiveSrClass := "1.2.840.10008.5.1.4.1.1.88.33"
  /** SeriesDescription that marks the SR as clinical data. */
  const ClinicalDataDescription := "CLINICAL-DATA"

  predicate IsClinicalDataSr(ds: SrDataset)
  {
    ds.sopClassUid == ComprehensiveSrClass && ds.seriesDescription == ClinicalDataDescription
  }

  /** `find_clinical_data_sr` over the container's datasets in iteration
      order: the first clinical-data SR, or None. */
  function FindClinicalDataSr(datasets: seq<SrDataset>): (r: Option<SrDataset>)
    ensures r.None? <==> forall i :: 0 <= i < |datasets| ==> !IsClinicalDataSr(datasets[i])
    ensures r.Some? ==> exists i :: (0 <= i < |datasets| && datasets[i] == r.value
      && IsClinicalDataSr(datasets[i]) && forall j :: 0 <= j < i ==> !IsClinicalDataSr(datasets[j]))
  {
    if datasets == [] then None
    else if IsClinicalDataSr(datasets[0]) then Some(datasets[0])
    else
      var r := FindClinicalDataSr(datasets[1..]);
      assert r.Some? ==> exists i :: (0 < i < |datasets| && datasets[i] == r.value
        && IsClinicalDataSr(datasets[i]) && forall j :: 0 <= j < i ==> !IsClinicalDataSr(datasets[j])) by {
        if r.Some? {
          var i :| 0 <= i < |datasets| - 1 && datasets[1..][i] == r.value
            && IsClinicalDataSr(datasets[1..][i]) && forall j :: 0 <= j < i ==> !IsClinicalDataSr(datasets[1..][j]);
          assert forall j :: 1 <= j < i + 1 ==> datasets[j] == datasets[1..][j - 1];
        }
      }
      r
  }

  /** Position of the first `c` in `s`. */
  function IndexOf(s: string, c: char): (r: Option<nat>)
    ensures r.Some? ==> r.value < |s| && s[r.value] == c && c !in s[..r.value]
    ensures r.None? <==> c !in s
  {
    if s == [] then None
    else if s[0] == c then Some(0)
    else match IndexOf(s[1..], c)
      case None => None
      case Some(i) =>
        assert s[..i + 1] == [s[0]] + s[1..][..i];
        Some(i + 1)
  }

  /** Python's `s.split(sep)` for a one-character separator. */
  function Split(s: string, sep: char): (parts: seq<string>)
    ensures |parts| >= 1
    ensures forall p :: p in parts ==> sep !in p
    ensures sep in s <==> |parts| >= 2
    decreases |s|
  {
    match IndexOf(s, sep)
    case None => [s]
    case Some(i) => [s[..i]] + Split(s[i + 1..], sep)
  }

  /** Python's `sep.join(parts)`. */
  function Join(parts: seq<string>, sep: char): string
    requires |parts| >= 1
  {
    if |parts| == 1 then parts[0] else parts[0] + [sep] + Join(parts[1..], sep)
  }

  /** Joining the pieces gives back the text. */
  lemma {:induction false} JoinSplit(s: string, sep: char)
    ensures Join(Split(s, sep), sep) == s
    decreases |s|
  {
    match IndexOf(s, sep)
    case None =>
    case Some(i) =>
      JoinSplit(s[i + 1..], sep);
      assert s == s[..i] + [sep] + s[i + 1..];
  }

  lemma IndexOfJoined(a: string, sep: char, b: string)
    requires sep !in a
    ensures IndexOf(a + [sep] + b, sep) == Some(|a|)
  {
    var s := a + [sep] + b;
    assert s[|a|] == sep;
    assert forall j :: 0 <= j < |a| ==> s[j] == a[j];
  }

  /** Splitting pieces without a separator after joining them gives them
      back. */
  lemma {:induction false} SplitJoin(parts: seq<string>, sep: char)
    requires |parts| >= 1
    requires forall p :: p in parts ==> sep !in p
    ensures Split(Join(parts, sep), sep) == parts
  {
    if |parts| > 1 {
      var rest := Join(parts[1..], sep);
      var s := parts[0] + [sep] + rest;
      assert Join(parts, sep) == s;
      assert Split(s, sep) == [parts[0]] + Split(rest, sep) by {
        IndexOfJoined(parts[0], sep, rest);
        assert s[|parts[0]| + 1..] == rest;
        assert s[..|parts[0]|] == parts[0];
      }
      SplitJoin(parts[1..], sep);
      assert parts == [parts[0]] + parts[1..];
    } else {
      assert sep !in parts[0];
    }
  }

  /** `s[1:]`, which is empty for an empty `s`. */
  function DropFirst(s: string): (r: string)
    ensures forall c :: c in r ==> c in s
  {
    if s == [] then [] else s[1..]
  }

  /** A line that `read_clinical_data_from_sr` can index: empty, or with a
      colon so that `row_data[1]` exists. */
  predicate RowsReadable(lines: seq<string>)
  {
    forall i :: 0 <= i < |lines| && lines[i] != "" ==> ':' in lines[i]
  }

  /** `row_data[0]`: the text before the first colon. */
  function RowKey(line: string): string
  {
    Split(line, ':')[0]
  }

  /** The key is a colon-free prefix of the line, ended by the first colon
      or by the end of the line. */
  lemma {:induction false} RowKeyBeforeColon(line: string)
    ensures RowKey(line) <= line && ':' !in RowKey(line)
    ensures |RowKey(line)| < |line| ==> line[|RowKey(line)|] == ':'
  {
    var parts := Split(line, ':');
    assert parts[0] in parts;
    match IndexOf(line, ':')
    case None =>
    case Some(i) =>
  }

  /** `row_data[1][1:]`: the text between the first and the second
      colon, without its first character. */
  function RowValue(line: string): (v: string)
    requires ':' in line
    ensures ':' !in v
  {
    var parts := Split(line, ':');
    assert parts[1] in parts;
    DropFirst(parts[1])
  }

  /** The value is read from the text after the first colon: it is the key
      of that remainder, without its first character. */
  lemma RowValueAfterKey(line: string)
    requires ':' in line
    ensures |RowKey(line)| < |line|
    ensures RowValue(line) == DropFirst(RowKey(line[|RowKey(line)| + 1..]))
  {
  }

  /** The key is the text before the first colon, and the value the text
      between the first and the second colon without its first
      character; so a line "attribute: value" reads back as its parts. */
  lemma RowRoundTrip(key: string, value: string, rest: seq<string>)
    requires ':' !in key && ':' !in value
    requires forall p :: p in rest ==> ':' !in p
    ensures RowKey(Join([key, " " + value] + rest, ':')) == key
    ensures RowValue(Join([key, " " + value] + rest, ':')) == value
  {
    var parts := [key, " " + value] + rest;
    assert forall p :: p in parts ==> ':' !in p;
    SplitJoin(parts, ':');
    assert (" " + value)[1..] == value;
  }

  /** The dictionary the line loop builds, line by line. */
  function ParseRows(lines: seq<string>): (d: Dict<string, string>)
    requires RowsReadable(lines)
    ensures DistinctKeys(d)
  {
    if lines == [] then []
    else
      var pre := lines[..|lines| - 1];
      assert forall i :: 0 <= i < |pre| ==> pre[i] == lines[i];
      var d := ParseRows(pre);
      var line := Last(lines);
      if line == "" then d else Put(d, RowKey(line), RowValue(line))
  }

  /** Position of the last non-empty line whose key is `k`. */
  function LastRowWith(lines: seq<string>, k: string): (r: Option<nat>)
    ensures r.Some? ==> r.value < |lines| && lines[r.value] != "" && RowKey(lines[r.value]) == k
    ensures r.Some? ==> forall j :: r.value < j < |lines| && lines[j] != "" ==> RowKey(lines[j]) != k
    ensures r.None? ==> forall j :: 0 <= j < |lines| && lines[j] != "" ==> RowKey(lines[j]) != k
  {
    if lines == [] then None
    else if Last(lines) != "" && RowKey(Last(lines)) == k then Some(|lines| - 1)
    else
      var pre := lines[..|lines| - 1];
      assert forall j :: 0 <= j < |pre| ==> pre[j] == lines[j];
      LastRowWith(pre, k)
  }

  /** Empty lines add nothing; a key is present exactly when some
      non-empty line carries it, and its value is that of the last such
      line: a later line overwrites an earlier one. */
  lemma {:induction false} ParseRowsLookup(lines: seq<string>, k: string)
    requires RowsReadable(lines)
    ensures Get(ParseRows(lines), k) ==
      match LastRowWith(lines, k)
      case None => None
      case Some(i) => Some(RowValue(lines[i]))
  {
    if lines != [] {
      var n := |lines| - 1;
      var pre := lines[..n];
      assert forall i :: 0 <= i < n ==> pre[i] == lines[i];
      ParseRowsLookup(pre, k);
      var line := lines[n];
      if line != "" {
        var d := ParseRows(pre);
        if RowKey(line) == k {
          GetPutSame(d, k, RowValue(line));
        } else {
          GetPutOther(d, RowKey(line), RowValue(line), k);
        }
      }
    }
  }

  /** The text of a dictionary in the "attribute: value" line format. */
  function RenderRows(d: Dict<string, string>): seq<string>
  {
    seq(|d|, i requires 0 <= i < |d| => d[i].0 + ": " + d[i].1)
  }

  /** One rendered line "key: value" reads back as its key and value. */
  lemma RenderedRow(key: string, value: string)
    requires ':' !in key && ':' !in value
    ensures ':' in key + ": " + value
    ensures RowKey(key + ": " + value) == key && RowValue(key + ": " + value) == value
  {
    assert key + ": " + value == Join([key, " " + value], ':');
    RowRoundTrip(key, value, []);
    assert (key + ": " + value)[|key|] == ':';
  }

  /** A dictionary whose keys and values hold no colon and whose keys are
      distinct reads back from its own lines as itself. */
  lemma {:induction false} ParseRenderedRows(d: Dict<string, string>)
    requires DistinctKeys(d)
    requires forall i :: 0 <= i < |d| ==> ':' !in d[i].0 && ':' !in d[i].1
    ensures RowsReadable(RenderRows(d))
    ensures ParseRows(RenderRows(d)) == d
  {
    RenderedRowsReadable(d);
    if d != [] {
      var lines := RenderRows(d);
      var n := |d| - 1;
      var pre := d[..n];
      assert RenderRows(pre) == lines[..n];
      ParseRenderedRows(pre);
      assert ParseRows(lines) == Put(pre, d[n].0, d[n].1) by {
        assert Last(lines) == d[n].0 + ": " + d[n].1;
        RenderedRow(d[n].0, d[n].1);
        LastKeyFresh(d);
      }
      assert d == pre + [d[n]];
    }
  }

  /** Every rendered line has a colon. */
  lemma RenderedRowsReadable(d: Dict<string, string>)
    requires forall i :: 0 <= i < |d| ==> ':' !in d[i].0 && ':' !in d[i].1
    ensures RowsReadable(RenderRows(d))
  {
    forall i | 0 <= i < |d|
      ensures ':' in RenderRows(d)[i]
    {
      RenderedRow(d[i].0, d[i].1);
    }
  }

  /** In a dictionary with distinct keys, the last key is not among the
      earlier ones. */
  lemma LastKeyFresh<V>(d: Dict<string, V>)
    requires DistinctKeys(d) && d != []
    ensures Find(d[..|d| - 1], d[|d| - 1].0).None?
  {
    var n := |d| - 1;
    assert forall j :: 0 <= j < n ==> d[..n][j].0 != d[n].0;
  }

  /** A Structured Report that `read_clinical_data_from_sr` reads without
      raising: it has a first content item, and each of its non-empty
      lines has a colon. */
  predicate SrReadable(srCd: SrDataset)
  {
    |srCd.contentSequence| > 0 && RowsReadable(Split(srCd.contentSequence[0].textValue, '\n'))
  }

  /** `read_clinical_data_from_sr`. */
  method ReadClinicalDataFromSr(srCd: SrDataset) returns (dataDict: Dict<string, string>)
    requires SrReadable(srCd)
    ensures dataDict == ParseRows(Split(srCd.contentSequence[0].textValue, '\n'))
    ensures DistinctKeys(dataDict)
  {
    var data := srCd.contentSequence[0].textValue;
    dataDict := [];
    var dataList := Split(data, '\n');
    for row := 0 to |dataList|
      invariant RowsReadable(dataList[..row])
      invariant dataDict == ParseRows(dataList[..row])
    {
      assert dataList[..row + 1][..row] == dataList[..row];
      assert forall i :: 0 <= i <= row ==> dataList[..row + 1][i] == dataList[i];
      if dataList[row] == "" {
        continue;
      }
      var rowData := Split(dataList[row], ':');
      dataDict := Put(dataDict, rowData[0], DropFirst(rowData[1]));
    }
    assert dataList[..|dataList|] == dataList;
  }

  /** The two lists `write_to_csv` builds from the dictionary. */
  method HeaderAndValues(dataDict: Dict<string, string>) returns (attribs: seq<string>, values: seq<string>)
    ensures |attribs| == |values| == |dataDict|
    ensures attribs == Keys(dataDict) && values == Values(dataDict)
  {
    attribs, values := [], [];
    for k := 0 to |dataDict|
      invariant attribs == Keys(dataDict[..k]) && values == Values(dataDict[..k])
    {
      attribs := attribs + [dataDict[k].0];
      values := values + [dataDict[k].1];
    }
    assert dataDict[..|dataDict|] == dataDict;
  }

  /** The rows of ClinicalData.csv after one `write_to_csv`; None stands
      for a file that does not exist yet. */
  function CsvAfterWrite(file: Option<seq<seq<string>>>, dataDict: Dict<string, string>): (rows: seq<seq<string>>)
    ensures file.None? ==> rows == [Keys(dataDict), Values(dataDict)]
    ensures file.Some? ==> |rows| == |file.value| + 1 && rows[..|file.value|] == file.value
    ensures Last(rows) == Values(dataDict)
  {
    match file
    case None => [Keys(dataDict), Values(dataDict)]
    case Some(existing) => existing + [Values(dataDict)]
  }

  class ClinicalDataSR2CSV {
    /** What `load_images` reported. */
    var ready: bool
    /** The datasets of the patient container, in iteration order. */
    var container: seq<SrDataset>
    var summary: string
    /** ClinicalData.csv in the output directory, as rows of cells. */
    var csvFile: Option<seq<seq<string>>>

    constructor (ready: bool, container: seq<SrDataset>, csvFile: Option<seq<seq<string>>>)
      ensures this.ready == ready && this.container == container && this.csvFile == csvFile
      ensures summary == ""
    {
      this.ready := ready;
      this.container := container;
      this.csvFile := csvFile;
      summary := "";
    }

    /** `write_to_csv`: a header row only when the file is new, then one
        row of values; existing rows stay as they are. */
    method WriteToCsv(dataDict: Dict<string, string>)
      modifies this`csvFile
      ensures csvFile == Some(CsvAfterWrite(old(csvFile), dataDict))
    {
      var attribs, values := HeaderAndValues(dataDict);
      var writeHeader := false;
      if csvFile.None? {
        writeHeader := true;
      }
      var rows := if csvFile.Some? then csvFile.value else [];
      if writeHeader {
        rows := rows + [attribs];
      }
      rows := rows + [values];
      assert writeHeader ==> rows == [attribs, values];
      csvFile := Some(rows);
    }

    /** `start`, where the three arguments say whether the interrupt flag
        is set at the three checkpoints. */
    method Start(interruptAtStart: bool, interruptBeforeRead: bool, interruptBeforeWrite: bool)
      returns (ok: bool)
      requires !interruptAtStart && ready && FindClinicalDataSr(container).Some? && !interruptBeforeRead
        ==> SrReadable(FindClinicalDataSr(container).value)
      modifies this`container, this`summary, this`csvFile
      ensures var found := FindClinicalDataSr(old(container));
        ok <==> !interruptAtStart && ready && found.Some? && !interruptBeforeRead && !interruptBeforeWrite
      ensures interruptAtStart ==>
        summary == "INTERRUPT" && container == [] && csvFile == old(csvFile)
      ensures !interruptAtStart && !ready ==>
        summary == "SKIP" && container == old(container) && csvFile == old(csvFile)
      ensures !interruptAtStart && ready && FindClinicalDataSr(old(container)).None? ==>
        summary == "CD_NO_SR" && container == old(container) && csvFile == old(csvFile)
      ensures (!interruptAtStart && ready && FindClinicalDataSr(old(container)).Some?
        && (interruptBeforeRead || interruptBeforeWrite)) ==>
        summary == "INTERRUPT" && container == [] && csvFile == old(csvFile)
      ensures ok ==> summary == old(summary) && container == old(container)
      ensures ok ==> csvFile == Some(CsvAfterWrite(old(csvFile),
        ParseRows(Split(FindClinicalDataSr(old(container)).value.contentSequence[0].textValue, '\n'))))
    {
      if interruptAtStart {
        container := [];
        summary := "INTERRUPT";
        return false;
      }
      if !ready {
        summary := "SKIP";
        return false;
      }
      var cdSr := FindClinicalDataSr(container);
      if cdSr.None? {
        summary := "CD_NO_SR";
        return false;
      }
      if interruptBeforeRead {
        container := [];
        summary := "INTERRUPT";
        return false;
      }
      var dataDict := ReadClinicalDataFromSr(cdSr.value);
      if interruptBeforeWrite {
        container := [];
        summary := "INTERRUPT";
        return false;
      }
      WriteToCsv(dataDict);
      return true;
    }
  }
}
