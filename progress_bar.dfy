/** The loader thread `Extended` of the progress-bar view: it scans a
    directory, classifies the DICOM files by modality, and reports
    progress through `my_callback`, which keeps the shown percentage from
    going backwards. */
module ProgressBar {
  import opened Common
  import opened Dicom
  import NaturalSort
  import Contours
  import Dvh

  /** Keys of `read_data_dict` and `file_names_dict`: an integer per CT
      slice, and the strings 'rtss', 'rtdose' and 'rtplan'. */
  datatype FileKey = Slice(index: nat) | Rtss | Rtdose | Rtplan

  /** `int(temp_file_size / file_size * 10)`, in exact arithmetic: the
      largest integer not above ten times the ratio. */
  function RawPercent(tempFileSize: nat, fileSize: nat): (p: nat)
    requires fileSize > 0
    ensures p * fileSize <= tempFileSize * 10 < (p + 1) * fileSize
  {
    tempFileSize * 10 / fileSize
  }

  /** The percentage `my_callback` emits and stores in `previous`. */
  function CallbackStep(previous: int, raw: int): (percent: int)
    ensures percent >= previous
    ensures raw < previous || raw == 100 ==> percent == previous
    ensures raw == previous && raw != 100 ==> percent == previous + 1
    ensures raw > previous && raw != 100 ==> percent == raw
    ensures previous <= 100 && raw <= 100 ==> percent <= 100
  {
    if raw < previous || raw == 100 then previous
    else if raw == previous && raw < 98 then raw + 1
    else if raw == previous then raw + 1
    else raw
  }

  /** The percentage shown after the values `s` were emitted from
      `previous`. */
  function After(previous: int, s: seq<int>): int
  {
    if s == [] then previous else Last(s)
  }

  /** The values `my_callback` emits, in order, when it is called with
      the running totals `totals`, starting from `previous`. */
  function Steps(previous: int, totals: seq<nat>, fileSize: nat): (s: seq<int>)
    requires fileSize > 0 || totals == []
    ensures |s| == |totals|
  {
    if totals == [] then []
    else
      var s := Steps(previous, totals[..|totals| - 1], fileSize);
      s + [CallbackStep(After(previous, s), RawPercent(Last(totals), fileSize))]
  }

  /** The emitted values never drop below the starting percentage, never
      go backwards, and end at the percentage `previous` then holds. */
  lemma {:induction false} StepsMonotone(previous: int, totals: seq<nat>, fileSize: nat)
    requires fileSize > 0 || totals == []
    ensures var s := Steps(previous, totals, fileSize);
      && (forall i :: 0 <= i < |s| ==> previous <= s[i] <= After(previous, s))
      && (forall i, j :: 0 <= i < j < |s| ==> s[i] <= s[j])
      && previous <= After(previous, s)
  {
    if totals != [] {
      StepsMonotone(previous, totals[..|totals| - 1], fileSize);
    }
  }

  /** One more call of `my_callback` emits one more step. */
  lemma StepsSnoc(previous: int, totals: seq<nat>, t: nat, fileSize: nat)
    requires fileSize > 0
    ensures var s := Steps(previous, totals, fileSize);
      Steps(previous, totals + [t], fileSize) == s + [CallbackStep(After(previous, s), RawPercent(t, fileSize))]
  {
    assert (totals + [t])[..|totals|] == totals;
  }

  /** A progress display that never went backwards and whose latest
      value is `p`. */
  ghost predicate Progressive(e: seq<int>, p: int)
  {
    && p >= 0
    && (forall i, j :: 0 <= i < j < |e| ==> e[i] <= e[j])
    && (forall i :: 0 <= i < |e| ==> e[i] <= p)
  }

  /** Emitting the steps of further calls keeps the display progressive. */
  lemma ProgressiveSteps(e0: seq<int>, p0: int, totals: seq<nat>, fileSize: nat)
    requires Progressive(e0, p0) && (fileSize > 0 || totals == [])
    ensures var s := Steps(p0, totals, fileSize);
      Progressive(e0 + s, After(p0, s))
  {
    var s := Steps(p0, totals, fileSize);
    StepsMonotone(p0, totals, fileSize);
    var e, p := e0 + s, After(p0, s);
    forall i, j | 0 <= i < j < |e|
      ensures e[i] <= e[j]
    {
      if i < |e0| <= j {
        assert e[i] <= p0 <= s[j - |e0|];
      } else if |e0| <= i {
        assert e[i] == s[i - |e0|] && e[j] == s[j - |e0|];
      }
    }
  }

  /** The key an RT modality is stored under. */
  function SingletonKey(modality: string): Option<FileKey>
  {
    if modality == "RTSTRUCT" then Some(Rtss)
    else if modality == "RTDOSE" then Some(Rtdose)
    else if modality == "RTPLAN" then Some(Rtplan)
    else None
  }

  /** The state of the scan: both dictionaries, the CT counter `i` and
      the number of elements added to `copied`. */
  datatype Scan = Scan(
    readData: map<FileKey, Dataset>,
    fileNames: map<FileKey, string>,
    ctCount: nat,
    size: nat)

  /** The entry a parsed file adds: the next CT key, or the key of its
      RT modality, or none. */
  function StoreParsed(st: Scan, file: string, ds: Dataset): (r: Scan)
    ensures r.size == st.size
    ensures r.ctCount == st.ctCount + (if ds.modality == "CT" then 1 else 0)
    ensures st.readData.Keys <= r.readData.Keys && st.fileNames.Keys <= r.fileNames.Keys
    ensures st.readData.Keys == st.fileNames.Keys ==> r.readData.Keys == r.fileNames.Keys
  {
    if ds.modality == "CT" then
      Scan(st.readData[Slice(st.ctCount) := ds], st.fileNames[Slice(st.ctCount) := file],
           st.ctCount + 1, st.size)
    else match SingletonKey(ds.modality)
      case Some(k) => st.(readData := st.readData[k := ds], fileNames := st.fileNames[k := file])
      case None => st
  }

  /** One iteration of the scan loop. */
  function ScanFile(st: Scan, file: string, read: string -> Option<Dataset>): (r: Scan)
    ensures st.size <= r.size && st.ctCount <= r.ctCount <= st.ctCount + 1
    ensures st.readData.Keys <= r.readData.Keys && st.fileNames.Keys <= r.fileNames.Keys
  {
    match read(file)
    case None => st
    case Some(ds) => StoreParsed(st, file, ds).(size := st.size + ds.length)
  }

  /** The scan over the files in the given order. */
  function Classify(files: seq<string>, read: string -> Option<Dataset>): (c: Scan)
    ensures c.ctCount <= |files|
    ensures c.readData.Keys == c.fileNames.Keys
  {
    if files == [] then Scan(map[], map[], 0, 0)
    else ScanFile(Classify(files[..|files| - 1], read), Last(files), read)
  }

  lemma ClassifySnoc(files: seq<string>, n: nat, read: string -> Option<Dataset>)
    requires n < |files|
    ensures Classify(files[..n + 1], read) == ScanFile(Classify(files[..n], read), files[n], read)
  {
    assert files[..n + 1][..n] == files[..n];
  }

  /** The files that parse with the given modality, in order. */
  function OfModality(files: seq<string>, read: string -> Option<Dataset>, modality: string): seq<string>
  {
    if files == [] then []
    else
      OfModality(files[..|files| - 1], read, modality)
        + (if read(Last(files)).Some? && read(Last(files)).value.modality == modality then [Last(files)] else [])
  }

  /** The total length of the files that parse. */
  function ParsedLength(files: seq<string>, read: string -> Option<Dataset>): nat
  {
    if files == [] then 0
    else
      ParsedLength(files[..|files| - 1], read)
        + (match read(Last(files)) case Some(ds) => ds.length case None => 0)
  }

  /** The number of files that parse. */
  function ParsedCount(files: seq<string>, read: string -> Option<Dataset>): (n: nat)
    ensures n <= |files|
    ensures (forall i :: 0 <= i < |files| ==> read(files[i]).None?) ==> n == 0
  {
    if files == [] then 0
    else ParsedCount(files[..|files| - 1], read) + (if read(Last(files)).Some? then 1 else 0)
  }

  /** The running values of `copied`, from `base`, with which the scan
      calls `my_callback`: one per file that parses. */
  function ParsedTotals(files: seq<string>, read: string -> Option<Dataset>, base: nat): (t: seq<nat>)
    ensures |t| == ParsedCount(files, read)
  {
    if files == [] then []
    else
      ParsedTotals(files[..|files| - 1], read, base)
        + (if read(Last(files)).Some? then [base + ParsedLength(files, read)] else [])
  }

  lemma ParsedTotalsSnoc(files: seq<string>, n: nat, read: string -> Option<Dataset>, base: nat)
    requires n < |files|
    ensures ParsedTotals(files[..n + 1], read, base) == ParsedTotals(files[..n], read, base)
      + (if read(files[n]).Some? then [base + ParsedLength(files[..n + 1], read)] else [])
  {
    assert files[..n + 1][..n] == files[..n];
  }

  /** A file that does not parse changes nothing; a parsed file of another
      modality adds its length and no entry. */
  lemma ScanFileSkips(st: Scan, file: string, read: string -> Option<Dataset>)
    ensures read(file).None? ==> ScanFile(st, file, read) == st
    ensures read(file).Some? && read(file).value.modality != "CT" && SingletonKey(read(file).value.modality).None? ==>
      ScanFile(st, file, read) == st.(size := st.size + read(file).value.length)
  {
  }

  /** CT files receive the keys 0, 1, ..., k-1 in file order; each entry
      holds the file and its parse. */
  lemma {:induction false} ClassifyCt(files: seq<string>, read: string -> Option<Dataset>)
    ensures var c, cts := Classify(files, read), OfModality(files, read, "CT");
      && c.ctCount == |cts|
      && (forall j: nat :: Slice(j) in c.fileNames <==> j < |cts|)
      && (forall j: nat :: j < |cts| ==> c.fileNames[Slice(j)] == cts[j])
  {
    if files != [] {
      ClassifyCt(files[..|files| - 1], read);
    }
  }

  /** 'rtss', 'rtdose' and 'rtplan' are present exactly when a file of
      that modality parsed, and hold the last such file. */
  lemma {:induction false} ClassifySingleton(files: seq<string>, read: string -> Option<Dataset>, modality: string)
    requires SingletonKey(modality).Some?
    ensures var c, k, of := Classify(files, read), SingletonKey(modality).value, OfModality(files, read, modality);
      && (k in c.fileNames <==> of != [])
      && (k in c.fileNames ==> c.fileNames[k] == Last(of))
  {
    if files != [] {
      ClassifySingleton(files[..|files| - 1], read, modality);
    }
  }

  /** The size the scan adds is the total length of the parsed files. */
  lemma {:induction false} ClassifySize(files: seq<string>, read: string -> Option<Dataset>)
    ensures Classify(files, read).size == ParsedLength(files, read)
  {
    if files != [] {
      ClassifySize(files[..|files| - 1], read);
    }
  }

  /** Both dictionaries have the same keys, and each stored dataset is the
      parse of the stored file; `copied` grows by the parsed lengths. */
  lemma {:induction false} ClassifyEntries(files: seq<string>, read: string -> Option<Dataset>)
    ensures var c := Classify(files, read);
      && c.readData.Keys == c.fileNames.Keys
      && (forall k :: k in c.fileNames ==> read(c.fileNames[k]) == Some(c.readData[k]))
      && c.size == ParsedLength(files, read)
  {
    ClassifySize(files, read);
    if files != [] {
      ClassifyEntries(files[..|files| - 1], read);
    }
  }

  /** What `run` does once the scan is over. */
  datatype RunStatus =
    | IncorrectDirectory
    | MissingFiles(message: string)
    | RtdoseKeyError
    | Load

  /** The branch of `run` taken on `file_names_dict`: an empty result
      signals an incorrect directory, a missing RT Structure Set signals
      missing files, and a structure set without a dose makes
      `file_names_dict['rtdose']` raise. */
  function RunStatusOf(fileNames: map<FileKey, string>): (st: RunStatus)
    ensures st == IncorrectDirectory <==> fileNames == map[]
    ensures st.MissingFiles? <==> fileNames != map[] && Rtss !in fileNames
    ensures st == MissingFiles("RTStruct and RTDose files not found in selected directory")
      <==> fileNames != map[] && Rtss !in fileNames && Rtdose !in fileNames
    ensures st == MissingFiles("RTStruct file not found in selected directory")
      <==> fileNames != map[] && Rtss !in fileNames && Rtdose in fileNames
    ensures st == RtdoseKeyError <==> Rtss in fileNames && Rtdose !in fileNames
    ensures st == Load <==> Rtss in fileNames && Rtdose in fileNames
  {
    if fileNames == map[] then IncorrectDirectory
    else if Rtss !in fileNames then
      if Rtdose !in fileNames then MissingFiles("RTStruct and RTDose files not found in selected directory")
      else MissingFiles("RTStruct file not found in selected directory")
    else if Rtdose !in fileNames then RtdoseKeyError
    else Load
  }

  /** The loader goes on to the DVHs exactly when some file parsed as an
      RT Structure Set and some file as an RT Dose. */
  lemma RunLoadsIff(files: seq<string>, read: string -> Option<Dataset>)
    ensures RunStatusOf(Classify(files, read).fileNames) == Load
      <==> OfModality(files, read, "RTSTRUCT") != [] && OfModality(files, read, "RTDOSE") != []
  {
    ClassifySingleton(files, read, "RTSTRUCT");
    ClassifySingleton(files, read, "RTDOSE");
  }

  /** The keys whose datasets `get_pixluts` maps: all but 'rtdose',
      'rtplan' and 'rtss'. */
  function PixlutKeys(keys: set<FileKey>): (r: set<FileKey>)
    ensures forall k :: k in r <==> k in keys && k.Slice?
  {
    set k | k in keys && k !in {Rtdose, Rtplan, Rtss}
  }

  /** After a scan, those keys are exactly the CT slices 0..k-1. */
  lemma PixlutKeysAreSlices(files: seq<string>, read: string -> Option<Dataset>)
    ensures PixlutKeys(Classify(files, read).readData.Keys)
      == set j | 0 <= j < |OfModality(files, read, "CT")| :: Slice(j)
  {
    ClassifyCt(files, read);
    ClassifyEntries(files, read);
    var r := PixlutKeys(Classify(files, read).readData.Keys);
    var n := |OfModality(files, read, "CT")|;
    forall k | k in r
      ensures k in set j | 0 <= j < n :: Slice(j)
    {
      assert k == Slice(k.index);
    }
  }

  /** `len(dict_temp)`: the fields stored per ROI by `get_roi_info`. */
  const RoiRecordFields := 3

  /** The running values of `copied`, from `base`, with which
      `get_roi_info` calls `my_callback`: one per ROI item. */
  function RoiTotals(base: nat, n: nat): (t: seq<nat>)
    ensures |t| == n
    ensures forall j :: 0 <= j < n ==> t[j] == base + RoiRecordFields * (j + 1)
  {
    if n == 0 then [] else RoiTotals(base, n - 1) + [base + RoiRecordFields * n]
  }

  class Extended {
    const fileSize: nat
    var copied: nat
    var previous: int
    var readDataDict: map<FileKey, Dataset>
    var fileNamesDict: map<FileKey, string>
    /** The values sent on `copied_percent_signal`, in order. */
    var emitted: seq<int>

    /** The progress shown never goes backwards and `previous` is the
        latest value shown. */
    ghost predicate Valid()
      reads this
    {
      Progressive(emitted, previous)
    }

    constructor (fileSize: nat)
      ensures Valid()
      ensures this.fileSize == fileSize && copied == 0 && previous == 0 && emitted == []
      ensures readDataDict == map[] && fileNamesDict == map[]
    {
      this.fileSize := fileSize;
      copied := 0;
      previous := 0;
      readDataDict := map[];
      fileNamesDict := map[];
      emitted := [];
    }

    /** `my_callback`; a zero file size makes the division raise. */
    method MyCallback(tempFileSize: nat)
      requires previous >= 0 && fileSize > 0
      modifies this`previous, this`emitted
      ensures previous == CallbackStep(old(previous), RawPercent(tempFileSize, fileSize))
      ensures emitted == old(emitted) + [previous]
    {
      var percent: int := RawPercent(tempFileSize, fileSize);
      if percent < previous || percent == 100 {
        percent := previous;
      } else if percent == previous && percent < 98 {
        percent := percent + 1;
      } else if percent == previous {
        percent := percent + 1;
      }
      emitted := emitted + [percent];
      previous := percent;
    }

    /** `get_datasets` over the directory listing `paths`, with `read`
        standing for `dcmread` (None where it raises). */
    method GetDatasets(paths: seq<string>, read: string -> Option<Dataset>)
      returns (readData: map<FileKey, Dataset>, fileNames: map<FileKey, string>)
      requires Valid()
      requires fileSize > 0 || forall f :: f in paths ==> read(f).None?
      modifies this`copied, this`previous, this`emitted, this`readDataDict, this`fileNamesDict
      ensures Valid()
      ensures var c := Classify(NaturalSort.NaturalSortOf(paths), read);
        readData == c.readData && fileNames == c.fileNames && copied == old(copied) + c.size
      ensures readDataDict == readData && fileNamesDict == fileNames
      ensures fileSize > 0 ==>
        var steps := Steps(old(previous), ParsedTotals(NaturalSort.NaturalSortOf(paths), read, old(copied)), fileSize);
        emitted == old(emitted) + steps && previous == After(old(previous), steps)
      ensures fileSize == 0 ==> emitted == old(emitted) && previous == old(previous)
    {
      readDataDict := map[];
      fileNamesDict := map[];
      var dcmFiles := NaturalSort.NaturalSortOf(paths);
      assert forall n :: 0 <= n < |dcmFiles| ==> dcmFiles[n] in multiset(paths);
      ScanFiles(dcmFiles, read);
      ProgressiveSteps(old(emitted), old(previous), ParsedTotals(dcmFiles, read, old(copied)), fileSize);
      readData, fileNames := readDataDict, fileNamesDict;
    }

    /** The loop of `get_datasets` over the sorted files, entered with
        both dictionaries empty. */
    method ScanFiles(dcmFiles: seq<string>, read: string -> Option<Dataset>)
      requires previous >= 0 && readDataDict == map[] && fileNamesDict == map[]
      requires fileSize > 0 || forall n :: 0 <= n < |dcmFiles| ==> read(dcmFiles[n]).None?
      modifies this`copied, this`previous, this`emitted, this`readDataDict, this`fileNamesDict
      ensures var c := Classify(dcmFiles, read);
        readDataDict == c.readData && fileNamesDict == c.fileNames && copied == old(copied) + c.size
      ensures var steps := Steps(old(previous), ParsedTotals(dcmFiles, read, old(copied)), fileSize);
        emitted == old(emitted) + steps && previous == After(old(previous), steps)
    {
      var i: nat := 0;
      for n := 0 to |dcmFiles|
        invariant previous >= 0 && copied >= old(copied)
        invariant Classify(dcmFiles[..n], read) == Scan(readDataDict, fileNamesDict, i, copied - old(copied))
        invariant var steps := Steps(old(previous), ParsedTotals(dcmFiles[..n], read, old(copied)), fileSize);
          emitted == old(emitted) + steps && previous == After(old(previous), steps)
      {
        assert dcmFiles[..n + 1] == dcmFiles[..n] + [dcmFiles[n]];
        i := LoadFile(dcmFiles[n], read, i, dcmFiles[..n], old(copied), old(emitted), old(previous));
      }
      assert dcmFiles[..|dcmFiles|] == dcmFiles;
    }

    /** One iteration of the scan loop: `dcmread` the file and, when it
        parses, store it, add its length to `copied` and report progress.
        The ghost parameters are the files already scanned, `copied`
        before the loop, and the progress shown before the loop. */
    method LoadFile(file: string, read: string -> Option<Dataset>, i: nat,
                    ghost done: seq<string>, ghost base: nat, ghost e0: seq<int>, ghost p0: int)
      returns (next: nat)
      requires previous >= 0 && base <= copied
      requires fileSize > 0 || (read(file).None? && ParsedTotals(done, read, base) == [])
      requires Classify(done, read) == Scan(readDataDict, fileNamesDict, i, copied - base)
      requires var steps := Steps(p0, ParsedTotals(done, read, base), fileSize);
        emitted == e0 + steps && previous == After(p0, steps)
      modifies this`copied, this`previous, this`emitted, this`readDataDict, this`fileNamesDict
      ensures previous >= 0 && base <= copied
      ensures Classify(done + [file], read) == Scan(readDataDict, fileNamesDict, next, copied - base)
      ensures var steps := Steps(p0, ParsedTotals(done + [file], read, base), fileSize);
        emitted == e0 + steps && previous == After(p0, steps)
    {
      ghost var files := done + [file];
      assert files[..|done|] == done;
      ghost var before := Scan(readDataDict, fileNamesDict, i, copied - base);
      ghost var totals := ParsedTotals(done, read, base);
      next := i;
      match read(file) {
        case None =>
          assert ParsedTotals(files, read, base) == totals;
        case Some(readFile) =>
          next := StoreFile(file, readFile, i);
          copied := copied + readFile.length;
          assert Classify(files, read) == ScanFile(before, file, read)
            == Scan(readDataDict, fileNamesDict, next, copied - base);
          ClassifySize(files, read);
          assert ParsedTotals(files, read, base) == totals + [copied];
          Report(e0, p0, totals);
      }
    }

    /** `callback(self.copied)` at the end of a run of calls with the
        running totals `totals`, which emitted the values after `e0`. */
    method Report(ghost e0: seq<int>, ghost p0: int, ghost totals: seq<nat>)
      requires previous >= 0 && fileSize > 0
      requires emitted == e0 + Steps(p0, totals, fileSize) && previous == After(p0, Steps(p0, totals, fileSize))
      modifies this`previous, this`emitted
      ensures previous >= 0
      ensures var steps := Steps(p0, totals + [copied], fileSize);
        emitted == e0 + steps && previous == After(p0, steps)
    {
      StepsSnoc(p0, totals, copied, fileSize);
      MyCallback(copied);
    }

    /** The modality dispatch in the body of the scan loop. */
    method StoreFile(file: string, readFile: Dataset, i: nat) returns (next: nat)
      modifies this`readDataDict, this`fileNamesDict
      ensures var r := StoreParsed(Scan(old(readDataDict), old(fileNamesDict), i, 0), file, readFile);
        readDataDict == r.readData && fileNamesDict == r.fileNames && next == r.ctCount
    {
      next := i;
      if readFile.modality == "CT" {
        readDataDict := readDataDict[Slice(i) := readFile];
        fileNamesDict := fileNamesDict[Slice(i) := file];
        next := i + 1;
      } else if readFile.modality == "RTSTRUCT" {
        readDataDict := readDataDict[Rtss := readFile];
        fileNamesDict := fileNamesDict[Rtss := file];
      } else if readFile.modality == "RTDOSE" {
        readDataDict := readDataDict[Rtdose := readFile];
        fileNamesDict := fileNamesDict[Rtdose := file];
      } else if readFile.modality == "RTPLAN" {
        readDataDict := readDataDict[Rtplan := readFile];
        fileNamesDict := fileNamesDict[Rtplan := file];
      }
    }

    /** `get_roi_info` over StructureSetROISequence. */
    method GetRoiInfo(dsRtss: StructureSet) returns (dictRoi: map<int, Contours.RoiRecord>)
      requires Valid()
      requires fileSize > 0 || dsRtss.structureSetRoiSequence == []
      modifies this`copied, this`previous, this`emitted
      ensures Valid()
      ensures dictRoi == Contours.RoiTable(dsRtss.structureSetRoiSequence)
      ensures copied == old(copied) + RoiRecordFields * |dsRtss.structureSetRoiSequence|
      ensures var steps := Steps(old(previous), RoiTotals(old(copied), |dsRtss.structureSetRoiSequence|), fileSize);
        emitted == old(emitted) + steps && previous == After(old(previous), steps)
    {
      var items := dsRtss.structureSetRoiSequence;
      dictRoi := map[];
      for k := 0 to |items|
        invariant previous >= 0
        invariant dictRoi == Contours.RoiTable(items[..k])
        invariant copied == old(copied) + RoiRecordFields * k
        invariant var steps := Steps(old(previous), RoiTotals(old(copied), k), fileSize);
          emitted == old(emitted) + steps && previous == After(old(previous), steps)
      {
        assert items[..k + 1] == items[..k] + [items[k]];
        dictRoi := AddRoi(dictRoi, items[k], items[..k], old(copied), old(emitted), old(previous));
      }
      assert items[..|items|] == items;
      ProgressiveSteps(old(emitted), old(previous), RoiTotals(old(copied), |items|), fileSize);
    }

    /** One iteration of the loop of `get_roi_info`: store the three
        fields of `sequence` under its ROINumber, add them to `copied` and
        report progress. The ghost parameters are the items already
        stored, `copied` before the loop and the progress shown before
        the loop. */
    method AddRoi(dictRoi: map<int, Contours.RoiRecord>, sequence: RoiItem,
                  ghost done: seq<RoiItem>, ghost base: nat, ghost e0: seq<int>, ghost p0: int)
      returns (next: map<int, Contours.RoiRecord>)
      requires previous >= 0 && fileSize > 0
      requires dictRoi == Contours.RoiTable(done) && copied == base + RoiRecordFields * |done|
      requires var steps := Steps(p0, RoiTotals(base, |done|), fileSize);
        emitted == e0 + steps && previous == After(p0, steps)
      modifies this`copied, this`previous, this`emitted
      ensures previous >= 0
      ensures next == Contours.RoiTable(done + [sequence]) && copied == base + RoiRecordFields * (|done| + 1)
      ensures var steps := Steps(p0, RoiTotals(base, |done| + 1), fileSize);
        emitted == e0 + steps && previous == After(p0, steps)
    {
      assert (done + [sequence])[..|done|] == done;
      var dictTemp := Contours.RoiRecord(sequence.referencedFrameOfReferenceUid, sequence.roiName,
                                         sequence.roiGenerationAlgorithm);
      next := dictRoi[sequence.roiNumber := dictTemp];
      copied := copied + RoiRecordFields;
      Report(e0, p0, RoiTotals(base, |done|));
      assert RoiTotals(base, |done| + 1) == RoiTotals(base, |done|) + [copied];
    }

    /** `converge_to_O_dvh`, which also reports one step of progress per
        ROI before returning. */
    method ConvergeToZeroDvh(dictDvh: map<int, Dvh.Curve>) returns (res: map<int, Dvh.Curve>)
      requires Valid() && fileSize > 0
      requires forall roi :: roi in dictDvh ==> Dvh.Convergeable(dictDvh[roi])
      modifies this`copied, this`previous, this`emitted
      ensures Valid()
      ensures res == Dvh.ConvergeAll(dictDvh)
      ensures copied == old(copied) + |dictDvh|
      ensures previous == CallbackStep(old(previous), RawPercent(copied, fileSize))
      ensures emitted == old(emitted) + [previous]
    {
      res := Dvh.ConvergeAll(dictDvh);
      assert |res| == |res.Keys| == |dictDvh.Keys| == |dictDvh|;
      copied := copied + |res|;
      MyCallback(copied);
      StepsSnoc(old(previous), [], copied, fileSize);
      assert [] + [copied] == [copied];
      ProgressiveSteps(old(emitted), old(previous), [copied], fileSize);
    }
  }
}
