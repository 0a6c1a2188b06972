# OnkoDICOM loader and batch jobs, modelled in Dafny

This project models three parts of OnkoDICOM:

- The DICOM loader thread `Extended` in `src/View/ProgressBar.py`. It
  scans a directory in natural order and classifies the files by
  Modality: CT slices, RT Structure Set, RT Dose and RT Plan. It reads
  the ROI table of the structure set, pads every dose-volume histogram
  (DVH) so that it ends at zero, and groups the contour data of each ROI
  by the image it references. It also computes the pixel-to-patient
  coordinate arrays of a CT slice. Throughout, `my_callback` keeps the
  progress percentage from going backwards.
- The batch job that exports clinical data from a Structured Report to
  CSV (`BatchProcessClinicalDataSR2CSV.py`).
- The batch job that renames ROIs in structure-set files
  (`BatchProcessROINameCleaning.py`).

Modules:

- `Common`: an option type and `Dict`, an insertion-ordered association
  list that stands for a Python `dict`. `Put` keeps the position of an
  existing key.
- `Dicom`: the DICOM attributes the code reads, as plain records.
- `NaturalSort`: `natural_sort`. The key alternates text and numbers.
  `sorted` is modelled as a stable insertion sort on a total order of
  keys.
- `Dvh`: `converge_to_O_dvh`, written as functions because the loop
  computes a pure result.
- `PixelMap`: `calculate_matrix`, using exact reals and the 4x4 matrix
  the code builds. That matrix has the shape of Equation C.7.6.2.1-1
  from DICOM PS3.3, but it scales the spacings the other way round. The
  row direction cosines are multiplied by PixelSpacing[0] and the column
  direction cosines by PixelSpacing[1]; the equation does the opposite.
  The two matrices agree only when the two spacings are equal.
- `Contours`: `get_raw_ContourData` as a method with nested loops. The
  method is proved equal to a fold-style specification, and the
  properties in the "## Model" table are proved about that fold. The loop variable
  `ReferencedSOPInstanceUID` keeps its value from one slice to the next
  and from one ROI to the next, as the Python local does.
- `ProgressBar`: the class `Extended` with the fields `previous`,
  `copied`, the two dictionaries and the sequence of emitted percentages.
  It also holds the file classification fold, the fold `Steps` of
  `my_callback` over the running totals of `copied` (one call per parsed
  file, per ROI, and one for the DVHs), and the branch `run` takes.
- `ClinicalDataSr2Csv` and `RoiNameCleaning`: the two batch jobs. Each
  job is a class whose `Start` is proved against fold specifications.

Errors the code raises become preconditions:

- `file_size == 0`: the division in `my_callback`.
- `Dvh.Convergeable`: an empty `counts`, or an empty `bincenters` when
  the last count is not zero, raises an `IndexError` at
  `dvh.counts[-1]` or `dvh.bincenters[-1]` (src/View/ProgressBar.py:206,
  :209).
- `PixelMap.HasPlaneAttributes`: a PixelSpacing shorter than 2, an
  ImageOrientationPatient shorter than 6 or an ImagePositionPatient
  shorter than 3 raises an `IndexError` (src/View/ProgressBar.py:262-277).
- A ReferencedROINumber missing from the ROI table: the `KeyError` in
  `get_raw_ContourData`.
- A first slice without an image reference: the `UnboundLocalError`.
- An RT Structure Set without an RT Dose: `run` raises a `KeyError`.
  This is modelled as the outcome `RtdoseKeyError`.
- `ClinicalDataSr2Csv.SrReadable`: an SR without a first content item
  raises an `IndexError` at `ContentSequence[0]`
  (BatchProcessClinicalDataSR2CSV.py:113), and an SR line without a colon
  raises one at `row_data[1]` (line 123).
- A structure-set file that does not exist: `dcmread` raises.

Inputs stand for I/O, the clock and other threads:

- The directory listing is `paths`.
- `dcmread` is a function `read`, which returns None where it raises.
- The interrupt flag is the value it has at each checkpoint.
- The CSV file is an optional sequence of rows.
- The RT Structure Set files are a map from path to contents.

The code (`range(3)`, ProgressBar.py:208-209) adds 0, 1 and 2, so the
first padding bin repeats the last centre. The model follows the code:
`Dvh.ConvergePads` and `Dvh.ConvergeKeepsOrder`.

## Model

| member | source | states |
|---|---|---|
| NaturalSort.NaturalKey | src/View/ProgressBar.py:82-84 | The key has an odd number of pieces and starts and ends with text: `re.split` with a capturing group puts the text runs at both ends, around each digit run. |
| NaturalSort.NaturalKeyAlternates | src/View/ProgressBar.py:82-84 | The natural key alternates text and numbers, starting and ending with text, so keys never compare a text piece with a number at the same position. |
| NaturalSort.KeyOfImg10 | src/View/ProgressBar.py:82-84 | "img10" has the key "img", 10, "" (the digits read as one number, then the empty tail). |
| NaturalSort.KeyLessIrreflexive | src/View/ProgressBar.py:83-85 | The key order is irreflexive. |
| NaturalSort.KeyLessTransitive | src/View/ProgressBar.py:83-85 | The key order is transitive. |
| NaturalSort.KeyLessTotal | src/View/ProgressBar.py:83-85 | Any two distinct keys are ordered one way or the other. |
| NaturalSort.NaturalSortOf | src/View/ProgressBar.py:85 | The sorted list holds exactly the input names, each as often as in the input (equal multisets). |
| NaturalSort.NaturalSortSorted | src/View/ProgressBar.py:85 | No element of the sorted list has a key smaller than an earlier element's key. |
| NaturalSort.NaturalSortStable | src/View/ProgressBar.py:85 | Names with equal keys keep their input order, as `sorted` is stable. |
| NaturalSort.Img10NotBeforeImg2 | src/View/ProgressBar.py:82-85 | The key of "img10" is not below that of "img2": equal text, then 10 is not below 2. |
| NaturalSort.InsertBetween | src/View/ProgressBar.py:85 | A name whose key is above the first name's and not below the second's is placed between them. |
| NaturalSort.SortPair | src/View/ProgressBar.py:85 | Two names whose keys are out of order come out swapped. |
| NaturalSort.SortImg10Img1 | src/View/ProgressBar.py:82-85 | ["img10", "img1"] sorts to ["img1", "img10"]. |
| NaturalSort.NaturalSortExample | src/View/ProgressBar.py:80-85 | ["img2", "img10", "img1"] sorts to ["img1", "img2", "img10"]. |
| Dvh.Converge | src/View/ProgressBar.py:205-221 | The result ends with a zero count, keeps the original centres and counts as a prefix, and keeps centres and counts of equal length. |
| Dvh.ConvergePads | src/View/ProgressBar.py:206-216 | A curve whose last count is not zero gains exactly three centres b, b+1, b+2 (b the last centre) and three zero counts. |
| Dvh.ConvergeKeepsZeroEnded | src/View/ProgressBar.py:219-221 | A curve that already ends with a zero count is returned unchanged. |
| Dvh.ConvergeIdempotent | src/View/ProgressBar.py:205-221 | Padding a padded curve changes nothing. |
| Dvh.ConvergeKeepsOrder | src/View/ProgressBar.py:207-214 | Non-decreasing centres stay non-decreasing, and the first padding centre repeats the last one. |
| Dvh.ConvergeAll | src/View/ProgressBar.py:199-224 | The result has the same ROIs as the input, and every curve ends at zero. |
| Dvh.ConvergeAllIdempotent | src/View/ProgressBar.py:199-224 | Converging all DVHs a second time changes nothing. |
| Dvh.ConvergeExample | src/View/ProgressBar.py:206-216 | Counts [5, 3, 1] at centres [10, 20, 30] become [5, 3, 1, 0, 0, 0] at [10, 20, 30, 30, 31, 32]. |
| PixelMap.MatrixM | src/View/ProgressBar.py:274-279 | The transform is a 4x4 matrix. |
| PixelMap.StandardMatrix | src/View/ProgressBar.py:272-279 | The matrix of Equation C.7.6.2.1-1, with the row cosines scaled by PixelSpacing[1] and the column cosines by PixelSpacing[0], is a 4x4 matrix. It is the reference that the code's matrix is compared with. |
| PixelMap.MatrixMSquarePixels | src/View/ProgressBar.py:262-279 | With equal spacings, the code's matrix equals the standard's. |
| PixelMap.MatrixMNonSquarePixels | src/View/ProgressBar.py:262-279 | With unequal spacings and a non-zero orientation[0], the code's x step per column, orientation[0]·PixelSpacing[0], differs from the standard's, orientation[0]·PixelSpacing[1]. So the two matrices differ. |
| PixelMap.CalculateMatrix | src/View/ProgressBar.py:259-290 | x has Columns entries and y has Rows entries. x[i] = orientation[0]·row spacing·i + position[0] and y[j] = orientation[4]·column spacing·j + position[1]. |
| PixelMap.CalculateMatrixEvenlySpaced | src/View/ProgressBar.py:282-288 | Consecutive x differ by orientation[0]·row spacing, and consecutive y by orientation[4]·column spacing. |
| PixelMap.CalculateMatrixIdentity | src/View/ProgressBar.py:282-288 | Identity orientation, unit spacing and zero position map each index to itself. |
| PixelMap.CalculateMatrixExample | src/View/ProgressBar.py:259-290 | A 5x5 identity slice gives x = y = [0, 1, 2, 3, 4]. |
| Contours.RoiTable | src/View/ProgressBar.py:132-138 | The table has at most one entry per item of StructureSetROISequence. |
| Contours.RoiTableKeys | src/View/ProgressBar.py:131-141 | The ROI table is keyed by exactly the ROINumbers of StructureSetROISequence. |
| Contours.RoiTableLastWins | src/View/ProgressBar.py:133-138 | An item that no later item shares a number with keeps its own uid, name and algorithm in the table. |
| Contours.NameTable | src/View/ProgressBar.py:233-237 | The keys of `dict_id` are exactly the ROINumbers of StructureSetROISequence. An item that no later item shares a number with supplies the name under its number: the last item wins. |
| Contours.BuildNameTable | src/View/ProgressBar.py:233-237 | The first loop of `get_raw_ContourData` builds exactly `NameTable` of StructureSetROISequence. |
| Contours.Groups | src/View/ProgressBar.py:245-254 | No UID holds an empty list: the `defaultdict` creates a key only when a ContourData is appended under it. |
| Contours.PointCount | src/View/ProgressBar.py:246-252 | When every NumberOfContourPoints is non-negative, so is the ROI's point count. |
| Contours.ExtractRois | src/View/ProgressBar.py:241-256 | `dict_ROI` and `dict_NumPoints` get the same ROI names as keys. |
| Contours.GroupsAreFiledUnder | src/View/ProgressBar.py:247-254 | Each UID's list holds the ContourData of exactly the slices filed under that UID, in slice order. A UID that no slice is filed under is absent. |
| Contours.GroupsStoreEverySlice | src/View/ProgressBar.py:247-254 | The lists of one ROI hold as many arrays in total as the ROI has slices. |
| Contours.GroupsUseReferencedUids | src/View/ProgressBar.py:248-254 | Every UID a slice is filed under is one that some ContourImageSequence references. |
| Contours.ExtractLastWins | src/View/ProgressBar.py:241-256 | A ROI that no later ROI shares a name with keeps its slices grouped by UID. Its point count is the sum of its NumberOfContourPoints. |
| Contours.ExtractKeys | src/View/ProgressBar.py:241-256 | Both result tables are keyed by exactly the names of the ROIs in ROIContourSequence. |
| Contours.ExtractUsesReferencedUids | src/View/ProgressBar.py:241-256 | Across all ROIs, every UID key is a referenced image UID, including UIDs carried over from a previous ROI. |
| Contours.ExtractFilesUnderReferencedUids | src/View/ProgressBar.py:241-257 | In the result of the whole structure set, every UID key is a referenced image UID. |
| Contours.LastImageUid | src/View/ProgressBar.py:248-249 | After the innermost loop, the UID variable holds the slice's last image reference. A slice without references leaves it as it was. |
| Contours.CollectSlices | src/View/ProgressBar.py:245-254 | The slice loop of one ROI builds the UID groups and the point count of the fold, and leaves the UID variable as the fold carries it. |
| Contours.GetRawContourData | src/View/ProgressBar.py:231-257 | The nested loops build `dict_ROI` and `dict_NumPoints` equal to the fold specification above. |
| ProgressBar.RawPercent | src/View/ProgressBar.py:68 | The raw percent is the floor of `temp_file_size * 10 / file_size`: p·file_size ≤ temp_file_size·10 < (p+1)·file_size. |
| ProgressBar.CallbackStep | src/View/ProgressBar.py:68-75 | The percent never drops below `previous`. A raw value below `previous`, or equal to 100, keeps `previous`. A raw value equal to `previous` advances by one. A larger one is taken as it is. From values at most 100, the result is at most 100. |
| ProgressBar.Steps | src/View/ProgressBar.py:67-78 | Calling `my_callback` on a sequence of running totals emits exactly one percent per total. |
| ProgressBar.StepsMonotone | src/View/ProgressBar.py:67-78 | Every emitted percent lies between the starting `previous` and the final one, and the percents never decrease. |
| ProgressBar.StepsSnoc | src/View/ProgressBar.py:67-78 | One more running total adds exactly one percent: the callback step from the last `previous`. |
| ProgressBar.ProgressiveSteps | src/View/ProgressBar.py:67-78 | Appending the percents of the fold to a non-decreasing emitted sequence bounded by `previous` keeps it non-decreasing and bounded by the new `previous`. |
| ProgressBar.Extended.constructor | src/View/ProgressBar.py:30-33 | `previous` starts at 0 with both dictionaries empty. |
| ProgressBar.Extended.MyCallback | src/View/ProgressBar.py:67-78 | `previous` becomes the callback step of the raw percent, and that value, and only it, is emitted. |
| ProgressBar.StoreParsed | src/View/ProgressBar.py:113-125 | Storing a parsed file leaves the size alone. It adds one to the CT counter exactly for a CT file. It loses no key, and keeps the two dictionaries' key sets equal. |
| ProgressBar.ScanFile | src/View/ProgressBar.py:108-127 | A file never shrinks `copied`, raises the CT counter by at most one, and loses no key. |
| ProgressBar.Classify | src/View/ProgressBar.py:104-127 | The CT counter is at most the number of files, and both dictionaries have the same keys. |
| ProgressBar.ScanFileSkips | src/View/ProgressBar.py:108-127 | A file that does not parse changes nothing. A parsed file of another modality adds its length to `copied` and no entry. |
| ProgressBar.ClassifyCt | src/View/ProgressBar.py:104-116 | CT files get the keys 0..k-1 in sorted order, and key j holds the j-th CT file. |
| ProgressBar.ClassifySingleton | src/View/ProgressBar.py:117-125 | 'rtss', 'rtdose' and 'rtplan' are present exactly when a file of that modality parsed. Each holds the last such file. |
| ProgressBar.ClassifyEntries | src/View/ProgressBar.py:107-127 | Both dictionaries have the same keys. Each dataset is the parse of its file. `copied` grows by the total length of the parsed files. |
| ProgressBar.ClassifySize | src/View/ProgressBar.py:107-127 | `copied` grows by the total length of the files that parse. |
| ProgressBar.ParsedCount | src/View/ProgressBar.py:107-127 | The number of files that parse is at most the number of files, and 0 when none parses. |
| ProgressBar.ParsedTotals | src/View/ProgressBar.py:126-127 | There is one running total of `copied`, and so one callback, per file that parses. |
| ProgressBar.ParsedTotalsSnoc | src/View/ProgressBar.py:107-127 | A file adds the running total `copied` + the parsed lengths so far exactly when it parses. |
| ProgressBar.Extended.ScanFiles | src/View/ProgressBar.py:104-127 | The loop over the sorted files leaves the dictionaries and `copied` as the classification fold says. It emits exactly the callback fold `Steps` over the running totals: one percent per file that parses, none for a file that raises. |
| ProgressBar.Extended.LoadFile | src/View/ProgressBar.py:107-127 | One iteration extends both the classification fold and the emitted callback fold by that one file. |
| ProgressBar.Extended.Report | src/View/ProgressBar.py:126-127 | `callback(self.copied)` appends the step for the current `copied` to the emitted fold. |
| ProgressBar.Extended.StoreFile | src/View/ProgressBar.py:113-125 | The modality dispatch updates both dictionaries and the CT counter as the scan step says. |
| ProgressBar.Extended.GetDatasets | src/View/ProgressBar.py:87-129 | Resets the dictionaries and scans the natural-sorted listing. The results equal the classification fold, and `copied` grows by the parsed lengths. The emitted percents are exactly `Steps` over the running totals, one per parsed file. The emitted sequence stays non-decreasing and bounded by `previous`. |
| ProgressBar.RoiTotals | src/View/ProgressBar.py:139-140 | The j-th ROI (from 0) reports `copied` + 3·(j+1): each ROI record has three fields. |
| ProgressBar.Extended.GetRoiInfo | src/View/ProgressBar.py:131-141 | Returns the ROI table and adds 3 to `copied` per ROI. It emits exactly `Steps` over the totals of `RoiTotals`, one percent per ROI. The emitted sequence stays non-decreasing and bounded by `previous`. |
| ProgressBar.Extended.AddRoi | src/View/ProgressBar.py:133-140 | One iteration adds the item to the table, 3 to `copied`, and one percent to the emitted fold. |
| ProgressBar.Extended.ConvergeToZeroDvh | src/View/ProgressBar.py:198-227 | Returns the converged DVHs, adds the number of ROIs to `copied`, and reports one progress step. |
| ProgressBar.RunStatusOf | src/View/ProgressBar.py:39-51 | An empty result signals an incorrect directory. A missing structure set signals one of the two missing-files messages, chosen by whether the dose is present. A structure set without a dose raises. Both present: the loader goes on. |
| ProgressBar.RunLoadsIff | src/View/ProgressBar.py:39-51 | The loader goes on exactly when some file parsed as RTSTRUCT and some as RTDOSE. |
| ProgressBar.PixlutKeys | src/View/ProgressBar.py:294-296 | The keys kept are the input keys other than 'rtdose', 'rtplan' and 'rtss'. |
| ProgressBar.PixlutKeysAreSlices | src/View/ProgressBar.py:294-296 | After a scan, those keys are exactly the CT slices 0..k-1. |
| ClinicalDataSr2Csv.FindClinicalDataSr | src/Model/batchprocessing/BatchProcessClinicalDataSR2CSV.py:88-104 | Returns the first dataset whose SOPClassUID is the Comprehensive SR class and whose SeriesDescription is "CLINICAL-DATA", or None exactly when there is no such dataset. |
| ClinicalDataSr2Csv.Split | src/Model/batchprocessing/BatchProcessClinicalDataSR2CSV.py:117 | `split` gives at least one piece, and no piece holds the separator. There are two or more pieces exactly when the text holds the separator. |
| ClinicalDataSr2Csv.JoinSplit | src/Model/batchprocessing/BatchProcessClinicalDataSR2CSV.py:117 | Joining the pieces gives back the text. |
| ClinicalDataSr2Csv.SplitJoin | src/Model/batchprocessing/BatchProcessClinicalDataSR2CSV.py:122 | Pieces without the separator, once joined, split back into themselves. |
| ClinicalDataSr2Csv.RowKeyBeforeColon | src/Model/batchprocessing/BatchProcessClinicalDataSR2CSV.py:122-123 | `row_data[0]` is a colon-free prefix of the line, ended by the first colon or by the end of the line. |
| ClinicalDataSr2Csv.RowValue | src/Model/batchprocessing/BatchProcessClinicalDataSR2CSV.py:122-123 | `row_data[1][1:]` holds no colon. |
| ClinicalDataSr2Csv.RowValueAfterKey | src/Model/batchprocessing/BatchProcessClinicalDataSR2CSV.py:122-123 | The value is read after the first colon: it is the key of the rest of the line, without its first character. |
| ClinicalDataSr2Csv.RowRoundTrip | src/Model/batchprocessing/BatchProcessClinicalDataSR2CSV.py:122-123 | The key is the text before the first colon. The value is the text between the first and second colon, without its first character. |
| ClinicalDataSr2Csv.ParseRows | src/Model/batchprocessing/BatchProcessClinicalDataSR2CSV.py:117-123 | The dictionary built from the lines has distinct keys. |
| ClinicalDataSr2Csv.LastRowWith | src/Model/batchprocessing/BatchProcessClinicalDataSR2CSV.py:118-123 | The position of the last non-empty line carrying a key, or None when no such line exists. |
| ClinicalDataSr2Csv.ParseRowsLookup | src/Model/batchprocessing/BatchProcessClinicalDataSR2CSV.py:117-123 | Empty lines count for nothing. A key is present exactly when a non-empty line carries it, and it holds the value of the last such line: later lines overwrite. |
| ClinicalDataSr2Csv.ParseRenderedRows | src/Model/batchprocessing/BatchProcessClinicalDataSR2CSV.py:117-123 | A dictionary with distinct, colon-free keys and values reads back as itself from its "key: value" lines. |
| ClinicalDataSr2Csv.RenderedRow | src/Model/batchprocessing/BatchProcessClinicalDataSR2CSV.py:122-123 | A line "key: value" with colon-free parts has a colon, and reads back as that key and that value. |
| ClinicalDataSr2Csv.RenderedRowsReadable | src/Model/batchprocessing/BatchProcessClinicalDataSR2CSV.py:117-123 | The lines rendered from colon-free keys and values all have a colon, so the line loop does not raise. |
| ClinicalDataSr2Csv.ReadClinicalDataFromSr | src/Model/batchprocessing/BatchProcessClinicalDataSR2CSV.py:106-125 | The loop over the lines of the first content item builds the dictionary of the line fold, with distinct keys. |
| ClinicalDataSr2Csv.HeaderAndValues | src/Model/batchprocessing/BatchProcessClinicalDataSR2CSV.py:140-146 | The header and value rows have the dictionary's length and list its keys and values in order. |
| ClinicalDataSr2Csv.CsvAfterWrite | src/Model/batchprocessing/BatchProcessClinicalDataSR2CSV.py:152-161 | A new file gets the header and then the values. An existing file keeps its rows and gains exactly one values row. |
| ClinicalDataSr2Csv.ClinicalDataSR2CSV.constructor | src/Model/batchprocessing/BatchProcessClinicalDataSR2CSV.py:38-42 | The job holds the ready flag, the container and the output file. |
| ClinicalDataSr2Csv.ClinicalDataSR2CSV.WriteToCsv | src/Model/batchprocessing/BatchProcessClinicalDataSR2CSV.py:127-161 | The file afterwards has the rows described by `CsvAfterWrite`. |
| ClinicalDataSr2Csv.ClinicalDataSR2CSV.Start | src/Model/batchprocessing/BatchProcessClinicalDataSR2CSV.py:44-86 | An interrupt at any checkpoint gives "INTERRUPT" and empties the container, and the start checkpoint is checked before `ready`. Otherwise, not ready gives "SKIP" and no clinical SR gives "CD_NO_SR". Only the full path returns True and writes the CSV. No False path changes the file. |
| RoiNameCleaning.FirstRoiWithName | src/Model/batchprocessing/BatchProcessROINameCleaning.py:94-97 | The position of the first ROI with the name, or None exactly when no ROI has it. |
| RoiNameCleaning.FindRoiId | src/Model/batchprocessing/BatchProcessROINameCleaning.py:92-97 | The loop with `break` returns the ROINumber of the first ROI with the old name, or None. |
| RoiNameCleaning.RenameRoi | src/Model/batchprocessing/BatchProcessROINameCleaning.py:104 | The ROIs with that number get the new name. Nothing else changes. |
| RoiNameCleaning.Renamed | src/Model/batchprocessing/BatchProcessROINameCleaning.py:93-107 | A saved rename changes at most ROI names, and happens only when some ROI has the old name. |
| RoiNameCleaning.RenamedNoneIff | src/Model/batchprocessing/BatchProcessROINameCleaning.py:93-101 | Nothing is saved exactly when no ROI has the old name, or the first that does has ROINumber 0. |
| RoiNameCleaning.RenamedTargetsFirst | src/Model/batchprocessing/BatchProcessROINameCleaning.py:93-107 | A saved rename gives the first ROI with the old name the new name. Every ROI with another number stays unchanged, including later ROIs with the same old name. |
| RoiNameCleaning.ApplyRename | src/Model/batchprocessing/BatchProcessROINameCleaning.py:82-107 | Renaming keeps the set of files. |
| RoiNameCleaning.ApplyOption | src/Model/batchprocessing/BatchProcessROINameCleaning.py:69-80 | The dispatch on the action keeps the set of files. |
| RoiNameCleaning.ApplyOptionOnlyRenames | src/Model/batchprocessing/BatchProcessROINameCleaning.py:69-80 | Action 0, action 2 (whose `delete` body, lines 109-112, is empty) and unknown codes change no file. |
| RoiNameCleaning.ApplyOptions | src/Model/batchprocessing/BatchProcessROINameCleaning.py:69-80 | The options of one dataset, applied in list order, keep the set of files. |
| RoiNameCleaning.ApplyDatasets | src/Model/batchprocessing/BatchProcessROINameCleaning.py:57-80 | The datasets, applied in dictionary order, keep the set of files. |
| RoiNameCleaning.ApplyOptionsOnlyRenames | src/Model/batchprocessing/BatchProcessROINameCleaning.py:69-80 | One dataset's options change at most ROI names. Numbers, frames of reference, algorithms and contours stay. |
| RoiNameCleaning.ApplyDatasetsOnlyRenames | src/Model/batchprocessing/BatchProcessROINameCleaning.py:57-80 | The whole run changes at most ROI names, in every file. |
| RoiNameCleaning.ApplyOptionsUntouched | src/Model/batchprocessing/BatchProcessROINameCleaning.py:69-80 | One dataset's options leave every other file untouched. |
| RoiNameCleaning.ApplyDatasetsUntouched | src/Model/batchprocessing/BatchProcessROINameCleaning.py:57-80 | A file that no option list names is untouched. |
| RoiNameCleaning.Processed | src/Model/batchprocessing/BatchProcessROINameCleaning.py:47-63 | The number k of datasets processed before the run stops. The run is interrupted exactly when k is less than all of them or the checkpoint after them saw the flag. A flag seen before the loop gives k = 0. Otherwise no checkpoint up to k saw it, and a run stopped early saw it at the checkpoint before dataset k. |
| RoiNameCleaning.ROINameCleaning.constructor | src/Model/batchprocessing/BatchProcessROINameCleaning.py:37-39 | The job holds the files, the options and the container. |
| RoiNameCleaning.ROINameCleaning.Rename | src/Model/batchprocessing/BatchProcessROINameCleaning.py:82-107 | The files afterwards are those of `ApplyRename`. |
| RoiNameCleaning.ROINameCleaning.Delete | src/Model/batchprocessing/BatchProcessROINameCleaning.py:109-112 | `delete` has an empty body: no file and no dataset changes. |
| RoiNameCleaning.ROINameCleaning.Start | src/Model/batchprocessing/BatchProcessROINameCleaning.py:41-80 | The datasets before the first interrupt are processed in order, and their renames stay. An interrupt returns False and empties the container. An uninterrupted run returns None. |

## Left out

- Python dictionaries keep insertion order; the model's `map`s do not. This covers `dict_roi`, `dict_id`, `dict_ROI`, `dict_NumPoints`, the result of `converge_to_O_dvh` (`Dvh.ConvergeAll`), and `read_data_dict` and `file_names_dict`. Nothing in these parts iterates over them in an order that affects a result. The SR dictionary, which is written out in order, is an ordered `Dict`.

- `calc_dvhs` and `multi_get_dvhs` (src/View/ProgressBar.py:144-190) are not modelled. They run worker processes, a queue, and the foreign DVH calculation. Only their result type, a DVH per ROI, is the input of `Dvh.ConvergeAll`.
- `get_pixluts` is modelled only as its key filter, `PixlutKeys`. It calls a free `calculate_matrix` that the file does not define; that function may come from an unseen star import.
- The tail of `run` (lines 52-65) is not modelled: it reads the datasets, emits the remaining percentages up to 100 as Qt signals, and calls the other steps. `RunStatusOf` covers the branch at lines 39-51 only.
- No Qt signal or `print` output is modelled except `copied_percent_signal`: the `emitted` sequence of `Extended`. The progress messages of the batch jobs are left out. This includes the float `progress` of ROI cleaning (lines 53-67), which is emitted and read nowhere else.
- Floating point is modelled with exact arithmetic, without IEEE rounding:
  - `int(temp_file_size / file_size * 10)` is exact floor division, which agrees for non-negative sizes when nothing rounds;
  - `calculate_matrix` and the DVH centres use exact reals;
  - numpy arrays are sequences.
- `dcmread` and `glob` are inputs: the listing `paths` and the function `read`, which returns None where parsing raises. `force=True` and `defer_size` are not modelled.
- `AttributeError` paths are not modelled: a parsed file without Modality, ROI items or slices without the attributes read, and an SR without TextValue.
- `isdigit` and `lower` are modelled for ASCII only. Unicode digits and case folding are left out.
- The `csv` module's quoting and the output path join are left out. The output file is a sequence of rows.
- `load_images`, the `BatchProcess` parent and `PatientDictContainer` are inputs or fields: the `ready` flag and the container sequence, which `clear()` empties.
- `ROI.rename_roi` is not part of this model. `RoiNameCleaning.RenameRoi` stands for it as renaming the ROIs with that number. `save_as` writes the file back into the map.
- RoiNameCleaning.ROINameCleaning.Start: the interrupt flag is a `threading.Event` that stays set once set. The model therefore does not cover a flag that is cleared between checkpoints.
- test/test_view_image_fusion_addon.py is a GUI test of an unseen add-on window and is not modelled.
