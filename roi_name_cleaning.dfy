/** The batch job that renames ROIs in RT Structure Set files. The
    options map each structure-set file to a list of (old name, action,
    new name) triples; action 1 renames the first ROI with the old name,
    action 2 calls an unimplemented delete, and any other action does
    nothing. */
module RoiNameCleaning {
  import opened Common
  import opened Dicom

  const IgnoreAction := 0
  const RenameAction := 1
  const DeleteAction := 2

  /** One entry `roi` of an option list: `roi[0]`, `roi[1]`, `roi[2]`. */
  datatype RoiOption = RoiOption(oldName: string, action: int, newName: string)

  /** Position of the first item of StructureSetROISequence named `name`. */
  function FirstRoiWithName(items: seq<RoiItem>, name: string): (r: Option<nat>)
    ensures r.Some? ==> r.value < |items| && items[r.value].roiName == name
    ensures r.Some? ==> forall j :: 0 <= j < r.value ==> items[j].roiName != name
    ensures r.None? ==> forall j :: 0 <= j < |items| ==> items[j].roiName != name
  {
    if items == [] then None
    else if items[0].roiName == name then Some(0)
    else match FirstRoiWithName(items[1..], name)
      case None => None
      case Some(i) => Some(i + 1)
  }

  /** The lookup loop of `rename`, which stops at the first match. */
  method FindRoiId(rtss: StructureSet, oldName: string) returns (roiId: Option<int>)
    ensures roiId.None? <==> FirstRoiWithName(rtss.structureSetRoiSequence, oldName).None?
    ensures roiId.Some? ==>
      roiId.value == rtss.structureSetRoiSequence[FirstRoiWithName(rtss.structureSetRoiSequence, oldName).value].roiNumber
  {
    var items := rtss.structureSetRoiSequence;
    roiId := None;
    var k := 0;
    while k < |items|
      invariant 0 <= k <= |items|
      invariant forall j :: 0 <= j < k ==> items[j].roiName != oldName
      invariant roiId.None?
    {
      if items[k].roiName == oldName {
        roiId := Some(items[k].roiNumber);
        break;
      }
      k := k + 1;
    }
  }

  /** `ROI.rename_roi` is not part of this model; it stands here for
      giving every StructureSetROISequence item with that number the new
      name and leaving everything else as it is. */
  function RenameRoi(rtss: StructureSet, roiId: int, newName: string): (r: StructureSet)
    ensures SameButNames(rtss, r)
    ensures forall i :: 0 <= i < |rtss.structureSetRoiSequence| ==>
      r.structureSetRoiSequence[i].roiName ==
        if rtss.structureSetRoiSequence[i].roiNumber == roiId then newName
        else rtss.structureSetRoiSequence[i].roiName
  {
    var items := rtss.structureSetRoiSequence;
    rtss.(structureSetRoiSequence := seq(|items|, i requires 0 <= i < |items| =>
      if items[i].roiNumber == roiId then items[i].(roiName := newName) else items[i]))
  }

  /** Two structure sets that differ at most in ROI names. */
  ghost predicate SameButNames(a: StructureSet, b: StructureSet)
  {
    && a.roiContourSequence == b.roiContourSequence
    && |a.structureSetRoiSequence| == |b.structureSetRoiSequence|
    && forall i :: 0 <= i < |a.structureSetRoiSequence| ==>
      a.structureSetRoiSequence[i] == b.structureSetRoiSequence[i].(roiName := a.structureSetRoiSequence[i].roiName)
  }

  lemma SameButNamesTransitive(a: StructureSet, b: StructureSet, c: StructureSet)
    requires SameButNames(a, b) && SameButNames(b, c)
    ensures SameButNames(a, c)
  {
    forall i | 0 <= i < |a.structureSetRoiSequence|
      ensures a.structureSetRoiSequence[i] == c.structureSetRoiSequence[i].(roiName := a.structureSetRoiSequence[i].roiName)
    {
      assert a.structureSetRoiSequence[i] == b.structureSetRoiSequence[i].(roiName := a.structureSetRoiSequence[i].roiName);
      assert b.structureSetRoiSequence[i] == c.structureSetRoiSequence[i].(roiName := b.structureSetRoiSequence[i].roiName);
    }
  }

  /** The structure set `rename` saves, or None when it returns early:
      no ROI has the old name, or the first one has the falsy number 0. */
  function Renamed(rtss: StructureSet, oldName: string, newName: string): (r: Option<StructureSet>)
    ensures r.Some? ==> SameButNames(rtss, r.value)
    ensures r.Some? ==> exists i :: (0 <= i < |rtss.structureSetRoiSequence|
      && rtss.structureSetRoiSequence[i].roiName == oldName)
  {
    match FirstRoiWithName(rtss.structureSetRoiSequence, oldName)
    case None => None
    case Some(i) =>
      var roiId := rtss.structureSetRoiSequence[i].roiNumber;
      if roiId == 0 then None else Some(RenameRoi(rtss, roiId, newName))
  }

  /** Nothing is saved exactly when no ROI carries the old name or the
      first that does has number 0. */
  lemma RenamedNoneIff(rtss: StructureSet, oldName: string, newName: string)
    ensures var items := rtss.structureSetRoiSequence;
      Renamed(rtss, oldName, newName).None? <==>
        (forall j :: 0 <= j < |items| ==> items[j].roiName != oldName)
        || exists i :: (0 <= i < |items| && items[i].roiName == oldName && items[i].roiNumber == 0
                        && forall j :: 0 <= j < i ==> items[j].roiName != oldName)
  {
    var items := rtss.structureSetRoiSequence;
    match FirstRoiWithName(items, oldName)
    case None =>
    case Some(i) =>
      if exists i' :: (0 <= i' < |items| && items[i'].roiName == oldName && items[i'].roiNumber == 0
                       && forall j :: 0 <= j < i' ==> items[j].roiName != oldName) {
        var i' :| 0 <= i' < |items| && items[i'].roiName == oldName && items[i'].roiNumber == 0
                  && forall j :: 0 <= j < i' ==> items[j].roiName != oldName;
        assert !(i < i') && !(i' < i);
      }
  }

  /** A rename that is saved gives the first ROI with the old name the new
      name, and leaves every ROI with another number, including later
      ROIs with the same old name, as it was. */
  lemma RenamedTargetsFirst(rtss: StructureSet, oldName: string, newName: string)
    requires Renamed(rtss, oldName, newName).Some?
    ensures var items, r := rtss.structureSetRoiSequence, Renamed(rtss, oldName, newName).value;
      var i := FirstRoiWithName(items, oldName).value;
      && SameButNames(rtss, r)
      && r.structureSetRoiSequence[i].roiName == newName
      && items[i].roiNumber != 0
      && forall j :: 0 <= j < |items| && items[j].roiNumber != items[i].roiNumber ==>
           r.structureSetRoiSequence[j] == items[j]
  {
  }

  /** The files after `rename(dataset, old_name, new_name)`. */
  function ApplyRename(files: map<string, StructureSet>, dataset: string, oldName: string, newName: string)
    : (r: map<string, StructureSet>)
    requires dataset in files
    ensures r.Keys == files.Keys
  {
    match Renamed(files[dataset], oldName, newName)
    case None => files
    case Some(rtss) => files[dataset := rtss]
  }

  /** The options of one dataset can run: the file exists, or no option
      asks for a rename (only `rename` reads the file). */
  predicate Loadable(paths: set<string>, dataset: string, opts: seq<RoiOption>)
  {
    dataset in paths || forall m :: 0 <= m < |opts| ==> opts[m].action != RenameAction
  }

  /** The dispatch on `roi[1]`. */
  function ApplyOption(files: map<string, StructureSet>, dataset: string, opt: RoiOption)
    : (r: map<string, StructureSet>)
    requires opt.action == RenameAction ==> dataset in files
    ensures r.Keys == files.Keys
  {
    if opt.action == IgnoreAction then files
    else if opt.action == RenameAction then ApplyRename(files, dataset, opt.oldName, opt.newName)
    else files
  }

  /** Any action but 1, including 2 and unknown codes, changes no file. */
  lemma ApplyOptionOnlyRenames(files: map<string, StructureSet>, dataset: string, opt: RoiOption)
    requires opt.action != RenameAction
    ensures ApplyOption(files, dataset, opt) == files
  {
  }

  /** The options of one dataset, in list order. */
  function ApplyOptions(files: map<string, StructureSet>, dataset: string, opts: seq<RoiOption>)
    : (r: map<string, StructureSet>)
    requires Loadable(files.Keys, dataset, opts)
    ensures r.Keys == files.Keys
  {
    if opts == [] then files
    else
      var pre := opts[..|opts| - 1];
      assert forall m :: 0 <= m < |pre| ==> pre[m] == opts[m];
      ApplyOption(ApplyOptions(files, dataset, pre), dataset, Last(opts))
  }

  predicate AllLoadable(paths: set<string>, options: Dict<string, seq<RoiOption>>)
  {
    forall k :: 0 <= k < |options| ==> Loadable(paths, options[k].0, options[k].1)
  }

  /** The datasets in dictionary order. */
  function ApplyDatasets(files: map<string, StructureSet>, options: Dict<string, seq<RoiOption>>)
    : (r: map<string, StructureSet>)
    requires AllLoadable(files.Keys, options)
    ensures r.Keys == files.Keys
  {
    if options == [] then files
    else
      var pre := options[..|options| - 1];
      assert forall k :: 0 <= k < |pre| ==> pre[k] == options[k];
      ApplyOptions(ApplyDatasets(files, pre), Last(options).0, Last(options).1)
  }

  /** Cleaning only renames ROIs: every file keeps its ROI numbers,
      frames of reference, generation algorithms and contours. */
  lemma {:induction false} ApplyOptionsOnlyRenames(files: map<string, StructureSet>, dataset: string, opts: seq<RoiOption>)
    requires Loadable(files.Keys, dataset, opts)
    ensures forall p :: p in files ==> SameButNames(files[p], ApplyOptions(files, dataset, opts)[p])
  {
    if opts != [] {
      var pre := opts[..|opts| - 1];
      assert forall m :: 0 <= m < |pre| ==> pre[m] == opts[m];
      ApplyOptionsOnlyRenames(files, dataset, pre);
      var mid := ApplyOptions(files, dataset, pre);
      var opt := Last(opts);
      var r := ApplyOptions(files, dataset, opts);
      forall p | p in files
        ensures SameButNames(files[p], r[p])
      {
        if opt.action == RenameAction && p == dataset && Renamed(mid[dataset], opt.oldName, opt.newName).Some? {
          RenamedTargetsFirst(mid[dataset], opt.oldName, opt.newName);
          SameButNamesTransitive(files[p], mid[p], r[p]);
        }
      }
    }
  }

  lemma {:induction false} ApplyDatasetsOnlyRenames(files: map<string, StructureSet>, options: Dict<string, seq<RoiOption>>)
    requires AllLoadable(files.Keys, options)
    ensures forall p :: p in files ==> SameButNames(files[p], ApplyDatasets(files, options)[p])
  {
    if options != [] {
      var pre := options[..|options| - 1];
      assert forall k :: 0 <= k < |pre| ==> pre[k] == options[k];
      ApplyDatasetsOnlyRenames(files, pre);
      var mid := ApplyDatasets(files, pre);
      ApplyOptionsOnlyRenames(mid, Last(options).0, Last(options).1);
      forall p | p in files
        ensures SameButNames(files[p], ApplyDatasets(files, options)[p])
      {
        SameButNamesTransitive(files[p], mid[p], ApplyDatasets(files, options)[p]);
      }
    }
  }

  /** A file that no option list names is not touched. */
  lemma {:induction false} ApplyDatasetsUntouched(files: map<string, StructureSet>, options: Dict<string, seq<RoiOption>>, p: string)
    requires AllLoadable(files.Keys, options)
    requires p in files && forall k :: 0 <= k < |options| ==> options[k].0 != p
    ensures ApplyDatasets(files, options)[p] == files[p]
  {
    if options != [] {
      var pre := options[..|options| - 1];
      assert forall k :: 0 <= k < |pre| ==> pre[k] == options[k];
      ApplyDatasetsUntouched(files, pre, p);
      ApplyOptionsUntouched(ApplyDatasets(files, pre), Last(options).0, Last(options).1, p);
    }
  }

  lemma {:induction false} ApplyOptionsUntouched(files: map<string, StructureSet>, dataset: string, opts: seq<RoiOption>, p: string)
    requires Loadable(files.Keys, dataset, opts)
    requires p in files && p != dataset
    ensures ApplyOptions(files, dataset, opts)[p] == files[p]
  {
    if opts != [] {
      var pre := opts[..|opts| - 1];
      assert forall m :: 0 <= m < |pre| ==> pre[m] == opts[m];
      ApplyOptionsUntouched(files, dataset, pre, p);
    }
  }

  /** Whether the interrupt flag is seen set at a checkpoint. The flag is
      a `threading.Event` that stays set once set, so `setAt` is the
      first checkpoint at which it reads as set: checkpoint 0 is before
      the loop, checkpoint k + 1 before dataset k. */
  predicate SeenAt(setAt: Option<nat>, checkpoint: nat)
  {
    setAt.Some? && setAt.value <= checkpoint
  }

  /** The run is interrupted when the flag is seen at one of the
      checkpoints 0..n of a run over n datasets. */
  predicate Interrupted(setAt: Option<nat>, n: nat)
  {
    SeenAt(setAt, n)
  }

  /** How many datasets are processed before the run stops: none when
      the flag is seen before the loop; otherwise every dataset up to the
      first checkpoint that sees it, and the checkpoint before dataset k
      is the one after the first k datasets. */
  function Processed(setAt: Option<nat>, n: nat): (k: nat)
    ensures k <= n
    ensures Interrupted(setAt, n) <==> k < n || SeenAt(setAt, k)
    ensures SeenAt(setAt, 0) ==> k == 0
    ensures !SeenAt(setAt, 0) ==> forall c: nat :: c <= k ==> !SeenAt(setAt, c)
    ensures k < n ==> SeenAt(setAt, k + 1)
  {
    if Interrupted(setAt, n) then (if setAt.value == 0 then 0 else setAt.value - 1) else n
  }

  class ROINameCleaning {
    /** The RT Structure Set files on disk, by path: `dcmread` reads from
        here and `save_as` writes back. */
    var files: map<string, StructureSet>
    /** The options, keyed by file path in dictionary order. */
    const roiOptions: Dict<string, seq<RoiOption>>
    /** The datasets held by the patient container. */
    var container: seq<StructureSet>

    constructor (files: map<string, StructureSet>, roiOptions: Dict<string, seq<RoiOption>>, container: seq<StructureSet>)
      ensures this.files == files && this.roiOptions == roiOptions && this.container == container
    {
      this.files := files;
      this.roiOptions := roiOptions;
      this.container := container;
    }

    /** `rename`: a file that does not exist makes `dcmread` raise. */
    method Rename(dataset: string, oldName: string, newName: string)
      requires dataset in files
      modifies this`files
      ensures files == ApplyRename(old(files), dataset, oldName, newName)
    {
      var rtss := files[dataset];
      var roiId := FindRoiId(rtss, oldName);
      if roiId.None? || roiId.value == 0 {
        return;
      }
      var renamed := RenameRoi(rtss, roiId.value, newName);
      files := files[dataset := renamed];
    }

    /** `delete` has an empty body: no file and no dataset changes. */
    method Delete()
      ensures files == old(files) && container == old(container)
    {
    }

    /** `start`; the result None stands for the implicit return at the end
        of an uninterrupted run. */
    method Start(setAt: Option<nat>) returns (result: Option<bool>)
      requires forall k :: 0 <= k < Processed(setAt, |roiOptions|) ==>
        Loadable(files.Keys, roiOptions[k].0, roiOptions[k].1)
      modifies this`files, this`container
      ensures var done := Processed(setAt, |roiOptions|);
        files == ApplyDatasets(old(files), roiOptions[..done])
      ensures Interrupted(setAt, |roiOptions|) ==> result == Some(false) && container == []
      ensures !Interrupted(setAt, |roiOptions|) ==> result == None && container == old(container)
    {
      if SeenAt(setAt, 0) {
        container := [];
        return Some(false);
      }
      var done := Processed(setAt, |roiOptions|);
      for k := 0 to |roiOptions|
        invariant !SeenAt(setAt, k)
        invariant k <= done
        invariant files.Keys == old(files).Keys
        invariant AllLoadable(old(files).Keys, roiOptions[..k])
        invariant files == ApplyDatasets(old(files), roiOptions[..k])
        invariant container == old(container)
      {
        if SeenAt(setAt, k + 1) {
          container := [];
          return Some(false);
        }
        var dataset := roiOptions[k].0;
        var opts := roiOptions[k].1;
        assert roiOptions[..k + 1][..k] == roiOptions[..k] && Last(roiOptions[..k + 1]) == roiOptions[k];
        assert Loadable(files.Keys, dataset, opts);
        ghost var before := files;
        for m := 0 to |opts|
          invariant files.Keys == before.Keys
          invariant files == ApplyOptions(before, dataset, opts[..m])
          invariant container == old(container)
        {
          assert opts[..m + 1][..m] == opts[..m] && Last(opts[..m + 1]) == opts[m];
          var roi := opts[m];
          if roi.action == IgnoreAction {
            continue;
          } else if roi.action == RenameAction {
            Rename(dataset, roi.oldName, roi.newName);
          } else if roi.action == DeleteAction {
            Delete();
          }
        }
        assert opts[..|opts|] == opts;
      }
      assert roiOptions[..|roiOptions|] == roiOptions;
      return None;
    }
  }
}
