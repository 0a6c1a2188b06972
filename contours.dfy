/** The structure-set tables of the loader: the ROI table of
    `Extended.get_roi_info` and the contour tables of
    `Extended.get_raw_ContourData`. */
module Contours {
  import opened Common
  import opened Dicom

  /** `dict_temp` of `get_roi_info`: the three fields kept per ROI. */
  datatype RoiRecord = RoiRecord(uid: string, name: string, algorithm: string)

  function RecordOf(item: RoiItem): RoiRecord
  {
    RoiRecord(item.referencedFrameOfReferenceUid, item.roiName, item.roiGenerationAlgorithm)
  }

  /** `dict_roi` after the items, in order, were stored under their
      ROINumber. */
  function RoiTable(items: seq<RoiItem>): (t: map<int, RoiRecord>)
    ensures |t| <= |items|
  {
    if items == [] then map[]
    else RoiTable(items[..|items| - 1])[Last(items).roiNumber := RecordOf(Last(items))]
  }

  /** The keys are exactly the declared ROI numbers. */
  lemma {:induction false} RoiTableKeys(items: seq<RoiItem>)
    ensures RoiTable(items).Keys == set i | 0 <= i < |items| :: items[i].roiNumber
  {
    if items != [] {
      var pre := items[..|items| - 1];
      RoiTableKeys(pre);
      assert forall i :: 0 <= i < |pre| ==> pre[i] == items[i];
      assert (set i | 0 <= i < |items| :: items[i].roiNumber)
          == (set i | 0 <= i < |pre| :: pre[i].roiNumber) + {Last(items).roiNumber};
    }
  }

  /** Of several items with one number, the last one's fields are kept. */
  lemma {:induction false} RoiTableLastWins(items: seq<RoiItem>, i: nat)
    requires i < |items|
    requires forall j :: i < j < |items| ==> items[j].roiNumber != items[i].roiNumber
    ensures items[i].roiNumber in RoiTable(items)
    ensures RoiTable(items)[items[i].roiNumber] == RecordOf(items[i])
  {
    if i < |items| - 1 {
      var pre := items[..|items| - 1];
      RoiTableLastWins(pre, i);
    }
  }

  /** `dict_id` of `get_raw_ContourData`: ROI number to ROI name, the name
      projection of the ROI table. */
  function NameTable(items: seq<RoiItem>): (ids: map<int, string>)
    ensures ids.Keys == set i | 0 <= i < |items| :: items[i].roiNumber
    ensures forall i :: (0 <= i < |items| && (forall j :: i < j < |items| ==> items[j].roiNumber != items[i].roiNumber)
      ==> ids[items[i].roiNumber] == items[i].roiName)
  {
    RoiTableKeys(items);
    forall i | 0 <= i < |items| && (forall j :: i < j < |items| ==> items[j].roiNumber != items[i].roiNumber)
      ensures RoiTable(items)[items[i].roiNumber].name == items[i].roiName
    {
      RoiTableLastWins(items, i);
    }
    map n | n in RoiTable(items) :: RoiTable(items)[n].name
  }

  /** The UID a slice is filed under: the last ContourImageSequence
      reference, or, for a slice without one, the UID still held from the
      slices before it (the loop variable keeps its value). */
  function SliceUid(s: ContourSlice, prev: string): string
  {
    if |s.contourImageUids| > 0 then Last(s.contourImageUids) else prev
  }

  /** The UID variable after the slices, entered holding `prev`. */
  function CarriedUid(slices: seq<ContourSlice>, prev: string): string
  {
    if slices == [] then prev
    else SliceUid(Last(slices), CarriedUid(slices[..|slices| - 1], prev))
  }

  type ContourGroups = map<string, seq<seq<real>>>

  /** `defaultdict(list)` lookup. */
  function Lookup(g: ContourGroups, u: string): seq<seq<real>>
  {
    if u in g then g[u] else []
  }

  /** `dict_contour`: each slice's ContourData appended under its UID. */
  function Groups(slices: seq<ContourSlice>, prev: string): (g: ContourGroups)
    ensures forall u :: u in g ==> g[u] != []
  {
    if slices == [] then map[]
    else
      var g := Groups(slices[..|slices| - 1], prev);
      var u := CarriedUid(slices, prev);
      g[u := Lookup(g, u) + [Last(slices).contourData]]
  }

  /** `roi_points_count`: the sum of NumberOfContourPoints. */
  function PointCount(slices: seq<ContourSlice>): (count: int)
    ensures (forall i :: 0 <= i < |slices| ==> slices[i].numberOfContourPoints >= 0) ==> count >= 0
  {
    if slices == [] then 0
    else PointCount(slices[..|slices| - 1]) + Last(slices).numberOfContourPoints
  }

  /** The contour arrays of the slices filed under `u`, in slice order. */
  function FiledUnder(slices: seq<ContourSlice>, prev: string, u: string): seq<seq<real>>
  {
    if slices == [] then []
    else
      FiledUnder(slices[..|slices| - 1], prev, u)
        + (if CarriedUid(slices, prev) == u then [Last(slices).contourData] else [])
  }

  /** Each UID's list holds the arrays of exactly the slices filed under
      that UID, in order; a UID no slice is filed under is absent. */
  lemma {:induction false} GroupsAreFiledUnder(slices: seq<ContourSlice>, prev: string, u: string)
    ensures Lookup(Groups(slices, prev), u) == FiledUnder(slices, prev, u)
    ensures u in Groups(slices, prev) <==> FiledUnder(slices, prev, u) != []
  {
    if slices != [] {
      GroupsAreFiledUnder(slices[..|slices| - 1], prev, u);
    }
  }

  /** The number of arrays stored over all UIDs. */
  ghost function StoredCount(g: ContourGroups): nat
    decreases |g|
  {
    if g == map[] then 0
    else
      var u :| u in g;
      |g[u]| + StoredCount(g - {u})
  }

  lemma {:induction false} StoredCountRemove(g: ContourGroups, u: string)
    requires u in g
    ensures StoredCount(g) == |g[u]| + StoredCount(g - {u})
    decreases |g|
  {
    var v :| v in g && StoredCount(g) == |g[v]| + StoredCount(g - {v});
    if v != u {
      assert |g - {v}| < |g|;
      StoredCountRemove(g - {v}, u);
      StoredCountRemove(g - {u}, v);
      assert g - {v} - {u} == g - {u} - {v};
    }
  }

  lemma StoredCountAppend(g: ContourGroups, u: string, a: seq<real>)
    ensures StoredCount(g[u := Lookup(g, u) + [a]]) == StoredCount(g) + 1
  {
    var h := g[u := Lookup(g, u) + [a]];
    StoredCountRemove(h, u);
    assert h - {u} == g - {u};
    if u in g {
      StoredCountRemove(g, u);
    } else {
      assert g - {u} == g;
    }
  }

  /** One array is stored per slice. */
  lemma {:induction false} GroupsStoreEverySlice(slices: seq<ContourSlice>, prev: string)
    ensures StoredCount(Groups(slices, prev)) == |slices|
  {
    if slices != [] {
      var pre := slices[..|slices| - 1];
      GroupsStoreEverySlice(pre, prev);
      StoredCountAppend(Groups(pre, prev), CarriedUid(slices, prev), Last(slices).contourData);
    }
  }

  /** The outcome of the ROI loop: `dict_ROI`, `dict_NumPoints` and the
      UID variable. */
  datatype Extraction = Extraction(
    dictRoi: map<string, ContourGroups>,
    dictNumPoints: map<string, int>,
    uid: string)

  predicate RefsIn(rois: seq<RoiContour>, ids: map<int, string>)
  {
    forall i :: 0 <= i < |rois| ==> rois[i].referencedRoiNumber in ids
  }

  function ExtractRois(rois: seq<RoiContour>, ids: map<int, string>, prev: string): (e: Extraction)
    requires RefsIn(rois, ids)
    ensures e.dictRoi.Keys == e.dictNumPoints.Keys
  {
    if rois == [] then Extraction(map[], map[], prev)
    else
      var e := ExtractRois(rois[..|rois| - 1], ids, prev);
      var roi := Last(rois);
      var name := ids[roi.referencedRoiNumber];
      Extraction(e.dictRoi[name := Groups(roi.contourSequence, e.uid)],
                 e.dictNumPoints[name := PointCount(roi.contourSequence)],
                 CarriedUid(roi.contourSequence, e.uid))
  }

  /** Every ReferencedROINumber is declared in StructureSetROISequence
      (otherwise `dict_id[ReferencedROINumber]` raises). */
  predicate ReferencesDeclared(rtss: StructureSet)
  {
    RefsIn(rtss.roiContourSequence, NameTable(rtss.structureSetRoiSequence))
  }

  /** All slices of the ROIs, in loop order. */
  function AllSlices(rois: seq<RoiContour>): seq<ContourSlice>
  {
    if rois == [] then [] else AllSlices(rois[..|rois| - 1]) + Last(rois).contourSequence
  }

  /** The first slice reached references an image, so the UID variable
      is bound before it is first read (otherwise Python raises). */
  predicate FirstSliceReferencesImage(rtss: StructureSet)
  {
    var all := AllSlices(rtss.roiContourSequence);
    all == [] || |all[0].contourImageUids| > 0
  }

  /** The tables the loop builds; the initial UID is never read when the
      first slice references an image. */
  function Extract(rtss: StructureSet): Extraction
    requires ReferencesDeclared(rtss)
  {
    ExtractRois(rtss.roiContourSequence, NameTable(rtss.structureSetRoiSequence), "")
  }

  /** A ROI that no later ROI shares a name with keeps its own tables:
      its slices grouped by UID and the sum of their point counts. */
  lemma {:induction false} ExtractLastWins(rois: seq<RoiContour>, ids: map<int, string>, prev: string, i: nat)
    requires RefsIn(rois, ids) && i < |rois|
    requires forall j :: i < j < |rois| ==>
      ids[rois[j].referencedRoiNumber] != ids[rois[i].referencedRoiNumber]
    ensures var e, name := ExtractRois(rois, ids, prev), ids[rois[i].referencedRoiNumber];
      && name in e.dictRoi && name in e.dictNumPoints
      && e.dictRoi[name] == Groups(rois[i].contourSequence, ExtractRois(rois[..i], ids, prev).uid)
      && e.dictNumPoints[name] == PointCount(rois[i].contourSequence)
  {
    var pre := rois[..|rois| - 1];
    assert RefsIn(pre, ids);
    if i == |rois| - 1 {
      assert rois[..i] == pre;
    } else {
      ExtractLastWins(pre, ids, prev, i);
      assert pre[..i] == rois[..i];
    }
  }

  /** Both tables are keyed by the names of the ROIs that have contours. */
  lemma {:induction false} ExtractKeys(rois: seq<RoiContour>, ids: map<int, string>, prev: string)
    requires RefsIn(rois, ids)
    ensures var e := ExtractRois(rois, ids, prev);
      && e.dictRoi.Keys == (set i | 0 <= i < |rois| :: ids[rois[i].referencedRoiNumber])
      && e.dictNumPoints.Keys == e.dictRoi.Keys
  {
    if rois != [] {
      var pre := rois[..|rois| - 1];
      assert RefsIn(pre, ids);
      ExtractKeys(pre, ids, prev);
      assert forall i :: 0 <= i < |pre| ==> pre[i] == rois[i];
      assert (set i | 0 <= i < |rois| :: ids[rois[i].referencedRoiNumber])
          == (set i | 0 <= i < |pre| :: ids[pre[i].referencedRoiNumber]) + {ids[Last(rois).referencedRoiNumber]};
    }
  }

  /** The UIDs some slice references in its ContourImageSequence. */
  function ReferencedUids(slices: seq<ContourSlice>): set<string>
  {
    set i, k | 0 <= i < |slices| && 0 <= k < |slices[i].contourImageUids| :: slices[i].contourImageUids[k]
  }

  lemma ReferencedUidsConcat(a: seq<ContourSlice>, b: seq<ContourSlice>)
    ensures ReferencedUids(a + b) == ReferencedUids(a) + ReferencedUids(b)
  {
    var ab := a + b;
    forall u | u in ReferencedUids(ab)
      ensures u in ReferencedUids(a) + ReferencedUids(b)
    {
      var i, k :| 0 <= i < |ab| && 0 <= k < |ab[i].contourImageUids| && ab[i].contourImageUids[k] == u;
      if i >= |a| {
        assert b[i - |a|].contourImageUids[k] == u;
      } else {
        assert a[i] == ab[i];
      }
    }
    forall u | u in ReferencedUids(a)
      ensures u in ReferencedUids(ab)
    {
      var i, k :| 0 <= i < |a| && 0 <= k < |a[i].contourImageUids| && a[i].contourImageUids[k] == u;
      assert ab[i] == a[i];
    }
    forall u | u in ReferencedUids(b)
      ensures u in ReferencedUids(ab)
    {
      var i, k :| 0 <= i < |b| && 0 <= k < |b[i].contourImageUids| && b[i].contourImageUids[k] == u;
      assert ab[i + |a|] == b[i];
    }
  }

  /** Once the UID variable holds a referenced UID, or the first slice
      references one, every slice is filed under a referenced UID. */
  lemma {:induction false} GroupsUseReferencedUids(slices: seq<ContourSlice>, prev: string, refs: set<string>)
    requires ReferencedUids(slices) <= refs
    requires prev in refs || (slices != [] && |slices[0].contourImageUids| > 0)
    ensures CarriedUid(slices, prev) in refs
    ensures Groups(slices, prev).Keys <= refs
  {
    if slices != [] {
      var pre := slices[..|slices| - 1];
      var last := Last(slices);
      assert slices == pre + [last];
      ReferencedUidsConcat(pre, [last]);
      if |last.contourImageUids| > 0 {
        assert last == slices[|slices| - 1];
        assert Last(last.contourImageUids) in ReferencedUids(slices);
      }
      if prev in refs || pre != [] {
        GroupsUseReferencedUids(pre, prev, refs);
      }
    }
  }

  /** The ROI-level version: before the first slice the UID variable is
      never read. */
  lemma {:induction false} ExtractUsesReferencedUids(rois: seq<RoiContour>, ids: map<int, string>, prev: string, refs: set<string>)
    requires RefsIn(rois, ids)
    requires ReferencedUids(AllSlices(rois)) <= refs
    requires var all := AllSlices(rois); all == [] || |all[0].contourImageUids| > 0
    ensures var e := ExtractRois(rois, ids, prev);
      && (AllSlices(rois) == [] ==> e.uid == prev)
      && (AllSlices(rois) != [] ==> e.uid in refs)
      && forall name :: name in e.dictRoi ==> e.dictRoi[name].Keys <= refs
  {
    if rois != [] {
      var pre := rois[..|rois| - 1];
      var last := Last(rois).contourSequence;
      assert RefsIn(pre, ids);
      ReferencedUidsConcat(AllSlices(pre), last);
      if AllSlices(pre) != [] {
        assert AllSlices(rois)[0] == AllSlices(pre)[0];
      }
      ExtractUsesReferencedUids(pre, ids, prev, refs);
      var e := ExtractRois(pre, ids, prev);
      if AllSlices(pre) == [] {
        assert AllSlices(rois) == last;
        if last != [] {
          GroupsUseReferencedUids(last, e.uid, refs);
        }
      } else {
        GroupsUseReferencedUids(last, e.uid, refs);
      }
    }
  }

  /** With the first slice referencing an image, no contour is filed under
      a UID that no slice references. */
  lemma ExtractFilesUnderReferencedUids(rtss: StructureSet)
    requires ReferencesDeclared(rtss) && FirstSliceReferencesImage(rtss)
    ensures forall name, u :: name in Extract(rtss).dictRoi && u in Extract(rtss).dictRoi[name] ==>
      u in ReferencedUids(AllSlices(rtss.roiContourSequence))
  {
    ExtractUsesReferencedUids(rtss.roiContourSequence, NameTable(rtss.structureSetRoiSequence), "",
      ReferencedUids(AllSlices(rtss.roiContourSequence)));
  }

  /** The innermost loop: it leaves the UID variable at the last
      ContourImageSequence reference, or as it was. */
  method LastImageUid(slice: ContourSlice, prev: string) returns (uid: string)
    ensures uid == SliceUid(slice, prev)
  {
    uid := prev;
    for c := 0 to |slice.contourImageUids|
      invariant uid == if c == 0 then prev else slice.contourImageUids[c - 1]
    {
      uid := slice.contourImageUids[c];
    }
  }

  /** The slice loop of one ROI, entered with the UID variable holding
      `prev`. */
  method CollectSlices(slices: seq<ContourSlice>, prev: string)
    returns (dictContour: ContourGroups, roiPointsCount: int, uid: string)
    ensures dictContour == Groups(slices, prev)
    ensures roiPointsCount == PointCount(slices)
    ensures uid == CarriedUid(slices, prev)
  {
    dictContour, roiPointsCount, uid := map[], 0, prev;
    for s := 0 to |slices|
      invariant uid == CarriedUid(slices[..s], prev)
      invariant dictContour == Groups(slices[..s], prev)
      invariant roiPointsCount == PointCount(slices[..s])
    {
      assert slices[..s + 1][..s] == slices[..s];
      var slice := slices[s];
      uid := LastImageUid(slice, uid);
      roiPointsCount := roiPointsCount + slice.numberOfContourPoints;
      dictContour := dictContour[uid := Lookup(dictContour, uid) + [slice.contourData]];
    }
    assert slices[..|slices|] == slices;
  }

  /** The first loop of `get_raw_ContourData`, which fills `dict_id`. */
  method BuildNameTable(items: seq<RoiItem>) returns (dictId: map<int, string>)
    ensures dictId == NameTable(items)
  {
    dictId := map[];
    assert NameTable(items[..0]) == map[] by { assert items[..0] == []; assert RoiTable([]) == map[]; }
    for k := 0 to |items|
      invariant dictId == NameTable(items[..k])
    {
      assert items[..k + 1][..k] == items[..k];
      dictId := dictId[items[k].roiNumber := items[k].roiName];
    }
    assert items[..|items|] == items;
  }

  method GetRawContourData(rtss: StructureSet)
    returns (dictRoi: map<string, ContourGroups>, dictNumPoints: map<string, int>)
    requires ReferencesDeclared(rtss)
    requires FirstSliceReferencesImage(rtss)
    ensures dictRoi == Extract(rtss).dictRoi && dictNumPoints == Extract(rtss).dictNumPoints
  {
    var dictId := BuildNameTable(rtss.structureSetRoiSequence);
    var rois := rtss.roiContourSequence;
    dictRoi, dictNumPoints := map[], map[];
    var uid: string := "";
    for r := 0 to |rois|
      invariant RefsIn(rois[..r], dictId)
      invariant ExtractRois(rois[..r], dictId, "") == Extraction(dictRoi, dictNumPoints, uid)
    {
      assert rois[..r + 1][..r] == rois[..r];
      var roi := rois[r];
      var roiName := dictId[roi.referencedRoiNumber];
      var dictContour, roiPointsCount;
      dictContour, roiPointsCount, uid := CollectSlices(roi.contourSequence, uid);
      dictRoi := dictRoi[roiName := dictContour];
      dictNumPoints := dictNumPoints[roiName := roiPointsCount];
    }
    assert rois[..|rois|] == rois;
  }
}
