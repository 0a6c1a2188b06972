/** The parts of parsed DICOM objects that the loader and the batch jobs
    read, as plain records. Attribute names follow the DICOM keywords. */
module Dicom {

  /** A file as the directory scanner sees it after `dcmread`: its
      Modality and the number of top-level data elements (`len(ds)`). */
  datatype Dataset = Dataset(modality: string, length: nat)

  /** One item of StructureSetROISequence. */
  datatype RoiItem = RoiItem(
    roiNumber: int,
    referencedFrameOfReferenceUid: string,
    roiName: string,
    roiGenerationAlgorithm: string)

  /** One item of a ROI's ContourSequence: the ReferencedSOPInstanceUID
      of each ContourImageSequence item, in order, and the contour itself. */
  datatype ContourSlice = ContourSlice(
    contourImageUids: seq<string>,
    contourGeometricType: string,
    numberOfContourPoints: int,
    contourData: seq<real>)

  /** One item of ROIContourSequence. */
  datatype RoiContour = RoiContour(
    referencedRoiNumber: int,
    contourSequence: seq<ContourSlice>)

  /** An RT Structure Set. */
  datatype StructureSet = StructureSet(
    structureSetRoiSequence: seq<RoiItem>,
    roiContourSequence: seq<RoiContour>)

  /** The image-plane attributes of a CT slice. `pixelSpacing` holds the
      row spacing then the column spacing, `imageOrientationPatient` the
      six direction cosines, `imagePositionPatient` the three coordinates
      of the first voxel. */
  datatype ImagePlane = ImagePlane(
    pixelSpacing: seq<real>,
    imageOrientationPatient: seq<real>,
    imagePositionPatient: seq<real>,
    rows: nat,
    columns: nat)

  /** One item of a Structured Report's ContentSequence. */
  datatype ContentItem = ContentItem(textValue: string)

  /** A Structured Report document. */
  datatype SrDataset = SrDataset(
    sopClassUid: string,
    seriesDescription: string,
    contentSequence: seq<ContentItem>)
}
