/** `Extended.calculate_matrix`: a map from pixel indices to patient
    coordinates shaped after Equation C.7.6.2.1-1 of DICOM PS3.3 section
    C.7.6.2.1.1. The 4x4 matrix `MatrixM` is the one the code builds: the
    row direction cosines (orientation 0..2) scaled by PixelSpacing[0], the
    column direction cosines (orientation 3..5) scaled by PixelSpacing[1],
    a zero column and the image position. The standard's matrix
    `StandardMatrix` scales the row cosines by the column spacing
    PixelSpacing[1] and the column cosines by the row spacing
    PixelSpacing[0]; the two agree when the spacings are equal
    (`MatrixMSquarePixels`) and differ otherwise (`MatrixMNonSquarePixels`).
    Column `i` maps to the x component of M·(i, 0, 0, 1), row `j` to the y
    component of M·(0, j, 0, 1). Exact real arithmetic stands in for
    doubles. */
module PixelMap {
  import opened Dicom

  /** The attributes are indexed as the source indexes them. */
  predicate HasPlaneAttributes(img: ImagePlane)
  {
    |img.pixelSpacing| >= 2 && |img.imageOrientationPatient| >= 6 && |img.imagePositionPatient| >= 3
  }

  type Matrix = seq<seq<real>>

  predicate IsMatrix4(m: Matrix)
  {
    |m| == 4 && forall r :: 0 <= r < 4 ==> |m[r]| == 4
  }

  function MatrixM(img: ImagePlane): (m: Matrix)
    requires HasPlaneAttributes(img)
    ensures IsMatrix4(m)
  {
    var distRow, distCol := img.pixelSpacing[0], img.pixelSpacing[1];
    var o, p := img.imageOrientationPatient, img.imagePositionPatient;
    [[o[0] * distRow, o[3] * distCol, 0.0, p[0]],
     [o[1] * distRow, o[4] * distCol, 0.0, p[1]],
     [o[2] * distRow, o[5] * distCol, 0.0, p[2]],
     [0.0, 0.0, 0.0, 1.0]]
  }

  /** The matrix of Equation C.7.6.2.1-1: the row direction cosines step
      with the column index by the column spacing Δi = PixelSpacing[1],
      the column direction cosines with the row index by the row spacing
      Δj = PixelSpacing[0]. */
  function StandardMatrix(img: ImagePlane): (m: Matrix)
    requires HasPlaneAttributes(img)
    ensures IsMatrix4(m)
  {
    var deltaI, deltaJ := img.pixelSpacing[1], img.pixelSpacing[0];
    var o, p := img.imageOrientationPatient, img.imagePositionPatient;
    [[o[0] * deltaI, o[3] * deltaJ, 0.0, p[0]],
     [o[1] * deltaI, o[4] * deltaJ, 0.0, p[1]],
     [o[2] * deltaI, o[5] * deltaJ, 0.0, p[2]],
     [0.0, 0.0, 0.0, 1.0]]
  }

  /** With square pixels the code's matrix is the standard's. */
  lemma MatrixMSquarePixels(img: ImagePlane)
    requires HasPlaneAttributes(img)
    requires img.pixelSpacing[0] == img.pixelSpacing[1]
    ensures MatrixM(img) == StandardMatrix(img)
  {
    var m, st := MatrixM(img), StandardMatrix(img);
    forall r, c | 0 <= r < 4 && 0 <= c < 4
      ensures m[r][c] == st[r][c]
    {
    }
    assert forall r :: 0 <= r < 4 ==> m[r] == st[r];
  }

  /** With unequal spacings and a row direction with a non-zero x
      component, the code's matrix is not the standard's: its x step per
      column is orientation[0]·PixelSpacing[0] instead of
      orientation[0]·PixelSpacing[1]. */
  lemma MatrixMNonSquarePixels(img: ImagePlane)
    requires HasPlaneAttributes(img)
    requires img.pixelSpacing[0] != img.pixelSpacing[1] && img.imageOrientationPatient[0] != 0.0
    ensures MatrixM(img)[0][0] != StandardMatrix(img)[0][0]
    ensures MatrixM(img) != StandardMatrix(img)
  {
    var o, s := img.imageOrientationPatient, img.pixelSpacing;
    assert o[0] * s[0] != o[0] * s[1];
  }

  /** Row `r` of the product of a 4x4 matrix with a 4-vector. */
  function MulRow(m: Matrix, v: seq<real>, r: nat): real
    requires IsMatrix4(m) && |v| == 4 && r < 4
  {
    m[r][0] * v[0] + m[r][1] * v[1] + m[r][2] * v[2] + m[r][3] * v[3]
  }

  /** The pair (x, y) of coordinate arrays. */
  function CalculateMatrix(img: ImagePlane): (xy: (seq<real>, seq<real>))
    requires HasPlaneAttributes(img)
    ensures |xy.0| == img.columns && |xy.1| == img.rows
    ensures forall i :: 0 <= i < img.columns ==>
      xy.0[i] == img.imageOrientationPatient[0] * img.pixelSpacing[0] * i as real + img.imagePositionPatient[0]
    ensures forall j :: 0 <= j < img.rows ==>
      xy.1[j] == img.imageOrientationPatient[4] * img.pixelSpacing[1] * j as real + img.imagePositionPatient[1]
  {
    var m := MatrixM(img);
    (seq(img.columns, i requires 0 <= i < img.columns => MulRow(m, [i as real, 0.0, 0.0, 1.0], 0)),
     seq(img.rows, j requires 0 <= j < img.rows => MulRow(m, [0.0, j as real, 0.0, 1.0], 1)))
  }

  /** Both arrays are evenly spaced: consecutive columns differ by the
      first row direction cosine times the row spacing, consecutive rows
      by the second column direction cosine times the column spacing. */
  lemma CalculateMatrixEvenlySpaced(img: ImagePlane)
    requires HasPlaneAttributes(img)
    ensures var (x, y) := CalculateMatrix(img);
      && (forall i :: 0 < i < |x| ==>
            x[i] - x[i - 1] == img.imageOrientationPatient[0] * img.pixelSpacing[0])
      && (forall j :: 0 < j < |y| ==>
            y[j] - y[j - 1] == img.imageOrientationPatient[4] * img.pixelSpacing[1])
  {
    var (x, y) := CalculateMatrix(img);
    var ox, oy := img.imageOrientationPatient[0], img.imageOrientationPatient[4];
    var dr, dc := img.pixelSpacing[0], img.pixelSpacing[1];
    forall i | 0 < i < |x|
      ensures x[i] - x[i - 1] == ox * dr
    {
      assert ox * dr * i as real - ox * dr * (i - 1) as real == ox * dr;
    }
    forall j | 0 < j < |y|
      ensures y[j] - y[j - 1] == oy * dc
    {
      assert oy * dc * j as real - oy * dc * (j - 1) as real == oy * dc;
    }
  }

  /** An axial slice with unit spacing at the origin maps each index to
      itself. */
  lemma CalculateMatrixIdentity(img: ImagePlane)
    requires img.pixelSpacing == [1.0, 1.0]
    requires img.imageOrientationPatient == [1.0, 0.0, 0.0, 0.0, 1.0, 0.0]
    requires img.imagePositionPatient == [0.0, 0.0, 0.0]
    ensures var (x, y) := CalculateMatrix(img);
      && (forall i :: 0 <= i < |x| ==> x[i] == i as real)
      && (forall j :: 0 <= j < |y| ==> y[j] == j as real)
  {
  }

  /** The worked case of a 5x5 identity slice. */
  lemma CalculateMatrixExample()
    ensures CalculateMatrix(ImagePlane([1.0, 1.0], [1.0, 0.0, 0.0, 0.0, 1.0, 0.0], [0.0, 0.0, 0.0], 5, 5))
         == ([0.0, 1.0, 2.0, 3.0, 4.0], [0.0, 1.0, 2.0, 3.0, 4.0])
  {
    var img := ImagePlane([1.0, 1.0], [1.0, 0.0, 0.0, 0.0, 1.0, 0.0], [0.0, 0.0, 0.0], 5, 5);
    CalculateMatrixIdentity(img);
    var (x, y) := CalculateMatrix(img);
    assert x == [0.0, 1.0, 2.0, 3.0, 4.0];
    assert y == [0.0, 1.0, 2.0, 3.0, 4.0];
  }
}
