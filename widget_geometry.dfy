/**
 * The constant geometry of the Android Auto widget renderer: the pixel to
 * clip-space matrix it uploads as `uScreen`, and the quad it draws the
 * widget bitmap on. Matrix entries are exact reals; vertex coordinates are
 * whole pixels.
 */
module WidgetGeometry {

  const CoordsPerVertex: int := 2
  const BytesPerFloat: int := 4
  /** Bytes between consecutive vertices in a vertex array. */
  const VertexStride: int := CoordsPerVertex * BytesPerFloat

  /** The full-screen quad whose size fixes the vertex count of the draw. */
  const BackgroundCoordinates: seq<real> := [-1.0, -1.0, 1.0, -1.0, -1.0, 1.0, 1.0, 1.0]

  /** Number of vertices in the triangle strip that is drawn. */
  const VertexCount: int := |BackgroundCoordinates| / CoordsPerVertex

  /** The number of floats in a 4x4 matrix. */
  const MatrixFloats: int := 16

  /**
   * The `uScreen` matrix for a `width` by `height` pixel surface, column
   * by column (OpenGL's column-major order).
   */
  function ScreenMatrix(width: int, height: int): (m: seq<real>)
    requires width != 0 && height != 0
    ensures |m| == MatrixFloats
  {
    [ 2.0 / width as real, 0.0, 0.0, 0.0,
      0.0, -2.0 / height as real, 0.0, 0.0,
      0.0, 0.0, 0.0, 0.0,
      -1.0, 1.0, 0.0, 1.0 ]
  }

  /** Entry (row, col) of a column-major 4x4 matrix. */
  function Entry(m: seq<real>, row: int, col: int): real
    requires |m| == MatrixFloats && 0 <= row < 4 && 0 <= col < 4
  {
    m[col * 4 + row]
  }

  /** Row `row` of the product of a column-major matrix with a vector. */
  function RowTimes(m: seq<real>, row: int, v: seq<real>): real
    requires |m| == MatrixFloats && |v| == 4 && 0 <= row < 4
  {
    Entry(m, row, 0) * v[0] + Entry(m, row, 1) * v[1] + Entry(m, row, 2) * v[2] + Entry(m, row, 3) * v[3]
  }

  /** The product `m * v`, as the vertex shader computes `uScreen * vec4(vPosition, 0.0, 1.0)`. */
  function Transform(m: seq<real>, v: seq<real>): (r: seq<real>)
    requires |m| == MatrixFloats && |v| == 4
    ensures |r| == 4
  {
    [RowTimes(m, 0, v), RowTimes(m, 1, v), RowTimes(m, 2, v), RowTimes(m, 3, v)]
  }

  /** The clip-space x of pixel column `px` on a surface `width` pixels wide. */
  function ClipX(px: int, width: int): real
    requires width != 0
  {
    2.0 * px as real / width as real - 1.0
  }

  /** The clip-space y of pixel row `py` on a surface `height` pixels high; rows grow downwards. */
  function ClipY(py: int, height: int): real
    requires height != 0
  {
    1.0 - 2.0 * py as real / height as real
  }

  /**
   * The screen matrix takes pixel (px, py) to clip space: x scales from
   * [0, width] to [-1, 1], y from [0, height] to [1, -1], and z and w
   * come out as 0 and 1.
   */
  lemma ScreenMatrixMapsPixels(width: int, height: int, px: int, py: int)
    requires width != 0 && height != 0
    ensures Transform(ScreenMatrix(width, height), [px as real, py as real, 0.0, 1.0])
         == [ClipX(px, width), ClipY(py, height), 0.0, 1.0]
  {
    var m := ScreenMatrix(width, height);
    var v := [px as real, py as real, 0.0, 1.0];
    calc {
      RowTimes(m, 0, v);
      (2.0 / width as real) * px as real - 1.0;
      { assert (2.0 / width as real) * px as real == 2.0 * px as real / width as real; }
      ClipX(px, width);
    }
    calc {
      RowTimes(m, 1, v);
      (-2.0 / height as real) * py as real + 1.0;
      { assert (-2.0 / height as real) * py as real == -(2.0 * py as real / height as real); }
      ClipY(py, height);
    }
  }

  /** The top-left pixel corner lands on clip (-1, 1) and the bottom-right one on (1, -1). */
  lemma ScreenCorners(width: int, height: int)
    requires width != 0 && height != 0
    ensures Transform(ScreenMatrix(width, height), [0.0, 0.0, 0.0, 1.0]) == [-1.0, 1.0, 0.0, 1.0]
    ensures Transform(ScreenMatrix(width, height), [width as real, height as real, 0.0, 1.0]) == [1.0, -1.0, 0.0, 1.0]
  {
    ScreenMatrixMapsPixels(width, height, 0, 0);
    ScreenMatrixMapsPixels(width, height, width, height);
    assert 2.0 * width as real / width as real == 2.0;
    assert 2.0 * height as real / height as real == 2.0;
  }

  /**
   * The vertex positions of the quad, in pixels: V1 (0, H-bh), V2 (0, H),
   * V3 (bw, H-bh), V4 (bw, H), for a `bitmapWidth` (bw) by `bitmapHeight`
   * (bh) bitmap on a surface `height` (H) pixels high.
   */
  function VertexPositionData(height: int, bitmapWidth: int, bitmapHeight: int): (d: seq<int>)
    ensures |d| == 4 * CoordsPerVertex
  {
    [ 0, height - bitmapHeight,
      0, height,
      bitmapWidth, height - bitmapHeight,
      bitmapWidth, height ]
  }

  /** The texture coordinates of the four vertices, in the same order. */
  const TexturePositionData: seq<int> := [0, 0, 0, 1, 1, 0, 1, 1]

  /**
   * The quad draws the whole bitmap upright in the bottom-left corner of
   * the surface: vertex k sits at the pixel that texture coordinate k of
   * the bitmap names, shifted down to rows H-bh to H.
   */
  lemma QuadPairsWithTexture(height: int, bitmapWidth: int, bitmapHeight: int, k: int)
    requires 0 <= k < VertexCount
    ensures VertexPositionData(height, bitmapWidth, bitmapHeight)[2 * k] == TexturePositionData[2 * k] * bitmapWidth
    ensures VertexPositionData(height, bitmapWidth, bitmapHeight)[2 * k + 1]
         == height - bitmapHeight + TexturePositionData[2 * k + 1] * bitmapHeight
  {
  }

  /**
   * The draw reads exactly the given data: four vertices of two
   * coordinates each, for positions and for texture coordinates alike.
   */
  lemma DrawCountsMatchData(height: int, bitmapWidth: int, bitmapHeight: int)
    ensures VertexCount == 4 && VertexStride == 8
    ensures |VertexPositionData(height, bitmapWidth, bitmapHeight)| == VertexCount * CoordsPerVertex
    ensures |TexturePositionData| == VertexCount * CoordsPerVertex
  {
  }

  /**
   * Under the screen matrix, a bitmap no larger than the surface is drawn
   * inside the clip square, flush with its left and bottom edges.
   */
  lemma {:induction false} QuadInsideClip(width: int, height: int, bitmapWidth: int, bitmapHeight: int, k: int)
    requires width > 0 && height > 0
    requires 0 <= bitmapWidth <= width && 0 <= bitmapHeight <= height
    requires 0 <= k < VertexCount
    ensures -1.0 <= ClipX(VertexPositionData(height, bitmapWidth, bitmapHeight)[2 * k], width) <= 1.0
    ensures -1.0 <= ClipY(VertexPositionData(height, bitmapWidth, bitmapHeight)[2 * k + 1], height) <= 1.0
    ensures ClipX(VertexPositionData(height, bitmapWidth, bitmapHeight)[2], width) == -1.0
    ensures ClipY(VertexPositionData(height, bitmapWidth, bitmapHeight)[3], height) == -1.0
  {
    var d := VertexPositionData(height, bitmapWidth, bitmapHeight);
    ClipBounds(d[2 * k], width);
    ClipBounds(d[2 * k + 1], height);
    ClipBounds(d[2], width);
    ClipBounds(d[3], height);
  }

  /** A pixel coordinate between 0 and the surface size lands between -1 and 1 on either axis. */
  lemma ClipBounds(p: int, size: int)
    requires size > 0 && 0 <= p <= size
    ensures -1.0 <= ClipX(p, size) <= 1.0 && -1.0 <= ClipY(p, size) <= 1.0
    ensures p == 0 ==> ClipX(p, size) == -1.0
    ensures p == size ==> ClipY(p, size) == -1.0
  {
    var q := 2.0 * p as real / size as real;
    assert q * size as real == 2.0 * p as real;
    assert 0.0 <= q <= 2.0;
    if p == size {
      assert q == 2.0;
    }
  }

  /** A 1000 by 2000 pixel surface scales x by 1/500 and y by -1/1000. */
  lemma ScreenMatrixExample()
    ensures ScreenMatrix(1000, 2000)[0] == 0.002 && ScreenMatrix(1000, 2000)[5] == -0.001
    ensures ScreenMatrix(1000, 2000)[12] == -1.0 && ScreenMatrix(1000, 2000)[13] == 1.0
  {
  }
}
