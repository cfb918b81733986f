/**
 * canvas_to_geo of Class_CoordinateConverter.py: a point of the canvas goes
 * back through the pan and the zoom to a pixel of the base image, the pixel
 * is clamped into the image, and the image's index arrays pick the latitude
 * and the longitude out of the raster's coordinate arrays.
 */
module CoordinateConverter {
  import opened Wrappers
  import opened Numerics
  import opened PointInPolygon

  /** The ways the conversion stops: a zero zoom divides by zero; an index past an array's end. */
  datatype ConvertError = ZeroDivision | IndexOutOfRange

  /**
   * numpy's `a[i]` on a one-dimensional array: negative indices count from
   * the end, anything outside `-|a| .. |a| - 1` is an error.
   */
  function PyIndex<T>(a: seq<T>, i: int): (r: Option<T>)
    ensures r.Some? <==> -|a| <= i < |a|
    ensures 0 <= i < |a| ==> r == Some(a[i])
    ensures -|a| <= i < 0 ==> r == Some(a[|a| + i])
  {
    if 0 <= i < |a| then Some(a[i])
    else if -|a| <= i < 0 then Some(a[|a| + i])
    else None
  }

  /**
   * Steps 1 and 2 on one axis: `max(0, min(int((v - pan) / zoom), size - 1))`,
   * truncating toward zero.
   */
  function ImageCoord(v: real, pan: real, zoom: real, size: int): (r: int)
    requires zoom != 0.0
    ensures size >= 1 ==> 0 <= r <= size - 1
    ensures 0 <= Trunc((v - pan) / zoom) <= size - 1 ==> r == Trunc((v - pan) / zoom)
    ensures size < 1 ==> r == 0
  {
    Clamp(Trunc((v - pan) / zoom), 0, size - 1)
  }

  /** The index arrays cover the image's first `size` pixels, each naming an entry of an `n`-long array. */
  predicate ValidIndices(indices: seq<int>, size: int, n: nat)
  {
    size <= |indices| && forall k :: 0 <= k < size ==> 0 <= indices[k] < n
  }

  /**
   * canvas_to_geo(x, y, ...): the latitude at `lat_indices[image_y]` and the
   * longitude at `lon_indices[image_x]`; a zero zoom or an index outside its
   * array is an error. Whatever it returns comes from `lats` and `lons`.
   */
  function CanvasToGeo(x: real, y: real, width: int, height: int, lats: seq<real>, lons: seq<real>,
                       panX: real, panY: real, zoom: real, latIndices: seq<int>, lonIndices: seq<int>): (r: Result<LatLon, ConvertError>)
    ensures zoom == 0.0 ==> r == Err(ZeroDivision)
    ensures r.Ok? ==> r.value.lat in lats && r.value.lon in lons
    ensures zoom != 0.0 && width >= 1 && height >= 1 && ValidIndices(latIndices, height, |lats|) && ValidIndices(lonIndices, width, |lons|) ==>
      r == Ok(LatLon(lats[latIndices[ImageCoord(y, panY, zoom, height)]], lons[lonIndices[ImageCoord(x, panX, zoom, width)]]))
  {
    if zoom == 0.0 then Err(ZeroDivision)
    else
      var imageX := ImageCoord(x, panX, zoom, width);
      var imageY := ImageCoord(y, panY, zoom, height);
      match (PyIndex(latIndices, imageY), PyIndex(lonIndices, imageX))
      case (Some(latIndex), Some(lonIndex)) =>
        (match (PyIndex(lats, latIndex), PyIndex(lons, lonIndex))
         case (Some(lat), Some(lon)) => Ok(LatLon(lat, lon))
         case _ => Err(IndexOutOfRange))
      case _ => Err(IndexOutOfRange)
  }

  /**
   * A canvas point less than one pixel left of (or above) the image's
   * origin truncates to pixel 0 rather than -1: `int()` rounds toward zero.
   */
  lemma SmallNegativeOffsetTruncatesToZero(v: real, pan: real, zoom: real, size: int)
    requires zoom > 0.0 && pan - zoom < v < pan
    ensures Trunc((v - pan) / zoom) == 0
    ensures ImageCoord(v, pan, zoom, size) == 0
  {
    QuotientInOpenUnit(v - pan, zoom);
  }

  /**
   * With no pan and no zoom, clicking the pixel (col, row) of the image
   * reads the coordinates that the index arrays give for that pixel.
   */
  lemma UnzoomedPixel(col: int, row: int, width: int, height: int, lats: seq<real>, lons: seq<real>, latIndices: seq<int>, lonIndices: seq<int>)
    requires 0 <= col < width && 0 <= row < height
    requires ValidIndices(latIndices, height, |lats|) && ValidIndices(lonIndices, width, |lons|)
    ensures CanvasToGeo(col as real, row as real, width, height, lats, lons, 0.0, 0.0, 1.0, latIndices, lonIndices)
         == Ok(LatLon(lats[latIndices[row]], lons[lonIndices[col]]))
  {
    assert Trunc((col as real - 0.0) / 1.0) == col;
    assert Trunc((row as real - 0.0) / 1.0) == row;
  }

  /** With an empty longitude index array no pixel can be looked up: the conversion reports an index error. */
  lemma ShortIndicesFail(x: real, y: real, width: int, height: int, lats: seq<real>, lons: seq<real>,
                         panX: real, panY: real, zoom: real, latIndices: seq<int>, lonIndices: seq<int>)
    requires zoom != 0.0 && |lonIndices| == 0
    ensures CanvasToGeo(x, y, width, height, lats, lons, panX, panY, zoom, latIndices, lonIndices) == Err(IndexOutOfRange)
  {
  }
}
