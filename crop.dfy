/** The source rectangle handed to the canvas before the image is resampled
    onto the plane's vertex grid: the largest centred region of the image
    whose aspect ratio is that of the plane. */
module Crop {

  datatype Rect = Rect(x: real, y: real, w: real, h: real)

  /** Crop of an imgW x imgH image to the aspect geoW / geoH. When the image is
      relatively wider than the plane the horizontal axis is cropped, otherwise
      the vertical one; either way the crop is centred on the cropped axis. */
  function CropRect(imgW: int, imgH: int, geoW: real, geoH: real): (c: Rect)
    requires imgW > 0 && imgH > 0 && geoW > 0.0 && geoH > 0.0
    // the crop lies inside the image and is not empty
    ensures 0.0 <= c.x && c.x + c.w <= imgW as real && c.w > 0.0
    ensures 0.0 <= c.y && c.y + c.h <= imgH as real && c.h > 0.0
    // it is centred on both axes
    ensures c.x + c.w / 2.0 == imgW as real / 2.0
    ensures c.y + c.h / 2.0 == imgH as real / 2.0
    // its aspect ratio is the plane's
    ensures c.w / c.h == geoW / geoH
    // only the relatively longer axis is cropped; the other keeps the full extent
    ensures imgW as real / imgH as real > geoW / geoH ==>
      c.y == 0.0 && c.h == imgH as real && c.w < imgW as real
    ensures imgW as real / imgH as real <= geoW / geoH ==>
      c.x == 0.0 && c.w == imgW as real && c.h <= imgH as real
  {
    var sw, sh := imgW as real, imgH as real;
    var imgAspect, geoAspect := sw / sh, geoW / geoH;
    if imgAspect > geoAspect then
      var targetW := sh * geoAspect;
      WiderCropFits(sw, sh, geoAspect);
      Rect((sw - targetW) / 2.0, 0.0, targetW, sh)
    else
      var targetH := sw / geoAspect;
      NarrowerCropFits(sw, sh, geoAspect);
      Rect(0.0, (sh - targetH) / 2.0, sw, targetH)
  }

  lemma WiderCropFits(sw: real, sh: real, a: real)
    requires sw > 0.0 && sh > 0.0 && a > 0.0 && sw / sh > a
    ensures 0.0 < sh * a < sw && (sh * a) / sh == a
  {
    assert sw == (sw / sh) * sh;
    assert (sw / sh) * sh > a * sh;
  }

  lemma NarrowerCropFits(sw: real, sh: real, a: real)
    requires sw > 0.0 && sh > 0.0 && a > 0.0 && sw / sh <= a
    ensures 0.0 < sw / a <= sh && sw / (sw / a) == a
  {
    assert sw == (sw / sh) * sh;
    assert (sw / sh) * sh <= a * sh;
    assert sw / a <= sh;
  }
}
