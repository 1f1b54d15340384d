/**
 * The preview box (`getVideoAspectRatio`, `videoWidth`, `videoHeight`),
 * over exact reals rather than IEEE doubles: the box keeps the stream's
 * aspect ratio and never exceeds the configured width and height.
 */
module Preview {

  /** `getVideoAspectRatio`: the stream's ratio when both native sides are positive, else the configured one. */
  function AspectRatio(width: real, height: real, videoWidth: real, videoHeight: real): (r: real)
    requires height > 0.0
    ensures videoWidth > 0.0 && videoHeight > 0.0 ==> r == videoWidth / videoHeight
    ensures !(videoWidth > 0.0 && videoHeight > 0.0) ==> r == width / height
  {
    if videoWidth > 0.0 && videoHeight > 0.0 then videoWidth / videoHeight else width / height
  }

  function Min(a: real, b: real): real {
    if a <= b then a else b
  }

  /** `videoWidth`: the configured width, or less when the configured height at this ratio needs less. */
  function PreviewWidth(width: real, height: real, ratio: real): (r: real)
    ensures r <= width && r <= height * ratio
    ensures r == width || r == height * ratio
  {
    Min(width, height * ratio)
  }

  /** `videoHeight`: the configured height, or less when the configured width at this ratio needs less. */
  function PreviewHeight(width: real, height: real, ratio: real): (r: real)
    requires ratio > 0.0
    ensures r <= height && r <= width / ratio
    ensures r == height || r == width / ratio
  {
    Min(height, width / ratio)
  }

  /** The preview fits the configured box and has exactly the requested aspect ratio. */
  lemma PreviewFitsAndKeepsRatio(width: real, height: real, ratio: real)
    requires width > 0.0 && height > 0.0 && ratio > 0.0
    ensures PreviewWidth(width, height, ratio) <= width
    ensures PreviewHeight(width, height, ratio) <= height
    ensures PreviewWidth(width, height, ratio) == PreviewHeight(width, height, ratio) * ratio
  {
    if width <= height * ratio {
      assert width / ratio <= height by {
        assert (width / ratio) * ratio == width;
      }
      assert PreviewHeight(width, height, ratio) == width / ratio;
    } else {
      assert width / ratio > height by {
        assert (width / ratio) * ratio == width;
      }
    }
  }

  /** A 640x480 box shows a 1920x1080 stream as 640x360, and a 1280x960 stream as 640x480. */
  lemma PreviewExamples()
    ensures var r := AspectRatio(640.0, 480.0, 1920.0, 1080.0);
      PreviewWidth(640.0, 480.0, r) == 640.0 && PreviewHeight(640.0, 480.0, r) == 360.0
    ensures var r := AspectRatio(640.0, 480.0, 1280.0, 960.0);
      PreviewWidth(640.0, 480.0, r) == 640.0 && PreviewHeight(640.0, 480.0, r) == 480.0
  {
  }
}
