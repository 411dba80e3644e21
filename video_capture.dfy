/**
 * The camera panel (frontend VideoCapture.js): the blank-frame detector that
 * samples every sixteenth byte of the decoded RGBA pixels, the guarded
 * capture that stores a frame and hands it to the parent, the re-send of the
 * stored frame once the stream has ended, and the camera set-up/teardown
 * effect. The browser (canvas drawing, image decoding, `getUserMedia`, video
 * playback and its timers) is replaced by the parameters and events below.
 */
module VideoCapture {
  import opened Wrappers

  /** One entry of the canvas pixel buffer (`Uint8ClampedArray`). */
  newtype byte = x: int | 0 <= x < 256

  /**
   * Component `j` as the loop reads it; past the end of the buffer JavaScript
   * yields `undefined`, and `undefined > 10` is false, as for 0.
   */
  function Component(data: seq<byte>, j: nat): byte {
    if j < |data| then data[j] else 0
  }

  /** The pixel whose red component is at `i` is not black: red, green or blue above 10 (alpha is not read). */
  predicate NonBlackAt(data: seq<byte>, i: nat) {
    Component(data, i) > 10 || Component(data, i + 1) > 10 || Component(data, i + 2) > 10
  }

  /** How many of the sampled pixels at `i`, `i + 16`, `i + 32`, ... below the length are not black. */
  function NonBlackFrom(data: seq<byte>, i: nat): nat
    decreases |data| - i
  {
    if i >= |data| then 0
    else (if NonBlackAt(data, i) then 1 else 0) + NonBlackFrom(data, i + 16)
  }

  /** The loop's final count: samples at 0, 16, 32, ... */
  function NonBlackCount(data: seq<byte>): nat {
    NonBlackFrom(data, 0)
  }

  /**
   * `nonBlack / (len / 4 / 4) < 0.05` over exact rationals: `320 * nonBlack < len`;
   * an empty buffer divides 0 by 0, and `NaN < 0.05` is false.
   */
  predicate BlankVerdict(nonBlack: nat, len: nat) {
    len > 0 && 320 * nonBlack < len
  }

  /** The frame with pixel buffer `data` is judged blank. */
  predicate Blank(data: seq<byte>) {
    BlankVerdict(NonBlackCount(data), |data|)
  }

  /**
   * `isImageBlank`: `decoded` is the pixel buffer of the loaded image, or
   * `None` when the image fails to load, which counts as blank.
   */
  method IsImageBlank(decoded: Option<seq<byte>>) returns (blank: bool)
    ensures decoded.None? ==> blank
    ensures decoded.Some? ==> (blank <==> Blank(decoded.value))
  {
    if decoded.None? {
      return true;
    }
    var data := decoded.value;
    var nonBlack := 0;
    var i := 0;
    while i < |data|
      invariant nonBlack + NonBlackFrom(data, i) == NonBlackCount(data)
      decreases |data| - i
    {
      if data[i] > 10 || Component(data, i + 1) > 10 || Component(data, i + 2) > 10 {
        nonBlack := nonBlack + 1;
      }
      i := i + 16;
    }
    blank := BlankVerdict(nonBlack, |data|);
  }

  /** Dividing by a positive number stays below `c` exactly when the dividend is below `c` times the divisor. */
  lemma DivBelow(x: real, d: real, c: real)
    requires d > 0.0
    ensures x / d < c <==> x < c * d
  {
    var q := x / d;
    assert q * d == x;
    if q < c {
      assert q * d < c * d;
    } else {
      assert q * d >= c * d;
    }
  }

  /** The comparison in the source, read over the reals, is the integer test. */
  lemma ThresholdIsRational(nonBlack: nat, len: nat)
    requires len > 0
    ensures (nonBlack as real) / ((len as real / 4.0) / 4.0) < 0.05 <==> BlankVerdict(nonBlack, len)
  {
    var d := (len as real / 4.0) / 4.0;
    assert d == len as real / 16.0;
    DivBelow(nonBlack as real, d, 0.05);
    assert 0.05 * d == len as real / 320.0;
    assert (nonBlack as real) < len as real / 320.0 <==> (320 * nonBlack) as real < len as real;
  }

  /** Every non-black sample is one of the sampled positions: at most ceil((len - i) / 16) of them. */
  lemma {:induction false} NonBlackFromBound(data: seq<byte>, i: nat)
    ensures i < |data| ==> 16 * NonBlackFrom(data, i) <= |data| - i + 15
    ensures i >= |data| ==> NonBlackFrom(data, i) == 0
    decreases |data| - i
  {
    if i < |data| {
      NonBlackFromBound(data, i + 16);
    }
  }

  /** The count never exceeds the number of samples, ceil(len / 16). */
  lemma NonBlackCountBound(data: seq<byte>)
    ensures NonBlackCount(data) <= (|data| + 15) / 16
  {
    NonBlackFromBound(data, 0);
  }

  /** Only red, green and blue of each sixteenth byte are read: buffers that agree there get the same count. */
  lemma {:induction false} OnlySampledBytesMatter(a: seq<byte>, b: seq<byte>, i: nat)
    requires |a| == |b| && i % 16 == 0
    requires forall j :: 0 <= j < |a| && j % 16 < 3 ==> a[j] == b[j]
    ensures NonBlackFrom(a, i) == NonBlackFrom(b, i)
    decreases |a| - i
  {
    if i < |a| {
      assert NonBlackAt(a, i) == NonBlackAt(b, i) by {
        assert (i + 1) % 16 == 1 && (i + 2) % 16 == 2;
      }
      OnlySampledBytesMatter(a, b, i + 16);
    }
  }

  /** A frame whose every sample has red above 10 is never blank. */
  lemma {:induction false} BrightSamplesCounted(data: seq<byte>, i: nat)
    requires i % 16 == 0
    requires forall j :: 0 <= j < |data| && j % 16 == 0 ==> data[j] > 10
    ensures 16 * NonBlackFrom(data, i) >= |data| - i
    decreases |data| - i
  {
    if i < |data| {
      BrightSamplesCounted(data, i + 16);
    }
  }

  lemma BrightFrameNotBlank(data: seq<byte>)
    requires |data| > 0
    requires forall j :: 0 <= j < |data| && j % 16 == 0 ==> data[j] > 10
    ensures !Blank(data)
  {
    BrightSamplesCounted(data, 0);
  }

  /** A non-empty frame whose samples are all black is blank. */
  lemma {:induction false} DarkSamplesUncounted(data: seq<byte>, i: nat)
    requires forall j :: 0 <= j < |data| ==> data[j] <= 10
    ensures NonBlackFrom(data, i) == 0
    decreases |data| - i
  {
    if i < |data| {
      DarkSamplesUncounted(data, i + 16);
    }
  }

  lemma DarkFrameBlank(data: seq<byte>)
    requires |data| > 0
    requires forall j :: 0 <= j < |data| ==> data[j] <= 10
    ensures Blank(data)
  {
    DarkSamplesUncounted(data, 0);
  }

  /** The video element's frame size, when there is a video element. */
  datatype Video = Video(videoWidth: int, videoHeight: int)

  /** The component's state, its refs and the images it has handed to `onImageCapture`. */
  class Camera {
    var isActive: bool
    var isCameraReady: bool
    var cameraError: bool
    var hasValidImage: bool
    var storedImage: Option<string>
    /** `streamRef.current`: one live flag per track, `null` when there is no stream. */
    var stream: array?<bool>
    /** `getUserMedia` calls whose promise has not settled. */
    var pendingRequests: nat
    /** The arguments of every `onImageCapture` call, in order. */
    var captures: seq<string>

    /** The parent has been handed the stored image last, and a valid-image mark has an image behind it. */
    predicate Valid()
      reads this
    {
      && (storedImage.Some? ==> |captures| > 0 && captures[|captures| - 1] == storedImage.value)
      && (hasValidImage ==> storedImage.Some?)
    }

    constructor ()
      ensures Valid()
      ensures !isActive && !isCameraReady && !cameraError && !hasValidImage
      ensures storedImage == None && stream == null && pendingRequests == 0 && captures == []
    {
      isActive := false;
      isCameraReady := false;
      cameraError := false;
      hasValidImage := false;
      storedImage := None;
      stream := null;
      pendingRequests := 0;
      captures := [];
    }

    /** The `isActive` prop changes (the parent's recording flag). */
    method SetActive(active: bool)
      modifies this
      ensures isActive == active
      ensures isCameraReady == old(isCameraReady) && cameraError == old(cameraError)
      ensures hasValidImage == old(hasValidImage) && storedImage == old(storedImage)
      ensures stream == old(stream) && pendingRequests == old(pendingRequests) && captures == old(captures)
      ensures Valid() == old(Valid())
    {
      isActive := active;
    }

    /**
     * `captureImage`: `video` is the video element, if any; `frame` the data URL
     * the canvas produced (`None` when drawing or encoding threw); `decoded` the
     * pixels of that URL once loaded (`None` when loading failed). The checks
     * run in the source's order and a failed one changes nothing.
     */
    method CaptureImage(video: Option<Video>, frame: Option<string>, decoded: Option<seq<byte>>) returns (ok: bool)
      requires Valid()
      modifies this
      ensures Valid()
      ensures ok <==>
        && video.Some? && old(isCameraReady)
        && video.value.videoWidth > 0 && video.value.videoHeight > 0
        && frame.Some? && decoded.Some? && !Blank(decoded.value)
      ensures !ok ==>
        && storedImage == old(storedImage) && hasValidImage == old(hasValidImage)
        && captures == old(captures)
      ensures ok ==>
        && storedImage == Some(frame.value) && hasValidImage
        && captures == old(captures) + [frame.value]
      ensures isActive == old(isActive) && isCameraReady == old(isCameraReady)
      ensures cameraError == old(cameraError) && stream == old(stream)
      ensures pendingRequests == old(pendingRequests)
    {
      if video.None? {
        return false;
      }
      if !isCameraReady {
        return false;
      }
      if video.value.videoWidth <= 0 || video.value.videoHeight <= 0 {
        return false;
      }
      if frame.None? {
        return false;
      }
      var blank := IsImageBlank(decoded);
      if blank {
        return false;
      }
      storedImage := Some(frame.value);
      hasValidImage := true;
      captures := captures + [frame.value];
      return true;
    }

    /** The end-of-stream effect: once inactive, the stored image is handed to the parent again. */
    method ResendEffect()
      requires Valid()
      modifies this
      ensures Valid()
      ensures captures == if !isActive && storedImage.Some? then old(captures) + [storedImage.value] else old(captures)
      ensures isActive == old(isActive) && isCameraReady == old(isCameraReady) && cameraError == old(cameraError)
      ensures hasValidImage == old(hasValidImage) && storedImage == old(storedImage)
      ensures stream == old(stream) && pendingRequests == old(pendingRequests)
    {
      if !isActive && storedImage.Some? {
        captures := captures + [storedImage.value];
      }
    }

    /**
     * The set-up/teardown effect. Active and error-free: without a stored image
     * the valid mark is cleared, and unless the camera is ready with a stream
     * the camera is requested. Inactive with a stream: every track is stopped,
     * the stream dropped and the camera marked not ready.
     */
    method CameraEffect()
      requires Valid()
      modifies this, stream
      ensures Valid()
      ensures isActive == old(isActive) && cameraError == old(cameraError)
      ensures storedImage == old(storedImage) && captures == old(captures)
      ensures isActive && !cameraError ==>
        && hasValidImage == (old(hasValidImage) && storedImage.Some?)
        && pendingRequests == old(pendingRequests) + (if !old(isCameraReady) || old(stream) == null then 1 else 0)
        && stream == old(stream) && isCameraReady == old(isCameraReady)
        && (stream != null ==> unchanged(stream))
      ensures !isActive && old(stream) != null ==>
        && stream == null && !isCameraReady
        && (forall k :: 0 <= k < old(stream).Length ==> !old(stream)[k])
        && hasValidImage == old(hasValidImage) && pendingRequests == old(pendingRequests)
      ensures (isActive && cameraError) || (!isActive && old(stream) == null) ==>
        && stream == old(stream) && isCameraReady == old(isCameraReady)
        && hasValidImage == old(hasValidImage) && pendingRequests == old(pendingRequests)
        && (stream != null ==> unchanged(stream))
    {
      if isActive && !cameraError {
        if storedImage.None? {
          hasValidImage := false;
        }
        if !isCameraReady || stream == null {
          pendingRequests := pendingRequests + 1;
        }
      } else if !isActive {
        if stream != null {
          var tracks := stream;
          var k := 0;
          while k < tracks.Length
            invariant 0 <= k <= tracks.Length
            invariant forall j :: 0 <= j < k ==> !tracks[j]
            modifies tracks
          {
            tracks[k] := false;
            k := k + 1;
          }
          stream := null;
          isCameraReady := false;
        }
      }
    }

    /** A pending camera request succeeds with a stream of `trackCount` live tracks. */
    method StreamGranted(trackCount: nat)
      requires pendingRequests > 0 && Valid()
      modifies this
      ensures Valid()
      ensures fresh(stream) && stream.Length == trackCount
      ensures forall k :: 0 <= k < trackCount ==> stream[k]
      ensures pendingRequests == old(pendingRequests) - 1
      ensures isActive == old(isActive) && isCameraReady == old(isCameraReady) && cameraError == old(cameraError)
      ensures hasValidImage == old(hasValidImage) && storedImage == old(storedImage) && captures == old(captures)
    {
      pendingRequests := pendingRequests - 1;
      stream := new bool[trackCount](_ => true);
    }

    /** A pending camera request is refused: the camera is in error. */
    method StreamFailed()
      requires pendingRequests > 0 && Valid()
      modifies this
      ensures Valid()
      ensures cameraError && pendingRequests == old(pendingRequests) - 1
      ensures isActive == old(isActive) && isCameraReady == old(isCameraReady) && stream == old(stream)
      ensures hasValidImage == old(hasValidImage) && storedImage == old(storedImage) && captures == old(captures)
    {
      pendingRequests := pendingRequests - 1;
      cameraError := true;
    }

    /** The video started playing and the one-second settling timer fired. */
    method VideoReady()
      requires Valid()
      modifies this
      ensures Valid()
      ensures isCameraReady
      ensures isActive == old(isActive) && cameraError == old(cameraError) && stream == old(stream)
      ensures hasValidImage == old(hasValidImage) && storedImage == old(storedImage) && captures == old(captures)
      ensures pendingRequests == old(pendingRequests)
    {
      isCameraReady := true;
    }

    /** Playback could not start, or the video element reported an error. */
    method VideoFailed()
      requires Valid()
      modifies this
      ensures Valid()
      ensures cameraError
      ensures isActive == old(isActive) && isCameraReady == old(isCameraReady) && stream == old(stream)
      ensures hasValidImage == old(hasValidImage) && storedImage == old(storedImage) && captures == old(captures)
      ensures pendingRequests == old(pendingRequests)
    {
      cameraError := true;
    }
  }
}
