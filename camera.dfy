/**
 * The camera manager's frame path: a YUV_420_888 image's three planes are
 * packed into one NV21 byte buffer (Y, then V, then U), which is handed to
 * the platform's JPEG encoder and bitmap decoder; the analyzer callback
 * emits the frame when there is one and closes the image proxy on every
 * path where the conversion does not throw.
 *
 * `YuvImage.compressToJpeg` followed by `BitmapFactory.decodeByteArray` is
 * foreign code; it is the parameter `decode`, a function of the NV21 buffer
 * and the frame size that may give no bitmap.
 */
module CameraXManager {
  import opened Types
  import opened Pixels

  /** The bytes remaining in `planes[0]` (Y), `planes[1]` (U) and `planes[2]` (V). */
  datatype YuvPlanes = YuvPlanes(y: seq<Byte>, u: seq<Byte>, v: seq<Byte>)

  /** The foreign JPEG round trip from an NV21 buffer of the given width and height. */
  type Decoder = (seq<Byte>, int, int) -> Option<Bitmap>

  /** The `ImageProxy` the analyzer receives: its image (null when absent), its size, and whether it was closed. */
  class ImageProxy {
    const image: Option<YuvPlanes>
    const width: int
    const height: int
    var closed: bool

    constructor (image: Option<YuvPlanes>, width: int, height: int)
      ensures this.image == image && this.width == width && this.height == height
      ensures !closed
    {
      this.image := image;
      this.width := width;
      this.height := height;
      closed := false;
    }

    /** `imageProxy.close()`. */
    method Close()
      modifies this
      ensures closed
    {
      closed := true;
    }
  }

  /**
   * `buffer.get(dst, offset, buffer.remaining())`: the remaining bytes are
   * copied to `dst[offset..]` in order, and nothing else in `dst` changes.
   */
  method Get(src: seq<Byte>, dst: array<Byte>, offset: nat)
    requires offset + |src| <= dst.Length
    modifies dst
    ensures dst[..] == old(dst[..offset]) + src + old(dst[offset + |src|..])
  {
    var i := 0;
    while i < |src|
      invariant 0 <= i <= |src|
      invariant forall k :: 0 <= k < offset ==> dst[k] == old(dst[k])
      invariant forall k :: 0 <= k < i ==> dst[offset + k] == src[k]
      invariant forall k :: offset + i <= k < dst.Length ==> dst[k] == old(dst[k])
    {
      dst[offset + i] := src[i];
      i := i + 1;
    }
    assert dst[..] == old(dst[..offset]) + src + old(dst[offset + |src|..]);
  }

  /**
   * The NV21 assembly in `imageProxyToBitmap` (`ByteArray(ySize + uSize +
   * vSize)` and the three `get` copies): a buffer of `ySize + uSize + vSize` bytes holding the Y
   * plane, then the V plane, then the U plane (V before U is what makes it NV21).
   */
  method Nv21Buffer(planes: YuvPlanes) returns (nv21: array<Byte>)
    ensures nv21.Length == |planes.y| + |planes.u| + |planes.v|
    ensures nv21[..|planes.y|] == planes.y
    ensures nv21[|planes.y|..|planes.y| + |planes.v|] == planes.v
    ensures nv21[|planes.y| + |planes.v|..] == planes.u
    ensures nv21[..] == planes.y + planes.v + planes.u
  {
    var ySize := |planes.y|;
    var uSize := |planes.u|;
    var vSize := |planes.v|;
    nv21 := new Byte[ySize + uSize + vSize];
    Get(planes.y, nv21, 0);
    Get(planes.v, nv21, ySize);
    Get(planes.u, nv21, ySize + vSize);
    assert nv21[..] == planes.y + planes.v + planes.u;
    assert nv21[..][..ySize] == nv21[..ySize];
  }

  /**
   * `imageProxyToBitmap`: no bitmap when the proxy has no image; otherwise
   * whatever the foreign decoder makes of the NV21 buffer at the proxy's size.
   */
  method ImageProxyToBitmap(proxy: ImageProxy, decode: Decoder) returns (bitmap: Option<Bitmap>)
    ensures proxy.image.None? ==> bitmap == None
    ensures proxy.image.Some? ==>
      bitmap == decode(proxy.image.value.y + proxy.image.value.v + proxy.image.value.u, proxy.width, proxy.height)
  {
    if proxy.image.None? {
      return None;
    }
    var image := proxy.image.value;
    var nv21 := Nv21Buffer(image);
    bitmap := decode(nv21[..], proxy.width, proxy.height);
  }

  /**
   * The analyzer lambda given to `setAnalyzer` in `startCamera`: the frames handed to the launched
   * emission are exactly the converted bitmap when there is one, and the
   * proxy is closed on every path (the foreign conversion calls are taken
   * never to throw; the lambda has no `finally`).
   */
  method Analyze(proxy: ImageProxy, decode: Decoder) returns (emitted: seq<Bitmap>)
    modifies proxy
    ensures proxy.closed
    ensures proxy.image.None? ==> emitted == []
    ensures proxy.image.Some? ==>
      var converted := decode(proxy.image.value.y + proxy.image.value.v + proxy.image.value.u, proxy.width, proxy.height);
      emitted == if converted.Some? then [converted.value] else []
  {
    var bitmap := ImageProxyToBitmap(proxy, decode);
    emitted := [];
    if bitmap.Some? {
      emitted := emitted + [bitmap.value];
    }
    proxy.Close();
  }
}
