/**
 * Electron's multi-resolution `nativeImage`, reduced to what the icon
 * builders decide: which representations an icon holds, in which order, at
 * which pixel size and scale factor, and what was drawn into each. Pixels,
 * canvases and PNG data URLs are not modelled.
 */
module NativeImage {
  import opened Wrappers

  /**
   * A scale factor kept exact as the fraction `num / den`, as the source
   * writes it (`size / 32`, `1`). Equality is structural: `Ratio(1, 1)` and
   * `Ratio(32, 32)` are the same scale but different values.
   */
  datatype Ratio = Ratio(num: int, den: int)

  /** A decoded image (`Image` after `onload`); its pixels are opaque. */
  datatype Image = Image(id: nat)

  /**
   * What one canvas pass drew: the decoded image scaled to the canvas, and,
   * when `notch` holds a badge text, the notch cut into the lower-right
   * quadrant with that text written in it.
   */
  datatype Picture = Picture(image: Image, notch: Option<string>)

  /** The argument of one `icon.addRepresentation({ width, height, dataURL, scaleFactor })`. */
  datatype Representation = Representation(width: nat, height: nat, scaleFactor: Ratio, picture: Picture)

  /** A native image: its representations in the order they were added. */
  datatype Icon = Icon(representations: seq<Representation>)

  /** `remote.nativeImage.createEmpty()` */
  const EmptyIcon := Icon([])

  /** `icon.addRepresentation(rep)` */
  function AddRepresentation(icon: Icon, rep: Representation): (r: Icon)
    ensures |r.representations| == |icon.representations| + 1
    ensures r.representations[..|icon.representations|] == icon.representations
    ensures r.representations[|icon.representations|] == rep
  {
    Icon(icon.representations + [rep])
  }

  /**
   * The browser's image decoder (`new Image()`, `src`, `onload`/`onerror`):
   * the sources it can decode are fixed, anything else fails, and every
   * attempt is logged so that a cache hit can be told from a reload.
   */
  class ImageLoader<Src(==)> {
    const decodable: map<Src, Image>
    var requests: seq<Src>

    constructor (decodable: map<Src, Image>)
      ensures this.decodable == decodable && requests == []
    {
      this.decodable := decodable;
      requests := [];
    }

    /** Sets `image.src` and waits for `onload` (`Some`) or `onerror` (`None`). */
    method Load(src: Src) returns (r: Option<Image>)
      modifies this
      ensures requests == old(requests) + [src]
      ensures r.Some? <==> src in decodable
      ensures r.Some? ==> r.value == decodable[src]
    {
      requests := requests + [src];
      r := if src in decodable then Some(decodable[src]) else None;
    }
  }
}
