/** A processed camera frame and the horizontal mirror applied to it.
    A frame is a height x width grid of pixels (each pixel the list of its
    channel values); mirroring left to right reverses every row, which is what
    numpy's `fliplr` does to the second axis of an image array. */
module Imaging {

  type Pixel = seq<int>

  datatype Image = Image(rows: seq<seq<Pixel>>)

  /** The sequence `s` read back to front. */
  function Reverse<T>(s: seq<T>): (r: seq<T>)
    ensures |r| == |s|
    ensures forall k :: 0 <= k < |s| ==> r[k] == s[|s| - 1 - k]
  {
    seq(|s|, k requires 0 <= k < |s| => s[|s| - 1 - k])
  }

  /** `np.fliplr`: mirror a frame left to right. */
  function FlipLR(img: Image): (r: Image)
    ensures |r.rows| == |img.rows|
    ensures forall y :: 0 <= y < |img.rows| ==> |r.rows[y]| == |img.rows[y]|
    ensures forall y, x :: 0 <= y < |img.rows| && 0 <= x < |img.rows[y]| ==>
              r.rows[y][x] == img.rows[y][|img.rows[y]| - 1 - x]
  {
    Image(seq(|img.rows|, y requires 0 <= y < |img.rows| => Reverse(img.rows[y])))
  }

  /** Mirroring twice gives back the original frame, so the unflipped frame of
      every record pair can be recovered from the flipped one. */
  lemma FlipLRInvolutive(img: Image)
    ensures FlipLR(FlipLR(img)) == img
  {
    var r := FlipLR(FlipLR(img));
    forall y | 0 <= y < |img.rows|
      ensures r.rows[y] == img.rows[y]
    {
    }
  }
}
