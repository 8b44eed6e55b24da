/** What the batch writer reads and what it produces from it: label rows,
    camera constants, image paths, and the expansion of every label row into
    six (image, steering label) records. */
module Records {
  import opened Imaging

  /** One row of a data directory's `training_data.csv`: column 0 is the frame
      timestamp, column 1 the base steering value. */
  datatype Row = Row(timestamp: string, steer: real)

  /** One data directory of a map: its path and its label rows in file order. */
  datatype DataDir = DataDir(path: string, rows: seq<Row>)

  /** One map directory: its path and the data directories found inside it. */
  datatype MapDir = MapDir(path: string, dataDirs: seq<DataDir>)

  /** A label row together with the data directory it was read from. */
  datatype Frame = Frame(dir: string, row: Row)

  /** One (processed image, label) pair destined for a batch file. */
  datatype Record = Record(image: Image, steering: real)

  /** Name of the image sub-directory of a data directory. */
  const DataImg: string := "img"

  /** The three cameras, in the order the writer visits them. */
  const CameraList: seq<string> := ["center", "right", "left"]

  /** Steering correction per camera, positionally matching `CameraList`. */
  const Correction: seq<real> := [0.0, -0.02, 0.02]

  /** Path of the image of camera `camera` for the frame stamped `timestamp`:
      a `.jpg` file in the `img` sub-directory of `data`, whose name is the
      camera and the timestamp joined by `-`. */
  function ImagePath(data: string, camera: string, timestamp: string): (p: string)
    ensures |p| == |data| + |camera| + |timestamp| + 10
    ensures p[..|data| + 5] == data + "/img/"
    ensures p[|data| + 5..|data| + 5 + |camera|] == camera && p[|data| + 5 + |camera|] == '-'
    ensures p[|data| + 6 + |camera|..|p| - 4] == timestamp && p[|p| - 4..] == ".jpg"
  {
    data + "/" + DataImg + "/" + camera + "-" + timestamp + ".jpg"
  }

  /** Within one data directory, different cameras or different timestamps
      never share an image file: the path determines both. */
  lemma ImagePathInjective(data: string, i: nat, j: nat, t: string, u: string)
    requires i < 3 && j < 3
    requires ImagePath(data, CameraList[i], t) == ImagePath(data, CameraList[j], u)
    ensures i == j && t == u
  {
    var p := ImagePath(data, CameraList[i], t);
    assert p[|data| + 5] == CameraList[i][0] == CameraList[j][0];
    assert i == j;
  }

  /** The flipped partner of a record: mirrored image, negated label. */
  function Mirror(r: Record): (m: Record)
    ensures m.steering == -r.steering
    ensures |m.image.rows| == |r.image.rows|
    ensures forall y :: 0 <= y < |r.image.rows| ==> |m.image.rows[y]| == |r.image.rows[y]|
    ensures forall y, x :: 0 <= y < |r.image.rows| && 0 <= x < |r.image.rows[y]| ==>
              m.image.rows[y][x] == r.image.rows[y][|r.image.rows[y]| - 1 - x]
  {
    Record(FlipLR(r.image), -r.steering)
  }

  /** Mirroring a record twice gives it back. */
  lemma MirrorInvolutive(r: Record)
    ensures Mirror(Mirror(r)) == r
  {
    FlipLRInvolutive(r.image);
  }

  /** The two records one camera iteration appends for frame `f` and camera
      `i`: the processed image with the corrected steering value, then its
      mirror with the negated value. */
  function CameraRecords(f: Frame, i: nat, imread: string -> Image, preprocess: Image -> Image): (rs: seq<Record>)
    requires i < 3
    ensures |rs| == 2
    ensures rs[0] == Record(preprocess(imread(ImagePath(f.dir, CameraList[i], f.row.timestamp))), f.row.steer + Correction[i])
    ensures rs[1] == Mirror(rs[0])
  {
    var img := preprocess(imread(ImagePath(f.dir, CameraList[i], f.row.timestamp)));
    var r := Record(img, f.row.steer + Correction[i]);
    [r, Mirror(r)]
  }

  /** The records of the first `n` cameras of frame `f`. */
  function CamerasRecords(f: Frame, n: nat, imread: string -> Image, preprocess: Image -> Image): (rs: seq<Record>)
    requires n <= 3
    ensures |rs| == 2 * n
  {
    if n == 0 then [] else CamerasRecords(f, n - 1, imread, preprocess) + CameraRecords(f, n - 1, imread, preprocess)
  }

  /** Camera `i` adds its unflipped record and then the flipped one. */
  lemma CamerasRecordsStep(f: Frame, i: nat, imread: string -> Image, preprocess: Image -> Image)
    requires i < 3
    ensures var img := preprocess(imread(ImagePath(f.dir, CameraList[i], f.row.timestamp)));
            var lbl := f.row.steer + Correction[i];
            CamerasRecords(f, i + 1, imread, preprocess)
              == CamerasRecords(f, i, imread, preprocess) + [Record(img, lbl), Record(FlipLR(img), -lbl)]
  {
  }

  /** The six records of one label row. */
  function FrameRecords(f: Frame, imread: string -> Image, preprocess: Image -> Image): (rs: seq<Record>)
    ensures |rs| == 6
  {
    CamerasRecords(f, 3, imread, preprocess)
  }

  /** Camera `i` of a row contributes records `2i` (unflipped) and `2i + 1`
      (flipped) of the row's six. */
  lemma FrameRecordsAt(f: Frame, i: nat, imread: string -> Image, preprocess: Image -> Image)
    requires i < 3
    ensures |FrameRecords(f, imread, preprocess)| == 6
    ensures var img := preprocess(imread(ImagePath(f.dir, CameraList[i], f.row.timestamp)));
            var lbl := f.row.steer + Correction[i];
            && FrameRecords(f, imread, preprocess)[2 * i] == Record(img, lbl)
            && FrameRecords(f, imread, preprocess)[2 * i + 1] == Record(FlipLR(img), -lbl)
  {
    CamerasRecordsStep(f, 0, imread, preprocess);
    CamerasRecordsStep(f, 1, imread, preprocess);
    CamerasRecordsStep(f, 2, imread, preprocess);
  }

  /** The records of a sequence of frames, frame after frame: six per frame. */
  function Expand(frames: seq<Frame>, imread: string -> Image, preprocess: Image -> Image): (rs: seq<Record>)
    ensures |rs| == 6 * |frames|
  {
    if frames == [] then []
    else Expand(frames[..|frames| - 1], imread, preprocess) + FrameRecords(frames[|frames| - 1], imread, preprocess)
  }

  lemma ExpandSnoc(frames: seq<Frame>, f: Frame, imread: string -> Image, preprocess: Image -> Image)
    ensures Expand(frames + [f], imread, preprocess) == Expand(frames, imread, preprocess) + FrameRecords(f, imread, preprocess)
  {
    assert (frames + [f])[..|frames|] == frames;
  }

  lemma ConcatAssoc<T>(a: seq<T>, b: seq<T>, c: seq<T>)
    ensures (a + b) + c == a + (b + c)
  {
  }

  /** Expanding two runs of frames one after the other is expanding their
      concatenation. */
  lemma {:induction false} ExpandAppend(a: seq<Frame>, b: seq<Frame>, imread: string -> Image, preprocess: Image -> Image)
    ensures Expand(a + b, imread, preprocess) == Expand(a, imread, preprocess) + Expand(b, imread, preprocess)
    decreases |b|
  {
    if b == [] {
      assert a + b == a;
    } else {
      var init, last := b[..|b| - 1], b[|b| - 1];
      assert b == init + [last];
      assert a + b == (a + init) + [last];
      var rs := FrameRecords(last, imread, preprocess);
      calc {
        Expand(a + b, imread, preprocess);
        Expand((a + init) + [last], imread, preprocess);
        { ExpandSnoc(a + init, last, imread, preprocess); }
        Expand(a + init, imread, preprocess) + rs;
        { ExpandAppend(a, init, imread, preprocess); }
        (Expand(a, imread, preprocess) + Expand(init, imread, preprocess)) + rs;
        { ConcatAssoc(Expand(a, imread, preprocess), Expand(init, imread, preprocess), rs); }
        Expand(a, imread, preprocess) + (Expand(init, imread, preprocess) + rs);
        { ExpandSnoc(init, last, imread, preprocess); }
        Expand(a, imread, preprocess) + Expand(b, imread, preprocess);
      }
    }
  }

  /** The label rows of one data directory, tagged with the directory path. */
  function DirFrames(d: DataDir): (fs: seq<Frame>)
    ensures |fs| == |d.rows|
    ensures forall k :: 0 <= k < |d.rows| ==> fs[k] == Frame(d.path, d.rows[k])
  {
    seq(|d.rows|, k requires 0 <= k < |d.rows| => Frame(d.path, d.rows[k]))
  }

  /** The first `r + 1` frames of a directory are the first `r` and then row `r`. */
  lemma DirFramesPrefix(d: DataDir, r: nat)
    requires r < |d.rows|
    ensures DirFrames(d)[..r + 1] == DirFrames(d)[..r] + [Frame(d.path, d.rows[r])]
  {
  }

  /** All frames of a list of data directories, directory order, then row
      order: one frame per label row. */
  function Frames(dirs: seq<DataDir>): (fs: seq<Frame>)
    ensures |fs| == RowCount(dirs)
  {
    if dirs == [] then [] else Frames(dirs[..|dirs| - 1]) + DirFrames(dirs[|dirs| - 1])
  }

  /** The frames of the first `d + 1` directories are those of the first `d`
      and then those of directory `d`. */
  lemma FramesPrefix(dirs: seq<DataDir>, d: nat)
    requires d < |dirs|
    ensures Frames(dirs[..d + 1]) == Frames(dirs[..d]) + DirFrames(dirs[d])
  {
    assert dirs[..d + 1][..d] == dirs[..d];
  }

  /** Where each label row lands: row `r` of directory `d` is frame number
      (rows of all earlier directories) + `r`, so directories are walked in
      order and each directory's rows in file order. */
  lemma {:induction false} FramesAt(dirs: seq<DataDir>, d: nat, r: nat)
    requires d < |dirs| && r < |dirs[d].rows|
    ensures RowCount(dirs[..d]) + r < RowCount(dirs)
    ensures Frames(dirs)[RowCount(dirs[..d]) + r] == Frame(dirs[d].path, dirs[d].rows[r])
  {
    var init := dirs[..|dirs| - 1];
    var last := dirs[|dirs| - 1];
    assert Frames(dirs) == Frames(init) + DirFrames(last);
    if d == |dirs| - 1 {
      assert dirs[..d] == init;
    } else {
      FramesAt(init, d, r);
      assert init[..d] == dirs[..d];
      assert init[d] == dirs[d];
    }
  }

  lemma FramesSingle(d: DataDir)
    ensures Frames([d]) == DirFrames(d)
  {
    assert [d][..0] == [];
  }

  /** Total number of label rows over a list of data directories. */
  function RowCount(dirs: seq<DataDir>): (n: nat)
  {
    if dirs == [] then 0 else RowCount(dirs[..|dirs| - 1]) + |dirs[|dirs| - 1].rows|
  }

  /** The record order: frame `n`, camera `i` sits at positions `6n + 2i`
      (unflipped, label `steer + Correction[i]`) and `6n + 2i + 1` (flipped,
      the exact negation of that label). */
  lemma {:induction false} ExpandAt(frames: seq<Frame>, imread: string -> Image, preprocess: Image -> Image, n: nat, i: nat)
    requires n < |frames| && i < 3
    ensures |Expand(frames, imread, preprocess)| == 6 * |frames|
    ensures var f := frames[n];
            var img := preprocess(imread(ImagePath(f.dir, CameraList[i], f.row.timestamp)));
            var lbl := f.row.steer + Correction[i];
            && Expand(frames, imread, preprocess)[6 * n + 2 * i] == Record(img, lbl)
            && Expand(frames, imread, preprocess)[6 * n + 2 * i + 1] == Record(FlipLR(img), -lbl)
  {
    var init := frames[..|frames| - 1];
    var last := frames[|frames| - 1];
    assert frames == init + [last];
    ExpandSnoc(init, last, imread, preprocess);
    var before := Expand(init, imread, preprocess);
    var rs := FrameRecords(last, imread, preprocess);
    if n < |frames| - 1 {
      ExpandAt(init, imread, preprocess, n, i);
      assert init[n] == frames[n];
      assert (before + rs)[6 * n + 2 * i] == before[6 * n + 2 * i];
      assert (before + rs)[6 * n + 2 * i + 1] == before[6 * n + 2 * i + 1];
    } else {
      FrameRecordsAt(last, i, imread, preprocess);
      assert (before + rs)[6 * n + 2 * i] == rs[2 * i];
      assert (before + rs)[6 * n + 2 * i + 1] == rs[2 * i + 1];
    }
  }

  /** Records come in (unflipped, flipped) pairs starting at even positions:
      each odd-position record is the mirror of the one before it. */
  predicate Paired(rs: seq<Record>)
  {
    |rs| % 2 == 0 && forall j :: 0 <= j < |rs| && j % 2 == 0 ==> rs[j + 1] == Mirror(rs[j])
  }

  /** An even position below an even length is followed by another one, and
      the difference of two even numbers is even. */
  lemma EvenParity(j: int, n: int)
    requires j % 2 == 0 && n % 2 == 0
    ensures j < n ==> j + 1 < n
    ensures (j + n) % 2 == 0 && (j - n) % 2 == 0
  {
  }

  lemma PairedConcat(a: seq<Record>, b: seq<Record>)
    requires Paired(a) && Paired(b)
    ensures Paired(a + b)
  {
    var ab := a + b;
    forall j | 0 <= j < |ab| && j % 2 == 0
      ensures ab[j + 1] == Mirror(ab[j])
    {
      if j < |a| {
        EvenParity(j, |a|);
        assert ab[j] == a[j] && ab[j + 1] == a[j + 1];
      } else {
        var t := j - |a|;
        EvenParity(j, |a|);
        EvenParity(t, |b|);
        assert ab[j] == b[t] && ab[j + 1] == b[t + 1];
      }
    }
  }

  lemma {:induction false} CamerasRecordsPaired(f: Frame, n: nat, imread: string -> Image, preprocess: Image -> Image)
    requires n <= 3
    ensures Paired(CamerasRecords(f, n, imread, preprocess))
  {
    if n > 0 {
      CamerasRecordsPaired(f, n - 1, imread, preprocess);
      PairedConcat(CamerasRecords(f, n - 1, imread, preprocess), CameraRecords(f, n - 1, imread, preprocess));
    }
  }

  /** The expansion of any frames never splits an (unflipped, flipped) pair. */
  lemma {:induction false} ExpandPaired(frames: seq<Frame>, imread: string -> Image, preprocess: Image -> Image)
    ensures Paired(Expand(frames, imread, preprocess))
  {
    if frames != [] {
      ExpandPaired(frames[..|frames| - 1], imread, preprocess);
      CamerasRecordsPaired(frames[|frames| - 1], 3, imread, preprocess);
      PairedConcat(Expand(frames[..|frames| - 1], imread, preprocess), FrameRecords(frames[|frames| - 1], imread, preprocess));
    }
  }
}
