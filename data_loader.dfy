/** `data_to_hdf5`: walk the data directories of the first map, expand every
    label row into three camera records and their mirrors, and write the
    records to numbered HDF5 batch files. The in-memory buffers and counters
    of the source's loop live in a `BatchWriter`; each HDF5 write appends the
    written file to the writer's `written` list. */
module DataLoader {
  import opened Imaging
  import opened Text
  import opened Records
  import opened Batching

  /** The substring the first map's path must contain. */
  const FirstMap: string := "Map1"

  /** How `data_to_hdf5` ends: one of the two early exits of the directory
      check, or after writing all batch files. */
  datatype Status = MapsNotFound | IncorrectStructure | Completed

  /** The accumulation state of the batch loop: the `images` and `labels`
      buffers, the camera-iteration counter `batch`, the index `batchIdx` of
      the next file, and the files written so far. */
  class BatchWriter {
    const outDir: string
    const batchSize: nat
    var images: seq<Image>
    var labels: seq<real>
    var batch: nat
    var batchIdx: nat
    var written: seq<BatchFile>

    /** Between camera iterations, the counters and lengths agree: the
        buffers have equal length, two entries per camera iteration since the
        last flush; one file has been written per completed batch, and file
        `k` is `batch-k.h5` with `2 * batchSize` records. What the buffers and
        files hold is stated by `Emitted()` in the method contracts. */
    ghost predicate Valid()
      reads this
    {
      && batchSize > 0
      && |images| == |labels| == 2 * (batch % batchSize)
      && batchIdx == |written| == batch / batchSize
      && FullFiles(written, outDir, batchSize)
    }

    /** Every record handed to the writer so far: those in the files
        written so far, in file order, then those still buffered. */
    ghost function Emitted(): (rs: seq<Record>)
      reads this
    {
      FlatRecords(written) + Zip(images, labels)
    }

    constructor (outDir: string, batchSize: nat)
      requires batchSize > 0
      ensures Valid()
      ensures this.outDir == outDir && this.batchSize == batchSize
      ensures images == [] && labels == [] && batch == 0 && batchIdx == 0 && written == []
      ensures Emitted() == []
    {
      this.outDir := outDir;
      this.batchSize := batchSize;
      images, labels := [], [];
      batch, batchIdx := 0, 0;
      written := [];
    }

    /** Append the processed image with its corrected steering value, then
        the mirrored image with the negated value, and count the camera
        iteration. */
    method Push(img: Image, steering: real)
      modifies this
      ensures images == old(images) + [img, FlipLR(img)]
      ensures labels == old(labels) + [steering, -steering]
      ensures batch == old(batch) + 1
      ensures batchIdx == old(batchIdx) && written == old(written)
    {
      images := images + [img];
      labels := labels + [steering];
      images := images + [FlipLR(img)];
      labels := labels + [-steering];
      assert images == old(images) + [img, FlipLR(img)];
      assert labels == old(labels) + [steering, -steering];
      batch := batch + 1;
    }

    /** Write the buffers, whatever they hold, as `batch-<batchIdx>.h5`, then
        empty them and move to the next index. */
    method Flush()
      modifies this
      ensures written == old(written) + [BatchFile(BatchName(outDir, old(batchIdx)), old(images), old(labels))]
      ensures images == [] && labels == [] && batchIdx == old(batchIdx) + 1
      ensures batch == old(batch)
    {
      var file := BatchFile(BatchName(outDir, batchIdx), images, labels);
      written := written + [file];
      images := [];
      labels := [];
      batchIdx := batchIdx + 1;
    }

    /** One camera iteration: push its two records and count it; when the
        count is a multiple of `batchSize`, flush. The writer invariant holds
        again afterwards. */
    method AddCamera(img: Image, steering: real)
      requires Valid()
      modifies this
      ensures Valid()
      ensures batch == old(batch) + 1
      ensures Emitted() == old(Emitted()) + [Record(img, steering), Record(FlipLR(img), -steering)]
      ensures batch % batchSize == 0 ==>
                && written == old(written) + [BatchFile(BatchName(outDir, old(batchIdx)),
                                                       old(images) + [img, FlipLR(img)],
                                                       old(labels) + [steering, -steering])]
                && images == [] && labels == [] && batchIdx == old(batchIdx) + 1
      ensures batch % batchSize != 0 ==>
                && written == old(written)
                && images == old(images) + [img, FlipLR(img)]
                && labels == old(labels) + [steering, -steering]
                && batchIdx == old(batchIdx)
    {
      CounterStep(batch, batchSize);
      ZipAppend(images, labels, [img, FlipLR(img)], [steering, -steering]);
      Push(img, steering);
      if batch % batchSize == 0 {
        var file := BatchFile(BatchName(outDir, batchIdx), images, labels);
        FlatRecordsSnoc(written, file);
        FullFilesSnoc(written, outDir, batchSize, file);
        Flush();
      }
    }

    /** The final flush after the loop, which happens even when the buffers
        are empty. The files this run has written are then exactly the
        expected files for every record the writer was given. */
    method Finish()
      requires Valid()
      modifies this
      ensures batch == old(batch)
      ensures written == old(written) + [BatchFile(BatchName(outDir, old(batchIdx)), old(images), old(labels))]
      ensures images == [] && labels == [] && batchIdx == old(batchIdx) + 1
      ensures written == ExpectedFiles(outDir, batchSize, old(Emitted()))
    {
      FlatRecordsSnoc(written, BatchFile(BatchName(outDir, batchIdx), images, labels));
      Flush();
      ShapedFilesAreExpected(outDir, batchSize, written);
    }
  }

  /** Files `batch-0.h5`, `batch-1.h5`, ... in that order under `outDir`,
      each holding `2 * batchSize` images and as many labels. */
  ghost predicate FullFiles(files: seq<BatchFile>, outDir: string, batchSize: nat)
  {
    forall k :: 0 <= k < |files| ==>
      && files[k].name == BatchName(outDir, k)
      && |files[k].images| == |files[k].labels| == 2 * batchSize
  }

  /** Appending the next full file keeps the files numbered and full. */
  lemma FullFilesSnoc(files: seq<BatchFile>, outDir: string, batchSize: nat, f: BatchFile)
    requires FullFiles(files, outDir, batchSize)
    requires f.name == BatchName(outDir, |files|) && |f.images| == |f.labels| == 2 * batchSize
    ensures FullFiles(files + [f], outDir, batchSize)
  {
    var all := files + [f];
    forall k | 0 <= k < |all|
      ensures all[k].name == BatchName(outDir, k) && |all[k].images| == |all[k].labels| == 2 * batchSize
    {
      if k < |files| {
        assert all[k] == files[k];
      } else {
        assert all[k] == f;
      }
    }
  }

  /** How the counter's quotient and remainder by `batchSize` move when it is
      bumped by one. */
  lemma CounterStep(b: nat, batchSize: nat)
    requires batchSize > 0
    ensures (b + 1) % batchSize == 0 ==> b % batchSize == batchSize - 1 && (b + 1) / batchSize == b / batchSize + 1
    ensures (b + 1) % batchSize != 0 ==> (b + 1) % batchSize == b % batchSize + 1 && (b + 1) / batchSize == b / batchSize
  {
    var q, m := b / batchSize, b % batchSize;
    if m + 1 < batchSize {
      DivModUnique(b + 1, batchSize, q, m + 1);
    } else {
      assert b + 1 == (q + 1) * batchSize + 0;
      DivModUnique(b + 1, batchSize, q + 1, 0);
    }
  }

  /** Euclidean division is determined by quotient and remainder. */
  lemma DivModUnique(x: int, d: int, q: int, m: int)
    requires d > 0 && 0 <= m < d && x == q * d + m
    ensures x / d == q && x % d == m
  {
    var q', m' := x / d, x % d;
    assert (q - q') * d == m' - m;
    if q > q' {
      MulAtLeast(q - q', d);
    } else if q < q' {
      MulAtLeast(q' - q, d);
    }
  }

  lemma MulAtLeast(t: int, d: int)
    requires t >= 1 && d > 0
    ensures t * d >= d
  {
    assert t * d == (t - 1) * d + d;
  }

  /** The camera loop for one label row of data directory `data`: read,
      preprocess and hand to the writer the image of each camera in
      `CameraList` order, labelled with the row's steering value plus that
      camera's correction. */
  method ProcessRow(writer: BatchWriter, data: string, row: Row,
                    imread: string -> Image, preprocess: Image -> Image)
    requires writer.Valid()
    modifies writer
    ensures writer.Valid()
    ensures writer.Emitted() == old(writer.Emitted()) + FrameRecords(Frame(data, row), imread, preprocess)
  {
    ghost var base := writer.Emitted();
    ghost var f := Frame(data, row);
    for i := 0 to 3
      invariant writer.Valid()
      invariant writer.Emitted() == base + CamerasRecords(f, i, imread, preprocess)
    {
      var imgPath := ImagePath(data, CameraList[i], row.timestamp);
      var img := imread(imgPath);
      var imgProcessed := preprocess(img);
      var steering := row.steer + Correction[i];
      ghost var done := CamerasRecords(f, i, imread, preprocess);
      ghost var step := [Record(imgProcessed, steering), Record(FlipLR(imgProcessed), -steering)];
      CamerasRecordsStep(f, i, imread, preprocess);
      assert CamerasRecords(f, i + 1, imread, preprocess) == done + step;
      writer.AddCamera(imgProcessed, steering);
      ConcatAssoc(base, done, step);
    }
  }

  /** The row loop for one data directory `data`: every label row of its
      `training_data.csv`, in file order, goes through the camera loop. */
  method ProcessDir(writer: BatchWriter, data: DataDir,
                    imread: string -> Image, preprocess: Image -> Image)
    requires writer.Valid()
    modifies writer
    ensures writer.Valid()
    ensures writer.Emitted() == old(writer.Emitted()) + Expand(DirFrames(data), imread, preprocess)
  {
    ghost var base := writer.Emitted();
    assert DirFrames(data)[..0] == [];
    for r := 0 to |data.rows|
      invariant writer.Valid()
      invariant writer.Emitted() == base + Expand(DirFrames(data)[..r], imread, preprocess)
    {
      var row := data.rows[r];
      ghost var done, f := DirFrames(data)[..r], Frame(data.path, row);
      ProcessRow(writer, data.path, row, imread, preprocess);
      DirFramesPrefix(data, r);
      ExpandSnoc(done, f, imread, preprocess);
      ConcatAssoc(base, Expand(done, imread, preprocess), FrameRecords(f, imread, preprocess));
    }
    assert DirFrames(data)[..|data.rows|] == DirFrames(data);
  }

  /** `data_to_hdf5` over the map directories found under the maps directory,
      with `imread` standing for `cv2.imread` and `preprocess` for the
      preprocessing step. With no map, or a first map whose path lacks
      `Map1`, nothing is written. Otherwise only the first map's data
      directories are read, and the files written are exactly the expected
      batch files for the records of all their label rows, in `HDF5_DIR`. */
  method DataToHdf5(allMaps: seq<MapDir>, workingDir: string, batchSize: nat,
                    imread: string -> Image, preprocess: Image -> Image)
    returns (status: Status, files: seq<BatchFile>)
    requires batchSize > 0
    ensures status == MapsNotFound <==> allMaps == []
    ensures status == IncorrectStructure <==> allMaps != [] && !Contains(allMaps[0].path, FirstMap)
    ensures status == Completed <==> allMaps != [] && Contains(allMaps[0].path, FirstMap)
    ensures status != Completed ==> files == []
    ensures status == Completed ==>
              files == ExpectedFiles(Hdf5Dir(workingDir), batchSize,
                                     Expand(Frames(allMaps[0].dataDirs), imread, preprocess))
  {
    if allMaps == [] {
      return MapsNotFound, [];
    } else if !Contains(allMaps[0].path, FirstMap) {
      return IncorrectStructure, [];
    }
    var writer := new BatchWriter(Hdf5Dir(workingDir), batchSize);
    var dirs := allMaps[0].dataDirs;
    for d := 0 to |dirs|
      invariant writer.Valid()
      invariant writer.outDir == Hdf5Dir(workingDir) && writer.batchSize == batchSize
      invariant writer.Emitted() == Expand(Frames(dirs[..d]), imread, preprocess)
    {
      var data := dirs[d];
      ProcessDir(writer, data, imread, preprocess);
      FramesPrefix(dirs, d);
      ExpandAppend(Frames(dirs[..d]), DirFrames(data), imread, preprocess);
    }
    assert dirs[..|dirs|] == dirs;
    writer.Finish();
    return Completed, writer.written;
  }

  /** How many records and files a completed run writes, for data
      directories `dirs` holding `R` label rows in all and so `C = 3 * R`
      camera iterations: `6 * R` records go into `C / batchSize + 1` files.
      These are this run's writes: files with higher indices left in the
      output directory by an earlier, longer run are not removed and are not
      among them. */
  lemma RunOutput(dirs: seq<DataDir>, outDir: string, batchSize: nat,
                  imread: string -> Image, preprocess: Image -> Image)
    requires batchSize > 0
    ensures |Expand(Frames(dirs), imread, preprocess)| == 6 * RowCount(dirs)
    ensures |ExpectedFiles(outDir, batchSize, Expand(Frames(dirs), imread, preprocess))|
            == 3 * RowCount(dirs) / batchSize + 1
  {
    ExpectedFilesShape(outDir, batchSize, Expand(Frames(dirs), imread, preprocess), 3 * RowCount(dirs));
  }

  /** How full the files of a completed run are, for `C = 3 * R` camera
      iterations: every file but the last holds `2 * batchSize` records and
      the last `2 * (C % batchSize)`, so it is empty exactly when `C` is a
      multiple of `batchSize`. */
  lemma RunFileSizes(dirs: seq<DataDir>, outDir: string, batchSize: nat,
                     imread: string -> Image, preprocess: Image -> Image)
    requires batchSize > 0
    ensures var files := ExpectedFiles(outDir, batchSize, Expand(Frames(dirs), imread, preprocess));
            var c := 3 * RowCount(dirs);
            && (forall k :: 0 <= k < |files| - 1 ==> |files[k].images| == 2 * batchSize)
            && |files[|files| - 1].images| == 2 * (c % batchSize)
            && (files[|files| - 1].images == [] <==> c % batchSize == 0)
  {
    ExpectedFilesShape(outDir, batchSize, Expand(Frames(dirs), imread, preprocess), 3 * RowCount(dirs));
  }

  /** The names and datasets of the files a completed run writes: file `k`
      is `batch-k.h5` under `outDir`, no two files share a name, and each
      has as many labels as images. */
  lemma RunNames(dirs: seq<DataDir>, outDir: string, batchSize: nat,
                 imread: string -> Image, preprocess: Image -> Image)
    requires batchSize > 0
    ensures var files := ExpectedFiles(outDir, batchSize, Expand(Frames(dirs), imread, preprocess));
            && (forall k :: 0 <= k < |files| ==>
                  files[k].name == BatchName(outDir, k) && |files[k].images| == |files[k].labels|)
            && (forall j, k :: 0 <= j < k < |files| ==> files[j].name != files[k].name)
  {
    var rs := Expand(Frames(dirs), imread, preprocess);
    ExpectedFilesShape(outDir, batchSize, rs, 3 * RowCount(dirs));
    ExpectedFilesDistinct(outDir, batchSize, rs);
  }

  /** What the files of a completed run hold: read in index order they give
      back every record in generation order, and no file separates a
      flipped record from its unflipped partner. */
  lemma RunRecords(dirs: seq<DataDir>, outDir: string, batchSize: nat,
                   imread: string -> Image, preprocess: Image -> Image)
    requires batchSize > 0
    ensures var rs := Expand(Frames(dirs), imread, preprocess);
            var files := ExpectedFiles(outDir, batchSize, rs);
            && FlatRecords(files) == rs
            && (forall k :: 0 <= k < |files| ==> Paired(FileRecords(files[k])))
  {
    var rs := Expand(Frames(dirs), imread, preprocess);
    ExpectedFilesLossless(outDir, batchSize, rs);
    ExpandPaired(Frames(dirs), imread, preprocess);
    ExpectedFilesPaired(outDir, batchSize, rs);
  }

  /** The six records of the single row ("T1", 0.10), by label. */
  lemma OneRowLabels(data: string, imread: string -> Image, preprocess: Image -> Image)
    ensures Labels(OneRow(data, imread, preprocess)) == [0.10, -0.10, 0.08, -0.08, 0.12, -0.12]
  {
    FrameLabels(Frame(data, Row("T1", 0.10)), imread, preprocess);
  }

  /** The records of one data directory with the single row ("T1", 0.10),
      so three camera iterations. */
  function OneRow(data: string, imread: string -> Image, preprocess: Image -> Image): (rs: seq<Record>)
    ensures rs == FrameRecords(Frame(data, Row("T1", 0.10)), imread, preprocess)
  {
    var d := DataDir(data, [Row("T1", 0.10)]);
    var f := Frame(data, Row("T1", 0.10));
    FramesSingle(d);
    assert DirFrames(d) == [f];
    ExpandSnoc([], f, imread, preprocess);
    assert [] + [f] == [f];
    Expand(Frames([d]), imread, preprocess)
  }

  /** With a batch size of 4 no flush happens during the three camera
      iterations, and the final flush writes one file with all six records. */
  lemma OneRowSingleFile(data: string, outDir: string, imread: string -> Image, preprocess: Image -> Image)
    ensures var files := ExpectedFiles(outDir, 4, OneRow(data, imread, preprocess));
            |files| == 1 && files[0].labels == [0.10, -0.10, 0.08, -0.08, 0.12, -0.12]
  {
    var rs := OneRow(data, imread, preprocess);
    OneRowLabels(data, imread, preprocess);
    assert Chunks(rs, 8) == [rs];
    ExpectedFilesChunks(outDir, 4, rs);
  }

  /** With a batch size of 3 the third camera iteration flushes all six
      records, and the unconditional final flush writes an empty second
      file. */
  lemma OneRowEmptyLast(data: string, outDir: string, imread: string -> Image, preprocess: Image -> Image)
    ensures var files := ExpectedFiles(outDir, 3, OneRow(data, imread, preprocess));
            && |files| == 2
            && files[0].labels == [0.10, -0.10, 0.08, -0.08, 0.12, -0.12]
            && files[1].labels == []
  {
    var rs := OneRow(data, imread, preprocess);
    OneRowLabels(data, imread, preprocess);
    assert Chunks(rs, 6) == [rs, []] by {
      assert rs[..6] == rs && rs[6..] == [];
    }
    ExpectedFilesChunks(outDir, 3, rs);
  }

  /** With a batch size of 2 the second camera iteration flushes the center
      and right records, and the final flush writes the left ones. */
  lemma OneRowSplit(data: string, outDir: string, imread: string -> Image, preprocess: Image -> Image)
    ensures var files := ExpectedFiles(outDir, 2, OneRow(data, imread, preprocess));
            && |files| == 2
            && files[0].labels == [0.10, -0.10, 0.08, -0.08]
            && files[1].labels == [0.12, -0.12]
  {
    var rs := OneRow(data, imread, preprocess);
    OneRowLabels(data, imread, preprocess);
    var lbls := Labels(rs);
    assert Chunks(rs, 4) == [rs[..4], rs[4..]];
    ExpectedFilesChunks(outDir, 2, rs);
    assert Labels(rs[..4]) == lbls[..4] && Labels(rs[4..]) == lbls[4..];
  }
}
