/** The output side of the batch writer: batch files, their names, and the
    reference description of the whole output of a run, namely the generated
    records cut into consecutive chunks of two records per counted camera
    iteration, followed by one unconditional remainder chunk. */
module Batching {
  import opened Imaging
  import opened Records
  import opened Text

  /** One written HDF5 file: its path and its two datasets. */
  datatype BatchFile = BatchFile(name: string, images: seq<Image>, labels: seq<real>)

  /** `HDF5_DIR`: the sub-directory `hdf5` directly inside the script's own
      directory. */
  function Hdf5Dir(workingDir: string): (d: string)
    ensures |d| == |workingDir| + 5
    ensures d[..|workingDir|] == workingDir && d[|workingDir|..] == "/hdf5"
  {
    workingDir + "/hdf5"
  }

  /** `os.path.join(outDir, "batch-{}.h5".format(idx))`; the output directory
      never ends in a slash, so the join inserts one. */
  function BatchName(outDir: string, idx: nat): (name: string)
    ensures |name| == |outDir| + |NatToString(idx)| + 10
    ensures name[..|outDir| + 7] == outDir + "/batch-" && name[|name| - 3..] == ".h5"
    ensures name[|outDir| + 7..|name| - 3] == NatToString(idx)
  {
    outDir + "/" + "batch-" + NatToString(idx) + ".h5"
  }

  /** A batch file name determines its index, so distinct batches get
      distinct files and no batch file overwrites another. */
  lemma BatchNameInjective(outDir: string, j: nat, k: nat)
    requires BatchName(outDir, j) == BatchName(outDir, k)
    ensures j == k
  {
    var p := outDir + "/" + "batch-";
    var a, b := NatToString(j), NatToString(k);
    assert BatchName(outDir, j) == p + a + ".h5" && BatchName(outDir, k) == p + b + ".h5";
    assert |a| == |b|;
    assert a == BatchName(outDir, j)[|p|..|p| + |a|] == b;
    ParseNatToString(j);
    ParseNatToString(k);
  }

  function Images(rs: seq<Record>): (imgs: seq<Image>)
    ensures |imgs| == |rs|
    ensures forall k :: 0 <= k < |rs| ==> imgs[k] == rs[k].image
  {
    seq(|rs|, k requires 0 <= k < |rs| => rs[k].image)
  }

  function Labels(rs: seq<Record>): (lbls: seq<real>)
    ensures |lbls| == |rs|
    ensures forall k :: 0 <= k < |rs| ==> lbls[k] == rs[k].steering
  {
    seq(|rs|, k requires 0 <= k < |rs| => rs[k].steering)
  }

  function Min(a: nat, b: nat): (m: nat)
  {
    if a <= b then a else b
  }

  /** Python's `zip(images, labels)`: the records at matching positions, up to
      the shorter of the two sequences. */
  function Zip(images: seq<Image>, labels: seq<real>): (rs: seq<Record>)
    ensures |rs| == Min(|images|, |labels|)
    ensures forall k :: 0 <= k < |rs| ==> rs[k] == Record(images[k], labels[k])
  {
    seq(Min(|images|, |labels|), k requires 0 <= k < Min(|images|, |labels|) => Record(images[k], labels[k]))
  }

  /** Splitting records into their images and labels and zipping them back
      loses nothing. */
  lemma ZipSplit(rs: seq<Record>)
    ensures Zip(Images(rs), Labels(rs)) == rs
  {
  }

  /** Zipping two equal-length datasets and splitting again gives them back. */
  lemma SplitZip(images: seq<Image>, labels: seq<real>)
    requires |images| == |labels|
    ensures Images(Zip(images, labels)) == images && Labels(Zip(images, labels)) == labels
  {
  }

  lemma ZipAppend(a: seq<Image>, b: seq<real>, c: seq<Image>, d: seq<real>)
    requires |a| == |b|
    ensures Zip(a + c, b + d) == Zip(a, b) + Zip(c, d)
  {
  }

  /** The six labels of a label row: for each camera in `CameraList` order,
      the row's steering value plus that camera's correction, then its
      negation. */
  lemma FrameLabels(f: Frame, imread: string -> Image, preprocess: Image -> Image)
    ensures var s := f.row.steer;
            Labels(FrameRecords(f, imread, preprocess))
              == [s + Correction[0], -(s + Correction[0]), s + Correction[1], -(s + Correction[1]),
                  s + Correction[2], -(s + Correction[2])]
  {
    FrameRecordsAt(f, 0, imread, preprocess);
    FrameRecordsAt(f, 1, imread, preprocess);
    FrameRecordsAt(f, 2, imread, preprocess);
  }

  /** The records stored in one batch file, position by position. */
  function FileRecords(f: BatchFile): (rs: seq<Record>)
  {
    Zip(f.images, f.labels)
  }

  function Flatten<T>(parts: seq<seq<T>>): (xs: seq<T>)
  {
    if parts == [] then [] else parts[0] + Flatten(parts[1..])
  }

  lemma {:induction false} FlattenSnoc<T>(parts: seq<seq<T>>, last: seq<T>)
    ensures Flatten(parts + [last]) == Flatten(parts) + last
  {
    if parts != [] {
      assert (parts + [last])[1..] == parts[1..] + [last];
      FlattenSnoc(parts[1..], last);
    }
  }

  /** The records of each file, file after file. */
  function Parts(files: seq<BatchFile>): (ps: seq<seq<Record>>)
    ensures |ps| == |files|
    ensures forall k :: 0 <= k < |files| ==> ps[k] == FileRecords(files[k])
  {
    seq(|files|, k requires 0 <= k < |files| => FileRecords(files[k]))
  }

  /** All records held by a list of batch files: the files read in index
      order and concatenated. */
  function FlatRecords(files: seq<BatchFile>): (rs: seq<Record>)
  {
    Flatten(Parts(files))
  }

  lemma FlatRecordsSnoc(files: seq<BatchFile>, f: BatchFile)
    ensures FlatRecords(files + [f]) == FlatRecords(files) + FileRecords(f)
  {
    assert Parts(files + [f]) == Parts(files) + [FileRecords(f)];
    FlattenSnoc(Parts(files), FileRecords(f));
  }

  /** Cut `xs` into pieces of `size` elements while at least `size` remain,
      then always add what is left, possibly nothing, as one last piece. */
  function Chunks<T>(xs: seq<T>, size: nat): (cs: seq<seq<T>>)
    requires size > 0
    ensures |cs| >= 1
    ensures forall k :: 0 <= k < |cs| - 1 ==> |cs[k]| == size
    ensures |cs[|cs| - 1]| < size
    decreases |xs|
  {
    if |xs| < size then [xs] else [xs[..size]] + Chunks(xs[size..], size)
  }

  /** Concatenating the chunks gives back the input: nothing dropped,
      duplicated or reordered. */
  lemma {:induction false} FlattenChunks<T>(xs: seq<T>, size: nat)
    requires size > 0
    ensures Flatten(Chunks(xs, size)) == xs
    decreases |xs|
  {
    if |xs| >= size {
      FlattenChunks(xs[size..], size);
      assert Chunks(xs, size)[1..] == Chunks(xs[size..], size);
    }
  }

  /** With `|xs| == q * size + m` there are `q` chunks, all full by the
      contract of `Chunks`, and then a last one of `m` elements. */
  lemma {:induction false} ChunksShape<T>(xs: seq<T>, size: nat, q: nat, m: nat)
    requires size > 0 && m < size && |xs| == q * size + m
    ensures |Chunks(xs, size)| == q + 1
    ensures |Chunks(xs, size)[q]| == m
    decreases q
  {
    if q > 0 {
      MulPred(q, size);
      var rest := xs[size..];
      assert |rest| == (q - 1) * size + m;
      ChunksShape(rest, size, q - 1, m);
      ChunksCons(xs, size);
    }
  }

  lemma MulPred(q: nat, size: nat)
    requires q > 0
    ensures q * size == (q - 1) * size + size && (q - 1) * size >= 0
  {
  }

  /** A sequence of at least `size` elements starts with one full chunk. */
  lemma ChunksCons<T>(xs: seq<T>, size: nat)
    requires size > 0 && |xs| >= size
    ensures Chunks(xs, size) == [xs[..size]] + Chunks(xs[size..], size)
  {
  }

  /** Any cut of `xs` into full pieces followed by one short piece is the
      chunking of `xs`. */
  lemma {:induction false} ChunksUnique<T>(parts: seq<seq<T>>, xs: seq<T>, size: nat)
    requires size > 0 && |parts| >= 1
    requires forall k :: 0 <= k < |parts| - 1 ==> |parts[k]| == size
    requires |parts[|parts| - 1]| < size
    requires Flatten(parts) == xs
    ensures parts == Chunks(xs, size)
    decreases |parts|
  {
    if |parts| == 1 {
      assert Flatten(parts) == parts[0];
    } else {
      var rest := Flatten(parts[1..]);
      assert xs == parts[0] + rest;
      assert xs[..size] == parts[0] && xs[size..] == rest;
      ChunksUnique(parts[1..], rest, size);
      assert parts == [parts[0]] + parts[1..];
    }
  }

  /** Chunks of paired records cut at even sizes keep every pair together. */
  lemma {:induction false} ChunksPaired(rs: seq<Record>, size: nat)
    requires size > 0 && size % 2 == 0 && Paired(rs)
    ensures forall k :: 0 <= k < |Chunks(rs, size)| ==> Paired(Chunks(rs, size)[k])
    decreases |rs|
  {
    if |rs| >= size {
      var head, tail := rs[..size], rs[size..];
      assert Paired(head) by {
        forall j | 0 <= j < |head| && j % 2 == 0
          ensures head[j + 1] == Mirror(head[j])
        {
          assert head[j] == rs[j] && head[j + 1] == rs[j + 1];
        }
      }
      assert Paired(tail) by {
        forall j | 0 <= j < |tail| && j % 2 == 0
          ensures tail[j + 1] == Mirror(tail[j])
        {
          assert (size + j) % 2 == 0;
          assert tail[j] == rs[size + j] && tail[j + 1] == rs[size + j + 1];
        }
      }
      ChunksPaired(tail, size);
      assert Chunks(rs, size) == [head] + Chunks(tail, size);
    }
  }

  /** The files a run writes for the record sequence `rs`: file `k` is named
      with index `k` and holds chunk `k` of `rs`, two records per counted
      camera iteration, so `2 * batchSize` records per full file. */
  function ExpectedFiles(outDir: string, batchSize: nat, rs: seq<Record>): (files: seq<BatchFile>)
    requires batchSize > 0
    ensures |files| >= 1
    ensures forall k :: 0 <= k < |files| ==> |files[k].images| == |files[k].labels|
    ensures forall k :: 0 <= k < |files| - 1 ==> |files[k].images| == 2 * batchSize
    ensures |files[|files| - 1].images| < 2 * batchSize
  {
    var cs := Chunks(rs, 2 * batchSize);
    seq(|cs|, k requires 0 <= k < |cs| => ChunkFile(BatchName(outDir, k), cs[k]))
  }

  /** The file named `name` holding the records `rs`. */
  function ChunkFile(name: string, rs: seq<Record>): (f: BatchFile)
    ensures f.name == name && |f.images| == |f.labels| == |rs|
  {
    BatchFile(name, Images(rs), Labels(rs))
  }

  /** Reading the expected files in index order and concatenating their
      (image, label) pairs gives back exactly the generated records. */
  lemma ExpectedFilesLossless(outDir: string, batchSize: nat, rs: seq<Record>)
    requires batchSize > 0
    ensures FlatRecords(ExpectedFiles(outDir, batchSize, rs)) == rs
  {
    var cs := Chunks(rs, 2 * batchSize);
    var files := ExpectedFiles(outDir, batchSize, rs);
    forall k | 0 <= k < |cs|
      ensures Parts(files)[k] == cs[k]
    {
      ZipSplit(cs[k]);
    }
    assert Parts(files) == cs;
    FlattenChunks(rs, 2 * batchSize);
  }

  /** The expected files for `c` camera iterations (`2 * c` records): exactly
      `c / batchSize + 1` files named `batch-0.h5`, `batch-1.h5`, ... under
      `outDir`, each with as many labels as images; every file but the last
      holds `2 * batchSize` records and the last holds `2 * (c % batchSize)`,
      so it is empty exactly when `c` is a multiple of `batchSize`. */
  lemma ExpectedFilesShape(outDir: string, batchSize: nat, rs: seq<Record>, c: nat)
    requires batchSize > 0 && |rs| == 2 * c
    ensures var files := ExpectedFiles(outDir, batchSize, rs);
            && |files| == c / batchSize + 1
            && (forall k :: 0 <= k < |files| ==>
                  files[k].name == BatchName(outDir, k) && |files[k].images| == |files[k].labels|)
            && (forall k :: 0 <= k < |files| - 1 ==> |files[k].images| == 2 * batchSize)
            && |files[|files| - 1].images| == 2 * (c % batchSize)
            && (files[|files| - 1].images == [] <==> c % batchSize == 0)
  {
    var q, m := c / batchSize, c % batchSize;
    assert c == q * batchSize + m;
    assert |rs| == q * (2 * batchSize) + 2 * m;
    ChunksShape(rs, 2 * batchSize, q, 2 * m);
  }

  /** Every expected file of a paired record sequence keeps each flipped
      record right after its unflipped partner. */
  lemma ExpectedFilesPaired(outDir: string, batchSize: nat, rs: seq<Record>)
    requires batchSize > 0 && Paired(rs)
    ensures var files := ExpectedFiles(outDir, batchSize, rs);
            forall k :: 0 <= k < |files| ==> Paired(FileRecords(files[k]))
  {
    var cs := Chunks(rs, 2 * batchSize);
    ChunksPaired(rs, 2 * batchSize);
    forall k | 0 <= k < |cs|
      ensures FileRecords(ExpectedFiles(outDir, batchSize, rs)[k]) == cs[k]
    {
      ZipSplit(cs[k]);
    }
  }

  /** File `k` of the expected files holds chunk `k` of the records. */
  lemma ExpectedFilesChunks(outDir: string, batchSize: nat, rs: seq<Record>)
    requires batchSize > 0
    ensures var files := ExpectedFiles(outDir, batchSize, rs);
            var cs := Chunks(rs, 2 * batchSize);
            && |files| == |cs|
            && forall k :: 0 <= k < |files| ==> files[k].labels == Labels(cs[k]) && files[k].images == Images(cs[k])
  {
  }

  /** No two expected files share a name, so none overwrites another. */
  lemma ExpectedFilesDistinct(outDir: string, batchSize: nat, rs: seq<Record>)
    requires batchSize > 0
    ensures var files := ExpectedFiles(outDir, batchSize, rs);
            forall j, k :: 0 <= j < k < |files| ==> files[j].name != files[k].name
  {
    var files := ExpectedFiles(outDir, batchSize, rs);
    forall j, k | 0 <= j < k < |files|
      ensures files[j].name != files[k].name
    {
      if files[j].name == files[k].name {
        BatchNameInjective(outDir, j, k);
      }
    }
  }

  /** Files numbered from 0 in order, each with equal-length datasets, all
      full but the last, and the last short, are the expected files for the
      records they hold. */
  lemma ShapedFilesAreExpected(outDir: string, batchSize: nat, files: seq<BatchFile>)
    requires batchSize > 0 && |files| >= 1
    requires forall k :: 0 <= k < |files| ==>
               files[k].name == BatchName(outDir, k) && |files[k].images| == |files[k].labels|
    requires forall k :: 0 <= k < |files| - 1 ==> |files[k].images| == 2 * batchSize
    requires |files[|files| - 1].images| < 2 * batchSize
    ensures files == ExpectedFiles(outDir, batchSize, FlatRecords(files))
  {
    var ps := Parts(files);
    ChunksUnique(ps, FlatRecords(files), 2 * batchSize);
    var expected := ExpectedFiles(outDir, batchSize, FlatRecords(files));
    forall k | 0 <= k < |files|
      ensures files[k] == expected[k]
    {
      SplitZip(files[k].images, files[k].labels);
    }
  }
}
