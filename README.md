# Batch writer of the bumblebee data loader, in Dafny

This project models the `data_to_hdf5` conversion in `data_loader.py`. The
function turns driving-simulator recordings into numbered HDF5 batch files for
training. The model covers what the function does between finding the map
directories and writing the last file:

- the sanity check on the map directories: at least one map, and the first
  map's path contains `Map1`;
- the walk over the data directories of the first map only, then over each
  directory's label rows in file order, then over the cameras `center`,
  `right` and `left`;
- the image path `<data>/img/<camera>-<timestamp>.jpg`;
- two records per camera iteration. The first is the processed image labelled
  `steer + correction`, with corrections 0.0, -0.02 and +0.02. The second is
  its left-right mirror labelled with the negated value;
- the camera-iteration counter `batch`, the flush to `batch-<batch_idx>.h5`
  whenever the counter is a multiple of the batch size, and the final flush,
  which always happens, even when the buffers are empty.

Modules, one per concern of the script:

- `Text` (text.dfy): Python's substring test and `str()` of a batch index.
- `Imaging` (image.dfy): frames as pixel grids, and `np.fliplr` as the
  reversal of every row.
- `Records` (records.dfy): label rows, data directories, the camera constants,
  image paths, and the expansion of frames into records.
- `Batching` (batching.dfy): batch files, their names, and `ExpectedFiles`.
  `ExpectedFiles` is the reference description of a run's output: the record
  sequence cut into chunks of `2 * batchSize` records, plus one remainder
  chunk.
- `DataLoader` (data_loader.dfy): the `BatchWriter` class and the driver.
  The class holds the `images`/`labels` buffers, the `batch` and `batchIdx`
  counters and the list of written files. The driver, `DataToHdf5`, runs the
  nested loops. The driver's contract ties its output to `ExpectedFiles`.

`batch` counts camera iterations, and each camera iteration adds two records.
So every full file holds `2 * BATCH_SIZE` records, not the `BATCH_SIZE` that
the docstring at data_loader.py:29 announces. The model follows the code. A
run with `C` camera iterations writes `C / BATCH_SIZE + 1` files. This is not
`6R / BATCH_SIZE + 1`, which counting records would give. For example, one
label row with a batch size of 4 gives a single file of six records, not a
file of four records followed by one of two. `OneRowSingleFile` proves this
case, and `OneRowSplit` the batch size at which the four/two split does
happen (2). The
script fixes the batch size at 2500 (data_loader.py:24). The model takes it as
a positive parameter.

## Model

| member | source | states |
|---|---|---|
| `Text.Contains` | data_loader.py:48 | The `Map1` test `"Map1" in all_maps[0]` holds exactly when `Map1` occurs at some position of the path. |
| `Text.NatToString` | data_loader.py:92 | `"{}".format(batch_idx)` is a non-empty string of decimal digits with no leading zero: a string starting with `0` is exactly `"0"`, for the index 0. |
| `Text.ParseNatToString` | data_loader.py:92 | The decimal index written into a batch file name reads back as that index. |
| `Imaging.FlipLR` | data_loader.py:86 | `np.fliplr` keeps height and row widths, and pixel `(y, x)` of the result is pixel `(y, width-1-x)` of the input. |
| `Imaging.FlipLRInvolutive` | data_loader.py:86 | Mirroring a frame twice gives the frame back. |
| `Records.ImagePath` | data_loader.py:78-79 | The image path is `<data>/img/`, then the camera name, `-`, the timestamp and `.jpg`. Each part sits at a fixed offset. |
| `Records.ImagePathInjective` | data_loader.py:78-79 | Within a data directory, distinct (camera, timestamp) pairs give distinct image paths: the path determines both. |
| `Records.Mirror` | data_loader.py:86-87 | The flipped partner of a record has the negated label and an image of the same shape whose pixel `(y, x)` is pixel `(y, width-1-x)` of the original: the `np.fliplr` mirror. |
| `Records.MirrorInvolutive` | data_loader.py:83-87 | The flipped record of a flipped record is the original (image mirrored back, label negated back). |
| `Records.CameraRecords` | data_loader.py:77-87 | Camera `i` of a row contributes exactly two records: the processed image of `<data>/img/<camera>-<timestamp>.jpg` labelled `steer + Correction[i]`, then its mirror. |
| `Records.FrameRecordsAt` | data_loader.py:77-87 | Of a row's six records, camera `i` gives record `2i` (its image, label `steer + Correction[i]`) and record `2i+1` (the mirror, negated label). |
| `Records.Frames` | data_loader.py:68-71 | Walking the directories and their rows visits one frame per label row. |
| `Records.FramesAt` | data_loader.py:68-71 | Row `r` of data directory `d` is frame number (rows of all earlier directories) + `r`: directories are walked in order, and each CSV's rows in file order. |
| `Records.Expand` | data_loader.py:68-87 | Every label row yields exactly six records. |
| `Records.ExpandAppend` | data_loader.py:68-87 | The records of two runs of rows, one after the other, are the records of the first run followed by those of the second. |
| `Records.ExpandAt` | data_loader.py:68-87 | Record `6n+2i` is frame `n`'s camera-`i` image labelled `steer + Correction[i]`. Record `6n+2i+1` is its mirror labelled with the negation. This fixes the order: row, then camera center/right/left, then unflipped/flipped. |
| `Records.ExpandPaired` | data_loader.py:83-87 | In the generated sequence, every record at an odd position is the mirror of the record just before it. |
| `Batching.Hdf5Dir` | data_loader.py:22 | `HDF5_DIR` is the directory `hdf5` directly inside the script's directory. |
| `Batching.BatchName` | data_loader.py:92-103 | A batch file name is `<HDF5_DIR>/batch-`, then the digits of `str(batch_idx)`, then `.h5`, each part at a fixed offset. |
| `Batching.BatchNameInjective` | data_loader.py:92 | `batch-<idx>.h5` under the output directory determines `idx`, so no batch file overwrites another. |
| `Batching.FrameLabels` | data_loader.py:84-87 | The six labels of a row with steering value `s` are `s + c` and `-(s + c)` for the corrections `c` of center, right and left, in that order. |
| `Batching.Chunks` | data_loader.py:89-111 | The cut yields at least one piece. All pieces but the last are full, and the last is shorter than a full piece, possibly empty. |
| `Batching.FlattenChunks` | data_loader.py:89-111 | Concatenating the chunks gives back the whole record sequence. |
| `Batching.ChunksUnique` | data_loader.py:89-111 | Any split into full chunks followed by one shorter last chunk is the chunking. |
| `Batching.ChunksPaired` | data_loader.py:89-91 | Chunks of an even size never separate a record from its mirror. |
| `Batching.ExpectedFiles` | data_loader.py:89-111 | A run writes at least one file. Each file has as many labels as images. All files but the last hold `2 * batchSize` records, and the last holds fewer. |
| `Batching.ExpectedFilesLossless` | data_loader.py:92-95 | Reading the expected files in index order, zipping images with labels, gives back exactly the generated records. |
| `Batching.ExpectedFilesShape` | data_loader.py:89-111 | For `c` camera iterations there are `c / batchSize + 1` files, named `batch-k.h5` in order. Each has equal-length datasets. All but the last hold `2 * batchSize` records. The last holds `2 * (c % batchSize)`, and it is empty exactly when `c` is a multiple of `batchSize`. |
| `Batching.ExpectedFilesPaired` | data_loader.py:89-91 | Every expected file of a paired record sequence is itself paired. |
| `Batching.ExpectedFilesDistinct` | data_loader.py:92-103 | No two expected files share a name. |
| `Batching.ShapedFilesAreExpected` | data_loader.py:92-111 | Files numbered from 0, all full except a shorter last one, are the expected files for the records they hold. |
| `DataLoader.BatchWriter.constructor` | data_loader.py:55-66 | Buffers start empty, counters at 0, nothing written. |
| `DataLoader.BatchWriter.Push` | data_loader.py:83-89 | Appends the image and its label, then the mirrored image and the negated label, and bumps `batch`. Nothing else changes. |
| `DataLoader.BatchWriter.Flush` | data_loader.py:92-111 | Writes the buffers as they are, possibly empty, as `batch-<batchIdx>.h5`, empties them and advances `batchIdx`. `batch` is unchanged. |
| `DataLoader.BatchWriter.AddCamera` | data_loader.py:83-100 | Appends the unflipped and then the flipped record and bumps `batch`. Exactly when the new count is a multiple of the batch size, it writes the buffers as `batch-<batchIdx>.h5`, empties them and advances `batchIdx` by one. It keeps the writer invariant: equal-length buffers, one full file per completed batch, contiguous names. |
| `DataLoader.BatchWriter.Finish` | data_loader.py:102-111 | Writes the buffers, possibly empty, as `batch-<batchIdx>.h5`, empties them and advances the index. The written files are then exactly `ExpectedFiles` of every record handed in. |
| `DataLoader.CounterStep` | data_loader.py:89-91 | When the counter is bumped, its remainder either grows by one, or wraps to 0 while the quotient, and so the file index, grows by one. |
| `DataLoader.ProcessRow` | data_loader.py:77-100 | The camera loop for one row hands the writer that row's six records in camera order. |
| `DataLoader.ProcessDir` | data_loader.py:69-100 | The row loop for one data directory hands the writer the records of its rows, in file order. |
| `DataLoader.DataToHdf5` | data_loader.py:27-111 | With no map, or a first map whose path lacks `Map1`, it stops and writes nothing. Otherwise it writes exactly `ExpectedFiles` for the records of the first map's data directories. |
| `DataLoader.RunOutput` | data_loader.py:65-111 | For `R` rows (`C = 3R` camera iterations) a run generates `6R` records and writes `C / batchSize + 1` files. |
| `DataLoader.RunFileSizes` | data_loader.py:89-111 | In a run, full files hold `2 * batchSize` records. The last holds `2 * (C % batchSize)`, and it is empty exactly when `C` is a multiple of `batchSize`. |
| `DataLoader.RunNames` | data_loader.py:92-103 | In a run, file `k` is `batch-k.h5`, no two files share a name, and every file has as many labels as images. |
| `DataLoader.RunRecords` | data_loader.py:83-111 | Concatenating a run's files in index order gives back every record in generation order, and no file splits a pair. |
| `DataLoader.OneRowLabels` | data_loader.py:84-87 | The row ("T1", 0.10) yields labels 0.10, -0.10, 0.08, -0.08, 0.12, -0.12 in that order. |
| `DataLoader.OneRowSingleFile` | data_loader.py:89-111 | For that single row and a batch size of 4, the run writes one file holding all six labels. |
| `DataLoader.OneRowEmptyLast` | data_loader.py:89-111 | With a batch size of 3, the third camera iteration flushes all six records and the final flush writes an empty second file. |
| `DataLoader.OneRowSplit` | data_loader.py:89-111 | With a batch size of 2, the first file holds the center and right records and the second the left ones. |

## Left out

- Image reading and preprocessing: `cv2.imread` (data_loader.py:80) and `preprocess` (data_loader.py:81) are foreign calls. They are the function parameters `imread` and `preprocess`. `preprocess.py` is not part of this model.
- Failing reads: `cv2.imread` returns `None` for a missing image file. What `preprocess(None)` then does depends on `preprocess.py`, which is not part of this model. A missing or malformed `training_data.csv` makes `pd.read_csv` raise, which aborts the run after the files already flushed. `imread` and the parsed rows are total in the model, so none of these failures is modelled.
- Filesystem enumeration: `glob`, `os.makedirs` and `pd.read_csv` (data_loader.py:39-43, 53, 69) are file I/O. The map directories, their data directories and the parsed rows are the input `allMaps`, in the order `glob` would return them.
- Row parsing: the timestamp column is taken to be a string, and `float(steer)` an exact `real`. IEEE-754 rounding of `steer + correction` is not modelled.
- HDF5 writing: `h5py` (data_loader.py:93-95, 104-106) is file I/O. Each write appends `(name, images, labels)` to the writer's `written` list.
- Output directory contents: `HDF5_DIR` is never cleared, so files with higher indices from an earlier, longer run stay on disk. `written`, and so every statement about a run's files, covers only the files this run writes.
- DataToHdf5: assumes at least one `.jpg` exists somewhere under the maps directory. The sample preview (data_loader.py:59-63) takes the first such file, and with none the `[0]` at line 60 raises `IndexError` before any batch file is written. On such input the model instead continues: for example, a `Map1` whose data directories hold no rows gives `Completed` and one empty `batch-0.h5`.
- Console output: the `print` calls, the matplotlib display of the sample (data_loader.py:61-63) and the GPU query (data_loader.py:15) are UI or hardware queries.
- Other functions: `data_from_hdf5` (data_loader.py:114-123) only prints dataset shapes. `dir_selector` (data_loader.py:126-131) and the interactive prompt (data_loader.py:133-140) are UI.
- Process exit: the `exit(0)` of the directory check is the `MapsNotFound` and `IncorrectStructure` results.
