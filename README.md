# Train/val/test splitter, modelled in Dafny

`split_dataset` partitions the image files of one flat folder into three subfolders,
`train`, `val` and `test`. It does the following, in order:

1. It refuses ratio triples whose sum is more than 1e-6 away from 1.0.
2. It creates the three subfolders.
3. It lists the folder and keeps the regular files whose lower-cased names end with
   `.jpg`, `.jpeg`, `.png`, `.bmp` or `.tiff`.
4. It shuffles that list.
5. It cuts the list at `train_end = int(N * train_ratio)` and
   `val_end = train_end + int(N * val_ratio)`.
6. It moves every file of each slice into its subfolder under the same name.

The model has four modules:

- `Seqs` (Seqs.dfy): duplicate-freedom and disjointness of sequences.
- `Partition` (Partition.dfy): the ratio check, Python's `int()` (rounding toward
  zero), Python's slice bounds (a negative bound counts from the end, then both clamp
  to `[0, N]`), the cut points and the three slices. It also holds the lemmas that the
  slices put the shuffled list back together, that they are disjoint and that their
  sizes add up to N.
- `FileNames` (FileNames.dfy): `str.lower`, `str.endswith` and the list comprehension
  that selects image files.
- `Splitter` (Splitter.dfy): the folder as a class. `files` maps each regular file's
  name to where it is (`Source`, `Train`, `Val` or `Test`). `dirs` holds the
  sub-directories of the input folder. `os.makedirs`, `os.listdir`, `shutil.move` and
  the three move loops are methods that update these fields. `random.shuffle` is a
  Fisher-Yates loop whose random index is an arbitrary choice, so it covers every
  permutation. `SplitDataset` is the whole operation.

Ratios are exact reals. `SplitDataset` returns the three counts that the source prints.

Two consequences of the code as written:

- A ratio sum of 0.99999 is refused: it is 1e-5 away from 1.0, and the code allows at
  most 1e-6 (`Partition.ToleranceBoundaries`).
- `train_end` can pass N, because the tolerance lets the train ratio exceed 1.0.
  Python's slice then clamps it, so the train count is `min(floor(N * train_ratio), N)`
  (`Partition.TrainEndMayPassN`, `Partition.SplitSizes`).

Apart from the abstractions listed under Left out (exact reals for floats, ASCII-only
lower-casing, no filesystem errors other than `NotADirectory`, no name collisions or
symbolic links), the one deliberate change of behaviour is the ratio check of
`Splitter.SplitDataset`: it also refuses negative ratios (see Findings and Left out).

## Model

| member | source | states |
|---|---|---|
| `Partition.SumWithinTolerance` | splitter.py:13-15 | the check as written: a triple passes exactly when its sum lies in [1 - 1e-6, 1 + 1e-6] |
| `Partition.RatiosValid` | splitter.py:13-15 | the corrected check: it implies the check as written, and every accepted ratio is at most 1 + 1e-6 |
| `Partition.ToleranceBoundaries` | splitter.py:12-15 | 0.6/0.2/0.2 passes the check; sums of 0.99999 and of 0.9 are refused; a sum exactly 1e-6 above 1.0 still passes |
| `Partition.Trunc` | splitter.py:41-42 | `int()` of a non-negative number is its floor (0 <= r <= x < r + 1); of a negative number, the integer toward zero (x <= r < x + 1, r <= 0) |
| `Partition.SliceBound` | splitter.py:45-47 | a slice bound always lands in [0, N]; a non-negative bound becomes min(i, N); a negative bound lands below N |
| `Partition.Slice` | splitter.py:45-47 | a slice is the contiguous run of the list from the normalised lower bound to the normalised upper bound, and empty when the upper bound does not lie above the lower one |
| `Partition.CutPoints` | splitter.py:40-42 | for non-negative ratios, train_end = floor(N * train_ratio), val_end - train_end = floor(N * val_ratio), and 0 <= train_end <= val_end |
| `Partition.Split` | splitter.py:45-47 | for any ratios, train is a prefix of the list, test is a suffix, and no slice is longer than the list |
| `Partition.SplitReassembles` | splitter.py:45-47 | for non-negative ratios, with a = min(train_end, N) and b = min(val_end, N): train, val and test are the runs [0, a), [a, b), [b, N); they concatenate to the shuffled list; their sizes add up to N |
| `Partition.SplitCountsAddUp` | splitter.py:40-47 | len(train) + len(val) + len(test) == N |
| `Partition.SplitSizes` | splitter.py:40-47 | len(train) = min(floor(N * t), N); len(val) = min(val_end, N) - min(train_end, N); test takes the rest and is empty once val_end >= N |
| `Partition.SplitDisjoint` | splitter.py:45-47 | slices of a duplicate-free list are duplicate-free and pairwise disjoint |
| `Partition.ValidRatiosPartition` | splitter.py:13-47 | every triple the corrected check accepts yields slices that concatenate to the list and, for a duplicate-free list, are pairwise disjoint |
| `Partition.AllToTrain` | splitter.py:41-47 | ratios 1.0/0.0/0.0 pass the check; train is the whole list; val and test are empty |
| `Partition.FiveImages` | splitter.py:40-47 | five images with ratios 0.6/0.2/0.2 give 3, 1 and 1 |
| `Partition.TrainEndMayPassN` | splitter.py:13-42 | ratio 1.000001 passes the check, and for N = 1000001 train_end is N + 1 |
| `Partition.NegativeRatioSplitsCleanly` | splitter.py:13-47 | the check as written accepts 0.6/0.5/-0.1; for ten images the slices are the first six, the last four and nothing, and they put the list back together |
| `Partition.NegativeRatioOverlaps` | splitter.py:13-47 | the check as written accepts -0.25/0.25/1.0; for four images, train is the first three and test is all four, so the slices overlap |
| `FileNames.Lower` | splitter.py:32 | lower-casing keeps the length, maps each character through the ASCII case map, and leaves no upper-case ASCII letter |
| `FileNames.EndsWith` | splitter.py:32 | `s.endswith(suffix)` holds exactly when the suffix fits and the last characters of `s` are those of the suffix, position by position |
| `FileNames.IsImageName` | splitter.py:32 | a name the filter accepts is at least four characters long, the length of the shortest extension |
| `FileNames.SelectImages` | splitter.py:28-34 | a name is kept iff it is in the listing, its lower-cased form ends with one of the five extensions, and it is a regular file; the result is no longer than the listing and has no duplicates when the listing has none |
| `FileNames.LowerIdempotent` | splitter.py:32 | lower-casing twice is lower-casing once |
| `FileNames.CaseInsensitive` | splitter.py:32 | a name and its lower-cased form get the same verdict from the filter |
| `FileNames.TextFileIsNotImage` | splitter.py:28-32 | a name whose lower-cased form ends with `.txt` is never selected |
| `FileNames.UpperCaseSelected` | splitter.py:28-32 | `a.JPG` is selected |
| `FileNames.ExtensionOnlySelected` | splitter.py:28-32 | `.png`, a name that is only an extension, is selected |
| `FileNames.TifIsRejected` | splitter.py:28-32 | `a.tif` is not selected, since only `.tiff` is listed |
| `FileNames.BareExtensionIsRejected` | splitter.py:28-32 | `jpg` without the dot is not selected |
| `Splitter.Assign` | splitter.py:50-63 | the map after moving a list of names to one destination: the names are added, each is at the destination, and every other entry keeps its location |
| `Splitter.Relocated` | splitter.py:50-63 | for slices that share no name (the only ones `DistributeImages` passes it, by `Partition.SplitDisjoint`), every name of a slice is in that slice's subfolder and every other entry keeps its location; no other name appears. Overlapping slices are outside it: there the code's later loop fails in `shutil.move` |
| `Splitter.Folder.IsSourceFile` | splitter.py:33 | `os.path.isfile` on an entry of the input folder holds only for an entry of the file map, and never for a sub-directory of a valid folder |
| `Splitter.Folder.MakeDir` | splitter.py:23-25 | an existing subfolder is kept; a regular file with that name makes it fail; otherwise the subfolder is added; files are untouched |
| `Splitter.Folder.ListDir` | splitter.py:31 | the listing holds every regular file and sub-directory of the input folder exactly once |
| `Splitter.Folder.Move` | splitter.py:51-53 | the file leaves the input folder for the subfolder under the same name; nothing else changes |
| `Splitter.Folder.MoveAll` | splitter.py:50-63 | after one move loop, every name of the slice is in the destination and every other file is where it was |
| `Splitter.Swap` | splitter.py:37 | a swap exchanges the two positions and leaves the length and every other position unchanged |
| `Splitter.SwapPermutes` | splitter.py:37 | a swap keeps the length and the multiset, and introduces no duplicate |
| `Splitter.Shuffle` | splitter.py:37 | the shuffled list has the same length and multiset as the input, and stays duplicate-free |
| `Splitter.MakeSubfolders` | splitter.py:23-25 | the three `os.makedirs` calls in order: the first name a regular file holds stops them; the subfolders before it, and no others, are added; files are untouched |
| `Splitter.SlicesStillInSource` | splitter.py:45-63 | each move loop finds all its files still in the input folder, so no move targets a file that is already gone |
| `Splitter.DistributeImages` | splitter.py:27-63 | the shuffled list holds exactly the image files of the input folder; the folder ends as the three loops leave it; the counts are the slice sizes and add up to N |
| `Splitter.SplitDataset` | splitter.py:7-63 | ratios refused by the corrected check (see Findings) give InvalidRatios with nothing created or moved; a regular file named train, val or test gives NotADirectory for the first such name, with no file moved and exactly the subfolders before it created; otherwise it succeeds, exactly the three subfolders are added, and every image file is relocated by its slice |
| `Splitter.EachImageMovedOnce` | splitter.py:45-63 | after the three loops, each selected file is in exactly one subfolder, the one whose slice holds it; every other file keeps its location; no file appears or vanishes |
| `Splitter.AllImagesToTrain` | splitter.py:41-63 | with ratios 1.0/0.0/0.0 every selected file ends in train and every other file stays put |

## Left out

- `random.seed` (splitter.py:9-10): the generator and its seed are not modelled. The shuffle's random index is an arbitrary choice, so reproducibility for a given seed is not stated.
- Floating point (splitter.py:13-14, 41-42): ratios are exact reals. Rounding in `N * ratio` and in the tolerance test, NaN and infinities are not modelled.
- `FileNames.Lower`: lower-cases ASCII letters only. Python's Unicode `str.lower` is not modelled; the five extensions are plain ASCII.
- Symbolic links: `os.path.isfile` follows them; here a regular file is an entry of the file map.
- A missing input folder is no error: `os.makedirs` creates it together with the subfolders, and the run moves no file. The model starts from an existing folder; an empty `Folder` ends the same way.
- Filesystem errors other than a regular file standing where a subfolder goes: permissions, and a failing `os.listdir` or `shutil.move`, are not modelled.
- `Splitter.SplitDataset`: uses the corrected ratio check, so it returns `InvalidRatios` and changes nothing for every triple with a negative ratio. The code accepts such a triple whenever the sum is within 1e-6 of 1.0. Some of these it processes cleanly: with 0.6/0.5/-0.1 and ten images it moves 6, 4 and 0 files (`Partition.NegativeRatioSplitsCleanly`); with -0.1/0.1/1.0 and five images everything goes to test. With -0.25/0.25/1.0 and four images it creates the subfolders, moves three files and then fails in `shutil.move` (see Findings). None of these runs is modelled.
- `Splitter.Folder.Move`: requires the file to be in the input folder. The error `shutil.move` raises for a missing source is not modelled. `Splitter.SlicesStillInSource` proves that `SplitDataset`, with the corrected ratio check, never hits it.
- Name collisions (splitter.py:53, 58, 63): files are keyed by name, so a file already in a subfolder under the same name as one being moved cannot be represented. What `shutil.move` does then depends on the host.
- Console output (splitter.py:65-68): `SplitDataset` returns the counts instead of printing them.
- The command-line wrapper (splitter.py:71-113).

## Findings

| source | as written | input that shows it | evidently intended | confidence | as-written member | corrected member |
|---|---|---|---|---|---|---|
| splitter.py:13-15 | only the ratio sum is checked, so negative ratios pass | ratios -0.25/0.25/1.0 with four images: train_end = -1 and val_end = 0, so train = images[:-1] (three files) and test = images[0:] (all four); the test loop then tries to move files that the train loop already moved | ratios are non-negative proportions; a negative one is refused before anything is created or moved | medium; not executed | `Partition.NegativeRatioOverlaps` | `Partition.ValidRatiosPartition` |

`Partition.SumWithinTolerance` is the check as written. `Partition.RatiosValid` is the
corrected check: it adds non-negativity of all three ratios. `SplitDataset` uses the
corrected check.
