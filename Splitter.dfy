/**
 * split_dataset over an abstract input folder: the folder is an object whose file
 * map and sub-directory set the operation updates in place, one directory creation
 * and one file move at a time.
 */
module Splitter {
  import opened Seqs
  import opened Partition
  import opened FileNames

  /** Where a file is: directly in the input folder, or in one of its three subfolders. */
  datatype Location = Source | Train | Val | Test

  /** The name of the subfolder a destination stands for. */
  function SubfolderName(loc: Location): (r: string)
    requires loc != Source
    ensures r != []
  {
    match loc
    case Train => "train"
    case Val => "val"
    case Test => "test"
  }

  /** What split_dataset reports: how many images went to each subfolder. */
  datatype Counts = Counts(train: nat, val: nat, test: nat)

  /** The ways split_dataset stops early. */
  datatype SplitError =
    | InvalidRatios             // the ValueError of the ratio check
    | NotADirectory(name: string) // os.makedirs finds a regular file where a subfolder goes

  datatype Result<T> = Success(value: T) | Failure(error: SplitError)

  datatype Option<T> = None | Some(value: T)

  /** Every name in `names` set to `dest`; all other entries of `files` kept. */
  function Assign(files: map<string, Location>, names: seq<string>, dest: Location): (m: map<string, Location>)
    ensures forall n :: n in m <==> n in files || n in names
    ensures forall n :: n in m ==> m[n] == if n in names then dest else files[n]
  {
    files + map n | n in names :: dest
  }

  /** Assigning one more name is one more map update. */
  lemma AssignSnoc(files: map<string, Location>, names: seq<string>, x: string, dest: Location)
    ensures Assign(files, names + [x], dest) == Assign(files, names, dest)[x := dest]
  {
    var a, b := Assign(files, names + [x], dest), Assign(files, names, dest)[x := dest];
    assert forall n :: n in names + [x] <==> n in names || n == x;
    assert a.Keys == b.Keys;
    forall n | n in a
      ensures a[n] == b[n]
    {
    }
  }

  /**
   * One step of a move loop over duplicate-free names that all start in the input
   * folder: the next name is still there, and moving it extends the assignment.
   */
  lemma MoveStep(files: map<string, Location>, names: seq<string>, i: nat, dest: Location)
    requires Distinct(names) && i < |names|
    requires forall n :: n in names ==> n in files && files[n] == Source
    ensures var m := Assign(files, names[..i], dest);
      && names[i] in m && m[names[i]] == Source
      && Assign(files, names[..i + 1], dest) == m[names[i] := dest]
  {
    assert names[i] !in names[..i] by {
      forall k | 0 <= k < i
        ensures names[..i][k] != names[i]
      {
        assert names[..i][k] == names[k];
      }
    }
    assert names[i] in names;
    assert names[..i + 1] == names[..i] + [names[i]];
    AssignSnoc(files, names[..i], names[i], dest);
  }

  /**
   * The file map after the three move loops of split_dataset, for slices that share
   * no name (the only ones split_dataset produces under the corrected ratio check, see
   * SplitDisjoint). Each name of a slice gets that slice's subfolder; every other entry
   * keeps its location. On overlapping slices the code does not reach this map: the
   * later loop's shutil.move finds its source gone and raises.
   */
  function Relocated(files: map<string, Location>, p: Partition<string>): (m: map<string, Location>)
    ensures forall n :: n in m <==> n in files || n in p.train || n in p.val || n in p.test
    ensures forall n :: n in m ==>
      m[n] == (if n in p.test then Test
               else if n in p.val then Val
               else if n in p.train then Train
               else files[n])
  {
    Assign(Assign(Assign(files, p.train, Train), p.val, Val), p.test, Test)
  }

  /** The input folder together with the three subfolders it gets. */
  class Folder {
    /** Every regular file, by name, with the folder it is in. */
    var files: map<string, Location>
    /** The sub-directories directly inside the input folder. */
    var dirs: set<string>

    /**
     * os.path.isfile for an entry of the input folder: a regular file directly in it,
     * which in a valid folder is never also a sub-directory.
     */
    predicate IsSourceFile(name: string)
      reads this
      ensures IsSourceFile(name) ==> name in files
      ensures Valid() && name in dirs ==> !IsSourceFile(name)
    {
      name in files && files[name] == Source
    }

    /** The entries of the input folder that are regular files. */
    function SourceFiles(): set<string>
      reads this
    {
      set n | n in files && IsSourceFile(n)
    }

    /** The train, val and test subfolders exist. */
    predicate HasSubfolders()
      reads this
    {
      SubfolderName(Train) in dirs && SubfolderName(Val) in dirs && SubfolderName(Test) in dirs
    }

    /**
     * A name directly in the input folder is a file or a directory, never both, and
     * a file is in a subfolder only when that subfolder exists.
     */
    ghost predicate Valid()
      reads this
    {
      && (forall n :: n in dirs ==> !(n in files && files[n] == Source))
      && (forall n :: n in files && files[n] != Source ==> SubfolderName(files[n]) in dirs)
    }

    constructor (files: map<string, Location>, dirs: set<string>)
      requires forall n :: n in dirs ==> !(n in files && files[n] == Source)
      requires forall n :: n in files && files[n] != Source ==> SubfolderName(files[n]) in dirs
      ensures Valid() && this.files == files && this.dirs == dirs
    {
      this.files := files;
      this.dirs := dirs;
    }

    /**
     * os.makedirs(path, exist_ok=True) for a subfolder: an existing directory is
     * kept, a regular file of that name is an error.
     */
    method MakeDir(name: string) returns (ok: bool)
      requires Valid()
      modifies this
      ensures Valid() && files == old(files)
      ensures ok <==> !IsSourceFile(name)
      ensures dirs == if ok then old(dirs) + {name} else old(dirs)
    {
      if IsSourceFile(name) {
        ok := false;
      } else {
        dirs := dirs + {name};
        ok := true;
      }
    }

    /** os.listdir of the input folder: its files and directories once each, in no fixed order. */
    method ListDir() returns (names: seq<string>)
      ensures Distinct(names)
      ensures forall n :: n in names <==> IsSourceFile(n) || n in dirs
    {
      var rest := SourceFiles() + dirs;
      names := [];
      while rest != {}
        invariant Distinct(names)
        invariant forall n :: n in names ==> n !in rest
        invariant forall n :: n in names || n in rest <==> IsSourceFile(n) || n in dirs
        decreases rest
      {
        var n :| n in rest;
        names := names + [n];
        rest := rest - {n};
      }
    }

    /** shutil.move of one file from the input folder into a subfolder, under the same name. */
    method Move(name: string, dest: Location)
      requires Valid() && IsSourceFile(name)
      requires dest != Source && SubfolderName(dest) in dirs
      modifies this
      ensures Valid() && dirs == old(dirs)
      ensures files == old(files)[name := dest]
    {
      files := files[name := dest];
    }

    /** One of the three move loops: every name of `names`, in order, into `dest`. */
    method MoveAll(names: seq<string>, dest: Location)
      requires Valid() && Distinct(names)
      requires forall n :: n in names ==> IsSourceFile(n)
      requires dest != Source && SubfolderName(dest) in dirs
      modifies this
      ensures Valid() && dirs == old(dirs)
      ensures files == Assign(old(files), names, dest)
    {
      for i := 0 to |names|
        invariant Valid() && dirs == old(dirs)
        invariant files == Assign(old(files), names[..i], dest)
      {
        MoveStep(old(files), names, i, dest);
        Move(names[i], dest);
      }
      assert names[..|names|] == names;
    }
  }

  /** x[i], x[j] = x[j], x[i]: the two positions trade places and nothing else moves. */
  function Swap<T>(s: seq<T>, i: nat, j: nat): (r: seq<T>)
    requires i < |s| && j < |s|
    ensures |r| == |s| && r[i] == s[j] && r[j] == s[i]
    ensures forall k :: 0 <= k < |s| && k != i && k != j ==> r[k] == s[k]
  {
    s[i := s[j]][j := s[i]]
  }

  /** A swap only reorders: same length, same multiset, and no duplicate appears. */
  lemma SwapPermutes<T>(s: seq<T>, i: nat, j: nat)
    requires i < |s| && j < |s|
    ensures |Swap(s, i, j)| == |s|
    ensures multiset(Swap(s, i, j)) == multiset(s)
    ensures Distinct(s) ==> Distinct(Swap(s, i, j))
  {
    var t := Swap(s, i, j);
    if Distinct(s) {
      forall a, b | 0 <= a < b < |t|
        ensures t[a] != t[b]
      {
        var a' := if a == i then j else if a == j then i else a;
        var b' := if b == i then j else if b == j then i else b;
        assert t[a] == s[a'] && t[b] == s[b'] && a' != b';
      }
    }
  }

  /**
   * random.shuffle: the Fisher-Yates pass from the last position down to the second,
   * swapping each with a position at or below it. The random draw is an arbitrary
   * choice, so the method covers every order the generator can produce.
   */
  method Shuffle<T>(images: seq<T>) returns (r: seq<T>)
    ensures |r| == |images| && multiset(r) == multiset(images)
    ensures Distinct(images) ==> Distinct(r)
  {
    r := images;
    var i := |r|;
    while 1 < i
      invariant 0 <= i <= |r| == |images|
      invariant multiset(r) == multiset(images)
      invariant Distinct(images) ==> Distinct(r)
    {
      i := i - 1;
      var j :| 0 <= j <= i;
      SwapPermutes(r, i, j);
      r := Swap(r, i, j);
    }
  }

  /**
   * The three os.makedirs calls of split_dataset, in order. The first subfolder whose
   * name a regular file already holds stops the sequence; the ones before it exist.
   */
  method MakeSubfolders(folder: Folder) returns (clash: Option<Location>)
    requires folder.Valid()
    modifies folder
    ensures folder.Valid() && folder.files == old(folder.files)
    ensures clash != Some(Source)
    ensures clash == Some(Train) <==> old(folder.IsSourceFile(SubfolderName(Train)))
    ensures clash == Some(Val) <==>
      !old(folder.IsSourceFile(SubfolderName(Train))) && old(folder.IsSourceFile(SubfolderName(Val)))
    ensures clash == Some(Test) <==>
      && !old(folder.IsSourceFile(SubfolderName(Train)))
      && !old(folder.IsSourceFile(SubfolderName(Val)))
      && old(folder.IsSourceFile(SubfolderName(Test)))
    ensures clash == Some(Train) ==> folder.dirs == old(folder.dirs)
    ensures clash == Some(Val) ==> folder.dirs == old(folder.dirs) + {SubfolderName(Train)}
    ensures clash == Some(Test) ==> folder.dirs == old(folder.dirs) + {SubfolderName(Train), SubfolderName(Val)}
    ensures clash == None ==>
      folder.dirs == old(folder.dirs) + {SubfolderName(Train), SubfolderName(Val), SubfolderName(Test)}
  {
    var ok := folder.MakeDir(SubfolderName(Train));
    if !ok {
      return Some(Train);
    }
    ok := folder.MakeDir(SubfolderName(Val));
    if !ok {
      return Some(Val);
    }
    ok := folder.MakeDir(SubfolderName(Test));
    if !ok {
      return Some(Test);
    }
    return None;
  }

  /**
   * split_dataset(input_folder, train_ratio, val_ratio, test_ratio). The ghost result
   * `shuffled` is the image list after the shuffle.
   */
  method SplitDataset(folder: Folder, trainRatio: real, valRatio: real, testRatio: real)
    returns (r: Result<Counts>, ghost shuffled: seq<string>)
    requires folder.Valid()
    modifies folder
    ensures folder.Valid()
    ensures !RatiosValid(trainRatio, valRatio, testRatio) ==>
      r == Failure(InvalidRatios) && folder.files == old(folder.files) && folder.dirs == old(folder.dirs)
    ensures r.Success? <==>
      && RatiosValid(trainRatio, valRatio, testRatio)
      && !old(folder.IsSourceFile(SubfolderName(Train)))
      && !old(folder.IsSourceFile(SubfolderName(Val)))
      && !old(folder.IsSourceFile(SubfolderName(Test)))
    ensures r.Failure? && r.error.NotADirectory? ==>
      old(folder.IsSourceFile(r.error.name)) && folder.files == old(folder.files)
    ensures r == Failure(NotADirectory(SubfolderName(Train))) <==>
      RatiosValid(trainRatio, valRatio, testRatio) && old(folder.IsSourceFile(SubfolderName(Train)))
    ensures r == Failure(NotADirectory(SubfolderName(Train))) ==> folder.dirs == old(folder.dirs)
    ensures r == Failure(NotADirectory(SubfolderName(Val))) <==>
      && RatiosValid(trainRatio, valRatio, testRatio)
      && !old(folder.IsSourceFile(SubfolderName(Train)))
      && old(folder.IsSourceFile(SubfolderName(Val)))
    ensures r == Failure(NotADirectory(SubfolderName(Val))) ==>
      folder.dirs == old(folder.dirs) + {SubfolderName(Train)}
    ensures r == Failure(NotADirectory(SubfolderName(Test))) <==>
      && RatiosValid(trainRatio, valRatio, testRatio)
      && !old(folder.IsSourceFile(SubfolderName(Train)))
      && !old(folder.IsSourceFile(SubfolderName(Val)))
      && old(folder.IsSourceFile(SubfolderName(Test)))
    ensures r == Failure(NotADirectory(SubfolderName(Test))) ==>
      folder.dirs == old(folder.dirs) + {SubfolderName(Train), SubfolderName(Val)}
    ensures r.Success? ==>
      folder.dirs == old(folder.dirs) + {SubfolderName(Train), SubfolderName(Val), SubfolderName(Test)}
    ensures r.Success? ==>
      && Distinct(shuffled)
      && (forall n :: n in shuffled <==> old(folder.IsSourceFile(n)) && IsImageName(n))
      && var p := Split(shuffled, trainRatio, valRatio);
         && folder.files == Relocated(old(folder.files), p)
         && r.value == Counts(|p.train|, |p.val|, |p.test|)
         && r.value.train + r.value.val + r.value.test == |shuffled|
  {
    shuffled := [];
    if !RatiosValid(trainRatio, valRatio, testRatio) {
      return Failure(InvalidRatios), shuffled;
    }
    var clash := MakeSubfolders(folder);
    if clash.Some? {
      return Failure(NotADirectory(SubfolderName(clash.value))), shuffled;
    }

    var counts;
    counts, shuffled := DistributeImages(folder, trainRatio, valRatio);
    r := Success(counts);
  }

  /**
   * The part of split_dataset after the subfolders exist: list the folder, keep the
   * image files, shuffle them, cut the list and run the three move loops.
   */
  method DistributeImages(folder: Folder, trainRatio: real, valRatio: real)
    returns (counts: Counts, ghost shuffled: seq<string>)
    requires folder.Valid() && folder.HasSubfolders()
    requires 0.0 <= trainRatio && 0.0 <= valRatio
    modifies folder
    ensures folder.Valid() && folder.dirs == old(folder.dirs)
    ensures Distinct(shuffled)
    ensures forall n :: n in shuffled <==> old(folder.IsSourceFile(n)) && IsImageName(n)
    ensures var p := Split(shuffled, trainRatio, valRatio);
      && folder.files == Relocated(old(folder.files), p)
      && counts == Counts(|p.train|, |p.val|, |p.test|)
      && counts.train + counts.val + counts.test == |shuffled|
  {
    ghost var start := folder.files;
    var listing := folder.ListDir();
    var selected := SelectImages(listing, folder.SourceFiles());
    assert forall n :: n in selected <==> n in start && start[n] == Source && IsImageName(n);
    var images := Shuffle(selected);
    shuffled := images;
    SameMembers(selected, images);

    var p := Split(images, trainRatio, valRatio);
    SlicesStillInSource(start, images, trainRatio, valRatio);
    SplitCountsAddUp(images, trainRatio, valRatio);
    ghost var afterTrain := Assign(start, p.train, Train);
    ghost var afterVal := Assign(afterTrain, p.val, Val);
    assert forall n :: n in p.train ==> folder.IsSourceFile(n);
    folder.MoveAll(p.train, Train);
    assert folder.files == afterTrain;
    assert forall n :: n in p.val ==> folder.IsSourceFile(n);
    folder.MoveAll(p.val, Val);
    assert folder.files == afterVal;
    assert forall n :: n in p.test ==> folder.IsSourceFile(n);
    folder.MoveAll(p.test, Test);
    counts := Counts(|p.train|, |p.val|, |p.test|);
  }

  /** A permutation has the same members. */
  lemma SameMembers<T>(a: seq<T>, b: seq<T>)
    requires multiset(a) == multiset(b)
    ensures forall x :: x in a <==> x in b
  {
    forall x
      ensures x in a <==> x in b
    {
      assert x in a <==> x in multiset(a);
      assert x in b <==> x in multiset(b);
    }
  }

  /**
   * Each move loop finds its files still in the input folder: the slices are
   * duplicate-free and an earlier loop never moved a file of a later slice.
   */
  lemma SlicesStillInSource(files: map<string, Location>, images: seq<string>, trainRatio: real, valRatio: real)
    requires 0.0 <= trainRatio && 0.0 <= valRatio
    requires Distinct(images)
    requires forall n :: n in images ==> n in files && files[n] == Source
    ensures var p := Split(images, trainRatio, valRatio);
      var afterTrain := Assign(files, p.train, Train);
      var afterVal := Assign(afterTrain, p.val, Val);
      && Distinct(p.train) && Distinct(p.val) && Distinct(p.test)
      && (forall n :: n in p.train ==> n in files && files[n] == Source)
      && (forall n :: n in p.val ==> n in afterTrain && afterTrain[n] == Source)
      && (forall n :: n in p.test ==> n in afterVal && afterVal[n] == Source)
  {
    var p := Split(images, trainRatio, valRatio);
    SplitReassembles(images, trainRatio, valRatio);
    SplitDisjoint(images, trainRatio, valRatio);
    forall n | n in p.train || n in p.val || n in p.test
      ensures n in images
    {
      assert n in p.train + p.val + p.test;
    }
  }

  /**
   * What the three move loops do to the folder, given the shuffled image list: every
   * image ends up in exactly one subfolder, the one whose slice holds it, and every
   * other file stays where it was.
   */
  lemma EachImageMovedOnce(files: map<string, Location>, shuffled: seq<string>, trainRatio: real, valRatio: real)
    requires 0.0 <= trainRatio && 0.0 <= valRatio
    requires Distinct(shuffled)
    requires forall n :: n in shuffled ==> n in files
    ensures var p, after := Split(shuffled, trainRatio, valRatio), Relocated(files, Split(shuffled, trainRatio, valRatio));
      && after.Keys == files.Keys
      && (forall n :: n in files && n !in shuffled ==> after[n] == files[n])
      && (forall n :: n in shuffled ==>
            && after[n] != Source
            && (after[n] == Train <==> n in p.train)
            && (after[n] == Val <==> n in p.val)
            && (after[n] == Test <==> n in p.test))
  {
    var p := Split(shuffled, trainRatio, valRatio);
    SplitReassembles(shuffled, trainRatio, valRatio);
    SplitDisjoint(shuffled, trainRatio, valRatio);
    forall n | n in shuffled
      ensures n in p.train || n in p.val || n in p.test
    {
      assert n in p.train + p.val + p.test;
    }
  }

  /** With ratios 1.0 / 0.0 / 0.0 every image goes to train and every other file stays. */
  lemma AllImagesToTrain(files: map<string, Location>, shuffled: seq<string>)
    requires Distinct(shuffled)
    requires forall n :: n in shuffled ==> n in files
    ensures var after := Relocated(files, Split(shuffled, 1.0, 0.0));
      && after.Keys == files.Keys
      && (forall n :: n in shuffled ==> after[n] == Train)
      && (forall n :: n in files && n !in shuffled ==> after[n] == files[n])
  {
    AllToTrain(shuffled);
    EachImageMovedOnce(files, shuffled, 1.0, 0.0);
  }
}
