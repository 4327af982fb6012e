/**
 * The part of the file system the scripts touch: directories and text files
 * below the working directory. A path is the list of its components; the
 * working directory itself is the empty path and always exists. A file holds
 * the chunks written to it since it was opened for writing, in order; its
 * text is their concatenation.
 */
module Files {

  type Path = seq<string>

  function Parent(p: Path): Path
    requires p != []
  {
    p[..|p| - 1]
  }

  /** Whether `p` lies strictly below `root`. */
  predicate Below(p: Path, root: Path)
  {
    |root| < |p| && p[..|root|] == root
  }

  /** The operating-system errors the scripts can meet, each naming the path it was raised for. */
  datatype FsError =
    | FileExists(path: Path)
    | FileNotFound(path: Path)
    | NotADirectory(path: Path)
    | IsADirectory(path: Path)

  datatype Status = Done | Failed(error: FsError)

  /** `p` is not the working directory and the directory it lives in exists. */
  predicate Placed(dirs: set<Path>, p: Path)
  {
    p != [] && (|p| == 1 || Parent(p) in dirs)
  }

  /** Nothing is both a file and a directory, and everything sits in an existing directory. */
  predicate Consistent(dirs: set<Path>, files: map<Path, seq<string>>)
  {
    && (forall p | p in dirs :: Placed(dirs, p))
    && (forall p | p in files :: Placed(dirs, p))
    && (forall p | p in dirs :: p !in files)
  }

  /** The top-level directory an existing path lives in exists too. */
  lemma {:induction false} TopExists(dirs: set<Path>, p: Path)
    requires forall q | q in dirs :: Placed(dirs, q)
    requires p in dirs
    ensures p != [] && [p[0]] in dirs
    decreases |p|
  {
    if |p| > 1 {
      TopExists(dirs, Parent(p));
    } else {
      assert p == [p[0]];
    }
  }

  class FileSystem {
    var dirs: set<Path>
    var files: map<Path, seq<string>>

    ghost predicate Valid()
      reads this
    {
      Consistent(dirs, files)
    }

    /** Whether the directory `p` would live in exists (the working directory always does). */
    predicate ParentIsDir(p: Path)
      requires p != []
      reads this
    {
      |p| == 1 || Parent(p) in dirs
    }

    /**
     * The error a path inside a missing or non-directory parent meets. Only a
     * file as the immediate parent gives `NotADirectory`; a file further up
     * gives `FileNotFound`, where the operating system would report that it
     * is not a directory. The scripts never meet that case: every path they
     * make is at most three deep under `out/`, which they have just made.
     */
    function ParentError(p: Path): FsError
      requires p != []
      reads this
    {
      if |p| > 1 && Parent(p) in files then NotADirectory(p) else FileNotFound(p)
    }

    constructor()
      ensures Valid() && dirs == {} && files == map[]
    {
      dirs := {};
      files := map[];
    }

    /** Whether anything exists at `p`. */
    predicate Exists(p: Path)
      reads this
    {
      p in dirs || p in files
    }

    /** Creates the directory `p`; its parent must exist and `p` must not. */
    method Mkdir(p: Path) returns (st: Status)
      requires Valid() && p != []
      modifies this
      ensures Valid() && files == old(files)
      ensures old(Exists(p)) ==> st == Failed(FileExists(p)) && dirs == old(dirs)
      ensures !old(Exists(p)) && !old(ParentIsDir(p)) ==> st == Failed(old(ParentError(p))) && dirs == old(dirs)
      ensures !old(Exists(p)) && old(ParentIsDir(p)) ==> st == Done && dirs == old(dirs) + {p}
    {
      if Exists(p) {
        st := Failed(FileExists(p));
      } else if !ParentIsDir(p) {
        st := Failed(ParentError(p));
      } else {
        dirs := dirs + {p};
        st := Done;
      }
    }

    /** Removes the directory `p` with everything below it. */
    method RmTree(p: Path) returns (st: Status)
      requires Valid() && p != []
      modifies this
      ensures Valid()
      ensures old(p in files) ==> st == Failed(NotADirectory(p)) && dirs == old(dirs) && files == old(files)
      ensures old(!Exists(p)) ==> st == Failed(FileNotFound(p)) && dirs == old(dirs) && files == old(files)
      ensures old(p in dirs) ==>
                && st == Done
                && dirs == (set q | q in old(dirs) && q != p && !Below(q, p))
                && files == (map q | q in old(files) && !Below(q, p) :: old(files)[q])
    {
      if p in files {
        st := Failed(NotADirectory(p));
      } else if p !in dirs {
        st := Failed(FileNotFound(p));
      } else {
        forall q | q in dirs && q != p && !Below(q, p) && |q| > 1
          ensures Parent(q) != p && !Below(Parent(q), p)
        {
          if Parent(q) == p || Below(Parent(q), p) {
            BelowParent(q, p);
          }
        }
        forall q | q in files && !Below(q, p) && |q| > 1
          ensures Parent(q) != p && !Below(Parent(q), p)
        {
          if Parent(q) == p || Below(Parent(q), p) {
            BelowParent(q, p);
          }
        }
        dirs := set q | q in dirs && q != p && !Below(q, p);
        files := map q | q in files && !Below(q, p) :: files[q];
        st := Done;
      }
    }

    /** Opens `p` for writing: creates it, or empties it when it exists, and hands out a fresh handle. */
    method Open(p: Path) returns (st: Status, f: Handle)
      requires Valid() && p != []
      modifies this
      ensures Valid() && dirs == old(dirs)
      ensures fresh(f) && f.path == p && f.chunks == []
      ensures old(p in dirs) ==> st == Failed(IsADirectory(p)) && files == old(files)
      ensures p !in old(dirs) && !old(ParentIsDir(p)) ==> st == Failed(old(ParentError(p))) && files == old(files)
      ensures p !in old(dirs) && old(ParentIsDir(p)) ==> st == Done && files == old(files)[p := []]
    {
      f := new Handle(p);
      if p in dirs {
        st := Failed(IsADirectory(p));
      } else if !ParentIsDir(p) {
        st := Failed(ParentError(p));
      } else {
        files := files[p := []];
        st := Done;
      }
    }

    /** Closes a handle: what was written through it becomes the file's contents. */
    method Close(f: Handle)
      requires Valid() && f.path in files
      modifies this
      ensures Valid() && dirs == old(dirs)
      ensures files == old(files)[f.path := f.chunks]
    {
      files := files[f.path := f.chunks];
    }
  }

  /** An open file: what has been written through it so far. */
  class Handle {
    const path: Path
    var chunks: seq<string>

    constructor(path: Path)
      ensures this.path == path && chunks == []
    {
      this.path := path;
      chunks := [];
    }

    /** `f.write(chunk)` */
    method Write(chunk: string)
      modifies this
      ensures chunks == old(chunks) + [chunk]
    {
      chunks := chunks + [chunk];
    }
  }

  /** A path whose parent is `root` or below it lies below `root` itself. */
  lemma BelowParent(q: Path, root: Path)
    requires |q| > 1
    requires Parent(q) == root || Below(Parent(q), root)
    ensures Below(q, root)
  {
    assert q[..|root|] == Parent(q)[..|root|];
  }
}
