/**
 * The staging tree both scripts build before zipping it: `out/` holds the
 * manifest directory with `manifest.xml`, and one directory per marker,
 * named by the marker's identifier, holding `<uid>.cot`. Everything here is
 * independent of what the files say; the scripts supply the lines.
 */
module Staging {
  import opened Results
  import opened Files

  /** The staging root, `OUTPUT_PATH`. */
  const Out: string := "out"

  function ManifestPath(mdir: string): Path
  {
    [Out, mdir, "manifest.xml"]
  }

  function EventDir(uid: string): Path
  {
    [Out, uid]
  }

  function EventPath(uid: string): Path
  {
    [Out, uid, uid + ".cot"]
  }

  /** The archive entry the manifest names for a marker's event file. */
  function ZipEntry(uid: string): (e: string)
    ensures e == EventPath(uid)[1] + "/" + EventPath(uid)[2]
  {
    uid + "/" + uid + ".cot"
  }

  /** A marker's identifier with the lines of its event file. */
  datatype Entry = Entry(uid: string, lines: seq<string>)

  function Uids(es: seq<Entry>): (us: seq<string>)
    ensures |us| == |es| && forall i | 0 <= i < |es| :: us[i] == es[i].uid
  {
    if es == [] then [] else Uids(es[..|es| - 1]) + [es[|es| - 1].uid]
  }

  /**
   * The position of the first marker whose directory cannot be made: its
   * identifier is the manifest directory's name or repeats an earlier one.
   */
  function FirstClash(mdir: string, us: seq<string>): (r: Option<nat>)
    ensures r.Some? ==> r.value < |us|
  {
    if us == [] then None
    else match FirstClash(mdir, us[..|us| - 1])
      case Some(k) => Some(k)
      case None =>
        var u := us[|us| - 1];
        if u == mdir || u in us[..|us| - 1] then Some(|us| - 1) else None
  }

  /** Every marker directory can be made after the manifest directory. */
  predicate NoClash(mdir: string, us: seq<string>)
  {
    && (forall i | 0 <= i < |us| :: us[i] != mdir)
    && (forall i, j | 0 <= i < j < |us| :: us[i] != us[j])
  }

  /** Whether `p` is the staging root or lies below it. */
  predicate InOut(p: Path)
  {
    |p| > 0 && p[0] == Out
  }

  function TreeDirs(mdir: string, us: seq<string>): set<Path>
  {
    {[Out], [Out, mdir]} + set u | u in us :: EventDir(u)
  }

  /** The files of the staging tree once the markers `es` are written, each created once and in order. */
  function TreeFiles(mdir: string, manifest: seq<string>, es: seq<Entry>): map<Path, seq<string>>
  {
    if es == [] then map[ManifestPath(mdir) := manifest]
    else
      var e := es[|es| - 1];
      TreeFiles(mdir, manifest, es[..|es| - 1])[EventPath(e.uid) := e.lines]
  }

  /** What is left of the directories once the staging root is removed. */
  function PrunedDirs(dirs: set<Path>): set<Path>
  {
    set p | p in dirs && !InOut(p)
  }

  function PrunedFiles(files: map<Path, seq<string>>): map<Path, seq<string>>
  {
    map p | p in files && !InOut(p) :: files[p]
  }

  /**
   * The start of `create_package`: removes `out/` with everything in it when
   * it exists, then makes it again, empty.
   */
  method ResetOutput(fs: FileSystem) returns (st: Status)
    requires fs.Valid()
    modifies fs
    ensures fs.Valid()
    ensures old([Out] in fs.files) ==>
              && st == Failed(NotADirectory([Out]))
              && fs.dirs == old(fs.dirs) && fs.files == old(fs.files)
    ensures old([Out] !in fs.files) ==>
              && st == Done
              && fs.dirs == PrunedDirs(old(fs.dirs)) + {[Out]}
              && fs.files == PrunedFiles(old(fs.files))
  {
    if fs.Exists([Out]) {
      if [Out] in fs.dirs {
        RemovedRoot(fs.dirs, fs.files);
      }
      st := fs.RmTree([Out]);
      if st.Failed? {
        return;
      }
    } else {
      AbsentRoot(fs.dirs, fs.files);
    }
    st := fs.Mkdir([Out]);
  }

  /** The first `n` markers' identifiers are free to be made exactly when no clash occurs before `n`. */
  lemma {:induction false} FirstClashNone(mdir: string, us: seq<string>)
    ensures FirstClash(mdir, us) == None <==> NoClash(mdir, us)
    decreases |us|
  {
    if us != [] {
      var init := us[..|us| - 1];
      var u := us[|us| - 1];
      FirstClashNone(mdir, init);
      if NoClash(mdir, us) {
        assert NoClash(mdir, init);
        forall i | 0 <= i < |init|
          ensures init[i] != u
        {
          assert us[i] == init[i];
        }
      }
      if FirstClash(mdir, us) == None {
        assert FirstClash(mdir, init) == None;
        forall i, j | 0 <= i < j < |us|
          ensures us[i] != us[j]
        {
          if j == |us| - 1 {
            assert us[i] == init[i];
          } else {
            assert us[i] == init[i] && us[j] == init[j];
          }
        }
        forall i | 0 <= i < |us|
          ensures us[i] != mdir
        {
          if i < |us| - 1 {
            assert us[i] == init[i];
          }
        }
      }
    }
  }

  /** The clash found is a real one, and nothing before it clashes. */
  lemma {:induction false} FirstClashSome(mdir: string, us: seq<string>)
    requires FirstClash(mdir, us).Some?
    ensures var k := FirstClash(mdir, us).value;
      && (us[k] == mdir || us[k] in us[..k])
      && FirstClash(mdir, us[..k]) == None
    decreases |us|
  {
    var init := us[..|us| - 1];
    if FirstClash(mdir, init).Some? {
      FirstClashSome(mdir, init);
      var k := FirstClash(mdir, init).value;
      assert us[..k] == init[..k];
    } else {
      assert us[..|us| - 1] == init;
    }
  }

  /**
   * When no identifier is the manifest directory's name, the first clash
   * repeats an earlier identifier, and the identifiers before it are distinct.
   */
  lemma FirstClashRepeats(mdir: string, us: seq<string>)
    requires FirstClash(mdir, us).Some?
    requires forall i | 0 <= i < |us| :: us[i] != mdir
    ensures var k := FirstClash(mdir, us).value;
      && (exists j | 0 <= j < k :: us[j] == us[k])
      && (forall i, j | 0 <= i < j < k :: us[i] != us[j])
  {
    var k := FirstClash(mdir, us).value;
    FirstClashSome(mdir, us);
    var j :| 0 <= j < k && us[..k][j] == us[k];
    assert us[j] == us[k];
    FirstClashNone(mdir, us[..k]);
    forall i, j | 0 <= i < j < k
      ensures us[i] != us[j]
    {
      assert us[..k][i] == us[i] && us[..k][j] == us[j];
    }
  }

  /** The staging tree's files are the manifest and one event file per marker. */
  lemma {:induction false} TreeFilesKeys(mdir: string, manifest: seq<string>, es: seq<Entry>, p: Path)
    ensures p in TreeFiles(mdir, manifest, es) <==>
      p == ManifestPath(mdir) || exists i | 0 <= i < |es| :: p == EventPath(es[i].uid)
    decreases |es|
  {
    if es != [] {
      var init := es[..|es| - 1];
      TreeFilesKeys(mdir, manifest, init, p);
      if exists i | 0 <= i < |es| :: p == EventPath(es[i].uid) {
        var i :| 0 <= i < |es| && p == EventPath(es[i].uid);
        if i < |es| - 1 {
          assert init[i] == es[i];
        }
      }
      if exists i | 0 <= i < |init| :: p == EventPath(init[i].uid) {
        var i :| 0 <= i < |init| && p == EventPath(init[i].uid);
        assert es[i] == init[i];
      }
    }
  }

  /** Without a clash, every file of the staging tree holds the lines written for it. */
  lemma {:induction false} TreeFilesContents(mdir: string, manifest: seq<string>, es: seq<Entry>)
    requires NoClash(mdir, Uids(es))
    ensures ManifestPath(mdir) in TreeFiles(mdir, manifest, es)
    ensures TreeFiles(mdir, manifest, es)[ManifestPath(mdir)] == manifest
    ensures forall i | 0 <= i < |es| :: EventPath(es[i].uid) in TreeFiles(mdir, manifest, es)
    ensures forall i | 0 <= i < |es| :: TreeFiles(mdir, manifest, es)[EventPath(es[i].uid)] == es[i].lines
    decreases |es|
  {
    if es != [] {
      var init := es[..|es| - 1];
      var last := es[|es| - 1];
      assert Uids(init) == Uids(es)[..|es| - 1];
      TreeFilesContents(mdir, manifest, init);
      assert last.uid != mdir by {
        assert Uids(es)[|es| - 1] == last.uid;
      }
      forall i | 0 <= i < |init|
        ensures EventPath(init[i].uid) != EventPath(last.uid)
      {
        assert Uids(es)[i] == init[i].uid && Uids(es)[|es| - 1] == last.uid;
      }
    }
  }

  /** Without a clash, the staging tree holds exactly one file more than there are markers. */
  lemma {:induction false} TreeFilesCount(mdir: string, manifest: seq<string>, es: seq<Entry>)
    requires NoClash(mdir, Uids(es))
    ensures |TreeFiles(mdir, manifest, es).Keys| == 1 + |es|
    decreases |es|
  {
    if es != [] {
      var init := es[..|es| - 1];
      var last := es[|es| - 1];
      assert Uids(init) == Uids(es)[..|es| - 1];
      TreeFilesCount(mdir, manifest, init);
      var p := EventPath(last.uid);
      TreeFilesKeys(mdir, manifest, init, p);
      assert p != ManifestPath(mdir) by {
        assert Uids(es)[|es| - 1] == last.uid;
      }
      forall i | 0 <= i < |init|
        ensures p != EventPath(init[i].uid)
      {
        assert Uids(es)[i] == init[i].uid && Uids(es)[|es| - 1] == last.uid;
      }
      assert p !in TreeFiles(mdir, manifest, init);
      assert TreeFiles(mdir, manifest, es).Keys == TreeFiles(mdir, manifest, init).Keys + {p};
    }
  }

  /** Every file of the staging tree lies below the staging root. */
  lemma {:induction false} TreeFilesInOut(mdir: string, manifest: seq<string>, es: seq<Entry>)
    ensures forall p | p in TreeFiles(mdir, manifest, es) :: InOut(p)
    decreases |es|
  {
    if es != [] {
      TreeFilesInOut(mdir, manifest, es[..|es| - 1]);
    }
  }

  /**
   * After staging, what lies below the staging root is exactly the tree,
   * and everything else is as it was.
   */
  lemma StagedExactly(before: map<Path, seq<string>>, mdir: string, manifest: seq<string>, es: seq<Entry>, p: Path)
    ensures var after := PrunedFiles(before) + TreeFiles(mdir, manifest, es);
      && (InOut(p) ==> (p in after <==> p in TreeFiles(mdir, manifest, es)))
      && (!InOut(p) ==> (p in after <==> p in before) && (p in after ==> after[p] == before[p]))
  {
    TreeFilesInOut(mdir, manifest, es);
  }

  /**
   * Staged without a clash, `out/` holds exactly the manifest and one event
   * file per marker, each with its lines; every file outside `out/` is as
   * it was.
   */
  lemma StagedFilesExact(files0: map<Path, seq<string>>, files: map<Path, seq<string>>,
                         mdir: string, manifest: seq<string>, es: seq<Entry>)
    requires files == PrunedFiles(files0) + TreeFiles(mdir, manifest, es)
    requires NoClash(mdir, Uids(es))
    ensures ManifestPath(mdir) in files && files[ManifestPath(mdir)] == manifest
    ensures forall i | 0 <= i < |es| :: EventPath(es[i].uid) in files && files[EventPath(es[i].uid)] == es[i].lines
    ensures forall p | InOut(p) :: p in files <==> p == ManifestPath(mdir) || exists i | 0 <= i < |es| :: p == EventPath(es[i].uid)
    ensures |set p | p in files && InOut(p)| == 1 + |es|
    ensures forall p | !InOut(p) :: (p in files <==> p in files0) && (p in files ==> files[p] == files0[p])
  {
    var tree := TreeFiles(mdir, manifest, es);
    TreeFilesContents(mdir, manifest, es);
    TreeFilesInOut(mdir, manifest, es);
    TreeFilesCount(mdir, manifest, es);
    forall p
      ensures InOut(p) ==> (p in files <==> p == ManifestPath(mdir) || exists i | 0 <= i < |es| :: p == EventPath(es[i].uid))
      ensures !InOut(p) ==> (p in files <==> p in files0) && (p in files ==> files[p] == files0[p])
    {
      StagedExactly(files0, mdir, manifest, es, p);
      TreeFilesKeys(mdir, manifest, es, p);
    }
    assert (set p | p in files && InOut(p)) == tree.Keys;
  }

  /** Staged, `out/` holds exactly itself, the manifest directory and one directory per marker. */
  lemma StagedDirsExact(dirs0: set<Path>, dirs: set<Path>, mdir: string, us: seq<string>)
    requires dirs == PrunedDirs(dirs0) + TreeDirs(mdir, us)
    ensures forall p | InOut(p) :: p in dirs <==> p == [Out] || p == [Out, mdir] || exists i | 0 <= i < |us| :: p == EventDir(us[i])
    ensures forall p | !InOut(p) :: p in dirs <==> p in dirs0
  {
    forall p | InOut(p)
      ensures p in dirs <==> p == [Out] || p == [Out, mdir] || exists i | 0 <= i < |us| :: p == EventDir(us[i])
    {
      if exists i | 0 <= i < |us| :: p == EventDir(us[i]) {
        var i :| 0 <= i < |us| && p == EventDir(us[i]);
        assert us[i] in us;
      }
    }
  }

  /** Removing the staging root tree leaves exactly what lies outside it. */
  lemma RemovedRoot(dirs: set<Path>, files: map<Path, seq<string>>)
    requires Consistent(dirs, files) && [Out] in dirs
    ensures (set q | q in dirs && q != [Out] && !Below(q, [Out])) == PrunedDirs(dirs)
    ensures (map q | q in files && !Below(q, [Out]) :: files[q]) == PrunedFiles(files)
  {
    forall q: Path | q != []
      ensures (q != [Out] && !Below(q, [Out])) <==> !InOut(q)
    {
      if |q| > 1 {
        assert q[..1] == [q[0]];
      } else {
        assert q == [q[0]];
      }
    }
  }

  /** Without a staging root, nothing lies inside it. */
  lemma AbsentRoot(dirs: set<Path>, files: map<Path, seq<string>>)
    requires Consistent(dirs, files) && [Out] !in dirs && [Out] !in files
    ensures PrunedDirs(dirs) == dirs && PrunedFiles(files) == files
  {
    forall p | p in dirs
      ensures !InOut(p)
    {
      TopExists(dirs, p);
    }
    forall p | p in files
      ensures !InOut(p)
    {
      if |p| > 1 {
        TopExists(dirs, Parent(p));
      } else {
        assert p == [p[0]];
      }
    }
  }

  /** The identifiers of the first `n` markers. */
  lemma UidsPrefix(es: seq<Entry>, n: nat)
    requires n <= |es|
    ensures Uids(es[..n]) == Uids(es)[..n]
  {
  }

  /** Going from `n` markers to `n + 1` adds one directory and one file to the tree. */
  lemma TreeExtend(mdir: string, manifest: seq<string>, es: seq<Entry>, n: nat)
    requires n < |es|
    ensures TreeDirs(mdir, Uids(es[..n + 1])) == TreeDirs(mdir, Uids(es[..n])) + {EventDir(es[n].uid)}
    ensures TreeFiles(mdir, manifest, es[..n + 1]) == TreeFiles(mdir, manifest, es[..n])[EventPath(es[n].uid) := es[n].lines]
  {
    assert es[..n + 1][..n] == es[..n];
    UidsPrefix(es, n);
    UidsPrefix(es, n + 1);
    assert Uids(es)[..n + 1] == Uids(es)[..n] + [es[n].uid];
  }

  /** The next marker clashes exactly when its identifier is the manifest directory's or an earlier one's. */
  lemma {:induction false} FirstClashExtend(mdir: string, us: seq<string>, n: nat)
    requires n < |us| && FirstClash(mdir, us[..n]) == None
    ensures FirstClash(mdir, us[..n + 1]) == if us[n] == mdir || us[n] in us[..n] then Some(n) else None
  {
    assert us[..n + 1][..n] == us[..n];
  }

  /** A clash among the first `n` markers is the first clash of them all. */
  lemma {:induction false} FirstClashPrefix(mdir: string, us: seq<string>, n: nat)
    requires n <= |us| && FirstClash(mdir, us[..n]).Some?
    ensures FirstClash(mdir, us) == FirstClash(mdir, us[..n])
    decreases |us|
  {
    if n < |us| {
      var init := us[..|us| - 1];
      assert init[..n] == us[..n];
      FirstClashPrefix(mdir, init, n);
    } else {
      assert us[..n] == us;
    }
  }

  /**
   * Once the staging tree holds the manifest and the markers `es`, a marker
   * directory for `u` exists exactly when `u` names the manifest directory
   * or one of those markers.
   */
  lemma StagedAt(dirs: set<Path>, files: map<Path, seq<string>>, mdir: string, manifest: seq<string>, es: seq<Entry>, u: string)
    requires forall p | p in dirs :: !InOut(p)
    requires forall p | p in files :: !InOut(p)
    ensures (EventDir(u) in dirs + TreeDirs(mdir, Uids(es))
             || EventDir(u) in files + TreeFiles(mdir, manifest, es))
            <==> (u == mdir || u in Uids(es))
  {
    TreeFilesKeys(mdir, manifest, es, EventDir(u));
    if u in Uids(es) {
      assert EventDir(u) in set v | v in Uids(es) :: EventDir(v);
    }
  }

  /** Writing a file inside the tree, when the tree overrides what was left outside it. */
  lemma UnionUpdate(left: map<Path, seq<string>>, right: map<Path, seq<string>>, p: Path, v: seq<string>)
    ensures (left + right)[p := v] == left + right[p := v]
  {
  }

  /**
   * One marker more: with the tree holding the first `n` markers and no clash
   * among them, the next one's directory exists exactly when it clashes;
   * without a clash, making that directory and writing its event file gives
   * the tree of the first `n + 1` markers, and with one, the clash is the
   * first of them all.
   */
  lemma StageNext(outsideDirs: set<Path>, outsideFiles: map<Path, seq<string>>, mdir: string, manifest: seq<string>,
                  es: seq<Entry>, n: nat, dirs: set<Path>, files: map<Path, seq<string>>)
    requires forall p | p in outsideDirs :: !InOut(p)
    requires forall p | p in outsideFiles :: !InOut(p)
    requires n < |es| && FirstClash(mdir, Uids(es)[..n]) == None
    requires dirs == outsideDirs + TreeDirs(mdir, Uids(es[..n]))
    requires files == outsideFiles + TreeFiles(mdir, manifest, es[..n])
    ensures (EventDir(es[n].uid) in dirs || EventDir(es[n].uid) in files) <==> FirstClash(mdir, Uids(es)[..n + 1]).Some?
    ensures FirstClash(mdir, Uids(es)[..n + 1]) == None ==>
              && dirs + {EventDir(es[n].uid)} == outsideDirs + TreeDirs(mdir, Uids(es[..n + 1]))
              && files[EventPath(es[n].uid) := es[n].lines] == outsideFiles + TreeFiles(mdir, manifest, es[..n + 1])
    ensures FirstClash(mdir, Uids(es)[..n + 1]).Some? ==> FirstClash(mdir, Uids(es)) == Some(n)
  {
    var us := Uids(es);
    UidsPrefix(es, n);
    StagedAt(outsideDirs, outsideFiles, mdir, manifest, es[..n], es[n].uid);
    FirstClashExtend(mdir, us, n);
    TreeExtend(mdir, manifest, es, n);
    UnionUpdate(outsideFiles, TreeFiles(mdir, manifest, es[..n]), EventPath(es[n].uid), es[n].lines);
    if FirstClash(mdir, us[..n + 1]).Some? {
      FirstClashPrefix(mdir, us, n + 1);
    }
  }
}
