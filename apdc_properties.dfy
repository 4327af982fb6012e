/**
 * What the files `apdc.py` writes say, read back with the reader of
 * `Tags`: the fields of each marker, the manifest's entries, and the shape
 * of the staging tree `create_package` leaves.
 */
module ApdcProperties {
  import opened Results
  import opened Lines
  import opened Tags
  import opened Uuids
  import opened Files
  import opened Staging
  import opened Markup
  import opened Apdc

  /** The icon path written into every marker holds no double quote. */
  lemma IconPathIsValue()
    ensures IsValue(IconPath)
  {
    NoQuoteIsValue(IconSet);
    NoQuoteIsValue("/Google/ltblu-pushpin.png");
    JoinIsValue(IconSet, "/Google/ltblu-pushpin.png");
  }

  /** An event file has fifteen lines, none of them indented. */
  lemma EventShape(c: Cot, processUid: Uuid)
    ensures var lines := EventLines(c, processUid);
      && |lines| == 15
      && forall k | 0 <= k < 15 :: Unindent(lines[k], 0).Some? && Unindent(lines[k], 1).None?
  {
    var doc := EventDoc(c, processUid);
    var lines := EventLines(c, processUid);
    forall k | 0 <= k < 15
      ensures Unindent(lines[k], 0).Some? && Unindent(lines[k], 1).None?
    {
      var txt := PieceText(doc[k].piece);
      assert lines[k] == IndentLine(txt, 0);
      UnindentInverse(lines[k], txt, 0);
      assert txt == [] || txt[0] == '<' by {
        FixedEventLinesOpen();
        if doc[k].piece.Element? {
          TagTextAt(doc[k].piece.tag);
        } else if k == 2 {
          assert txt == DetailOpen && txt[0] == '<';
        } else if k == 4 {
          assert txt == PrecisionLine && txt[0] == '<';
        } else if k == 5 {
          assert txt == StatusLine && txt[0] == '<';
        } else if k == 6 {
          assert txt == ArchiveLine && txt[0] == '<';
        } else if k == 9 {
          assert txt == ColorLine && txt[0] == '<';
        } else if k == 10 {
          assert txt == FlowTagsLine && txt[0] == '<';
        } else if k == 11 {
          assert txt == RemarksLine(c.remarks) && txt[0] == '<';
        } else if k == 12 {
          assert txt == [];
        } else if k == 13 {
          assert txt == DetailClose && txt[0] == '<';
        } else if k == 14 {
          assert txt == EventClose && txt[0] == '<';
        }
      }
      if txt != [] {
        assert lines[k][0] == '<';
      }
    }
  }

  /**
   * The event line carries the marker's identifier, type, how and time, the
   * time also as start and stale, exactly when none of those values holds a
   * double quote.
   */
  lemma EventHeaderReadBack(c: Cot, processUid: Uuid)
    ensures var line := EventLines(c, processUid)[0];
      (&& Field(line, 0, "event", "uid") == Some(c.uuid)
       && Field(line, 0, "event", "type") == Some(c.kind)
       && Field(line, 0, "event", "how") == Some(c.how)
       && Field(line, 0, "event", "time") == Some(c.time)
       && Field(line, 0, "event", "start") == Some(c.time)
       && Field(line, 0, "event", "stale") == Some(c.time))
      <==> IsValue(c.kind) && IsValue(c.how) && IsValue(c.time)
  {
    var t := EventTag(c.uuid, c.kind, c.how, c.time);
    assert EventDoc(c, processUid)[0] == Line(Element(t), 0);
    assert EventLines(c, processUid)[0] == IndentLine(TagText(t), 0);
    UuidIsValue(c.uuid, true);
    EventTagReadBack(c.uuid, c.kind, c.how, c.time, 0);
  }

  /** The point line carries the marker's latitude and longitude exactly when neither holds a double quote. */
  lemma PointReadBack(c: Cot, processUid: Uuid)
    ensures var line := EventLines(c, processUid)[1];
      (Field(line, 0, "point", "lat") == Some(c.lat) && Field(line, 0, "point", "lon") == Some(c.lon))
      <==> IsValue(c.lat) && IsValue(c.lon)
  {
    var t := PointTag(c.lat, c.lon);
    assert EventDoc(c, processUid)[1] == Line(Element(t), 0);
    assert EventLines(c, processUid)[1] == IndentLine(TagText(t), 0);
    PointTagReadBack(c.lat, c.lon, 0);
  }

  /** The contact line carries the marker's callsign exactly when it holds no double quote. */
  lemma ContactReadBack(c: Cot, processUid: Uuid)
    ensures Field(EventLines(c, processUid)[3], 0, "contact", "callsign") == Some(c.callsign) <==> IsValue(c.callsign)
  {
    var t := ContactTag(c.callsign);
    assert EventDoc(c, processUid)[3] == Line(Element(t), 0);
    assert EventLines(c, processUid)[3] == IndentLine(TagText(t), 0);
    ContactTagReadBack(c.callsign, 0);
  }

  /**
   * The link line names the process identifier as its parent and the
   * marker's time as its production time exactly when the time holds no
   * double quote; its fixed fields then read back too.
   */
  lemma LinkReadBack(c: Cot, processUid: Uuid)
    ensures var line := EventLines(c, processUid)[7];
      (Field(line, 0, "link", "uid") == Some(processUid) && Field(line, 0, "link", "production_time") == Some(c.time))
      <==> IsValue(c.time)
    ensures var line := EventLines(c, processUid)[7];
      IsValue(c.time) ==>
        && Field(line, 0, "link", "type") == Some("a-f-G-U-C")
        && Field(line, 0, "link", "parent_callsign") == Some("ATAK Marker Import")
        && Field(line, 0, "link", "relation") == Some("p-p")
  {
    var t := LinkTag(processUid, c.time);
    assert EventDoc(c, processUid)[7] == Line(Element(t), 0);
    assert EventLines(c, processUid)[7] == IndentLine(TagText(t), 0);
    UuidIsValue(processUid, true);
    LinkTagReadBack(processUid, c.time, 0);
  }

  /** The icon line carries the marker's icon path exactly when it holds no double quote. */
  lemma UserIconReadBack(c: Cot, processUid: Uuid)
    ensures Field(EventLines(c, processUid)[8], 0, "usericon", "iconsetpath") == Some(c.iconPath) <==> IsValue(c.iconPath)
  {
    var t := UserIconTag(c.iconPath);
    assert EventDoc(c, processUid)[8] == Line(Element(t), 0);
    assert EventLines(c, processUid)[8] == IndentLine(TagText(t), 0);
    UserIconTagReadBack(c.iconPath, 0);
  }

  /** The remarks element holds the marker's remarks, whatever they are; an empty line follows it. */
  lemma RemarksReadBack(c: Cot, processUid: Uuid)
    ensures Unindent(EventLines(c, processUid)[11], 0).Some?
    ensures ReadElementText(Unindent(EventLines(c, processUid)[11], 0).value, "remarks") == Some(c.remarks)
    ensures Unindent(EventLines(c, processUid)[12], 0) == Some("")
  {
    var s := RemarksLine(c.remarks);
    assert EventDoc(c, processUid)[11] == Line(Text(s), 0);
    assert EventDoc(c, processUid)[12] == Line(Text(""), 0);
    UnindentInverse(EventLines(c, processUid)[11], s, 0);
    UnindentInverse(EventLines(c, processUid)[12], "", 0);
    RemarksLineReadBack(c.remarks);
  }

  /**
   * A marker made by `COT(callsign, lon, lat, remarks)` on the day `today`
   * is a user-placed ground point: its event reads back with its own
   * identifier, type `a-u-G`, how `h-g-i-g-o`, that day's midnight as time,
   * start, stale and production time, the process identifier as parent,
   * and the pushpin icon; its point carries the latitude and longitude
   * given, though they are passed longitude first, and its contact the
   * callsign, when they hold no double quote.
   */
  lemma NewCotReadBack(callsign: string, lon: string, lat: string, remarks: string, uuid: Uuid, today: string, processUid: Uuid)
    requires IsValue(today)
    ensures var lines := EventLines(NewCot(callsign, lon, lat, remarks, uuid, today), processUid);
      var stamp := Some(today + "T00:00:00Z");
      && Field(lines[0], 0, "event", "uid") == Some(uuid)
      && Field(lines[0], 0, "event", "type") == Some("a-u-G")
      && Field(lines[0], 0, "event", "how") == Some("h-g-i-g-o")
      && Field(lines[0], 0, "event", "time") == stamp
      && Field(lines[0], 0, "event", "start") == stamp
      && Field(lines[0], 0, "event", "stale") == stamp
      && Field(lines[7], 0, "link", "uid") == Some(processUid)
      && Field(lines[7], 0, "link", "production_time") == stamp
      && Field(lines[8], 0, "usericon", "iconsetpath") == Some(IconPath)
    ensures var lines := EventLines(NewCot(callsign, lon, lat, remarks, uuid, today), processUid);
      && (IsValue(lat) && IsValue(lon) ==>
            Field(lines[1], 0, "point", "lat") == Some(lat) && Field(lines[1], 0, "point", "lon") == Some(lon))
      && (IsValue(callsign) ==> Field(lines[3], 0, "contact", "callsign") == Some(callsign))
  {
    var c := NewCot(callsign, lon, lat, remarks, uuid, today);
    JoinIsValue(today, "T00:00:00Z");
    NoQuoteIsValue(MarkerType);
    NoQuoteIsValue(MarkerHow);
    IconPathIsValue();
    EventHeaderReadBack(c, processUid);
    LinkReadBack(c, processUid);
    UserIconReadBack(c, processUid);
    PointReadBack(c, processUid);
    ContactReadBack(c, processUid);
  }

  /**
   * `COT(callsign, lon, lat)` without remarks makes a marker whose remarks
   * are empty, so its event file's remarks element reads back empty.
   */
  lemma NewCotDefaultRemarks(callsign: string, lon: string, lat: string, uuid: Uuid, today: string, processUid: Uuid)
    ensures var c := NewCot(callsign, lon, lat, uuid := uuid, today := today);
      && c.remarks == ""
      && Unindent(EventLines(c, processUid)[11], 0).Some?
      && ReadElementText(Unindent(EventLines(c, processUid)[11], 0).value, "remarks") == Some("")
  {
    RemarksReadBack(NewCot(callsign, lon, lat, uuid := uuid, today := today), processUid);
  }

  lemma {:induction false} ContentBlocksLength(cots: seq<Cot>)
    ensures |ContentBlocks(cots)| == 3 * |cots|
    decreases |cots|
  {
    if cots != [] {
      ContentBlocksLength(cots[..|cots| - 1]);
    }
  }

  /** The manifest lists the markers in order, three lines each. */
  lemma {:induction false} ContentBlocksAt(cots: seq<Cot>, k: nat, j: nat)
    requires k < |cots| && j < 3
    ensures |ContentBlocks(cots)| == 3 * |cots|
    ensures ContentBlocks(cots)[3 * k + j] == ContentBlock(cots[k])[j]
    decreases |cots|
  {
    var init := cots[..|cots| - 1];
    ContentBlocksLength(cots);
    ContentBlocksLength(init);
    if k < |cots| - 1 {
      ContentBlocksAt(init, k, j);
      assert init[k] == cots[k];
    }
  }

  /**
   * The manifest has ten lines besides three per marker: it opens with the
   * XML declaration and the root element and closes the contents list and
   * the root element.
   */
  lemma ManifestShape(name: string, packageUid: Uuid, cots: seq<Cot>)
    ensures var lines := ManifestLines(name, packageUid, cots);
      && |lines| == 10 + 3 * |cots|
      && lines[0] == IndentLine(XmlDeclaration, 0)
      && lines[1] == IndentLine(ManifestOpen, 0)
      && lines[|lines| - 2] == IndentLine(ContentsClose, 1)
      && lines[|lines| - 1] == IndentLine(ManifestClose, 0)
  {
    ContentBlocksLength(cots);
    var doc := ManifestDoc(name, packageUid, cots);
    assert doc[0] == Line(Text(XmlDeclaration), 0);
    assert doc[1] == Line(Text(ManifestOpen), 0);
    assert doc[|doc| - 2] == Line(Text(ContentsClose), 1);
    assert doc[|doc| - 1] == Line(Text(ManifestClose), 0);
  }

  /**
   * The configuration's parameters are written as self-closing tags: each
   * line reads back as a `Parameter` tag that ends in `/>`. The name's line
   * does so exactly when the name holds no double quote.
   */
  lemma ManifestConfigTags(name: string, packageUid: Uuid, cots: seq<Cot>)
    ensures |ManifestLines(name, packageUid, cots)| > 5
    ensures var lines := ManifestLines(name, packageUid, cots);
      ReadLine(lines[3], 2) == Some(ParameterTag("name", name, SelfClosing)) <==> IsValue(name)
    ensures var lines := ManifestLines(name, packageUid, cots);
      && ReadLine(lines[4], 2) == Some(ParameterTag("uid", packageUid, SelfClosing))
      && ReadLine(lines[5], 2) == Some(ParameterTag("remarks", "", SelfClosing))
  {
    ContentBlocksLength(cots);
    var doc := ManifestDoc(name, packageUid, cots);
    assert doc[3] == Line(Element(ParameterTag("name", name, SelfClosing)), 2);
    assert doc[4] == Line(Element(ParameterTag("uid", packageUid, SelfClosing)), 2);
    assert doc[5] == Line(Element(ParameterTag("remarks", "", SelfClosing)), 2);
    NoQuoteIsValue("name");
    NoQuoteIsValue("uid");
    NoQuoteIsValue("remarks");
    UuidIsValue(packageUid, true);
    ParameterTagWellFormed("name", name, SelfClosing);
    ParameterTagWellFormed("uid", packageUid, SelfClosing);
    ParameterTagWellFormed("remarks", "", SelfClosing);
    ReadLineIff(ParameterTag("name", name, SelfClosing), 2);
    ReadLineIff(ParameterTag("uid", packageUid, SelfClosing), 2);
    ReadLineIff(ParameterTag("remarks", "", SelfClosing), 2);
  }

  /**
   * The configuration names the package exactly when its name holds no
   * double quote, and always carries the package identifier and empty
   * remarks.
   */
  lemma ManifestConfigReadBack(name: string, packageUid: Uuid, cots: seq<Cot>)
    ensures |ManifestLines(name, packageUid, cots)| > 5
    ensures var lines := ManifestLines(name, packageUid, cots);
      (Field(lines[3], 2, "Parameter", "name") == Some("name") && Field(lines[3], 2, "Parameter", "value") == Some(name))
      <==> IsValue(name)
    ensures var lines := ManifestLines(name, packageUid, cots);
      && Field(lines[4], 2, "Parameter", "name") == Some("uid")
      && Field(lines[4], 2, "Parameter", "value") == Some(packageUid)
      && Field(lines[5], 2, "Parameter", "name") == Some("remarks")
      && Field(lines[5], 2, "Parameter", "value") == Some("")
  {
    ContentBlocksLength(cots);
    var doc := ManifestDoc(name, packageUid, cots);
    var lines := ManifestLines(name, packageUid, cots);
    assert doc[3] == Line(Element(ParameterTag("name", name, SelfClosing)), 2);
    assert doc[4] == Line(Element(ParameterTag("uid", packageUid, SelfClosing)), 2);
    assert doc[5] == Line(Element(ParameterTag("remarks", "", SelfClosing)), 2);
    NoQuoteIsValue("name");
    NoQuoteIsValue("uid");
    NoQuoteIsValue("remarks");
    UuidIsValue(packageUid, true);
    ParameterTagReadBack("name", name, SelfClosing, 2);
    ParameterTagReadBack("uid", packageUid, SelfClosing, 2);
    ParameterTagReadBack("remarks", "", SelfClosing, 2);
  }

  /**
   * The `k`-th marker's entry in the manifest names its event file inside
   * the archive, `<uid>/<uid>.cot`, and carries its identifier.
   */
  lemma ManifestEntryReadBack(name: string, packageUid: Uuid, cots: seq<Cot>, k: nat)
    requires k < |cots|
    ensures |ManifestLines(name, packageUid, cots)| == 10 + 3 * |cots|
    ensures var lines, u := ManifestLines(name, packageUid, cots), cots[k].uuid;
      && Field(lines[8 + 3 * k], 2, "Content", "zipEntry") == Some(u + "/" + u + ".cot")
      && Field(lines[8 + 3 * k], 2, "Content", "ignore") == Some("false")
      && Field(lines[9 + 3 * k], 3, "Parameter", "name") == Some("uid")
      && Field(lines[9 + 3 * k], 3, "Parameter", "value") == Some(u)
      && lines[10 + 3 * k] == IndentLine(ContentClose, 2)
  {
    var u := cots[k].uuid;
    var blocks := ContentBlocks(cots);
    var doc := ManifestDoc(name, packageUid, cots);
    ContentBlocksAt(cots, k, 0);
    ContentBlocksAt(cots, k, 1);
    ContentBlocksAt(cots, k, 2);
    var lines := ManifestLines(name, packageUid, cots);
    assert lines[8 + 3 * k] == IndentLine(TagText(ContentTag(u)), 2) by {
      assert doc[8 + 3 * k] == blocks[3 * k] == Line(Element(ContentTag(u)), 2);
    }
    assert lines[9 + 3 * k] == IndentLine(TagText(ParameterTag("uid", u, SelfClosing)), 3) by {
      assert doc[9 + 3 * k] == blocks[3 * k + 1] == Line(Element(ParameterTag("uid", u, SelfClosing)), 3);
    }
    assert lines[10 + 3 * k] == IndentLine(ContentClose, 2) by {
      assert doc[10 + 3 * k] == blocks[3 * k + 2] == Line(Text(ContentClose), 2);
    }
    UuidIsValue(u, true);
    NoQuoteIsValue("uid");
    ContentTagReadBack(u, 2);
    ParameterTagReadBack("uid", u, SelfClosing, 3);
  }

  /** The markers' identifiers, in order, name the directories made; none is the manifest directory's name. */
  lemma EntryUids(cots: seq<Cot>)
    ensures var us := CotUids(cots);
      && |us| == |cots|
      && (forall i | 0 <= i < |cots| :: us[i] == cots[i].uuid && us[i] != ManifestDir)
  {
    var us := CotUids(cots);
    forall i | 0 <= i < |cots|
      ensures us[i] == cots[i].uuid && us[i] != ManifestDir
    {
      assert |us[i]| != |ManifestDir|;
    }
  }

  /** Every marker gets its event file exactly when no two markers share an identifier. */
  lemma StagedAllIff(cots: seq<Cot>)
    ensures Staged(cots) == |cots| <==> forall i, j | 0 <= i < j < |cots| :: cots[i].uuid != cots[j].uuid
  {
    EntryUids(cots);
    FirstClashNone(ManifestDir, CotUids(cots));
  }

  /**
   * When a marker's directory cannot be made, its identifier repeats an
   * earlier marker's, and the markers before it all have distinct ones.
   */
  lemma StagedClash(cots: seq<Cot>)
    requires Staged(cots) < |cots|
    ensures var k := Staged(cots);
      && (exists j | 0 <= j < k :: cots[j].uuid == cots[k].uuid)
      && (forall i, j | 0 <= i < j < k :: cots[i].uuid != cots[j].uuid)
  {
    EntryUids(cots);
    FirstClashRepeats(ManifestDir, CotUids(cots));
  }

  /** With `out` not a file and distinct identifiers, `create_package` succeeds and stages every marker. */
  lemma PackageStaged(dirs0: set<Path>, files0: map<Path, seq<string>>, dirs: set<Path>, files: map<Path, seq<string>>,
                      name: string, cots: seq<Cot>, packageUid: Uuid, processUid: Uuid, st: Status)
    requires PackageResult(dirs0, files0, dirs, files, name, cots, packageUid, processUid, st)
    requires [Out] !in files0
    requires forall i, j | 0 <= i < j < |cots| :: cots[i].uuid != cots[j].uuid
    ensures st == Done
    ensures NoClash(ManifestDir, Uids(Entries(cots, processUid)))
    ensures files == PrunedFiles(files0) + TreeFiles(ManifestDir, ManifestLines(name, packageUid, cots), Entries(cots, processUid))
    ensures dirs == PrunedDirs(dirs0) + TreeDirs(ManifestDir, CotUids(cots))
  {
    var es := Entries(cots, processUid);
    var us := CotUids(cots);
    assert NoClash(ManifestDir, us) by {
      EntryUids(cots);
    }
    assert Staged(cots) == |cots| by {
      FirstClashNone(ManifestDir, us);
    }
    assert Uids(es) == us && es[..|cots|] == es by {
      EntriesUids(cots, processUid);
    }
  }

  /**
   * The files of a tree staged without a clash: `out/` holds exactly the
   * manifest and each marker's event file, with their lines, and nothing
   * outside `out/` changes.
   */
  lemma PackageFiles(files0: map<Path, seq<string>>, files: map<Path, seq<string>>,
                     name: string, cots: seq<Cot>, packageUid: Uuid, processUid: Uuid)
    requires NoClash(ManifestDir, Uids(Entries(cots, processUid)))
    requires files == PrunedFiles(files0) + TreeFiles(ManifestDir, ManifestLines(name, packageUid, cots), Entries(cots, processUid))
    ensures ManifestPath(ManifestDir) in files && files[ManifestPath(ManifestDir)] == ManifestLines(name, packageUid, cots)
    ensures forall k | 0 <= k < |cots| ::
              EventPath(cots[k].uuid) in files && files[EventPath(cots[k].uuid)] == EventLines(cots[k], processUid)
    ensures forall p | InOut(p) ::
              p in files <==> p == ManifestPath(ManifestDir) || exists k | 0 <= k < |cots| :: p == EventPath(cots[k].uuid)
    ensures |set p | p in files && InOut(p)| == 1 + |cots|
    ensures forall p | !InOut(p) :: (p in files <==> p in files0) && (p in files ==> files[p] == files0[p])
  {
    var es := Entries(cots, processUid);
    StagedFilesExact(files0, files, ManifestDir, ManifestLines(name, packageUid, cots), es);
    forall k | 0 <= k < |cots|
      ensures es[k].uid == cots[k].uuid && es[k].lines == EventLines(cots[k], processUid)
    {
    }
  }

  /** The directories of a staged tree: `out/`, the manifest directory and one per marker. */
  lemma PackageDirs(dirs0: set<Path>, dirs: set<Path>, cots: seq<Cot>)
    requires dirs == PrunedDirs(dirs0) + TreeDirs(ManifestDir, CotUids(cots))
    ensures forall p | InOut(p) ::
              p in dirs <==> p == [Out] || p == [Out, ManifestDir] || exists k | 0 <= k < |cots| :: p == EventDir(cots[k].uuid)
    ensures forall p | !InOut(p) :: p in dirs <==> p in dirs0
  {
    StagedDirsExact(dirs0, dirs, ManifestDir, CotUids(cots));
    EntryUids(cots);
  }

  /**
   * With distinct marker identifiers, and `out` not a file, `create_package`
   * succeeds; `out/` then holds exactly `MANIFEST/manifest.xml` and one
   * `<uid>/<uid>.cot` per marker, with what was written to them, in the
   * directories made for them, and nothing outside `out/` changes.
   */
  lemma PackageExact(dirs0: set<Path>, files0: map<Path, seq<string>>, dirs: set<Path>, files: map<Path, seq<string>>,
                     name: string, cots: seq<Cot>, packageUid: Uuid, processUid: Uuid, st: Status)
    requires PackageResult(dirs0, files0, dirs, files, name, cots, packageUid, processUid, st)
    requires [Out] !in files0
    requires forall i, j | 0 <= i < j < |cots| :: cots[i].uuid != cots[j].uuid
    ensures st == Done
    ensures ManifestPath(ManifestDir) in files && files[ManifestPath(ManifestDir)] == ManifestLines(name, packageUid, cots)
    ensures forall k | 0 <= k < |cots| ::
              EventPath(cots[k].uuid) in files && files[EventPath(cots[k].uuid)] == EventLines(cots[k], processUid)
    ensures forall p | InOut(p) ::
              p in files <==> p == ManifestPath(ManifestDir) || exists k | 0 <= k < |cots| :: p == EventPath(cots[k].uuid)
    ensures |set p | p in files && InOut(p)| == 1 + |cots|
    ensures forall p | !InOut(p) :: (p in files <==> p in files0) && (p in files ==> files[p] == files0[p])
    ensures forall p | InOut(p) ::
              p in dirs <==> p == [Out] || p == [Out, ManifestDir] || exists k | 0 <= k < |cots| :: p == EventDir(cots[k].uuid)
    ensures forall p | !InOut(p) :: p in dirs <==> p in dirs0
  {
    PackageStaged(dirs0, files0, dirs, files, name, cots, packageUid, processUid, st);
    PackageFiles(files0, files, name, cots, packageUid, processUid);
    PackageDirs(dirs0, dirs, cots);
  }
}
