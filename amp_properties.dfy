/**
 * What the files `amp.py` writes say, read back with the reader of `Tags`:
 * the fields of each marker, the manifest's entries (whose identifier lines
 * do not read back as tags), and the shape of the staging tree
 * `create_package` leaves.
 */
module AmpProperties {
  import opened Results
  import opened Lines
  import opened Tags
  import opened Uuids
  import opened Files
  import opened Staging
  import opened Markup
  import opened Amp

  /** Where the pieces of a manifest identifier line sit: a name attribute followed by a comma. */
  lemma UidLineAt(v: string)
    ensures var s, more := UidLine(v), ", value=\"" + v + "\"/>";
      && |s| > 10 && s[0] == '<' && s[1..][..9] == "Parameter" && s[1..][9] == ' '
      && s[10..] == AttrText(Attr("name", "uid")) + more
  {
    var head, attr, more := "<Parameter", " name=\"uid\"", ", value=\"" + v + "\"/>";
    var s := UidLine(v);
    assert s == head + (attr + more);
    assert attr == AttrText(Attr("name", "uid"));
    assert |head| == 10 && s[10..] == attr + more;
    assert s[1..][..9] == head[1..];
  }

  /**
   * A manifest identifier line never reads back as a tag, whatever the
   * identifier: after its first attribute comes a comma, which neither
   * starts another attribute nor ends the tag.
   */
  lemma UidLineUnreadable(v: string, indent: nat)
    ensures ReadLine(IndentLine(UidLine(v), indent), indent) == None
    ensures forall name, attr :: Field(IndentLine(UidLine(v), indent), indent, name, attr) == None
  {
    var s := UidLine(v);
    var a := Attr("name", "uid");
    var more := ", value=\"" + v + "\"/>";
    UnindentInverse(IndentLine(s, indent), s, indent);
    UidLineAt(v);
    NameSpanAt(s[1..], 9);
    ManifestNames();
    NoQuoteIsValue("uid");
    ReadAttrText(a, more);
    assert !StartsAttr(more) && ReadAttrs(more) == Some(([], more));
    assert StartsAttr(s[10..]) && ReadAttr(s[10..]) == Some((a, more));
    assert [a] + [] == [a];
    assert ReadAttrs(s[10..]) == Some(([a], more));
    assert ReadClose(more) == None;
  }

  /** An event file has fifteen lines, none of them indented. */
  lemma EventShape(c: Cot, processUid: LowerUuid)
    ensures var lines := EventLines(c, processUid);
      && |lines| == 15
      && forall k | 0 <= k < 15 :: Unindent(lines[k], 0).Some? && Unindent(lines[k], 1).None?
  {
    var doc := EventDoc(c, processUid);
    var lines := EventLines(c, processUid);
    forall k | 0 <= k < 15
      ensures Unindent(lines[k], 0).Some? && Unindent(lines[k], 1).None?
    {
      var txt := PieceText(doc[k].piece);
      assert lines[k] == IndentLine(txt, 0);
      UnindentInverse(lines[k], txt, 0);
      assert txt == [] || txt[0] == '<' by {
        FixedEventLinesOpen();
        if doc[k].piece.Element? {
          TagTextAt(doc[k].piece.tag);
        } else if k == 2 {
          assert txt == DetailOpen && txt[0] == '<';
        } else if k == 4 {
          assert txt == PrecisionLine && txt[0] == '<';
        } else if k == 5 {
          assert txt == StatusLine && txt[0] == '<';
        } else if k == 6 {
          assert txt == ArchiveLine && txt[0] == '<';
        } else if k == 9 {
          assert txt == ColorLine && txt[0] == '<';
        } else if k == 10 {
          assert txt == FlowTagsLine && txt[0] == '<';
        } else if k == 11 {
          assert txt == RemarksLine("") && txt[0] == '<';
        } else if k == 12 {
          assert txt == [];
        } else if k == 13 {
          assert txt == DetailClose && txt[0] == '<';
        } else if k == 14 {
          assert txt == EventClose && txt[0] == '<';
        }
      }
      if txt != [] {
        assert lines[k][0] == '<';
      }
    }
  }

  /**
   * The event line carries the marker's identifier, type, how and time, the
   * time also as start and stale, exactly when none of those values holds a
   * double quote.
   */
  lemma EventHeaderReadBack(c: Cot, processUid: LowerUuid)
    ensures var line := EventLines(c, processUid)[0];
      (&& Field(line, 0, "event", "uid") == Some(c.uuid)
       && Field(line, 0, "event", "type") == Some(c.kind)
       && Field(line, 0, "event", "how") == Some(c.how)
       && Field(line, 0, "event", "time") == Some(c.time)
       && Field(line, 0, "event", "start") == Some(c.time)
       && Field(line, 0, "event", "stale") == Some(c.time))
      <==> IsValue(c.kind) && IsValue(c.how) && IsValue(c.time)
  {
    var t := EventTag(c.uuid, c.kind, c.how, c.time);
    assert EventDoc(c, processUid)[0] == Line(Element(t), 0);
    assert EventLines(c, processUid)[0] == IndentLine(TagText(t), 0);
    UuidIsValue(c.uuid, true);
    EventTagReadBack(c.uuid, c.kind, c.how, c.time, 0);
  }

  /** The point line carries the marker's latitude and longitude exactly when neither holds a double quote. */
  lemma PointReadBack(c: Cot, processUid: LowerUuid)
    ensures var line := EventLines(c, processUid)[1];
      (Field(line, 0, "point", "lat") == Some(c.lat) && Field(line, 0, "point", "lon") == Some(c.lon))
      <==> IsValue(c.lat) && IsValue(c.lon)
  {
    var t := PointTag(c.lat, c.lon);
    assert EventDoc(c, processUid)[1] == Line(Element(t), 0);
    assert EventLines(c, processUid)[1] == IndentLine(TagText(t), 0);
    PointTagReadBack(c.lat, c.lon, 0);
  }

  /** The contact line carries the marker's callsign exactly when it holds no double quote. */
  lemma ContactReadBack(c: Cot, processUid: LowerUuid)
    ensures Field(EventLines(c, processUid)[3], 0, "contact", "callsign") == Some(c.callsign) <==> IsValue(c.callsign)
  {
    var t := ContactTag(c.callsign);
    assert EventDoc(c, processUid)[3] == Line(Element(t), 0);
    assert EventLines(c, processUid)[3] == IndentLine(TagText(t), 0);
    ContactTagReadBack(c.callsign, 0);
  }

  /**
   * The link line names the process identifier as its parent and the
   * marker's time as its production time exactly when the time holds no
   * double quote; its fixed fields then read back too.
   */
  lemma LinkReadBack(c: Cot, processUid: LowerUuid)
    ensures var line := EventLines(c, processUid)[7];
      (Field(line, 0, "link", "uid") == Some(processUid) && Field(line, 0, "link", "production_time") == Some(c.time))
      <==> IsValue(c.time)
    ensures var line := EventLines(c, processUid)[7];
      IsValue(c.time) ==>
        && Field(line, 0, "link", "type") == Some("a-f-G-U-C")
        && Field(line, 0, "link", "parent_callsign") == Some("ATAK Marker Import")
        && Field(line, 0, "link", "relation") == Some("p-p")
  {
    var t := LinkTag(processUid, c.time);
    assert EventDoc(c, processUid)[7] == Line(Element(t), 0);
    assert EventLines(c, processUid)[7] == IndentLine(TagText(t), 0);
    UuidIsValue(processUid, false);
    LinkTagReadBack(processUid, c.time, 0);
  }

  /** The icon line carries the marker's icon path exactly when it holds no double quote. */
  lemma UserIconReadBack(c: Cot, processUid: LowerUuid)
    ensures Field(EventLines(c, processUid)[8], 0, "usericon", "iconsetpath") == Some(c.iconPath) <==> IsValue(c.iconPath)
  {
    var t := UserIconTag(c.iconPath);
    assert EventDoc(c, processUid)[8] == Line(Element(t), 0);
    assert EventLines(c, processUid)[8] == IndentLine(TagText(t), 0);
    UserIconTagReadBack(c.iconPath, 0);
  }

  /** The remarks element is always empty, and an empty line follows it. */
  lemma RemarksReadBack(c: Cot, processUid: LowerUuid)
    ensures Unindent(EventLines(c, processUid)[11], 0).Some?
    ensures ReadElementText(Unindent(EventLines(c, processUid)[11], 0).value, "remarks") == Some("")
    ensures Unindent(EventLines(c, processUid)[12], 0) == Some("")
  {
    var s := RemarksLine("");
    assert EventDoc(c, processUid)[11] == Line(Text(s), 0);
    assert EventDoc(c, processUid)[12] == Line(Text(""), 0);
    UnindentInverse(EventLines(c, processUid)[11], s, 0);
    UnindentInverse(EventLines(c, processUid)[12], "", 0);
    RemarksLineReadBack("");
  }

  /**
   * A marker made by `COT(callsign, lat, lon)` on the day `today` is a
   * user-placed ground point: its event reads back with its own identifier,
   * type `a-u-G`, how `h-g-i-g-o`, that day's midnight as time, start, stale
   * and production time, the lower-case process identifier as parent, and
   * the 2525B icon; its point carries the latitude and longitude given, in
   * that order, and its contact the callsign, when they hold no double quote.
   */
  lemma NewCotReadBack(callsign: string, lat: string, lon: string, uuid: Uuid, today: string, processUid: LowerUuid)
    requires IsValue(today)
    ensures var lines := EventLines(NewCot(callsign, lat, lon, uuid, today), processUid);
      var stamp := Some(today + "T00:00:00Z");
      && Field(lines[0], 0, "event", "uid") == Some(uuid)
      && Field(lines[0], 0, "event", "type") == Some("a-u-G")
      && Field(lines[0], 0, "event", "how") == Some("h-g-i-g-o")
      && Field(lines[0], 0, "event", "time") == stamp
      && Field(lines[0], 0, "event", "start") == stamp
      && Field(lines[0], 0, "event", "stale") == stamp
      && Field(lines[7], 0, "link", "uid") == Some(processUid)
      && Field(lines[7], 0, "link", "production_time") == stamp
      && Field(lines[8], 0, "usericon", "iconsetpath") == Some("COT_MAPPING_2525B/a-u/a-u-G")
    ensures var lines := EventLines(NewCot(callsign, lat, lon, uuid, today), processUid);
      && (IsValue(lat) && IsValue(lon) ==>
            Field(lines[1], 0, "point", "lat") == Some(lat) && Field(lines[1], 0, "point", "lon") == Some(lon))
      && (IsValue(callsign) ==> Field(lines[3], 0, "contact", "callsign") == Some(callsign))
  {
    var c := NewCot(callsign, lat, lon, uuid, today);
    JoinIsValue(today, "T00:00:00Z");
    NoQuoteIsValue(MarkerType);
    NoQuoteIsValue(MarkerHow);
    NoQuoteIsValue(IconPath);
    EventHeaderReadBack(c, processUid);
    LinkReadBack(c, processUid);
    UserIconReadBack(c, processUid);
    PointReadBack(c, processUid);
    ContactReadBack(c, processUid);
  }

  lemma {:induction false} ContentBlocksLength(cots: seq<Cot>)
    ensures |ContentBlocks(cots)| == 3 * |cots|
    decreases |cots|
  {
    if cots != [] {
      ContentBlocksLength(cots[..|cots| - 1]);
    }
  }

  /** The manifest lists the markers in order, three lines each. */
  lemma {:induction false} ContentBlocksAt(cots: seq<Cot>, k: nat, j: nat)
    requires k < |cots| && j < 3
    ensures |ContentBlocks(cots)| == 3 * |cots|
    ensures ContentBlocks(cots)[3 * k + j] == ContentBlock(cots[k])[j]
    decreases |cots|
  {
    var init := cots[..|cots| - 1];
    ContentBlocksLength(cots);
    ContentBlocksLength(init);
    if k < |cots| - 1 {
      ContentBlocksAt(init, k, j);
      assert init[k] == cots[k];
    }
  }

  /**
   * The manifest has ten lines besides three per marker: it opens with the
   * XML declaration and the root element and closes the contents list and
   * the root element.
   */
  lemma ManifestShape(name: string, packageUid: Uuid, cots: seq<Cot>)
    ensures var lines := ManifestLines(name, packageUid, cots);
      && |lines| == 10 + 3 * |cots|
      && lines[0] == IndentLine(XmlDeclaration, 0)
      && lines[1] == IndentLine(ManifestOpen, 0)
      && lines[|lines| - 2] == IndentLine(ContentsClose, 1)
      && lines[|lines| - 1] == IndentLine(ManifestClose, 0)
  {
    ContentBlocksLength(cots);
    var doc := ManifestDoc(name, packageUid, cots);
    assert doc[0] == Line(Text(XmlDeclaration), 0);
    assert doc[1] == Line(Text(ManifestOpen), 0);
    assert doc[|doc| - 2] == Line(Text(ContentsClose), 1);
    assert doc[|doc| - 1] == Line(Text(ManifestClose), 0);
  }

  /**
   * The configuration names the package exactly when its name holds no
   * double quote, and always carries the package identifier and empty
   * remarks.
   */
  lemma ManifestConfigReadBack(name: string, packageUid: Uuid, cots: seq<Cot>)
    ensures |ManifestLines(name, packageUid, cots)| > 5
    ensures var lines := ManifestLines(name, packageUid, cots);
      (Field(lines[3], 2, "Parameter", "name") == Some("name") && Field(lines[3], 2, "Parameter", "value") == Some(name))
      <==> IsValue(name)
    ensures var lines := ManifestLines(name, packageUid, cots);
      && Field(lines[4], 2, "Parameter", "name") == Some("uid")
      && Field(lines[4], 2, "Parameter", "value") == Some(packageUid)
      && Field(lines[5], 2, "Parameter", "name") == Some("remarks")
      && Field(lines[5], 2, "Parameter", "value") == Some("")
  {
    ContentBlocksLength(cots);
    var doc := ManifestDoc(name, packageUid, cots);
    var lines := ManifestLines(name, packageUid, cots);
    assert doc[3] == Line(Element(ParameterTag("name", name, Open)), 2);
    assert doc[4] == Line(Element(ParameterTag("uid", packageUid, Open)), 2);
    assert doc[5] == Line(Element(ParameterTag("remarks", "", Open)), 2);
    NoQuoteIsValue("name");
    NoQuoteIsValue("uid");
    NoQuoteIsValue("remarks");
    UuidIsValue(packageUid, true);
    ParameterTagReadBack("name", name, Open, 2);
    ParameterTagReadBack("uid", packageUid, Open, 2);
    ParameterTagReadBack("remarks", "", Open, 2);
  }

  /**
   * The configuration's parameters are written as opening tags, never
   * closed: each line reads back as a `Parameter` tag that ends in `>`, not
   * `/>`. The name's line does so exactly when the name holds no double quote.
   */
  lemma ManifestConfigTags(name: string, packageUid: Uuid, cots: seq<Cot>)
    ensures |ManifestLines(name, packageUid, cots)| > 5
    ensures var lines := ManifestLines(name, packageUid, cots);
      ReadLine(lines[3], 2) == Some(ParameterTag("name", name, Open)) <==> IsValue(name)
    ensures var lines := ManifestLines(name, packageUid, cots);
      && ReadLine(lines[4], 2) == Some(ParameterTag("uid", packageUid, Open))
      && ReadLine(lines[5], 2) == Some(ParameterTag("remarks", "", Open))
  {
    ContentBlocksLength(cots);
    var doc := ManifestDoc(name, packageUid, cots);
    assert doc[3] == Line(Element(ParameterTag("name", name, Open)), 2);
    assert doc[4] == Line(Element(ParameterTag("uid", packageUid, Open)), 2);
    assert doc[5] == Line(Element(ParameterTag("remarks", "", Open)), 2);
    NoQuoteIsValue("name");
    NoQuoteIsValue("uid");
    NoQuoteIsValue("remarks");
    UuidIsValue(packageUid, true);
    ParameterTagWellFormed("name", name, Open);
    ParameterTagWellFormed("uid", packageUid, Open);
    ParameterTagWellFormed("remarks", "", Open);
    ReadLineIff(ParameterTag("name", name, Open), 2);
    ReadLineIff(ParameterTag("uid", packageUid, Open), 2);
    ReadLineIff(ParameterTag("remarks", "", Open), 2);
  }

  /**
   * The `k`-th marker's entry in the manifest names its event file inside
   * the archive, `<uid>/<uid>.cot`; the line meant to carry its identifier
   * does not read back as a tag, so no attribute of it reads back.
   */
  lemma ManifestEntryReadBack(name: string, packageUid: Uuid, cots: seq<Cot>, k: nat)
    requires k < |cots|
    ensures |ManifestLines(name, packageUid, cots)| == 10 + 3 * |cots|
    ensures var lines, u := ManifestLines(name, packageUid, cots), cots[k].uuid;
      && Field(lines[8 + 3 * k], 2, "Content", "zipEntry") == Some(u + "/" + u + ".cot")
      && Field(lines[8 + 3 * k], 2, "Content", "ignore") == Some("false")
      && lines[9 + 3 * k] == IndentLine(UidLine(u), 3)
      && ReadLine(lines[9 + 3 * k], 3) == None
      && lines[10 + 3 * k] == IndentLine(ContentClose, 2)
  {
    var u := cots[k].uuid;
    var blocks := ContentBlocks(cots);
    var doc := ManifestDoc(name, packageUid, cots);
    ContentBlocksAt(cots, k, 0);
    ContentBlocksAt(cots, k, 1);
    ContentBlocksAt(cots, k, 2);
    var lines := ManifestLines(name, packageUid, cots);
    assert lines[8 + 3 * k] == IndentLine(TagText(ContentTag(u)), 2) by {
      assert doc[8 + 3 * k] == blocks[3 * k] == Line(Element(ContentTag(u)), 2);
    }
    assert lines[9 + 3 * k] == IndentLine(UidLine(u), 3) by {
      assert doc[9 + 3 * k] == blocks[3 * k + 1] == Line(Text(UidLine(u)), 3);
    }
    assert lines[10 + 3 * k] == IndentLine(ContentClose, 2) by {
      assert doc[10 + 3 * k] == blocks[3 * k + 2] == Line(Text(ContentClose), 2);
    }
    UuidIsValue(u, true);
    ContentTagReadBack(u, 2);
    UidLineUnreadable(u, 3);
  }

  /** The markers' identifiers, in order, name the directories made; none is the manifest directory's name. */
  lemma EntryUids(cots: seq<Cot>)
    ensures var us := CotUids(cots);
      && |us| == |cots|
      && (forall i | 0 <= i < |cots| :: us[i] == cots[i].uuid && us[i] != ManifestDir)
  {
    var us := CotUids(cots);
    forall i | 0 <= i < |cots|
      ensures us[i] == cots[i].uuid && us[i] != ManifestDir
    {
      assert |us[i]| != |ManifestDir|;
    }
  }

  /** Every marker gets its event file exactly when no two markers share an identifier. */
  lemma StagedAllIff(cots: seq<Cot>)
    ensures Staged(cots) == |cots| <==> forall i, j | 0 <= i < j < |cots| :: cots[i].uuid != cots[j].uuid
  {
    EntryUids(cots);
    FirstClashNone(ManifestDir, CotUids(cots));
  }

  /**
   * When a marker's directory cannot be made, its identifier repeats an
   * earlier marker's, and the markers before it all have distinct ones.
   */
  lemma StagedClash(cots: seq<Cot>)
    requires Staged(cots) < |cots|
    ensures var k := Staged(cots);
      && (exists j | 0 <= j < k :: cots[j].uuid == cots[k].uuid)
      && (forall i, j | 0 <= i < j < k :: cots[i].uuid != cots[j].uuid)
  {
    EntryUids(cots);
    FirstClashRepeats(ManifestDir, CotUids(cots));
  }

  /** With `out` not a file and distinct identifiers, `create_package` succeeds and stages every marker. */
  lemma PackageStaged(dirs0: set<Path>, files0: map<Path, seq<string>>, dirs: set<Path>, files: map<Path, seq<string>>,
                      name: string, cots: seq<Cot>, packageUid: Uuid, processUid: LowerUuid, st: Status)
    requires PackageResult(dirs0, files0, dirs, files, name, cots, packageUid, processUid, st)
    requires [Out] !in files0
    requires forall i, j | 0 <= i < j < |cots| :: cots[i].uuid != cots[j].uuid
    ensures st == Done
    ensures NoClash(ManifestDir, Uids(Entries(cots, processUid)))
    ensures files == PrunedFiles(files0) + TreeFiles(ManifestDir, ManifestLines(name, packageUid, cots), Entries(cots, processUid))
    ensures dirs == PrunedDirs(dirs0) + TreeDirs(ManifestDir, CotUids(cots))
  {
    var es := Entries(cots, processUid);
    var us := CotUids(cots);
    assert NoClash(ManifestDir, us) by {
      EntryUids(cots);
    }
    assert Staged(cots) == |cots| by {
      FirstClashNone(ManifestDir, us);
    }
    assert Uids(es) == us && es[..|cots|] == es by {
      EntriesUids(cots, processUid);
    }
  }

  /**
   * The files of a tree staged without a clash: `out/` holds exactly the
   * manifest and each marker's event file, with their lines, and nothing
   * outside `out/` changes.
   */
  lemma PackageFiles(files0: map<Path, seq<string>>, files: map<Path, seq<string>>,
                     name: string, cots: seq<Cot>, packageUid: Uuid, processUid: LowerUuid)
    requires NoClash(ManifestDir, Uids(Entries(cots, processUid)))
    requires files == PrunedFiles(files0) + TreeFiles(ManifestDir, ManifestLines(name, packageUid, cots), Entries(cots, processUid))
    ensures ManifestPath(ManifestDir) in files && files[ManifestPath(ManifestDir)] == ManifestLines(name, packageUid, cots)
    ensures forall k | 0 <= k < |cots| ::
              EventPath(cots[k].uuid) in files && files[EventPath(cots[k].uuid)] == EventLines(cots[k], processUid)
    ensures forall p | InOut(p) ::
              p in files <==> p == ManifestPath(ManifestDir) || exists k | 0 <= k < |cots| :: p == EventPath(cots[k].uuid)
    ensures |set p | p in files && InOut(p)| == 1 + |cots|
    ensures forall p | !InOut(p) :: (p in files <==> p in files0) && (p in files ==> files[p] == files0[p])
  {
    var es := Entries(cots, processUid);
    StagedFilesExact(files0, files, ManifestDir, ManifestLines(name, packageUid, cots), es);
    forall k | 0 <= k < |cots|
      ensures es[k].uid == cots[k].uuid && es[k].lines == EventLines(cots[k], processUid)
    {
    }
  }

  /** The directories of a staged tree: `out/`, the manifest directory and one per marker. */
  lemma PackageDirs(dirs0: set<Path>, dirs: set<Path>, cots: seq<Cot>)
    requires dirs == PrunedDirs(dirs0) + TreeDirs(ManifestDir, CotUids(cots))
    ensures forall p | InOut(p) ::
              p in dirs <==> p == [Out] || p == [Out, ManifestDir] || exists k | 0 <= k < |cots| :: p == EventDir(cots[k].uuid)
    ensures forall p | !InOut(p) :: p in dirs <==> p in dirs0
  {
    StagedDirsExact(dirs0, dirs, ManifestDir, CotUids(cots));
    EntryUids(cots);
  }

  /**
   * With distinct marker identifiers, and `out` not a file, `create_package`
   * succeeds; `out/` then holds exactly `manifest/manifest.xml` and one
   * `<uid>/<uid>.cot` per marker, with what was written to them, in the
   * directories made for them, and nothing outside `out/` changes.
   */
  lemma PackageExact(dirs0: set<Path>, files0: map<Path, seq<string>>, dirs: set<Path>, files: map<Path, seq<string>>,
                     name: string, cots: seq<Cot>, packageUid: Uuid, processUid: LowerUuid, st: Status)
    requires PackageResult(dirs0, files0, dirs, files, name, cots, packageUid, processUid, st)
    requires [Out] !in files0
    requires forall i, j | 0 <= i < j < |cots| :: cots[i].uuid != cots[j].uuid
    ensures st == Done
    ensures ManifestPath(ManifestDir) in files && files[ManifestPath(ManifestDir)] == ManifestLines(name, packageUid, cots)
    ensures forall k | 0 <= k < |cots| ::
              EventPath(cots[k].uuid) in files && files[EventPath(cots[k].uuid)] == EventLines(cots[k], processUid)
    ensures forall p | InOut(p) ::
              p in files <==> p == ManifestPath(ManifestDir) || exists k | 0 <= k < |cots| :: p == EventPath(cots[k].uuid)
    ensures |set p | p in files && InOut(p)| == 1 + |cots|
    ensures forall p | !InOut(p) :: (p in files <==> p in files0) && (p in files ==> files[p] == files0[p])
    ensures forall p | InOut(p) ::
              p in dirs <==> p == [Out] || p == [Out, ManifestDir] || exists k | 0 <= k < |cots| :: p == EventDir(cots[k].uuid)
    ensures forall p | !InOut(p) :: p in dirs <==> p in dirs0
  {
    PackageStaged(dirs0, files0, dirs, files, name, cots, packageUid, processUid, st);
    PackageFiles(files0, files, name, cots, packageUid, processUid);
    PackageDirs(dirs0, dirs, cots);
  }
}
