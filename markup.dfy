/**
 * What both scripts write: the indented writer, and the tags whose attribute
 * values are filled in from a marker or a package. A tag line is the text of
 * a `Tag`, so `<point lat="{lat}" lon="{lon}" hae="0.0" ce="0.0" le="0.0" />`
 * is the text of `PointTag(lat, lon)`; lines with nothing filled in are
 * written out literally where they are used.
 */
module Markup {
  import opened Results
  import opened Lines
  import opened Tags
  import opened Uuids
  import opened Files
  import opened Staging

  /** `indent_write(f, txt, indent)`: one chunk, the text indented by two spaces per level, then a newline. */
  method IndentWrite(f: Handle, txt: string, indent: nat)
    modifies f
    ensures f.chunks == old(f.chunks) + [IndentLine(txt, indent)]
  {
    f.Write(IndentLine(txt, indent));
  }

  /** What a line of a file holds: a tag, or text written as it is. */
  datatype Piece = Element(tag: Tag) | Text(text: string)

  /** A line of a file before it is written: what it holds and its indent level. */
  datatype Line = Line(piece: Piece, indent: nat)

  function PieceText(p: Piece): string
  {
    match p
    case Element(t) => TagText(t)
    case Text(s) => s
  }

  /** The chunks `indent_write` emits for the lines `doc`, one per line, in order. */
  function Render(doc: seq<Line>): seq<string>
  {
    seq(|doc|, i requires 0 <= i < |doc| => IndentLine(PieceText(doc[i].piece), doc[i].indent))
  }

  /** Rendering goes line by line, so it distributes over joining documents. */
  lemma RenderAppend(a: seq<Line>, b: seq<Line>)
    ensures Render(a + b) == Render(a) + Render(b)
  {
  }

  /** A document written out line by line. */
  lemma Render15(l0: Line, l1: Line, l2: Line, l3: Line, l4: Line, l5: Line, l6: Line, l7: Line, l8: Line, l9: Line, l10: Line, l11: Line, l12: Line, l13: Line, l14: Line)
    ensures Render([l0, l1, l2, l3, l4, l5, l6, l7, l8, l9, l10, l11, l12, l13, l14]) == [IndentLine(PieceText(l0.piece), l0.indent), IndentLine(PieceText(l1.piece), l1.indent), IndentLine(PieceText(l2.piece), l2.indent), IndentLine(PieceText(l3.piece), l3.indent), IndentLine(PieceText(l4.piece), l4.indent), IndentLine(PieceText(l5.piece), l5.indent), IndentLine(PieceText(l6.piece), l6.indent), IndentLine(PieceText(l7.piece), l7.indent), IndentLine(PieceText(l8.piece), l8.indent), IndentLine(PieceText(l9.piece), l9.indent), IndentLine(PieceText(l10.piece), l10.indent), IndentLine(PieceText(l11.piece), l11.indent), IndentLine(PieceText(l12.piece), l12.indent), IndentLine(PieceText(l13.piece), l13.indent), IndentLine(PieceText(l14.piece), l14.indent)]
  {
  }

  /** The lines both scripts write with nothing filled in. */
  const DetailOpen: string := "<detail>"
  const PrecisionLine: string := "<" + "precisionlocation geopointsrc=\"???\" altsrc=\"???\"/>"
  const StatusLine: string := "<status readiness=\"true\"/>"
  const ArchiveLine: string := "<archive/>"
  const ColorLine: string := "<color argb=\"-1\"/>"
  const FlowTagsLine: string := "<" + "_flow-tags_ TAK-Server-fe3bcbd8=\"2020-02-06T17:53:28Z\"/>"
  const DetailClose: string := "</detail>"
  const EventClose: string := "</event>"

  /** The remarks element around `text`. */
  function RemarksLine(text: string): string
  {
    "<remarks>" + text + "</remarks>"
  }

  /** Each fixed line of an event file starts a tag. */
  lemma FixedEventLinesOpen()
    ensures DetailOpen[0] == '<' && StatusLine[0] == '<' && ArchiveLine[0] == '<' && ColorLine[0] == '<'
    ensures DetailClose[0] == '<' && EventClose[0] == '<'
    ensures PrecisionLine[0] == '<' && FlowTagsLine[0] == '<'
  {
  }

  const XmlDeclaration: string := "<?xml version=\"1.0\" encoding=\"UTF-8\"?>"
  const ManifestOpen: string := "<MissionPackageManifest version=\"2\">"
  const ConfigurationOpen: string := "<Configuration>"
  const ConfigurationClose: string := "</Configuration>"
  const ContentsOpen: string := "<Contents>"
  const ContentClose: string := "</Content>"
  const ContentsClose: string := "</Contents>"
  const ManifestClose: string := "</MissionPackageManifest>"

  /** The attributes written with a fixed value. */
  const VersionAttr: Attr := Attr("version", "2.0")
  const HaeAttr: Attr := Attr("hae", "0.0")
  const CeAttr: Attr := Attr("ce", "0.0")
  const LeAttr: Attr := Attr("le", "0.0")
  const LinkTypeAttr: Attr := Attr("type", "a-f-G-U-C")
  const ParentCallsignAttr: Attr := Attr("parent_callsign", "ATAK Marker Import")
  const RelationAttr: Attr := Attr("relation", "p-p")
  const IgnoreAttr: Attr := Attr("ignore", "false")

  /** An identifier never holds a double quote, so it always reads back. */
  lemma UuidIsValue(u: string, upper: bool)
    requires IsUuid(u, upper)
    ensures IsValue(u)
  {
    forall i | 0 <= i < |u|
      ensures u[i] != '"'
    {
      UuidChars(u, upper, i);
    }
  }

  /** The type and the how every marker is written with. */
  const MarkerType: string := "a-u-G"
  const MarkerHow: string := "h-g-i-g-o"

  /** The time stamp of a marker made on the day `today` (`YYYY-MM-DD`): that day's midnight. */
  function Midnight(today: string): string
  {
    today + "T00:00:00Z"
  }

  function EventTag(uid: string, kind: string, how: string, time: string): Tag
  {
    Tag("event", [VersionAttr, Attr("uid", uid), Attr("type", kind), Attr("how", how),
                  Attr("time", time), Attr("start", time), Attr("stale", time)], Open)
  }

  function PointTag(lat: string, lon: string): Tag
  {
    Tag("point", [Attr("lat", lat), Attr("lon", lon), HaeAttr, CeAttr, LeAttr],
        SpacedSelfClosing)
  }

  function ContactTag(callsign: string): Tag
  {
    Tag("contact", [Attr("callsign", callsign)], SelfClosing)
  }

  function LinkTag(uid: string, time: string): Tag
  {
    Tag("link", [Attr("uid", uid), Attr("production_time", time), LinkTypeAttr,
                 ParentCallsignAttr, RelationAttr], SelfClosing)
  }

  function UserIconTag(iconPath: string): Tag
  {
    Tag("usericon", [Attr("iconsetpath", iconPath)], SelfClosing)
  }

  /** A manifest entry naming a marker's event file inside the archive. */
  function ContentTag(uid: string): Tag
  {
    Tag("Content", [Attr("zipEntry", ZipEntry(uid)), IgnoreAttr], Open)
  }

  function ParameterTag(name: string, value: string, close: Close): Tag
  {
    Tag("Parameter", [Attr("name", name), Attr("value", value)], close)
  }

  lemma EventNames()
    ensures IsName("event") && IsName("version") && IsName("uid") && IsName("type")
    ensures IsName("how") && IsName("time") && IsName("start") && IsName("stale") && IsValue("2.0")
  {
  }

  lemma DetailNames()
    ensures IsName("point") && IsName("lat") && IsName("lon") && IsName("hae") && IsName("ce") && IsName("le")
    ensures IsValue("0.0") && IsName("contact") && IsName("callsign")
    ensures IsName("usericon") && IsName("iconsetpath")
  {
  }

  lemma LinkNames()
    ensures IsName("link") && IsName("uid") && IsName("production_time") && IsName("type")
    ensures IsName("parent_callsign") && IsName("relation")
    ensures IsValue("a-f-G-U-C") && IsValue("ATAK Marker Import") && IsValue("p-p")
  {
  }

  lemma ManifestNames()
    ensures IsName("Content") && IsName("zipEntry") && IsName("ignore") && IsValue("false")
    ensures IsName("Parameter") && IsName("name") && IsName("value")
  {
  }

  /** The event tag is well formed exactly when its values hold no double quote. */
  lemma EventTagWellFormed(uid: string, kind: string, how: string, time: string)
    ensures WellFormed(EventTag(uid, kind, how, time)) <==> IsValue(uid) && IsValue(kind) && IsValue(how) && IsValue(time)
  {
    EventNames();
    var attrs := EventTag(uid, kind, how, time).attrs;
    assert attrs[1].value == uid && attrs[2].value == kind && attrs[3].value == how && attrs[4].value == time;
  }

  lemma PointTagWellFormed(lat: string, lon: string)
    ensures WellFormed(PointTag(lat, lon)) <==> IsValue(lat) && IsValue(lon)
  {
    DetailNames();
    var attrs := PointTag(lat, lon).attrs;
    assert attrs[0].value == lat && attrs[1].value == lon;
  }

  lemma ContactTagWellFormed(callsign: string)
    ensures WellFormed(ContactTag(callsign)) <==> IsValue(callsign)
  {
    DetailNames();
    assert ContactTag(callsign).attrs[0].value == callsign;
  }

  lemma LinkTagWellFormed(uid: string, time: string)
    ensures WellFormed(LinkTag(uid, time)) <==> IsValue(uid) && IsValue(time)
  {
    LinkNames();
    var attrs := LinkTag(uid, time).attrs;
    assert attrs[0].value == uid && attrs[1].value == time;
  }

  lemma UserIconTagWellFormed(iconPath: string)
    ensures WellFormed(UserIconTag(iconPath)) <==> IsValue(iconPath)
  {
    DetailNames();
    assert UserIconTag(iconPath).attrs[0].value == iconPath;
  }

  /** The archive path a content tag names holds no double quote when the identifier holds none. */
  lemma ContentTagWellFormed(uid: string)
    requires IsValue(uid)
    ensures WellFormed(ContentTag(uid))
  {
    ManifestNames();
    var e := ZipEntry(uid);
    forall i | 0 <= i < |e|
      ensures e[i] != '"'
    {
      if i < |uid| {
        assert e[i] == uid[i];
      } else if |uid| + 1 <= i < 2 * |uid| + 1 {
        assert e[i] == uid[i - |uid| - 1];
      }
    }
  }

  lemma ParameterTagWellFormed(name: string, value: string, close: Close)
    ensures WellFormed(ParameterTag(name, value, close)) <==> IsValue(name) && IsValue(value)
  {
    ManifestNames();
    var attrs := ParameterTag(name, value, close).attrs;
    assert attrs[0].value == name && attrs[1].value == value;
  }

  /*
   * Reading the tag lines back: each value comes back from its line exactly
   * when it holds no double quote, since values are written unescaped.
   */

  /** Where each attribute of the event tag is looked up. */
  lemma EventAttrs(uid: string, kind: string, how: string, time: string)
    ensures var attrs := EventTag(uid, kind, how, time).attrs;
      && AttrValue(attrs, "version") == Some("2.0")
      && AttrValue(attrs, "uid") == Some(uid) && AttrValue(attrs, "type") == Some(kind)
      && AttrValue(attrs, "how") == Some(how) && AttrValue(attrs, "time") == Some(time)
      && AttrValue(attrs, "start") == Some(time) && AttrValue(attrs, "stale") == Some(time)
  {
    var a := EventTag(uid, kind, how, time).attrs;
    assert a[0].name == "version" && a[1].name == "uid" && a[2].name == "type" && a[3].name == "how";
    assert a[4].name == "time" && a[5].name == "start" && a[6].name == "stale";
    assert AttrValue(a, "version") == Some("2.0") by {
      AttrValueAt(a, "version", 0);
    }
    assert AttrValue(a, "uid") == Some(uid) by {
      AttrValueAt(a, "uid", 1);
    }
    assert AttrValue(a, "type") == Some(kind) by {
      AttrValueAt(a, "type", 2);
    }
    assert AttrValue(a, "how") == Some(how) by {
      assert "how"[0] != "uid"[0];
      AttrValueAt(a, "how", 3);
    }
    assert AttrValue(a, "time") == Some(time) by {
      assert "time"[1] != "type"[1];
      AttrValueAt(a, "time", 4);
    }
    assert AttrValue(a, "start") == Some(time) by {
      AttrValueAt(a, "start", 5);
    }
    assert AttrValue(a, "stale") == Some(time) by {
      assert "stale"[3] != "start"[3];
      AttrValueAt(a, "stale", 6);
    }
  }

  lemma EventTagReadBack(uid: string, kind: string, how: string, time: string, indent: nat)
    ensures var line := IndentLine(TagText(EventTag(uid, kind, how, time)), indent);
      (&& Field(line, indent, "event", "uid") == Some(uid)
       && Field(line, indent, "event", "type") == Some(kind)
       && Field(line, indent, "event", "how") == Some(how)
       && Field(line, indent, "event", "time") == Some(time)
       && Field(line, indent, "event", "start") == Some(time)
       && Field(line, indent, "event", "stale") == Some(time))
      <==> IsValue(uid) && IsValue(kind) && IsValue(how) && IsValue(time)
    ensures IsValue(uid) && IsValue(kind) && IsValue(how) && IsValue(time) ==>
      Field(IndentLine(TagText(EventTag(uid, kind, how, time)), indent), indent, "event", "version") == Some("2.0")
  {
    var t := EventTag(uid, kind, how, time);
    EventTagWellFormed(uid, kind, how, time);
    if WellFormed(t) {
      EventAttrs(uid, kind, how, time);
      FieldOf(t, indent, "version");
      FieldOf(t, indent, "uid");
      FieldOf(t, indent, "type");
      FieldOf(t, indent, "how");
      FieldOf(t, indent, "time");
      FieldOf(t, indent, "start");
      FieldOf(t, indent, "stale");
    }
  }

  lemma PointAttrs(lat: string, lon: string)
    ensures var attrs := PointTag(lat, lon).attrs;
      && AttrValue(attrs, "lat") == Some(lat) && AttrValue(attrs, "lon") == Some(lon)
      && AttrValue(attrs, "hae") == Some("0.0") && AttrValue(attrs, "ce") == Some("0.0")
      && AttrValue(attrs, "le") == Some("0.0")
  {
    var a := PointTag(lat, lon).attrs;
    assert a[0].name == "lat" && a[1].name == "lon" && a[2].name == "hae" && a[3].name == "ce" && a[4].name == "le";
    assert AttrValue(a, "lat") == Some(lat) by {
      AttrValueAt(a, "lat", 0);
    }
    assert AttrValue(a, "lon") == Some(lon) by {
      assert "lon"[1] != "lat"[1];
      AttrValueAt(a, "lon", 1);
    }
    assert AttrValue(a, "hae") == Some("0.0") by {
      assert "hae"[0] != "lat"[0] && "hae"[0] != "lon"[0];
      AttrValueAt(a, "hae", 2);
    }
    assert AttrValue(a, "ce") == Some("0.0") by {
      AttrValueAt(a, "ce", 3);
    }
    assert AttrValue(a, "le") == Some("0.0") by {
      assert "le"[0] != "ce"[0];
      AttrValueAt(a, "le", 4);
    }
  }

  lemma PointTagReadBack(lat: string, lon: string, indent: nat)
    ensures var line := IndentLine(TagText(PointTag(lat, lon)), indent);
      (Field(line, indent, "point", "lat") == Some(lat) && Field(line, indent, "point", "lon") == Some(lon))
      <==> IsValue(lat) && IsValue(lon)
    ensures IsValue(lat) && IsValue(lon) ==>
      var line := IndentLine(TagText(PointTag(lat, lon)), indent);
      && Field(line, indent, "point", "hae") == Some("0.0")
      && Field(line, indent, "point", "ce") == Some("0.0")
      && Field(line, indent, "point", "le") == Some("0.0")
  {
    var t := PointTag(lat, lon);
    PointTagWellFormed(lat, lon);
    if WellFormed(t) {
      PointAttrs(lat, lon);
      FieldOf(t, indent, "lat");
      FieldOf(t, indent, "lon");
      FieldOf(t, indent, "hae");
      FieldOf(t, indent, "ce");
      FieldOf(t, indent, "le");
    }
  }

  lemma ContactTagReadBack(callsign: string, indent: nat)
    ensures Field(IndentLine(TagText(ContactTag(callsign)), indent), indent, "contact", "callsign") == Some(callsign)
            <==> IsValue(callsign)
  {
    var t := ContactTag(callsign);
    ContactTagWellFormed(callsign);
    if WellFormed(t) {
      FieldOf(t, indent, "callsign");
      AttrValueAt(t.attrs, "callsign", 0);
    }
  }

  lemma LinkAttrs(uid: string, time: string)
    ensures var attrs := LinkTag(uid, time).attrs;
      && AttrValue(attrs, "uid") == Some(uid) && AttrValue(attrs, "production_time") == Some(time)
      && AttrValue(attrs, "type") == Some("a-f-G-U-C")
      && AttrValue(attrs, "parent_callsign") == Some("ATAK Marker Import")
      && AttrValue(attrs, "relation") == Some("p-p")
  {
    var a := LinkTag(uid, time).attrs;
    assert a[0].name == "uid" && a[1].name == "production_time" && a[2].name == "type";
    assert a[3].name == "parent_callsign" && a[4].name == "relation";
    assert AttrValue(a, "uid") == Some(uid) by {
      AttrValueAt(a, "uid", 0);
    }
    assert AttrValue(a, "production_time") == Some(time) by {
      AttrValueAt(a, "production_time", 1);
    }
    assert AttrValue(a, "type") == Some("a-f-G-U-C") by {
      AttrValueAt(a, "type", 2);
    }
    assert AttrValue(a, "parent_callsign") == Some("ATAK Marker Import") by {
      assert "parent_callsign"[1] != "production_time"[1];
      AttrValueAt(a, "parent_callsign", 3);
    }
    assert AttrValue(a, "relation") == Some("p-p") by {
      AttrValueAt(a, "relation", 4);
    }
  }

  lemma LinkTagReadBack(uid: string, time: string, indent: nat)
    ensures var line := IndentLine(TagText(LinkTag(uid, time)), indent);
      (Field(line, indent, "link", "uid") == Some(uid) && Field(line, indent, "link", "production_time") == Some(time))
      <==> IsValue(uid) && IsValue(time)
    ensures IsValue(uid) && IsValue(time) ==>
      var line := IndentLine(TagText(LinkTag(uid, time)), indent);
      && Field(line, indent, "link", "type") == Some("a-f-G-U-C")
      && Field(line, indent, "link", "parent_callsign") == Some("ATAK Marker Import")
      && Field(line, indent, "link", "relation") == Some("p-p")
  {
    var t := LinkTag(uid, time);
    LinkTagWellFormed(uid, time);
    if WellFormed(t) {
      LinkAttrs(uid, time);
      FieldOf(t, indent, "uid");
      FieldOf(t, indent, "production_time");
      FieldOf(t, indent, "type");
      FieldOf(t, indent, "parent_callsign");
      FieldOf(t, indent, "relation");
    }
  }

  lemma UserIconTagReadBack(iconPath: string, indent: nat)
    ensures Field(IndentLine(TagText(UserIconTag(iconPath)), indent), indent, "usericon", "iconsetpath") == Some(iconPath)
            <==> IsValue(iconPath)
  {
    var t := UserIconTag(iconPath);
    UserIconTagWellFormed(iconPath);
    if WellFormed(t) {
      FieldOf(t, indent, "iconsetpath");
      AttrValueAt(t.attrs, "iconsetpath", 0);
    }
  }

  /** A content line names the marker's event file inside the archive, and says not to ignore it. */
  lemma ContentTagReadBack(uid: string, indent: nat)
    requires IsValue(uid)
    ensures var line := IndentLine(TagText(ContentTag(uid)), indent);
      && Field(line, indent, "Content", "zipEntry") == Some(uid + "/" + uid + ".cot")
      && Field(line, indent, "Content", "ignore") == Some("false")
  {
    var t := ContentTag(uid);
    ContentTagWellFormed(uid);
    FieldOf(t, indent, "zipEntry");
    FieldOf(t, indent, "ignore");
    AttrValueAt(t.attrs, "zipEntry", 0);
    AttrValueAt(t.attrs, "ignore", 1);
  }

  lemma ParameterTagReadBack(name: string, value: string, close: Close, indent: nat)
    ensures var line := IndentLine(TagText(ParameterTag(name, value, close)), indent);
      (Field(line, indent, "Parameter", "name") == Some(name) && Field(line, indent, "Parameter", "value") == Some(value))
      <==> IsValue(name) && IsValue(value)
  {
    var t := ParameterTag(name, value, close);
    ParameterTagWellFormed(name, value, close);
    if WellFormed(t) {
      FieldOf(t, indent, "name");
      FieldOf(t, indent, "value");
      AttrValueAt(t.attrs, "name", 0);
      AttrValueAt(t.attrs, "value", 1);
    }
  }

  /** The remarks element gives back whatever text it was written around. */
  lemma RemarksLineReadBack(text: string)
    ensures ReadElementText(RemarksLine(text), "remarks") == Some(text)
  {
    var s := RemarksLine(text);
    assert s[..9] == "<remarks>";
    assert s[|s| - 10..] == "</remarks>";
    assert s[9..|s| - 10] == text;
  }

  /**
   * Values are written without escaping: whatever follows a double quote in
   * a callsign is read as an attribute of its own, and the callsign read
   * back ends at the quote.
   */
  lemma QuoteInjectsAttribute(v: string, n: string, w: string, indent: nat)
    requires IsValue(v) && IsName(n) && IsValue(w) && n != "callsign"
    ensures var line := IndentLine(TagText(ContactTag(v + "\" " + n + "=\"" + w)), indent);
      && Field(line, indent, "contact", "callsign") == Some(v)
      && Field(line, indent, "contact", n) == Some(w)
  {
    var callsign := v + "\" " + n + "=\"" + w;
    var line := IndentLine(TagText(ContactTag(callsign)), indent);
    var t := Tag("contact", [Attr("callsign", v), Attr(n, w)], SelfClosing);
    assert WellFormed(t) by {
      DetailNames();
    }
    assert AttrsText(t.attrs) == AttrsText(ContactTag(callsign).attrs) by {
      assert t.attrs[1..] == [t.attrs[1]] && [t.attrs[1]][1..] == [];
      assert ContactTag(callsign).attrs[1..] == [];
      assert AttrsText([t.attrs[1]]) == AttrText(t.attrs[1]);
      assert AttrsText(t.attrs) == AttrText(t.attrs[0]) + AttrText(t.attrs[1]);
      assert AttrText(t.attrs[0]) + AttrText(t.attrs[1]) == AttrText(ContactTag(callsign).attrs[0]);
    }
    assert line == IndentLine(TagText(t), indent);
    assert Field(line, indent, "contact", "callsign") == Some(v) by {
      FieldOf(t, indent, "callsign");
      AttrValueAt(t.attrs, "callsign", 0);
    }
    assert Field(line, indent, "contact", n) == Some(w) by {
      FieldOf(t, indent, n);
      AttrValueAt(t.attrs, n, 1);
    }
  }
}
