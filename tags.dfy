/**
 * A reader for the single-line tags the scripts emit, written independently
 * of the emitters: `<name a="v" ...>`, `<name .../>` or `<name ... />`.
 * The emitters build their lines by string formatting; the lemmas about them
 * read those lines back with this reader. Values are read up to the next
 * double quote, so a value that itself holds a double quote does not read back.
 */
module Tags {
  import opened Results
  import opened Lines

  predicate IsNameChar(c: char)
  {
    ('a' <= c <= 'z') || ('A' <= c <= 'Z') || ('0' <= c <= '9') || c == '_' || c == '-' || c == ':' || c == '.'
  }

  predicate AllNameChars(s: string)
  {
    forall i | 0 <= i < |s| :: IsNameChar(s[i])
  }

  predicate IsName(s: string)
  {
    s != [] && AllNameChars(s)
  }

  /** A value that can stand between double quotes and be read back: it holds no double quote. */
  predicate IsValue(s: string)
  {
    forall i | 0 <= i < |s| :: s[i] != '"'
  }

  /** A text without a double quote in it is a value; for a literal this is checked character by character. */
  lemma NoQuoteIsValue(s: string)
    requires '"' !in s
    ensures IsValue(s)
  {
  }

  /** Two values side by side are a value. */
  lemma JoinIsValue(a: string, b: string)
    requires IsValue(a) && IsValue(b)
    ensures IsValue(a + b)
  {
    forall i | 0 <= i < |a + b|
      ensures (a + b)[i] != '"'
    {
      if i >= |a| {
        assert (a + b)[i] == b[i - |a|];
      }
    }
  }

  datatype Attr = Attr(name: string, value: string)

  /** How a tag line ends: `>`, `/>` or ` />`. */
  datatype Close = Open | SelfClosing | SpacedSelfClosing

  datatype Tag = Tag(name: string, attrs: seq<Attr>, close: Close)

  /** Every attribute has a name and a value that reads back. */
  predicate WellFormedAttrs(attrs: seq<Attr>)
  {
    forall i | 0 <= i < |attrs| :: IsName(attrs[i].name) && IsValue(attrs[i].value)
  }

  predicate WellFormed(t: Tag)
  {
    IsName(t.name) && WellFormedAttrs(t.attrs)
  }

  function CloseText(c: Close): string
  {
    match c
    case Open => ">"
    case SelfClosing => "/>"
    case SpacedSelfClosing => " />"
  }

  function AttrText(a: Attr): string
  {
    " " + a.name + "=\"" + a.value + "\""
  }

  function AttrsText(attrs: seq<Attr>): string
  {
    if attrs == [] then "" else AttrText(attrs[0]) + AttrsText(attrs[1..])
  }

  function TagText(t: Tag): string
  {
    "<" + t.name + AttrsText(t.attrs) + CloseText(t.close)
  }

  /** Length of the longest prefix of `s` made of name characters. */
  function NameSpan(s: string): (n: nat)
    ensures n <= |s|
  {
    if s != [] && IsNameChar(s[0]) then 1 + NameSpan(s[1..]) else 0
  }

  /** Length of the prefix of `s` before its first double quote. */
  function ValueSpan(s: string): (n: nat)
    ensures n <= |s|
  {
    if s != [] && s[0] != '"' then 1 + ValueSpan(s[1..]) else 0
  }

  /** The name span holds name characters only, and stops at the first other character. */
  lemma {:induction false} NameSpanChars(s: string)
    ensures AllNameChars(s[..NameSpan(s)])
    ensures NameSpan(s) < |s| ==> !IsNameChar(s[NameSpan(s)])
  {
    if s != [] && IsNameChar(s[0]) {
      NameSpanChars(s[1..]);
      var n := NameSpan(s[1..]);
      assert s[..1 + n] == [s[0]] + s[1..][..n];
    }
  }

  /** The value span holds no double quote, and stops at the first one. */
  lemma {:induction false} ValueSpanChars(s: string)
    ensures IsValue(s[..ValueSpan(s)])
    ensures ValueSpan(s) < |s| ==> s[ValueSpan(s)] == '"'
  {
    if s != [] && s[0] != '"' {
      ValueSpanChars(s[1..]);
      var n := ValueSpan(s[1..]);
      assert s[..1 + n] == [s[0]] + s[1..][..n];
    }
  }

  /** True when `s` begins with another attribute: a space and a name character. */
  predicate StartsAttr(s: string)
  {
    |s| >= 2 && s[0] == ' ' && IsNameChar(s[1])
  }

  /** Reads one ` name="value"` pair off the front of `s`; returns it and the rest. */
  function ReadAttr(s: string): (r: Option<(Attr, string)>)
    ensures r.Some? ==> |r.value.1| < |s|
  {
    if !StartsAttr(s) then None
    else
      var n := 1 + NameSpan(s[1..]);
      if |s| < n + 2 || s[n] != '=' || s[n + 1] != '"' then None
      else
        var v := n + 2 + ValueSpan(s[n + 2..]);
        if v == |s| then None
        else Some((Attr(s[1..n], s[n + 2..v]), s[v + 1..]))
  }

  /**
   * Reads ` name="value"` pairs off the front of `s`; returns them and the rest.
   * A pair that starts but is not completed is an error.
   */
  function ReadAttrs(s: string): Option<(seq<Attr>, string)>
    decreases |s|
  {
    if !StartsAttr(s) then Some(([], s))
    else
      match ReadAttr(s)
      case None => None
      case Some((a, rest)) =>
        match ReadAttrs(rest)
        case None => None
        case Some((more, tail)) => Some(([a] + more, tail))
  }

  /** How a tag line ends, read from what follows its attributes. */
  function ReadClose(tail: string): (r: Option<Close>)
    ensures r.Some? ==> CloseText(r.value) == tail
  {
    if tail == ">" then Some(Open)
    else if tail == "/>" then Some(SelfClosing)
    else if tail == " />" then Some(SpacedSelfClosing)
    else None
  }

  /** Reads one tag; `None` when the text is not a single well-formed tag. */
  function ReadTag(s: string): Option<Tag>
  {
    if s == [] || s[0] != '<' then None
    else
      var n := NameSpan(s[1..]);
      if n == 0 then None
      else
        match ReadAttrs(s[1 + n..])
        case None => None
        case Some((attrs, tail)) =>
          match ReadClose(tail)
          case None => None
          case Some(close) => Some(Tag(s[1..1 + n], attrs, close))
  }

  /** Reads the tag written on one emitted line at the given indentation. */
  function ReadLine(line: string, indent: nat): Option<Tag>
  {
    match Unindent(line, indent)
    case None => None
    case Some(txt) => ReadTag(txt)
  }

  /** The value of the first attribute called `name`. */
  function AttrValue(attrs: seq<Attr>, name: string): Option<string>
  {
    if attrs == [] then None
    else if attrs[0].name == name then Some(attrs[0].value)
    else AttrValue(attrs[1..], name)
  }

  /** An attribute is found exactly when one has that name, and what is found is one of the values. */
  lemma {:induction false} AttrValueFound(attrs: seq<Attr>, name: string)
    ensures AttrValue(attrs, name).Some? <==> exists i | 0 <= i < |attrs| :: attrs[i].name == name
    ensures AttrValue(attrs, name).Some? ==>
              exists i | 0 <= i < |attrs| :: attrs[i].name == name && attrs[i].value == AttrValue(attrs, name).value
  {
    if attrs != [] && attrs[0].name != name {
      AttrValueFound(attrs[1..], name);
      if exists i | 0 <= i < |attrs| :: attrs[i].name == name {
        var i :| 0 <= i < |attrs| && attrs[i].name == name;
        assert attrs[1..][i - 1].name == name;
      }
      if AttrValue(attrs, name).Some? {
        var i :| 0 <= i < |attrs| - 1 && attrs[1..][i].name == name && attrs[1..][i].value == AttrValue(attrs, name).value;
        assert attrs[i + 1] == attrs[1..][i];
      }
    }
  }

  /**
   * The value of the attribute `attr` on the line `line`, read at the
   * indentation `indent`, when the line is a `name` tag that has one.
   * Whatever reads back holds no double quote.
   */
  function Field(line: string, indent: nat, name: string, attr: string): (r: Option<string>)
    ensures r.Some? ==> IsValue(r.value)
  {
    match ReadLine(line, indent)
    case None => None
    case Some(t) =>
      if t.name != name then None
      else
        var r := AttrValue(t.attrs, attr);
        assert r.Some? ==> IsValue(r.value) by {
          if r.Some? {
            var txt := Unindent(line, indent).value;
            ReadTagSound(txt);
            AttrValueFound(t.attrs, attr);
          }
        }
        r
  }

  /** The text between `<name>` and `</name>` when `s` is exactly such an element. */
  function ReadElementText(s: string, name: string): Option<string>
  {
    var open := "<" + name + ">";
    var close := "</" + name + ">";
    if |s| >= |open| + |close| && s[..|open|] == open && s[|s| - |close|..] == close
    then Some(s[|open|..|s| - |close|])
    else None
  }

  /** The name span of `s` is `k` when `k` name characters open `s` and no further one follows. */
  lemma {:induction false} NameSpanAt(s: string, k: nat)
    requires k <= |s| && AllNameChars(s[..k])
    requires k < |s| ==> !IsNameChar(s[k])
    ensures NameSpan(s) == k
  {
    if k > 0 {
      assert s[1..][..k - 1] == s[..k][1..];
      NameSpanAt(s[1..], k - 1);
    }
  }

  /** The value span of `s` is `k` when `s[k]` is its first double quote. */
  lemma {:induction false} ValueSpanAt(s: string, k: nat)
    requires k < |s| && IsValue(s[..k]) && s[k] == '"'
    ensures ValueSpan(s) == k
  {
    if k > 0 {
      assert s[1..][..k - 1] == s[..k][1..];
      ValueSpanAt(s[1..], k - 1);
    }
  }

  /** Where the pieces of one attribute's text sit, followed by `more`. */
  lemma AttrTextAt(a: Attr, more: string)
    ensures var s := AttrText(a) + more;
      var n := 1 + |a.name|;
      var v := n + 2 + |a.value|;
      && |s| == v + 1 + |more|
      && s[0] == ' ' && s[1..n] == a.name && s[n] == '=' && s[n + 1] == '"'
      && s[n + 2..v] == a.value && s[v] == '"' && s[v + 1..] == more
  {
  }

  /** Cutting `s` at the name end `n` and the closing quote `v` of its first attribute. */
  lemma AttrSplit(s: string, n: nat, v: nat)
    requires 1 <= n && n + 2 <= v < |s|
    requires s[0] == ' ' && s[n] == '=' && s[n + 1] == '"' && s[v] == '"'
    ensures s == AttrText(Attr(s[1..n], s[n + 2..v])) + s[v + 1..]
  {
    assert s == s[..1] + s[1..n] + s[n..n + 2] + s[n + 2..v] + s[v..v + 1] + s[v + 1..];
  }

  /** What the one-attribute reader returns is a well-formed attribute whose text it consumed. */
  lemma ReadAttrSound(s: string)
    requires ReadAttr(s).Some?
    ensures var (a, rest) := ReadAttr(s).value;
      IsName(a.name) && IsValue(a.value) && AttrText(a) + rest == s
  {
    var n := 1 + NameSpan(s[1..]);
    var v := n + 2 + ValueSpan(s[n + 2..]);
    NameSpanChars(s[1..]);
    assert s[1..][..n - 1] == s[1..n];
    ValueSpanChars(s[n + 2..]);
    assert s[n + 2..][..v - n - 2] == s[n + 2..v];
    AttrSplit(s, n, v);
  }

  /** Reading the text of one well-formed attribute gives it back, and what follows it. */
  lemma ReadAttrText(a: Attr, more: string)
    requires IsName(a.name) && IsValue(a.value)
    ensures ReadAttr(AttrText(a) + more) == Some((a, more))
  {
    var s := AttrText(a) + more;
    var n := 1 + |a.name|;
    var v := n + 2 + |a.value|;
    AttrTextAt(a, more);
    assert s[1..][..n - 1] == a.name;
    NameSpanAt(s[1..], n - 1);
    assert s[n + 2..][..v - n - 2] == a.value;
    ValueSpanAt(s[n + 2..], v - n - 2);
  }

  /** Reading the text of well-formed attributes gives them back, and leaves the tail. */
  lemma {:induction false} ReadAttrsText(attrs: seq<Attr>, tail: string)
    requires WellFormedAttrs(attrs)
    requires !StartsAttr(tail)
    ensures ReadAttrs(AttrsText(attrs) + tail) == Some((attrs, tail))
    decreases |attrs|
  {
    if attrs == [] {
      assert AttrsText(attrs) + tail == tail;
    } else {
      var a := attrs[0];
      var more := AttrsText(attrs[1..]) + tail;
      ReadAttrsText(attrs[1..], tail);
      assert AttrsText(attrs) + tail == AttrText(a) + more;
      ReadAttrText(a, more);
      assert attrs == [a] + attrs[1..];
    }
  }

  lemma ReadCloseText(c: Close)
    ensures ReadClose(CloseText(c)) == Some(c)
  {
  }

  /** Where the name and the attributes of a tag's text sit. */
  lemma TagTextAt(t: Tag)
    ensures var s := TagText(t);
      var n := |t.name|;
      && |s| > n && s[0] == '<' && s[1..1 + n] == t.name
      && s[1 + n..] == AttrsText(t.attrs) + CloseText(t.close)
  {
  }

  /** Reading a well-formed tag's text gives the tag back. */
  lemma ReadTagText(t: Tag)
    requires WellFormed(t)
    ensures ReadTag(TagText(t)) == Some(t)
  {
    var s := TagText(t);
    var n := |t.name|;
    TagTextAt(t);
    var rest := s[1 + n..];
    if t.attrs != [] {
      assert rest[0] == ' ';
    }
    assert s[1..][..n] == t.name;
    NameSpanAt(s[1..], n);
    ReadAttrsText(t.attrs, CloseText(t.close));
    ReadCloseText(t.close);
  }

  /** One step of the attribute reader when `s` starts an attribute. */
  lemma ReadAttrsCons(s: string)
    requires StartsAttr(s) && ReadAttrs(s).Some?
    ensures ReadAttr(s).Some? && ReadAttrs(ReadAttr(s).value.1).Some?
    ensures var rest := ReadAttr(s).value.1;
      ReadAttrs(s).value == ([ReadAttr(s).value.0] + ReadAttrs(rest).value.0, ReadAttrs(rest).value.1)
  {
  }

  lemma Associative(x: string, y: string, z: string)
    ensures (x + y) + z == x + (y + z)
  {
  }

  /** Attributes read one after another are well formed when each is. */
  lemma ConsWellFormed(a: Attr, more: seq<Attr>)
    requires IsName(a.name) && IsValue(a.value) && WellFormedAttrs(more)
    ensures WellFormedAttrs([a] + more)
  {
    assert ([a] + more)[1..] == more;
  }

  /** The text of attributes read one after another. */
  lemma ConsText(a: Attr, more: seq<Attr>)
    ensures AttrsText([a] + more) == AttrText(a) + AttrsText(more)
  {
    assert ([a] + more)[1..] == more;
  }

  /** Whatever the attribute reader returns is well formed and is exactly the text it consumed. */
  lemma {:induction false} ReadAttrsSound(s: string)
    requires ReadAttrs(s).Some?
    ensures WellFormedAttrs(ReadAttrs(s).value.0)
    ensures AttrsText(ReadAttrs(s).value.0) + ReadAttrs(s).value.1 == s
    ensures !StartsAttr(ReadAttrs(s).value.1)
    decreases |s|
  {
    if StartsAttr(s) {
      ReadAttrsCons(s);
      var a := ReadAttr(s).value.0;
      var rest := ReadAttr(s).value.1;
      ReadAttrSound(s);
      ReadAttrsSound(rest);
      var more := ReadAttrs(rest).value.0;
      var tail := ReadAttrs(rest).value.1;
      ConsWellFormed(a, more);
      ConsText(a, more);
      Associative(AttrText(a), AttrsText(more), tail);
    }
  }

  /** One step of the tag reader when it succeeds. */
  lemma ReadTagParts(s: string)
    requires ReadTag(s).Some?
    ensures |s| > 0 && s[0] == '<'
    ensures var n := NameSpan(s[1..]);
      && n > 0 && ReadAttrs(s[1 + n..]).Some?
      && var (attrs, tail) := ReadAttrs(s[1 + n..]).value;
      && ReadClose(tail).Some?
      && ReadTag(s).value == Tag(s[1..1 + n], attrs, ReadClose(tail).value)
  {
  }

  /** Whatever the tag reader returns is a well-formed tag whose text is exactly the input. */
  lemma ReadTagSound(s: string)
    requires ReadTag(s).Some?
    ensures WellFormed(ReadTag(s).value) && TagText(ReadTag(s).value) == s
  {
    ReadTagParts(s);
    var n := NameSpan(s[1..]);
    var t := ReadTag(s).value;
    var tail := ReadAttrs(s[1 + n..]).value.1;
    ReadAttrsSound(s[1 + n..]);
    assert IsName(t.name) by {
      NameSpanChars(s[1..]);
      assert s[1..][..n] == t.name;
    }
    var head := "<" + t.name;
    assert s == head + s[1 + n..] by {
      assert s[..1 + n] == head;
    }
    Associative(head, AttrsText(t.attrs), tail);
  }

  /** An emitted tag line reads back as its tag exactly when the tag is well formed. */
  lemma ReadLineIff(t: Tag, indent: nat)
    ensures ReadLine(IndentLine(TagText(t), indent), indent) == Some(t) <==> WellFormed(t)
  {
    UnindentInverse(IndentLine(TagText(t), indent), TagText(t), indent);
    if WellFormed(t) {
      ReadTagText(t);
    } else if ReadTag(TagText(t)) == Some(t) {
      ReadTagSound(TagText(t));
    }
  }

  /** The first attribute called `name` is the one whose value is looked up. */
  lemma {:induction false} AttrValueAt(attrs: seq<Attr>, name: string, i: nat)
    requires i < |attrs| && attrs[i].name == name
    requires forall j | 0 <= j < i :: attrs[j].name != name
    ensures AttrValue(attrs, name) == Some(attrs[i].value)
  {
    if i > 0 {
      AttrValueAt(attrs[1..], name, i - 1);
    }
  }

  /** What a well-formed tag's line reads back for an attribute is the tag's own value for it. */
  lemma FieldOf(t: Tag, indent: nat, attr: string)
    requires WellFormed(t)
    ensures Field(IndentLine(TagText(t), indent), indent, t.name, attr) == AttrValue(t.attrs, attr)
  {
    ReadLineIff(t, indent);
  }
}
