/**
 * The line emitter shared by both scripts: every write puts 2·indent spaces,
 * then the text, then a newline.
 */
module Lines {
  import opened Results

  /** `n` space characters. */
  function Spaces(n: nat): (s: string)
    ensures |s| == n
    ensures forall i | 0 <= i < n :: s[i] == ' '
  {
    if n == 0 then "" else Spaces(n - 1) + " "
  }

  /** The chunk one indented write appends to a file. */
  function IndentLine(txt: string, indent: nat): string
  {
    Spaces(2 * indent) + txt + "\n"
  }

  /** An indented line: 2·indent spaces, the text, and a final newline. */
  lemma IndentLineShape(txt: string, indent: nat)
    ensures var line := IndentLine(txt, indent);
      && |line| == 2 * indent + |txt| + 1
      && (forall i | 0 <= i < 2 * indent :: line[i] == ' ')
      && line[2 * indent..|line| - 1] == txt
      && line[|line| - 1] == '\n'
  {
  }

  /** Reads a chunk back: exactly 2·indent leading spaces and a final newline are stripped. */
  function Unindent(line: string, indent: nat): Option<string>
  {
    var k := 2 * indent;
    if |line| < k + 1 || line[|line| - 1] != '\n' then None
    else if exists i | 0 <= i < k :: line[i] != ' ' then None
    else Some(line[k..|line| - 1])
  }

  /** Reading a line back at its indentation gives its text, and only the emitted line reads back so. */
  lemma UnindentInverse(line: string, txt: string, indent: nat)
    ensures Unindent(line, indent) == Some(txt) <==> line == IndentLine(txt, indent)
  {
    var k := 2 * indent;
    if line == IndentLine(txt, indent) {
      assert Unindent(line, indent) == Some(txt);
    }
    if Unindent(line, indent) == Some(txt) {
      assert line[..k] == Spaces(k);
      assert line == line[..k] + line[k..|line| - 1] + [line[|line| - 1]];
    }
  }

  /** Chunks written one after another extend what was written before, in order. */
  lemma Written2(s: seq<string>, x0: string, x1: string)
    ensures s + [x0] + [x1] == s + [x0, x1]
  {
  }

  /** Three chunks written in turn. */
  lemma Written3(s: seq<string>, x0: string, x1: string, x2: string)
    ensures s + [x0] + [x1] + [x2] == s + [x0, x1, x2]
  {
  }

  /** Eight chunks written in turn. */
  lemma Written8(s: seq<string>, x0: string, x1: string, x2: string, x3: string, x4: string, x5: string, x6: string, x7: string)
    ensures s + [x0] + [x1] + [x2] + [x3] + [x4] + [x5] + [x6] + [x7] == s + [x0, x1, x2, x3, x4, x5, x6, x7]
  {
  }

  /** Fifteen chunks written in turn. */
  lemma Written15(s: seq<string>, x0: string, x1: string, x2: string, x3: string, x4: string, x5: string, x6: string, x7: string, x8: string, x9: string, x10: string, x11: string, x12: string, x13: string, x14: string)
    ensures s + [x0] + [x1] + [x2] + [x3] + [x4] + [x5] + [x6] + [x7] + [x8] + [x9] + [x10] + [x11] + [x12] + [x13] + [x14] == s + [x0, x1, x2, x3, x4, x5, x6, x7, x8, x9, x10, x11, x12, x13, x14]
  {
  }
}
