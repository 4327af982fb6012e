/**
 * Identifiers drawn from a random source: the text of a version-4 UUID,
 * 32 hexadecimal digits in groups of 8-4-4-4-12 joined by hyphens, with
 * the digits upper-cased where the scripts upper-case them.
 */
module Uuids {

  predicate IsHexDigit(c: char, upper: bool)
  {
    ('0' <= c <= '9') || (if upper then 'A' <= c <= 'F' else 'a' <= c <= 'f')
  }

  predicate IsHyphenPosition(i: int)
  {
    i == 8 || i == 13 || i == 18 || i == 23
  }

  predicate IsUuid(s: string, upper: bool)
  {
    && |s| == 36
    && forall i | 0 <= i < 36 :: if IsHyphenPosition(i) then s[i] == '-' else IsHexDigit(s[i], upper)
  }

  /** `str(uuid4()).upper()` */
  type Uuid = s: string | IsUuid(s, true) witness "00000000-0000-0000-0000-000000000000"

  /** `uuid4()` as formatted by an f-string, in lower case. */
  type LowerUuid = s: string | IsUuid(s, false) witness "00000000-0000-0000-0000-000000000000"

  /** No character of a UUID's text is a double quote or a slash. */
  lemma UuidChars(s: string, upper: bool, i: int)
    requires IsUuid(s, upper) && 0 <= i < |s|
    ensures s[i] != '"' && s[i] != '/' && s[i] != ' '
  {
    if !IsHyphenPosition(i) {
      assert IsHexDigit(s[i], upper);
    }
  }
}
