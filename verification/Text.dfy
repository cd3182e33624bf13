/** String helpers shared by the services: Go's strings.TrimSpace, blank texts,
    and lower case. */
module Text {

  // The characters unicode.IsSpace accepts.
  predicate IsSpace(c: char) {
    || c == ' '
    || '\U{0009}' <= c <= '\U{000D}'
    || c == '\U{0085}'
    || c == '\U{00A0}'
    || c == '\U{1680}'
    || '\U{2000}' <= c <= '\U{200A}'
    || c == '\U{2028}' || c == '\U{2029}' || c == '\U{202F}' || c == '\U{205F}' || c == '\U{3000}'
  }

  function TrimLeft(s: string): string {
    if s == "" || !IsSpace(s[0]) then s else TrimLeft(s[1..])
  }

  function TrimRight(s: string): string {
    if s == "" || !IsSpace(s[|s| - 1]) then s else TrimRight(s[..|s| - 1])
  }

  function Trim(s: string): string {
    TrimRight(TrimLeft(s))
  }

  predicate Blank(s: string) {
    Trim(s) == ""
  }

  // Neither the first nor the last character is a space.
  predicate Trimmed(s: string) {
    s == "" || (!IsSpace(s[0]) && !IsSpace(s[|s| - 1]))
  }

  lemma {:induction false} TrimLeftIsSuffix(s: string)
    ensures var r := TrimLeft(s); |r| <= |s| && r == s[|s| - |r|..] && (r != "" ==> !IsSpace(r[0]))
  {
    if s != "" && IsSpace(s[0]) {
      TrimLeftIsSuffix(s[1..]);
    }
  }

  lemma {:induction false} TrimRightIsPrefix(s: string)
    ensures var r := TrimRight(s); |r| <= |s| && r == s[..|r|] && (r != "" ==> !IsSpace(r[|r| - 1]))
  {
    if s != "" && IsSpace(s[|s| - 1]) {
      TrimRightIsPrefix(s[..|s| - 1]);
    }
  }

  // Trimming removes characters from the two ends only, and leaves no space there.
  lemma TrimIsTrimmed(s: string)
    ensures Trimmed(Trim(s))
    ensures forall c :: c in Trim(s) ==> c in s
  {
    TrimLeftIsSuffix(s);
    TrimRightIsPrefix(TrimLeft(s));
  }

  // Lower case for the letters whose lower case is an ASCII letter; no other
  // letter becomes one.
  function Lower(c: char): char {
    if 'A' <= c <= 'Z' then c - 'A' + 'a'
    else if c == '\U{0130}' then 'i'
    else if c == '\U{212A}' then 'k'
    else c
  }

  function Lowered(s: string): string {
    seq(|s|, i requires 0 <= i < |s| => Lower(s[i]))
  }

  lemma TrimmedIsFixed(s: string)
    requires Trimmed(s)
    ensures Trim(s) == s
  {
  }

  lemma TrimDropsLeadingSpace(s: string)
    ensures Trim([' '] + s) == Trim(s)
  {
    assert ([' '] + s)[1..] == s;
  }

  // White_Space of Unicode, all of which is trimmed and nothing else.
  const WHITE_SPACE := "\t\n\U{000B}\U{000C}\r \U{0085}\U{00A0}\U{1680}\U{2000}\U{2001}\U{2002}\U{2003}\U{2004}\U{2005}\U{2006}\U{2007}\U{2008}\U{2009}\U{200A}\U{2028}\U{2029}\U{202F}\U{205F}\U{3000}"

  lemma TrimDropsWhiteSpace(c: char)
    ensures Trim([c]) == (if c in WHITE_SPACE then "" else [c])
    ensures Blank([c]) <==> c in WHITE_SPACE
  {
    SpacesAreWhite(c);
    assert [c][1..] == "" && [c][..0] == "";
    assert TrimLeft([c]) == if IsSpace(c) then "" else [c];
    assert TrimRight([c]) == if IsSpace(c) then "" else [c];
  }

  lemma SpacesAreWhite(c: char)
    ensures IsSpace(c) <==> c in WHITE_SPACE
  {
    assert c in WHITE_SPACE <==> exists i :: 0 <= i < 25 && WHITE_SPACE[i] == c;
  }

  // Capitals are 32 below the small letters; the dotted capital i and the
  // Kelvin sign are the other two whose small letter is ASCII.
  lemma LoweredLetters(s: string, i: nat)
    requires i < |s|
    ensures |Lowered(s)| == |s|
    ensures 65 <= s[i] as int <= 90 ==> Lowered(s)[i] as int == s[i] as int + 32
    ensures s[i] as int == 0x130 ==> Lowered(s)[i] as int == 105
    ensures s[i] as int == 0x212A ==> Lowered(s)[i] as int == 107
    ensures !(65 <= s[i] as int <= 90) && s[i] as int != 0x130 && s[i] as int != 0x212A ==> Lowered(s)[i] == s[i]
  {
  }
}
