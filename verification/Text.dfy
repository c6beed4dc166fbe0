/** String helpers. */
module Text {

  predicate HasPrefix(s: string, p: string) {
    |p| <= |s| && s[..|p|] == p
  }

  predicate Contains(s: string, sub: string) {
    exists i :: 0 <= i <= |s| && HasPrefix(s[i..], sub)
  }

  /** Unicode white space. */
  predicate IsSpace(c: char) {
    || c in "\t\n\r " || c == '\U{b}' || c == '\U{c}' || c == '\U{85}' || c == '\U{a0}' || c == '\U{1680}'
    || '\U{2000}' <= c <= '\U{200a}' || c in ['\U{2028}', '\U{2029}', '\U{202f}', '\U{205f}', '\U{3000}']
  }

  /** The 25 code points with the property White_Space. */
  lemma SpaceCodePoints(c: char)
    ensures IsSpace(c) <==>
            || 0x9 <= c as int <= 0xd || 0x2000 <= c as int <= 0x200a
            || c as int in {0x20, 0x85, 0xa0, 0x1680, 0x2028, 0x2029, 0x202f, 0x205f, 0x3000}
  {
  }

  /** Code-point order, which is the byte order of the UTF-8 encodings. */
  predicate LexLess(a: string, b: string) {
    if a == [] || b == [] then b != []
    else a[0] < b[0] || (a[0] == b[0] && LexLess(a[1..], b[1..]))
  }

  lemma {:induction false} LexLessIrreflexive(a: string)
    ensures !LexLess(a, a)
  {
    if a == [] {
    } else {
      LexLessIrreflexive(a[1..]);
    }
  }
}
