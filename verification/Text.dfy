/** Text primitives shared by the other modules: the parts of Go's `strings` and
    `unicode` packages that the modelled code relies on. */
module Text {

  datatype Option<+T> = None | Some(value: T)

  /** Go's `unicode.IsSpace`: the six ASCII blanks plus the Unicode White_Space code points. */
  predicate IsSpace(c: char) {
    var u := c as int;
    || 0x09 <= u <= 0x0D || u == 0x20 || u == 0x85 || u == 0xA0 || u == 0x1680
    || 0x2000 <= u <= 0x200A || u == 0x2028 || u == 0x2029 || u == 0x202F || u == 0x205F || u == 0x3000
  }

  function TrimLeft(s: string): string {
    if s != "" && IsSpace(s[0]) then TrimLeft(s[1..]) else s
  }

  function TrimRight(s: string): string {
    if s != "" && IsSpace(s[|s| - 1]) then TrimRight(s[..|s| - 1]) else s
  }

  /** Go's `strings.TrimSpace`. */
  function Trim(s: string): string {
    TrimRight(TrimLeft(s))
  }

  lemma {:induction false} TrimRightKeepsFront(s: string)
    ensures TrimRight(s) <= s
    ensures TrimRight(s) == "" || !IsSpace(TrimRight(s)[|TrimRight(s)| - 1])
  {
    if s != "" && IsSpace(s[|s| - 1]) {
      TrimRightKeepsFront(s[..|s| - 1]);
    }
  }

  lemma {:induction false} TrimLeftFront(s: string)
    ensures TrimLeft(s) == "" || !IsSpace(TrimLeft(s)[0])
  {
    if s != "" && IsSpace(s[0]) {
      TrimLeftFront(s[1..]);
    }
  }

  /** A string is its own trimming exactly when no blank stands at either end. */
  lemma {:induction false} TrimFixed(s: string)
    ensures Trim(s) == s <==> s == "" || (!IsSpace(s[0]) && !IsSpace(s[|s| - 1]))
  {
    TrimLeftFront(s);
    TrimRightKeepsFront(TrimLeft(s));
    if s != "" && !IsSpace(s[0]) {
      assert TrimLeft(s) == s;
    } else if s != "" {
      TrimLeftShorter(s);
    }
  }

  lemma {:induction false} TrimLeftShorter(s: string)
    ensures |TrimLeft(s)| <= |s|
    ensures s != "" && IsSpace(s[0]) ==> |TrimLeft(s)| < |s|
  {
    if s != "" && IsSpace(s[0]) {
      TrimLeftShorter(s[1..]);
    }
  }

  lemma {:induction false} TrimLeadingBlank(s: string)
    ensures Trim(" " + s) == Trim(s)
  {
    assert (" " + s)[1..] == s;
  }

  /** Lower-casing as far as a search for ASCII fragments can observe it: besides A-Z, the only code
      points whose Go lower case is an ASCII letter are the Kelvin sign and the dotted capital I. */
  function LowerChar(c: char): char {
    if 'A' <= c <= 'Z' then (c as int + 32) as char
    else if c as int == 0x212A then 'k'
    else if c as int == 0x130 then 'i'
    else c
  }

  function Lower(s: string): string {
    seq(|s|, i requires 0 <= i < |s| => LowerChar(s[i]))
  }

  predicate Contains(s: string, fragment: string) {
    fragment <= s || (s != "" && Contains(s[1..], fragment))
  }

  predicate HasPrefix(s: string, prefix: string) {
    prefix <= s
  }

  /** Go's `strings.EqualFold` against an ASCII word: simple folding also maps the long s to s. */
  predicate EqualFold(s: string, word: string) {
    |s| == |word| &&
    forall i | 0 <= i < |s| ::
      (if s[i] as int == 0x17F then 's' else LowerChar(s[i])) == LowerChar(word[i])
  }
}
