/** The lexer that strips line comments from JSON (internal/bootstrap/configfile.go). String literals and their
    escapes are those of section 7 of RFC 8259. */
module Jsonc {

  newtype Byte = b: int | 0 <= b < 256

  const NEWLINE: Byte := 10
  const QUOTE: Byte := 34
  const SLASH: Byte := 47
  const BACKSLASH: Byte := 92

  datatype Mode = Plain | InString | Escaped

  function Next(mode: Mode, b: Byte): Mode {
    match mode
    case Escaped => InString
    case InString => if b == BACKSLASH then Escaped else if b == QUOTE then Plain else InString
    case Plain => if b == QUOTE then InString else Plain
  }

  predicate StartsComment(data: seq<Byte>, mode: Mode) {
    mode == Plain && |data| > 1 && data[0] == SLASH && data[1] == SLASH
  }

  /** What is left after the rest of the line; the newline stays. */
  function SkipLine(data: seq<Byte>): (rest: seq<Byte>)
    ensures |rest| <= |data|
    ensures rest != [] ==> rest[0] == NEWLINE
  {
    if data == [] || data[0] == NEWLINE then data else SkipLine(data[1..])
  }

  function Strip(data: seq<Byte>, mode: Mode): seq<Byte>
    decreases |data|
  {
    if data == [] then []
    else if StartsComment(data, mode) then Strip(SkipLine(data[1..]), Plain)
    else [data[0]] + Strip(data[1..], Next(mode, data[0]))
  }

  // ---- The byte loop ----------------------------------------------------------------------------

  function ModeOf(inString: bool, escaped: bool): Mode {
    if escaped then Escaped else if inString then InString else Plain
  }

  method StripComments(data: seq<Byte>) returns (out: seq<Byte>)
    ensures out == Strip(data, Plain)
  {
    hide Strip, SkipLine;
    out := [];
    var inString, escaped := false, false;
    var i := 0;
    assert data[0..] == data;
    while i < |data|
      invariant 0 <= i <= |data| && (escaped ==> inString)
      invariant out + Strip(data[i..], ModeOf(inString, escaped)) == Strip(data, Plain)
      decreases |data| - i
    {
      var b := data[i];
      StripStep(data[i..], ModeOf(inString, escaped));
      ghost var rest := data[i..];
      assert rest[0] == b && rest[1..] == data[i + 1..];
      if escaped {
        out := out + [b];
        escaped := false;
        i := i + 1;
        continue;
      }
      if inString {
        out := out + [b];
        if b == BACKSLASH {
          escaped := true;
        } else if b == QUOTE {
          inString := false;
        }
        i := i + 1;
        continue;
      }
      if b == QUOTE {
        inString := true;
        out := out + [b];
        i := i + 1;
        continue;
      }
      if b == SLASH && i + 1 < |data| && data[i + 1] == SLASH {
        assert StartsComment(rest, Plain);
        i := SkipComment(data, i);
        StripStep(data[i..], Plain);
        if i < |data| {
          out := out + [NEWLINE];
          assert data[i..][1..] == data[i + 1..];
          i := i + 1;
        }
        continue;
      }
      assert !StartsComment(rest, Plain) by {
        assert i + 1 < |data| ==> rest[1] == data[i + 1];
      }
      out := out + [b];
      i := i + 1;
    }
    StripStep(data[i..], ModeOf(inString, escaped));
  }

  method SkipComment(data: seq<Byte>, start: nat) returns (i: nat)
    requires start + 1 < |data| && data[start] == SLASH
    ensures start < i <= |data| && data[i..] == SkipLine(data[start..][1..])
    ensures i < |data| ==> data[i] == NEWLINE
  {
    i := start;
    while i < |data| && data[i] != NEWLINE
      invariant start <= i <= |data|
      invariant i == start || SkipLine(data[start..][1..]) == SkipLine(data[i..])
    {
      assert data[i..][1..] == data[i + 1..];
      i := i + 1;
    }
  }

  lemma {:induction false} StripStep(data: seq<Byte>, mode: Mode)
    ensures data == [] ==> Strip(data, mode) == []
    ensures StartsComment(data, mode) ==> Strip(data, mode) == Strip(SkipLine(data[1..]), Plain)
    ensures data != [] && !StartsComment(data, mode) ==>
              Strip(data, mode) == [data[0]] + Strip(data[1..], Next(mode, data[0]))
  {
  }

  // ---- Comment-free text ------------------------------------------------------------------------

  /** No two slashes stand side by side outside string literals. */
  predicate Clean(data: seq<Byte>, mode: Mode) {
    data == [] || (!StartsComment(data, mode) && Clean(data[1..], Next(mode, data[0])))
  }

  lemma {:induction false} StripStarts(data: seq<Byte>, mode: Mode)
    ensures Strip(data, mode) != [] && (mode != Plain || data == [] || data[0] != SLASH) ==>
              data != [] && Strip(data, mode)[0] == data[0]
    ensures StartsComment(data, mode) && Strip(data, mode) != [] ==> Strip(data, mode)[0] == NEWLINE
  {
  }

  /** The result has no comment left, whatever the input. */
  lemma {:induction false} ResultIsClean(data: seq<Byte>, mode: Mode)
    ensures Clean(Strip(data, mode), mode)
    decreases |data|
  {
    if data == [] {
    } else if StartsComment(data, mode) {
      ResultIsClean(SkipLine(data[1..]), Plain);
    } else {
      var rest := Strip(data[1..], Next(mode, data[0]));
      ResultIsClean(data[1..], Next(mode, data[0]));
      assert ([data[0]] + rest)[1..] == rest;
      StripStarts(data[1..], Next(mode, data[0]));
    }
  }

  lemma {:induction false} NeverLonger(data: seq<Byte>, mode: Mode)
    ensures |Strip(data, mode)| <= |data|
    decreases |data|
  {
    if data == [] {
    } else if StartsComment(data, mode) {
      NeverLonger(SkipLine(data[1..]), Plain);
    } else {
      NeverLonger(data[1..], Next(mode, data[0]));
    }
  }

  /** A text is left as it is exactly when it has no comment. */
  lemma {:induction false} UnchangedIffClean(data: seq<Byte>, mode: Mode)
    ensures Strip(data, mode) == data <==> Clean(data, mode)
    decreases |data|
  {
    if data == [] {
    } else if StartsComment(data, mode) {
      NeverLonger(SkipLine(data[1..]), Plain);
    } else {
      UnchangedIffClean(data[1..], Next(mode, data[0]));
      var rest := Strip(data[1..], Next(mode, data[0]));
      assert ([data[0]] + rest)[1..] == rest;
      assert data == [data[0]] + data[1..];
    }
  }

  /** Stripping twice is stripping once. */
  lemma {:induction false} FixedPoint(data: seq<Byte>, mode: Mode)
    ensures Strip(Strip(data, mode), mode) == Strip(data, mode)
  {
    ResultIsClean(data, mode);
    UnchangedIffClean(Strip(data, mode), mode);
  }

  // ---- Lines ------------------------------------------------------------------------------------

  function Newlines(data: seq<Byte>): nat {
    if data == [] then 0 else (if data[0] == NEWLINE then 1 else 0) + Newlines(data[1..])
  }

  lemma {:induction false} SkipKeepsLines(data: seq<Byte>)
    ensures Newlines(SkipLine(data)) == Newlines(data)
  {
    if data != [] && data[0] != NEWLINE {
      SkipKeepsLines(data[1..]);
    }
  }

  /** Error positions stay on their lines. */
  lemma {:induction false} LinesKept(data: seq<Byte>, mode: Mode)
    ensures Newlines(Strip(data, mode)) == Newlines(data)
    decreases |data|
  {
    if data == [] {
    } else if StartsComment(data, mode) {
      SkipKeepsLines(data[1..]);
      LinesKept(SkipLine(data[1..]), Plain);
    } else {
      LinesKept(data[1..], Next(mode, data[0]));
      var rest := Strip(data[1..], Next(mode, data[0]));
      assert ([data[0]] + rest)[1..] == rest;
    }
  }

  // ---- String literals --------------------------------------------------------------------------

  /** The string literals of a text with comments, without their opening quotes; `open` is what has been read of
      the current one. A literal that is never closed counts as far as it goes. */
  function Literals(data: seq<Byte>, mode: Mode, open: seq<Byte>): seq<seq<Byte>>
    decreases |data|
  {
    if data == [] then (if mode == Plain then [] else [open])
    else if StartsComment(data, mode) then Literals(SkipLine(data[1..]), Plain, open)
    else
      var next := Next(mode, data[0]);
      if mode == Plain then Literals(data[1..], next, [])
      else if next == Plain then [open + [data[0]]] + Literals(data[1..], Plain, [])
      else Literals(data[1..], next, open + [data[0]])
  }

  lemma {:induction false} LiteralsStep(data: seq<Byte>, mode: Mode, open: seq<Byte>)
    requires data != [] && !StartsComment(data, mode)
    ensures
      var next := Next(mode, data[0]);
      Literals(data, mode, open) ==
      if mode == Plain then Literals(data[1..], next, [])
      else if next == Plain then [open + [data[0]]] + Literals(data[1..], Plain, [])
      else Literals(data[1..], next, open + [data[0]])
  {
  }

  /** Every string literal survives byte for byte, including its escapes, and no new one appears. */
  lemma {:induction false} LiteralsKept(data: seq<Byte>, mode: Mode, open: seq<Byte>)
    ensures Literals(Strip(data, mode), mode, open) == Literals(data, mode, open)
    decreases |data|
  {
    if data == [] {
    } else if StartsComment(data, mode) {
      LiteralsKept(SkipLine(data[1..]), Plain, open);
    } else {
      var next := Next(mode, data[0]);
      var out := Strip(data, mode);
      ResultIsClean(data, mode);
      assert out[0] == data[0] && out[1..] == Strip(data[1..], next);
      LiteralsStep(data, mode, open);
      LiteralsStep(out, mode, open);
      LiteralsKept(data[1..], next, if mode == Plain || next == Plain then [] else open + [data[0]]);
    }
  }
}
