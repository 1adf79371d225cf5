/** The documentation scan of `processFunction`: the first comment token
    on the line above the function supplies the doc string when it is a
    `///` comment. */
module DocScanner {
  import opened Wrappers
  import opened Ast

  /** `function->line() - 1` in C `unsigned` arithmetic: line 0 wraps to
      the largest line number. */
  function PrecedingLine(line: uint32): (r: uint32)
    ensures (r + 1) % 0x1_0000_0000 == line
    ensures line > 0 ==> r < line
  {
    if line == 0 then 0xFFFF_FFFF else line - 1
  }

  /** Comment `i` is the first comment token on `line`. */
  ghost predicate FirstOnLine(comments: seq<Comment>, line: uint32, i: int)
  {
    && 0 <= i < |comments|
    && comments[i].line == line
    && forall j :: 0 <= j < i ==> comments[j].line != line
  }

  /** The linear scan over all comment tokens, stopping at the first one on `line`. */
  function FirstCommentOn(comments: seq<Comment>, line: uint32): (r: Option<nat>)
    ensures r.Some? ==> FirstOnLine(comments, line, r.value)
    ensures r.None? ==> forall j :: 0 <= j < |comments| ==> comments[j].line != line
  {
    if |comments| == 0 then None
    else if comments[0].line == line then Some(0)
    else match FirstCommentOn(comments[1..], line)
      case None => None
      case Some(i) => Some(i + 1)
  }

  /** `strlen`: the characters before the first NUL (the end of the
      sequence stands for the buffer's terminating NUL). */
  function CStrLen(text: string): (r: nat)
    ensures r <= |text|
    ensures forall j :: 0 <= j < r ==> text[j] != '\0'
    ensures r == |text| || text[r] == '\0'
  {
    if |text| == 0 || text[0] == '\0' then 0 else 1 + CStrLen(text[1..])
  }

  predicate IsLineEnd(c: char)
  {
    c == '\0' || c == '\n' || c == '\r'
  }

  /** The copy loop: characters from offset `i` up to the first NUL, `\n` or `\r`. */
  function DocChars(text: string, i: nat): (r: string)
    requires i <= |text|
    ensures i + |r| <= |text| && r == text[i..i + |r|]
    ensures forall k :: 0 <= k < |r| ==> !IsLineEnd(r[k])
    ensures i + |r| == |text| || IsLineEnd(text[i + |r|])
    decreases |text| - i
  {
    if i == |text| || IsLineEnd(text[i]) then "" else [text[i]] + DocChars(text, i + 1)
  }

  /** A comment the scan accepts: longer than three characters as a C
      string, and starting with `///`. */
  predicate IsDocComment(text: string)
  {
    CStrLen(text) > 3 && StartsWith(text, "///")
  }

  /** `r` is the doc text of `text`: the characters after the marker up
      to, not including, the first line end. */
  ghost predicate IsDocText(text: string, r: string)
  {
    && 3 + |r| <= |text|
    && r == text[3..3 + |r|]
    && (forall k :: 0 <= k < |r| ==> !IsLineEnd(r[k]))
    && (3 + |r| == |text| || IsLineEnd(text[3 + |r|]))
  }

  /** The doc text of a comment is unique. */
  lemma DocTextUnique(text: string, r1: string, r2: string)
    requires IsDocText(text, r1) && IsDocText(text, r2)
    ensures r1 == r2
  {
  }

  /** The doc string of a function on `line`: taken from the first comment
      on the preceding line when it is a doc comment; empty when that
      comment is not one (a later `///` comment on the same line is never
      considered) or when there is no comment on that line. */
  function DocString(comments: seq<Comment>, line: uint32): (r: string)
    ensures (forall j :: 0 <= j < |comments| ==> comments[j].line != PrecedingLine(line)) ==> r == ""
    ensures forall i :: FirstOnLine(comments, PrecedingLine(line), i) && !IsDocComment(comments[i].text) ==> r == ""
    ensures forall i :: FirstOnLine(comments, PrecedingLine(line), i) && IsDocComment(comments[i].text) ==> IsDocText(comments[i].text, r)
  {
    match FirstCommentOn(comments, PrecedingLine(line))
    case None => ""
    case Some(i) =>
      var text := comments[i].text;
      if IsDocComment(text) then DocChars(text, 3) else ""
  }
}
