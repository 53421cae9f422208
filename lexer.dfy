/** The lexer of src/lexer.rs: a character sequence and a cursor, from which
    `GetToken` pulls one token at a time.

    The methods of class `Lexer` follow the source's loops; each is proved
    against a closed-form scanning function (`LexToken`, `ScanIdentifier`,
    `ScanNumber`) defined by maximal runs of a character class (`RunEnd`). */
module Lexing {
  import opened CharClasses

  datatype Option<T> = None | Some(value: T)

  /** The tokens of src/lexer.rs.  A NUMBER carries the text the lexer scanned
      (a valid literal, see `IsFloatLiteral`) instead of the `f64` it denotes. */
  datatype Token =
    | EOF
    | IF
    | FOR
    | COMMENT
    | IDENTIFIER(name: string)
    | NUMBER(literal: string)
    | CHARACTER(c: char)

  /** What `get_token` yields: a token, or the panic of `unwrap` when the
      scanned number text is not a floating-point literal. */
  datatype LexResult = Tok(token: Token) | BadNumber(text: string)

  /** A scan's outcome together with the cursor it leaves behind. */
  datatype Scan = Scan(result: LexResult, next: nat)

  predicate IsAsciiDigit(c: char)
  {
    '0' <= c <= '9'
  }

  /** The texts that Rust's `str::parse::<f64>` accepts among those the number
      scanner can build (numeric characters and dots): ASCII digits and dots
      only, at least one digit, at most one dot. */
  predicate IsFloatLiteral(t: string)
  {
    && (forall m :: 0 <= m < |t| ==> IsAsciiDigit(t[m]) || t[m] == '.')
    && (exists m :: 0 <= m < |t| && IsAsciiDigit(t[m]))
    && (forall m, n :: 0 <= m < n < |t| ==> !(t[m] == '.' && t[n] == '.'))
  }

  /** The character classes whose maximal runs the scanners consume. */
  datatype Class = Blank | Alphanumeric | NumberPart | CommentBody

  predicate Member(k: Class, c: char)
  {
    match k
    case Blank => IsWhitespace(c)
    case Alphanumeric => IsAlphanumeric(c)
    case NumberPart => IsNumeric(c) || c == '.'
    case CommentBody => !IsLineEnd(c)
  }

  /** The end of the maximal run of class `k` that starts at `i`. */
  function RunEnd(s: seq<char>, i: nat, k: Class): (j: nat)
    requires i <= |s|
    ensures i <= j <= |s|
    ensures forall m :: i <= m < j ==> Member(k, s[m])
    ensures j == |s| || !Member(k, s[j])
    decreases |s| - i
  {
    if i == |s| || !Member(k, s[i]) then i else RunEnd(s, i + 1, k)
  }

  /** A run end is determined by its two defining properties. */
  lemma RunEndIs(s: seq<char>, i: nat, k: Class, j: nat)
    requires i <= j <= |s|
    requires forall m :: i <= m < j ==> Member(k, s[m])
    requires j == |s| || !Member(k, s[j])
    ensures RunEnd(s, i, k) == j
  {
  }

  /** A run covering `[i, j)` ends no earlier than `j`. */
  lemma RunEndAtLeast(s: seq<char>, i: nat, k: Class, j: nat)
    requires i <= j <= |s|
    requires forall m :: i <= m < j ==> Member(k, s[m])
    ensures j <= RunEnd(s, i, k)
  {
  }

  /** `get_identifier`: the name is `first` followed by the maximal
      alphanumeric run at `i`, but the keyword test runs after every
      character, so a name that BEGINS with "if" or "for" stops there and
      yields the keyword, leaving the rest of the word unread. */
  function ScanIdentifier(first: char, s: seq<char>, i: nat): (r: Scan)
    requires i <= |s|
    ensures i <= r.next <= |s|
  {
    var j := RunEnd(s, i, Alphanumeric);
    var id := [first] + s[i..j];
    if BeginsWithIf(id) then Scan(Tok(IF), i + 1)
    else if BeginsWithFor(id) then Scan(Tok(FOR), i + 2)
    else Scan(Tok(IDENTIFIER(id)), j)
  }

  predicate BeginsWithIf(id: string)
  {
    |id| >= 2 && id[0] == 'i' && id[1] == 'f'
  }

  predicate BeginsWithFor(id: string)
  {
    |id| >= 3 && id[0] == 'f' && id[1] == 'o' && id[2] == 'r'
  }

  /** `get_number`: `first` followed by the maximal run of numeric characters
      and dots at `i`; the text must then be a floating-point literal. */
  function ScanNumber(first: char, s: seq<char>, i: nat): (r: Scan)
    requires i <= |s|
    ensures i <= r.next <= |s|
  {
    var j := RunEnd(s, i, NumberPart);
    var text := [first] + s[i..j];
    Scan(if IsFloatLiteral(text) then Tok(NUMBER(text)) else BadNumber(text), j)
  }

  /** `get_token` from cursor `i`: skip blanks, then dispatch on the first
      significant character.  End of input, reached while skipping blanks or
      inside a comment, gives EOF with the cursor at the end. */
  function LexToken(s: seq<char>, i: nat): (r: Scan)
    requires i <= |s|
    ensures i <= r.next <= |s|
    ensures r.result != Tok(EOF) ==> i < r.next
  {
    var j := RunEnd(s, i, Blank);
    if j == |s| then Scan(Tok(EOF), |s|) else Classify(s, j)
  }

  /** The dispatch of `get_token` on the significant character at `j`, which
      the cursor has already passed. */
  function Classify(s: seq<char>, j: nat): (r: Scan)
    requires j < |s|
    ensures j < r.next <= |s|
  {
    var c := s[j];
    if IsAlphabetic(c) then ScanIdentifier(c, s, j + 1)
    else if IsNumeric(c) then ScanNumber(c, s, j + 1)
    else if c == '#' then ScanComment(s, j + 1)
    else Scan(Tok(CHARACTER(c)), j + 1)
  }

  /** The comment branch of `get_token`: everything up to and including the
      first line end; EOF when the input ends first. */
  function ScanComment(s: seq<char>, i: nat): (r: Scan)
    requires i <= |s|
    ensures i <= r.next <= |s|
  {
    var k := RunEnd(s, i, CommentBody);
    if k == |s| then Scan(Tok(EOF), |s|) else Scan(Tok(COMMENT), k + 1)
  }

  /** `Lexer` of src/lexer.rs: the input never changes, the cursor `idx`
      only moves forward. */
  class Lexer {
    const input: seq<char>
    var idx: nat

    ghost predicate Valid()
      reads this
    {
      idx <= |input|
    }

    constructor (input: seq<char>)
      ensures this.input == input && idx == 0
      ensures Valid()
    {
      this.input := input;
      idx := 0;
    }

    /** The character under the cursor, if any; never moves the cursor. */
    function GetChar(): (r: Option<char>)
      reads this
      ensures r.Some? <==> idx < |input|
      ensures r.Some? ==> r.value == input[idx]
    {
      if idx < |input| then Some(input[idx]) else None
    }

    method Progress()
      modifies this
      ensures idx == old(idx) + 1
    {
      idx := idx + 1;
    }

    method GetToken() returns (r: LexResult)
      requires Valid()
      modifies this
      ensures Valid()
      ensures Scan(r, idx) == LexToken(input, old(idx))
    {
      var lastChar: char;
      var c := GetChar();
      match c {
        case Some(ch) =>
          lastChar := ch;
          Progress();
        case None =>
          RunEndIs(input, idx, Blank, idx);
          return Tok(EOF);
      }

      while IsWhitespace(lastChar)
        invariant old(idx) < idx <= |input|
        invariant lastChar == input[idx - 1]
        invariant forall m :: old(idx) <= m < idx - 1 ==> IsWhitespace(input[m])
        decreases |input| - idx
      {
        c := GetChar();
        match c {
          case Some(ch) =>
            lastChar := ch;
            Progress();
          case None =>
            RunEndIs(input, old(idx), Blank, |input|);
            return Tok(EOF);
        }
      }
      ghost var start := idx - 1;
      RunEndIs(input, old(idx), Blank, start);

      if IsAlphabetic(lastChar) {
        var t := GetIdentifier(lastChar);
        return Tok(t);
      }

      if IsNumeric(lastChar) {
        r := GetNumber(lastChar);
        return;
      }

      if lastChar == '#' {
        r := SkipComment();
        return;
      }

      return Tok(CHARACTER(lastChar));
    }

    /** The comment loop of `get_token`, entered with the cursor just past
        the `#`: reads up to and including the first line end. */
    method SkipComment() returns (r: LexResult)
      requires Valid()
      modifies this
      ensures Valid()
      ensures Scan(r, idx) == ScanComment(input, old(idx))
    {
      var lastChar := '#';
      while lastChar != '\n' && lastChar != '\r'
        invariant old(idx) <= idx <= |input|
        invariant idx == old(idx) ==> lastChar == '#'
        invariant idx > old(idx) ==> lastChar == input[idx - 1]
        invariant forall m :: old(idx) <= m < idx - 1 ==> !IsLineEnd(input[m])
        decreases |input| - idx
      {
        var c := GetChar();
        match c {
          case Some(ch) =>
            lastChar := ch;
            Progress();
          case None =>
            RunEndIs(input, old(idx), CommentBody, |input|);
            return Tok(EOF);
        }
      }
      RunEndIs(input, old(idx), CommentBody, idx - 1);
      return Tok(COMMENT);
    }

    method GetIdentifier(startingChar: char) returns (t: Token)
      requires Valid()
      modifies this
      ensures Valid()
      ensures Scan(Tok(t), idx) == ScanIdentifier(startingChar, input, old(idx))
    {
      var id := [startingChar];
      var c := GetChar();
      while c.Some?
        invariant old(idx) <= idx <= |input|
        invariant c == GetChar()
        invariant id == [startingChar] + input[old(idx)..idx]
        invariant forall m :: old(idx) <= m < idx ==> IsAlphanumeric(input[m])
        invariant !BeginsWithIf(id) && !BeginsWithFor(id)
        decreases |input| - idx
      {
        var nextChar := c.value;
        if !IsAlphanumeric(nextChar) {
          break;
        }
        id := id + [nextChar];
        Progress();
        c := GetChar();
        if id == "if" {
          RunEndAtLeast(input, old(idx), Alphanumeric, idx);
          ghost var name := [startingChar] + input[old(idx)..RunEnd(input, old(idx), Alphanumeric)];
          assert name[0] == id[0] && name[1] == id[1];
          return IF;
        }
        if id == "for" {
          RunEndAtLeast(input, old(idx), Alphanumeric, idx);
          ghost var name := [startingChar] + input[old(idx)..RunEnd(input, old(idx), Alphanumeric)];
          assert name[0] == id[0] && name[1] == id[1] && name[2] == id[2];
          return FOR;
        }
      }
      RunEndIs(input, old(idx), Alphanumeric, idx);
      return IDENTIFIER(id);
    }

    method GetNumber(startingChar: char) returns (r: LexResult)
      requires Valid()
      modifies this
      ensures Valid()
      ensures Scan(r, idx) == ScanNumber(startingChar, input, old(idx))
    {
      var num := [startingChar];
      var c := GetChar();
      while c.Some?
        invariant old(idx) <= idx <= |input|
        invariant c == GetChar()
        invariant num == [startingChar] + input[old(idx)..idx]
        invariant forall m :: old(idx) <= m < idx ==> IsNumeric(input[m]) || input[m] == '.'
        decreases |input| - idx
      {
        var nextChar := c.value;
        if !(IsNumeric(nextChar) || nextChar == '.') {
          break;
        }
        num := num + [nextChar];
        Progress();
        c := GetChar();
      }
      RunEndIs(input, old(idx), NumberPart, idx);
      r := if IsFloatLiteral(num) then Tok(NUMBER(num)) else BadNumber(num);
    }
  }
}
