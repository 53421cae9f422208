/** What `get_token` promises, stated on `LexToken` without reference to the
    run-end helper: one characterisation per kind of token, the shape of an
    identifier, the EOF cases, and worked inputs. */
module LexerProperties {
  import opened CharClasses
  import opened Lexing

  predicate AllBlank(s: seq<char>, i: nat, j: nat)
    requires i <= j <= |s|
  {
    forall m :: i <= m < j ==> IsWhitespace(s[m])
  }

  /** Blanks are skipped: lexing after some of the leading blanks gives the
      same token and the same final cursor as lexing before them. */
  lemma LeadingBlanksIrrelevant(s: seq<char>, i: nat, i': nat)
    requires i <= i' <= |s|
    requires AllBlank(s, i, i')
    ensures LexToken(s, i) == LexToken(s, i')
  {
    var j := RunEnd(s, i', Blank);
    RunEndIs(s, i, Blank, j);
  }

  /** Nothing but blanks left (or nothing at all): EOF, cursor at the end. */
  lemma EofOnBlankRest(s: seq<char>, i: nat)
    requires i <= |s|
    requires AllBlank(s, i, |s|)
    ensures LexToken(s, i) == Scan(Tok(EOF), |s|)
  {
    RunEndIs(s, i, Blank, |s|);
  }

  /** EOF happens only at the end of input: either only blanks remained, or
      a `#` at `j` began a comment that no line end closes. */
  lemma EofOnlyAtEnd(s: seq<char>, i: nat) returns (j: nat)
    requires i <= |s|
    requires LexToken(s, i).result == Tok(EOF)
    ensures LexToken(s, i).next == |s|
    ensures i <= j <= |s| && AllBlank(s, i, j)
    ensures j == |s| || (s[j] == '#' && forall m :: j < m < |s| ==> !IsLineEnd(s[m]))
  {
    j := RunEnd(s, i, Blank);
    if j < |s| {
      var c := s[j];
      assert !IsAlphabetic(c) && !IsNumeric(c);
      var k := RunEnd(s, j + 1, CommentBody);
      assert c == '#' && k == |s|;
    }
  }

  /** An identifier: blanks up to `j`, a letter at `j`, alphanumerics up to
      `k`.  The word yields IF or FOR as soon as its first two or three
      characters spell one, and an IDENTIFIER of the whole word otherwise. */
  lemma IdentifierAt(s: seq<char>, i: nat, j: nat, k: nat)
    requires i <= j < k <= |s|
    requires AllBlank(s, i, j) && IsAlphabetic(s[j])
    requires forall m :: j < m < k ==> IsAlphanumeric(s[m])
    requires k == |s| || !IsAlphanumeric(s[k])
    ensures LexToken(s, i) ==
      if BeginsWithIf(s[j..k]) then Scan(Tok(IF), j + 2)
      else if BeginsWithFor(s[j..k]) then Scan(Tok(FOR), j + 3)
      else Scan(Tok(IDENTIFIER(s[j..k])), k)
  {
    RunEndIs(s, i, Blank, j);
    RunEndIs(s, j + 1, Alphanumeric, k);
    assert [s[j]] + s[j + 1..k] == s[j..k];
  }

  /** A number: blanks up to `j`, a numeric character at `j`, numeric
      characters and dots up to `k`.  The whole run is the literal, and a run
      that is not a floating-point literal aborts. */
  lemma NumberAt(s: seq<char>, i: nat, j: nat, k: nat)
    requires i <= j < k <= |s|
    requires AllBlank(s, i, j) && IsNumeric(s[j])
    requires forall m :: j < m < k ==> IsNumeric(s[m]) || s[m] == '.'
    requires k == |s| || !(IsNumeric(s[k]) || s[k] == '.')
    ensures LexToken(s, i) ==
      Scan(if IsFloatLiteral(s[j..k]) then Tok(NUMBER(s[j..k])) else BadNumber(s[j..k]), k)
  {
    RunEndIs(s, i, Blank, j);
    RunEndIs(s, j + 1, NumberPart, k);
    assert [s[j]] + s[j + 1..k] == s[j..k];
  }

  /** A comment: blanks up to `j`, `#` at `j`, no line end strictly between
      `j` and `k`.  A line end at `k` is consumed with the comment; the end of
      input at `k` turns the comment into EOF. */
  lemma CommentAt(s: seq<char>, i: nat, j: nat, k: nat)
    requires i <= j < k <= |s|
    requires AllBlank(s, i, j) && s[j] == '#'
    requires forall m :: j < m < k ==> !IsLineEnd(s[m])
    requires k == |s| || IsLineEnd(s[k])
    ensures LexToken(s, i) == if k == |s| then Scan(Tok(EOF), |s|) else Scan(Tok(COMMENT), k + 1)
  {
    RunEndIs(s, i, Blank, j);
    RunEndIs(s, j + 1, CommentBody, k);
  }

  /** Any other significant character is consumed alone as a CHARACTER. */
  lemma CharacterAt(s: seq<char>, i: nat, j: nat)
    requires i <= j < |s|
    requires AllBlank(s, i, j) && !IsWhitespace(s[j])
    requires !IsAlphanumeric(s[j]) && s[j] != '#'
    ensures LexToken(s, i) == Scan(Tok(CHARACTER(s[j])), j + 1)
  {
    RunEndIs(s, i, Blank, j);
  }

  /** An IDENTIFIER's name is exactly the characters consumed after the
      blanks: non-empty, a letter first, alphanumeric throughout, followed by
      no further alphanumeric, and not beginning with a keyword. */
  lemma IdentifierShape(s: seq<char>, i: nat, name: string)
    requires i <= |s|
    requires LexToken(s, i).result == Tok(IDENTIFIER(name))
    ensures var next := LexToken(s, i).next;
      && i + |name| <= next
      && s[next - |name|..next] == name
      && AllBlank(s, i, next - |name|)
      && |name| > 0 && IsAlphabetic(name[0])
      && (forall m :: 0 <= m < |name| ==> IsAlphanumeric(name[m]))
      && (next == |s| || !IsAlphanumeric(s[next]))
      && !BeginsWithIf(name) && !BeginsWithFor(name)
  {
    var j := RunEnd(s, i, Blank);
    var c := s[j];
    assert IsAlphabetic(c);
    var k := RunEnd(s, j + 1, Alphanumeric);
    assert LexToken(s, i) == ScanIdentifier(c, s, j + 1);
    assert name == [c] + s[j + 1..k] == s[j..k];
  }

  /** Keywords are detected on prefixes: "iffy" lexes as IF then IDENTIFIER
      "fy", and "forest" as FOR then IDENTIFIER "est". */
  lemma IffyIsIfThenFy()
    ensures LexToken("iffy", 0) == Scan(Tok(IF), 2)
    ensures LexToken("iffy", 2) == Scan(Tok(IDENTIFIER("fy")), 4)
    ensures LexToken("iffy", 4) == Scan(Tok(EOF), 4)
  {
    var s := "iffy";
    IdentifierAt(s, 0, 0, 4);
    IdentifierAt(s, 2, 2, 4);
    assert s[2..4] == "fy";
    EofOnBlankRest(s, 4);
  }

  lemma ForestIsForThenEst()
    ensures LexToken("forest", 0) == Scan(Tok(FOR), 3)
    ensures LexToken("forest", 3) == Scan(Tok(IDENTIFIER("est")), 6)
  {
    var s := "forest";
    IdentifierAt(s, 0, 0, 6);
    IdentifierAt(s, 3, 3, 6);
    assert s[3..6] == "est";
  }

  /** "3.14" is one NUMBER. */
  lemma DecimalNumber()
    ensures LexToken(" 3.14", 0) == Scan(Tok(NUMBER("3.14")), 5)
  {
    var s := " 3.14";
    NumberAt(s, 0, 1, 5);
    var t := "3.14";
    assert s[1..5] == t;
    assert IsAsciiDigit(t[0]);
    assert forall m, n :: 0 <= m < n < |t| ==> !(t[m] == '.' && t[n] == '.');
  }

  /** "1.2.3" is scanned as one run and then fails to convert. */
  lemma TwoDotsAbort()
    ensures LexToken("1.2.3;", 0) == Scan(BadNumber("1.2.3"), 5)
  {
    var s := "1.2.3;";
    NumberAt(s, 0, 0, 5);
    var t := "1.2.3";
    assert s[0..5] == t;
    assert t[1] == '.' && t[3] == '.';
  }

  /** "1 # note\n2": NUMBER, COMMENT (through the line end), NUMBER, EOF. */
  lemma CommentBetweenNumbers()
    ensures LexToken("1 # c\n2", 0) == Scan(Tok(NUMBER("1")), 1)
    ensures LexToken("1 # c\n2", 1) == Scan(Tok(COMMENT), 6)
    ensures LexToken("1 # c\n2", 6) == Scan(Tok(NUMBER("2")), 7)
    ensures LexToken("1 # c\n2", 7) == Scan(Tok(EOF), 7)
  {
    var s := "1 # c\n2";
    NumberAt(s, 0, 0, 1);
    assert s[0..1] == "1" && IsAsciiDigit(s[0]);
    CommentAt(s, 1, 2, 5);
    NumberAt(s, 6, 6, 7);
    assert s[6..7] == "2" && IsAsciiDigit(s[6]);
    EofOnBlankRest(s, 7);
  }

  /** An unterminated comment ends the token stream. */
  lemma UnterminatedComment()
    ensures LexToken("x # c", 1) == Scan(Tok(EOF), 5)
  {
    CommentAt("x # c", 1, 2, 5);
  }
}
