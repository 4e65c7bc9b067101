/**
 * The reader's test table (reader_test.go), case by case, as instances of
 * the general properties in module ReaderProperties.
 */
module ReaderTests {
  import opened Values
  import opened Strconv
  import opened ReaderSpec
  import opened ReaderProperties

  /** TestNumbers (reader_test.go:10-15). */
  lemma NumberCases()
    ensures Read("1", 0).out == Form(Int(1))
    ensures Read("7", 0).out == Form(Int(7))
    ensures Read("-123", 0).out == Form(Int(-123))
  {
    assert Itoa(1) + "" == "1";
    ReadIntegerRoundTrip(1, "");
    assert Itoa(7) + "" == "7";
    ReadIntegerRoundTrip(7, "");
    assert Itoa(-123) + "" == "-123";
    ReadIntegerRoundTrip(-123, "");
  }

  /** `"  7   "` (reader_test.go:13): leading whitespace is skipped, trailing whitespace ends the number. */
  lemma SpacedNumberCase()
    ensures Read("  7   ", 0).out == Form(Int(7))
  {
    SpacedSeven("  7   ");
    BlanksThenSeven("  7   ");
  }

  lemma BlanksThenSeven(s: string)
    requires |s| >= 3 && Itoa(7) == "7" && At(s, 2, Itoa(7)) && StopsNumber(s[3..])
    requires IsWhitespace(s[0]) && IsWhitespace(s[1]) && !IsWhitespace(s[2]) && s[2] != ';'
    ensures Read(s, 0).out == Form(Int(7))
  {
    ReadsIntegerAt(s, 2, 7);
    ReadAfterWhitespace(s, 0, 2);
  }

  lemma SpacedSeven(s: string)
    requires s == "  7   "
    ensures Itoa(7) == "7" && At(s, 2, Itoa(7)) && StopsNumber(s[3..])
    ensures IsWhitespace(s[0]) && IsWhitespace(s[1]) && !IsWhitespace(s[2]) && s[2] != ';'
  {
    assert Itoa(7) == "7";
    assert s[2..3] == "7";
  }

  /** A token alone reads as what interpretToken makes of it. */
  lemma ReadsWordAlone(t: string)
    requires ValidWord(t)
    ensures Read(t, 0) == Step(Form(InterpretToken(t)), |t|)
  {
    assert t + "" == t;
    ReadRenderRoundTrip(Word(t), "");
  }

  /** TestSymbols (reader_test.go:22). */
  lemma SymbolCase()
    ensures Read("abc-def", 0).out == Form(Symbol("abc-def"))
  {
    assert ValidWord("abc-def");
    ReadsWordAlone("abc-def");
  }

  /** TestDashes (reader_test.go:28): a sign not followed by a digit starts a symbol. */
  lemma DashCase()
    ensures Read("->>", 0).out == Form(Symbol("->>"))
  {
    assert ValidWord("->>");
    ReadsWordAlone("->>");
  }

  /** TestDashes (reader_test.go:26): a lone sign is a symbol. */
  lemma LoneDashCase()
    ensures Read("-", 0).out == Form(Symbol("-"))
  {
    assert ValidWord("-");
    ReadsWordAlone("-");
  }

  /** TestNilTrueFalse (reader_test.go:50). */
  lemma NilCase()
    ensures Read("nil", 0).out == Form(Nil)
  {
    assert ValidWord("nil");
    ReadsWordAlone("nil");
  }

  /** TestKeywords (reader_test.go:115). */
  lemma KeywordCase()
    ensures Read(":kw", 0).out == Form(Keyword("kw"))
  {
    assert ValidWord(":kw");
    ReadsWordAlone(":kw");
  }

  /** The text of two and of three items. */
  lemma RenderPair(a: Syntax, b: Syntax)
    ensures RenderItems([a, b]) == Render(a) + " " + Render(b)
  {
    assert [a, b][1..] == [b];
  }

  lemma RenderTriple(a: Syntax, b: Syntax, c: Syntax)
    ensures RenderItems([a, b, c]) == Render(a) + " " + Render(b) + " " + Render(c)
  {
    assert [a, b, c][1..] == [b, c];
    RenderPair(b, c);
  }

  /** The values of two and of three items. */
  lemma DenotePair(a: Syntax, b: Syntax)
    requires WellFormed(a) && WellFormed(b)
    ensures Denotes([a, b]) == [Denote(a), Denote(b)]
  {
    assert [a, b][1..] == [b];
    assert [b][1..] == [];
  }

  lemma DenoteTriple(a: Syntax, b: Syntax, c: Syntax)
    requires WellFormed(a) && WellFormed(b) && WellFormed(c)
    ensures Denotes([a, b, c]) == [Denote(a), Denote(b), Denote(c)]
  {
    assert [a, b, c][1..] == [b, c];
    DenotePair(b, c);
  }

  /** `(+ 1 2)` (reader_test.go:32). */
  lemma SimpleListCase()
    ensures Read("(+ 1 2)", 0).out == Form(List([Symbol("+"), Int(1), Int(2)]))
  {
    var e := Group(Parens, [Word("+"), Number(1), Number(2)]);
    assert Itoa(1) == "1" && Itoa(2) == "2";
    assert Render(e) + "" == "(+ 1 2)";
    assert WellFormed(e);
    assert Denote(e) == List([Symbol("+"), Int(1), Int(2)]);
    ReadRenderRoundTrip(e, "");
  }

  /** `(+ 2 3)`, the inner list of reader_test.go:37, and its text. */
  function SumOfTwoThree(b: Bracket): Syntax {
    Group(b, [Word("+"), Number(2), Number(3)])
  }

  function NestedSum(b: Bracket): Syntax {
    Group(b, [Word("+"), Number(1), SumOfTwoThree(b)])
  }

  lemma SumOfTwoThreeText(b: Bracket)
    ensures Render(SumOfTwoThree(b)) == [Opener(b)] + "+ 2 3" + [Closer(b)]
  {
    assert Itoa(2) == "2" && Itoa(3) == "3";
    RenderTriple(Word("+"), Number(2), Number(3));
  }

  lemma NestedSumText(b: Bracket)
    ensures Render(NestedSum(b)) == [Opener(b)] + ("+ 1 " + Render(SumOfTwoThree(b))) + [Closer(b)]
  {
    SumAroundText(b, SumOfTwoThree(b));
  }

  /** The text of `(+ 1 x)` for any item `x`. */
  lemma SumAroundText(b: Bracket, x: Syntax)
    ensures Render(Group(b, [Word("+"), Number(1), x])) == [Opener(b)] + ("+ 1 " + Render(x)) + [Closer(b)]
  {
    var r := Render(x);
    assert Render(Number(1)) == "1" by {
      assert Itoa(1) == "1";
    }
    RenderTriple(Word("+"), Number(1), x);
    SpacedSum(r);
    GroupText(b, [Word("+"), Number(1), x], "+ 1 " + r);
  }

  lemma SpacedSum(r: string)
    ensures "+" + " " + "1" + " " + r == "+ 1 " + r
  {
  }

  /** A group's text is its items' text between its brackets. */
  lemma GroupText(b: Bracket, items: seq<Syntax>, body: string)
    requires RenderItems(items) == body
    ensures Render(Group(b, items)) == [Opener(b)] + body + [Closer(b)]
  {
  }

  lemma NestedSumValue(b: Bracket)
    requires b != Braces
    ensures WellFormed(NestedSum(b))
    ensures Denotes(NestedSum(b).items) == [Symbol("+"), Int(1), Denote(SumOfTwoThree(b))]
    ensures Denotes(SumOfTwoThree(b).items) == [Symbol("+"), Int(2), Int(3)]
  {
    DenoteTriple(Word("+"), Number(2), Number(3));
    DenoteTriple(Word("+"), Number(1), SumOfTwoThree(b));
  }

  /** `(+ 1 (+ 2 3))` (reader_test.go:37): lists nest. */
  lemma NestedListCase()
    ensures Read("(+ 1 (+ 2 3))", 0).out ==
      Form(List([Symbol("+"), Int(1), List([Symbol("+"), Int(2), Int(3)])]))
  {
    NestedSumText(Parens);
    SumOfTwoThreeText(Parens);
    assert Render(NestedSum(Parens)) + "" == "(+ 1 (+ 2 3))";
    NestedSumValue(Parens);
    ReadRenderRoundTrip(NestedSum(Parens), "");
  }

  /** `[+ 1 [+ 2 3]]` (reader_test.go:124): vectors nest. */
  lemma NestedVectorCase()
    ensures Read("[+ 1 [+ 2 3]]", 0).out ==
      Form(Vector([Symbol("+"), Int(1), Vector([Symbol("+"), Int(2), Int(3)])]))
  {
    NestedSumText(Brackets);
    SumOfTwoThreeText(Brackets);
    assert Render(NestedSum(Brackets)) + "" == "[+ 1 [+ 2 3]]";
    NestedSumValue(Brackets);
    ReadRenderRoundTrip(NestedSum(Brackets), "");
  }

  /** The two empty lists inside `(()())`, one after the other. */
  lemma EmptyListsItems(s: string)
    requires s == "(()())"
    ensures ReadDelimited(s, 1, ')', ListAcc([])) == Closed(ListAcc([List([]), List([])]), 6)
  {
    var empty := Group(Parens, []);
    assert Render(empty) == "()";
    assert At(s, 1, "()") && s[3..] == "())";
    ReadsRenderedAt(s, 1, empty);
    ItemAtForm(s, 1);
    assert AddItem(ListAcc([]), List([])) == ListAcc([List([])]);
    DelimitedItem(s, 1, 1, ')', ListAcc([]), List([]), 3);
    assert At(s, 3, "()") && s[5..] == ")";
    ReadsRenderedAt(s, 3, empty);
    ItemAtForm(s, 3);
    assert AddItem(ListAcc([List([])]), List([])) == ListAcc([List([]), List([])]);
    DelimitedItem(s, 3, 3, ')', ListAcc([List([])]), List([]), 5);
    DelimitedEnd(s, 5, 5, ')', ListAcc([List([]), List([])]));
  }

  /**
   * `(()())` (reader_test.go:42): items need no space between them when
   * a bracket ends one and starts the next.
   */
  lemma EmptyListsCase(s: string)
    requires s == "(()())"
    ensures Read(s, 0).out == Form(List([List([]), List([])]))
  {
    EmptyListsItems(s);
    OpenerDispatch(s, 0, Parens);
    ReadAfterWhitespace(s, 0, 0);
  }

  function InnerMap(): Syntax {
    Group(Braces, [Text("b"), Number(2)])
  }

  function NestedMap(): Syntax {
    Group(Braces, [Text("a"), InnerMap()])
  }

  lemma InnerMapText()
    ensures Render(InnerMap()) == "{\"b\" 2}"
  {
    InnerItemsText();
    GroupText(Braces, [Text("b"), Number(2)], "\"b\" 2");
    InnerMapLiteral();
  }

  lemma InnerItemsText()
    ensures RenderItems([Text("b"), Number(2)]) == "\"b\" 2"
  {
    RenderedTwo();
    RenderedB();
    RenderPair(Text("b"), Number(2));
    InnerItemsLiteral();
  }

  lemma RenderedTwo()
    ensures Render(Number(2)) == "2"
  {
    assert Itoa(2) == "2";
  }

  lemma RenderedB()
    ensures Render(Text("b")) == "\"b\""
  {
    assert Quote("b") == "\"b\"";
  }

  lemma InnerItemsLiteral()
    ensures "\"b\"" + " " + "2" == "\"b\" 2"
  {
  }

  lemma InnerMapLiteral()
    ensures [Opener(Braces)] + "\"b\" 2" + [Closer(Braces)] == "{\"b\" 2}"
  {
  }

  lemma NestedMapText()
    ensures Render(NestedMap()) == "{\"a\" {\"b\" 2}}"
  {
    assert Quote("a") == "\"a\"";
    RenderPair(Text("a"), InnerMap());
    InnerMapText();
    assert Render(NestedMap()) == "{" + ("\"a\"" + " " + "{\"b\" 2}") + "}";
  }

  lemma NestedMapValue()
    ensures WellFormed(NestedMap())
    ensures Denote(NestedMap()) == Map([(Str("a"), Map([(Str("b"), Int(2))]))])
  {
    DenotePair(Text("b"), Number(2));
    assert Denote(InnerMap()) == Map([(Str("b"), Int(2))]);
    DenotePair(Text("a"), InnerMap());
  }

  /** `{"a" {"b" 2}}` (reader_test.go:133): maps nest. */
  lemma NestedMapCase()
    ensures Read("{\"a\" {\"b\" 2}}", 0).out == Form(Map([(Str("a"), Map([(Str("b"), Int(2))]))]))
  {
    NestedMapText();
    assert Render(NestedMap()) + "" == "{\"a\" {\"b\" 2}}";
    NestedMapValue();
    ReadRenderRoundTrip(NestedMap(), "");
  }

  /** TestStrings (reader_test.go:59): an escaped quote. */
  lemma EscapedQuoteCase()
    ensures Read("\"abc\\\"def\"", 0).out == Form(Str("abc\"def"))
  {
    QuoteAroundQuote("abc", "def");
    assert "abc" + ("\"" + "def") == "abc\"def";
    assert "\"" + ("abc" + ("\\\"" + "def")) + "\"" + "" == "\"abc\\\"def\"";
    ReadStringRoundTrip("abc\"def", "");
  }

  /** The literal for plain text, a quote and plain text. */
  lemma QuoteAroundQuote(a: string, b: string)
    requires forall i :: 0 <= i < |a| ==> a[i] != '"' && a[i] != '\\'
    requires forall i :: 0 <= i < |b| ==> b[i] != '"' && b[i] != '\\'
    ensures Quote(a + ("\"" + b)) == "\"" + (a + ("\\\"" + b)) + "\""
  {
    EscapeAllAppend(a, "\"" + b);
    EscapeAllAppend("\"", b);
    EscapePlain(a);
    EscapePlain(b);
    assert EscapeAll("\"") == "\\\"";
    assert EscapeAll(a + ("\"" + b)) == a + ("\\\"" + b);
  }

  /** TestCharacters (reader_test.go:98). */
  lemma LetterCase()
    ensures Read("\\a", 0).out == Form(Char('a'))
  {
    assert Render(Letter('a')) + "" == "\\a";
    ReadRenderRoundTrip(Letter('a'), "");
  }

  /** The letters of a character name are token constituents. */
  lemma NewlineIsOneToken(s: string)
    requires s == "\\newline"
    ensures forall i :: 2 <= i < |s| ==> !EndsToken(s[i]) && !NonConstituent(s[i])
    ensures s[1..|s|] == "newline" && s[|s|..] == []
  {
  }

  /** TestCharacters (reader_test.go:100): a character name. */
  lemma NamedCharacterCase(s: string)
    requires s == "\\newline"
    ensures Read(s, 0).out == Form(Char('\n'))
  {
    NewlineForm(s);
    ReadAfterWhitespace(s, 0, 0);
  }

  lemma NewlineForm(s: string)
    requires s == "\\newline"
    ensures ReadFormAt(s, 0) == Step(Form(Char('\n')), |s|)
  {
    NewlineIsOneToken(s);
    ReadsCharacterAt(s, 0, |s|);
    CharacterNames(s[1..|s|]);
  }

  /** A token after `\` that is neither one byte long nor a name is unsupported. */
  lemma UnknownCharacterNameCase(s: string)
    requires s == "\\xyz"
    ensures Read(s, 0) == Step(Fail(UnsupportedCharacter("xyz")), 4)
  {
    assert |s| == 4 && s[0] == '\\' && s[1..] == "xyz";
    BackslashXyz(s);
  }

  /** A backslash, then the three-letter token `xyz`. */
  lemma BackslashXyz(s: string)
    requires |s| == 4 && s[0] == '\\' && s[1..] == "xyz"
    ensures Read(s, 0) == Step(Fail(UnsupportedCharacter("xyz")), 4)
  {
    assert s[2] == 'y' && s[3] == 'z';
    assert s[1..4] == "xyz" && s[4..] == [];
    TokenLetter('y');
    TokenLetter('z');
    XyzIsNoName();
    RejectsUnknownCharacterName(s, 0, 4);
    ReadAfterWhitespace(s, 0, 0);
  }

  lemma TokenLetter(ch: char)
    requires ch == 'y' || ch == 'z'
    ensures !EndsToken(ch) && !NonConstituent(ch)
  {
  }

  lemma XyzIsNoName()
    ensures Utf8Length("xyz") == 3 && !IsCharacterName("xyz")
  {
  }

  /** A digit-led run that is neither an integer nor a float is an invalid number. */
  lemma InvalidNumberCase(s: string)
    requires s == "1x"
    ensures Read(s, 0) == Step(Fail(InvalidNumber("1x")), 2)
  {
    assert s[0..2] == s && s[2..] == [];
    assert !AllDigits(s[SignLength(s)..]) by {
      assert !IsAsciiDigit(s[1]);
    }
    assert DigitRun(s, 0) == 1 by {
      assert DigitRun(s, 2) == 2;
    }
    RejectsInvalidNumber(s, 0, 2);
    ReadAfterWhitespace(s, 0, 0);
  }

  /** TestErrors (reader_test.go:106): a vector without its closing bracket. */
  lemma UnclosedVectorCase()
    ensures Read("[1 2", 0).out == Fail(EndOfInput)
  {
    UnclosedVectorText();
    RejectsUnclosedGroup(Brackets, [Number(1), Number(2)]);
  }

  lemma UnclosedVectorText()
    ensures [Opener(Brackets)] + RenderItems([Number(1), Number(2)]) == "[1 2"
    ensures WellFormed(Group(Brackets, [Number(1), Number(2)]))
  {
    assert Itoa(1) == "1" && Itoa(2) == "2";
    RenderPair(Number(1), Number(2));
  }

  /** TestErrors (reader_test.go:107-109): strings without their closing quote. */
  lemma UnterminatedStringCases()
    ensures Read("\"abc", 0).out == Fail(UnterminatedString)
    ensures Read("\"", 0).out == Fail(UnterminatedString)
    ensures Read("\"\\\"", 0).out == Fail(UnterminatedString)
  {
    EscapePlain("abc");
    assert "\"" + EscapeAll("abc") == "\"abc";
    RejectsUnterminatedString("abc");
    assert "\"" + EscapeAll("") == "\"";
    RejectsUnterminatedString("");
    assert "\"" + EscapeAll("\"") == "\"\\\"";
    RejectsUnterminatedString("\"");
  }

  /** TestErrors (reader_test.go:110): a string left open inside a list reports the string's error. */
  lemma UnterminatedStringInListCase()
    ensures Read("(1 \"abc", 0).out == Fail(UnterminatedString)
  {
    var s := "(1 \"abc";
    assert s[1..2] == "1" && s[4..] == "abc";
    OpenListWithOpenString(s);
  }

  /** `(`, the int 1, a blank, then an open string of plain letters. */
  lemma OpenListWithOpenString(s: string)
    requires |s| == 7 && s[0] == '(' && s[1..2] == "1" && s[2] == ' ' && s[3] == '"' && s[4..] == "abc"
    ensures Read(s, 0).out == Fail(UnterminatedString)
  {
    OpenStringItem(s);
    ReadAfterWhitespace(s, 0, 0);
    OpenerDispatch(s, 0, Parens);
    OneThenFailingItem(s);
  }

  /** Inside the list, the open string is an item that fails. */
  lemma OpenStringItem(s: string)
    requires |s| == 7 && s[3] == '"' && s[4..] == "abc"
    ensures ItemAt(s, 3) == Step(Fail(UnterminatedString), |s|)
  {
    EscapePlain("abc");
    StringBodyUnterminated(s, 4, [], "abc");
  }

  /** The int 1 is collected, then the failing item stops the list with its error. */
  lemma OneThenFailingItem(s: string)
    requires |s| == 7 && s[1..2] == "1" && s[2] == ' ' && s[3] == '"'
    requires ItemAt(s, 3) == Step(Fail(UnterminatedString), |s|)
    ensures ReadDelimited(s, 1, ')', Empty(Parens)) == Stopped(ListAcc([Int(1)]), UnterminatedString, |s|)
  {
    assert Itoa(1) == "1";
    ReadsIntegerAt(s, 1, 1);
    ItemAtForm(s, 1);
    SkipWhitespaceAt(s, 1, 1);
    DelimitedItem(s, 1, 1, ')', Empty(Parens), Int(1), 2);
    SkipWhitespaceAt(s, 2, 3);
    ItemErrorAborts(s, 2, ')', AddItem(Empty(Parens), Int(1)));
  }

  /** TestErrors (reader_test.go:111): a list without its closing parenthesis. */
  lemma UnclosedListCase()
    ensures Read("(1 \"abc\"", 0).out == Fail(EndOfInput)
  {
    UnclosedListText();
    RejectsUnclosedGroup(Parens, [Number(1), Text("abc")]);
  }

  lemma UnclosedListText()
    ensures [Opener(Parens)] + RenderItems([Number(1), Text("abc")]) == "(1 \"abc\""
    ensures WellFormed(Group(Parens, [Number(1), Text("abc")]))
  {
    RenderedOne();
    RenderedAbc();
    RenderPair(Number(1), Text("abc"));
    UnclosedListLiteral();
    PairWellFormed(Parens, Number(1), Text("abc"));
  }

  lemma RenderedOne()
    ensures Render(Number(1)) == "1"
  {
    assert Itoa(1) == "1";
  }

  lemma RenderedAbc()
    ensures Render(Text("abc")) == "\"abc\""
  {
    EscapePlain("abc");
  }

  lemma UnclosedListLiteral()
    ensures [Opener(Parens)] + ("1" + " " + "\"abc\"") == "(1 \"abc\""
  {
  }

  /** A list or vector of two well-formed items is well formed. */
  lemma PairWellFormed(b: Bracket, x: Syntax, y: Syntax)
    requires b != Braces && WellFormed(x) && WellFormed(y)
    ensures WellFormed(Group(b, [x, y]))
  {
  }

  /** TestComments (reader_test.go:141-154): whatever the comment after a form holds, it is never read. */
  lemma CommentCases(comment: string)
    ensures Read("1 ;" + comment, 0).out == Form(Int(1))
    ensures Read("1;" + comment, 0).out == Form(Int(1))
  {
    assert Itoa(1) == "1";
    var spaced, close := " ;" + comment, ";" + comment;
    assert spaced[0] == ' ' && close[0] == ';';
    ReadIntegerRoundTrip(1, spaced);
    assert "1 ;" + comment == Itoa(1) + spaced;
    ReadIntegerRoundTrip(1, close);
    assert "1;" + comment == Itoa(1) + close;
  }

  /** A comment before a form drops only the one character after `;`. */
  lemma CommentBeforeFormCase()
    ensures Read(";abc", 0).out == Form(Symbol("bc"))
  {
    var s := ";abc";
    ReadPastComment(s, 0, 0);
    TokenAfterComment(s);
    ReadAfterWhitespace(s, 2, 2);
  }

  lemma TokenAfterComment(s: string)
    requires s == ";abc"
    ensures ReadFormAt(s, 2) == Step(Form(Symbol("bc")), 4)
  {
    assert ValidWord("bc");
    assert At(s, 2, "bc") && s[4..] == [];
    ReadsTokenAt(s, 2, "bc");
  }

  /** `{nil 1 2}`: a nil key is dropped and the pairing moves on. */
  lemma NilKeyCase()
    ensures Read("{nil 1 2}", 0).out == Form(Map([(Int(1), Int(2))]))
  {
    var s := "{nil 1 2}";
    var items := [Word("nil"), Number(1), Number(2)];
    NilKeyItems(s, items);
    ReadOpenedGroup(s, Braces, items, MapAcc([(Int(1), Int(2))], Nil), 8);
  }

  lemma NilKeyItems(s: string, items: seq<Syntax>)
    requires s == "{nil 1 2}" && items == [Word("nil"), Number(1), Number(2)]
    ensures forall i :: 0 <= i < |items| ==> WellFormed(items[i])
    ensures At(s, 0, [Opener(Braces)] + RenderItems(items)) && 8 == 1 + |RenderItems(items)|
    ensures IsCloser(s[8])
    ensures Feed(Empty(Braces), Denotes(items)) == Some(MapAcc([(Int(1), Int(2))], Nil))
  {
    assert Itoa(1) == "1" && Itoa(2) == "2";
    RenderTriple(Word("nil"), Number(1), Number(2));
    assert RenderItems(items) == "nil 1 2";
    DenoteTriple(Word("nil"), Number(1), Number(2));
    ReadPairs(Int(1), Int(2));
  }

  lemma ReadPairs(k: Value, v: Value)
    requires GoodKey(k)
    ensures Feed(MapAcc([], Nil), [Nil, k, v]) == Some(MapAcc([(k, v)], Nil))
  {
    assert [Nil, k, v][1..] == [k, v];
    assert [k, v][1..] == [v];
    assert [v][1..] == [];
    assert Feed(MapAcc([], Nil), [Nil, k, v]) == Feed(MapAcc([], Nil), [k, v]);
    assert Feed(MapAcc([], Nil), [k, v]) == Feed(MapAcc([], k), [v]);
    assert Put([], k, v) == [(k, v)];
    assert Feed(MapAcc([], k), [v]) == Feed(MapAcc([(k, v)], Nil), []);
  }
}
