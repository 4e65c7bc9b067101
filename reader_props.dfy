/**
 * Properties of the reader functions of module ReaderSpec: where each
 * scan stops, how numbers, tokens, strings, characters and collections
 * read, the error cases, and the literal behaviour of the comment and map
 * readers.
 */
module ReaderProperties {
  import opened Values
  import opened Strconv
  import opened ReaderSpec

  // ---------------------------------------------------------------------
  // Text at a position
  // ---------------------------------------------------------------------

  /** The input holds `t` from position `p` on. */
  predicate At(s: string, p: nat, t: string) {
    p + |t| <= |s| && s[p..p + |t|] == t
  }

  lemma AtIndex(s: string, p: nat, t: string, i: nat)
    requires At(s, p, t) && i < |t|
    ensures s[p + i] == t[i]
  {
    assert s[p..p + |t|][i] == s[p + i];
  }

  lemma AtSplit(s: string, p: nat, a: string, b: string)
    requires At(s, p, a + b)
    ensures At(s, p, a) && At(s, p + |a|, b)
  {
    assert s[p..p + |a|] == (a + b)[..|a|];
    assert s[p + |a|..p + |a| + |b|] == (a + b)[|a|..];
  }

  lemma AtPrefix(a: string, b: string)
    ensures At(a + b, 0, a)
  {
    assert (a + b)[0..|a|] == a;
  }

  // ---------------------------------------------------------------------
  // Where the scans stop
  // ---------------------------------------------------------------------

  lemma {:induction false} SkipWhitespaceAt(s: string, p: nat, q: nat)
    requires p <= q <= |s|
    requires forall i :: p <= i < q ==> IsWhitespace(s[i])
    requires q < |s| ==> !IsWhitespace(s[q])
    ensures SkipWhitespace(s, p) == q
    decreases q - p
  {
    if p < q {
      SkipWhitespaceAt(s, p + 1, q);
    }
  }

  lemma {:induction false} NumberEndAt(s: string, p: nat, q: nat)
    requires p <= q <= |s|
    requires forall i :: p <= i < q ==> !IsWhitespace(s[i]) && !IsMacro(s[i])
    requires q < |s| ==> IsWhitespace(s[q]) || IsMacro(s[q])
    ensures NumberEnd(s, p) == q
    decreases q - p
  {
    if p < q {
      NumberEndAt(s, p + 1, q);
    }
  }

  lemma {:induction false} TokenStopAt(s: string, p: nat, q: nat)
    requires p <= q <= |s|
    requires forall i :: p <= i < q ==> !EndsToken(s[i]) && !NonConstituent(s[i])
    requires q < |s| ==> EndsToken(s[q]) || NonConstituent(s[q])
    ensures TokenStop(s, p) == q
    decreases q - p
  {
    if p < q {
      TokenStopAt(s, p + 1, q);
    }
  }

  /** A character that ends a number: whitespace, a macro character, or nothing. */
  predicate StopsNumber(rest: string) {
    rest == [] || IsWhitespace(rest[0]) || IsMacro(rest[0])
  }

  // ---------------------------------------------------------------------
  // Reading a form once whitespace is skipped
  // ---------------------------------------------------------------------

  /** Read skips whitespace and then reads the form at the first other character. */
  lemma ReadAfterWhitespace(s: string, p: nat, q: nat)
    requires p <= q < |s|
    requires forall i :: p <= i < q ==> IsWhitespace(s[i])
    requires !IsWhitespace(s[q]) && s[q] != ';'
    ensures Read(s, p) == ReadFormAt(s, q)
  {
    SkipWhitespaceAt(s, p, q);
  }

  /** Only the comment macro starts over: `;` and one more character are dropped. */
  lemma CommentSkipsOneCharacter(s: string, q: nat)
    requires q + 1 < |s| && s[q] == ';'
    ensures ReadFormAt(s, q) == Step(NoOp, q + 2)
  {
  }

  /** Read starts over two characters after a `;`, whatever the comment held. */
  lemma ReadPastComment(s: string, p: nat, q: nat)
    requires p <= q && q + 1 < |s| && s[q] == ';'
    requires forall i :: p <= i < q ==> IsWhitespace(s[i])
    ensures Read(s, p) == Read(s, q + 2)
  {
    SkipWhitespaceAt(s, p, q);
    CommentSkipsOneCharacter(s, q);
  }

  /** At the end of the input the comment reader never returns. */
  lemma CommentAtEndHangs(s: string)
    requires |s| > 0 && s[|s| - 1] == ';'
    ensures ReadFormAt(s, |s| - 1) == Step(Fail(Hang), |s|)
  {
  }

  // ---------------------------------------------------------------------
  // Numbers
  // ---------------------------------------------------------------------

  lemma DigitIsNoStop(c: char)
    requires IsAsciiDigit(c)
    ensures !IsWhitespace(c) && !IsMacro(c) && !EndsToken(c) && !NonConstituent(c)
  {
  }

  /** The text of an integer: digits, or `-` and digits. */
  lemma ItoaShape(i: int)
    ensures var t := Itoa(i);
      (IsAsciiDigit(t[0]) && AllDigits(t)) || (t[0] == '-' && |t| >= 2 && AllDigits(t[1..]))
  {
    var t := Itoa(i);
    if t[0] == '-' {
      assert t[SignLength(t)..] == t[1..];
    } else {
      assert t[SignLength(t)..] == t;
    }
  }

  /**
   * A number starts at a digit, or at `+` or `-` followed by a digit, and
   * runs to the next whitespace or macro character; its text is matched by
   * matchNumber.
   */
  lemma ReadsNumber(s: string, q: nat, e: nat)
    requires q < e <= |s|
    requires IsDigit(s[q]) || ((s[q] == '+' || s[q] == '-') && q + 1 < |s| && IsDigit(s[q + 1]))
    requires forall i :: q < i < e ==> !IsWhitespace(s[i]) && !IsMacro(s[i])
    requires StopsNumber(s[e..])
    ensures ReadFormAt(s, q) == Step(MatchNumber(s[q..e]), e)
  {
    NumberEndAt(s, q + 1, e);
    assert [s[q]] + s[q + 1..e] == s[q..e];
    if !IsDigit(s[q]) {
      assert !IsMacro(s[q]);
    }
    assert ReadFormAt(s, q) == ReadNumber(s, q + 1, s[q]);
  }

  /** matchNumber reads the decimal text of every `int` back as that `int`. */
  lemma MatchNumberItoa(i: int)
    requires InInt64(i)
    ensures MatchNumber(Itoa(i)) == Form(Int(i))
  {
  }

  /** A number that Atoi rejects but ParseFloat accepts reads as a float with that literal text. */
  lemma ReadsFloatAt(s: string, q: nat, e: nat)
    requires q < e <= |s|
    requires IsDigit(s[q]) || ((s[q] == '+' || s[q] == '-') && q + 1 < |s| && IsDigit(s[q + 1]))
    requires forall i :: q < i < e ==> !IsWhitespace(s[i]) && !IsMacro(s[i])
    requires StopsNumber(s[e..])
    requires !AtoiAccepts(s[q..e]) && FloatSyntax(s[q..e])
    ensures ReadFormAt(s, q) == Step(Form(Float(Literal(s[q..e]))), e)
  {
    ReadsNumber(s, q, e);
  }

  /**
   * matchNumber's error: a number that neither Atoi nor ParseFloat accepts
   * stops the read with "Invalid number" naming the whole run.
   */
  lemma RejectsInvalidNumber(s: string, q: nat, e: nat)
    requires q < e <= |s|
    requires IsDigit(s[q]) || ((s[q] == '+' || s[q] == '-') && q + 1 < |s| && IsDigit(s[q + 1]))
    requires forall i :: q < i < e ==> !IsWhitespace(s[i]) && !IsMacro(s[i])
    requires StopsNumber(s[e..])
    requires !AtoiAccepts(s[q..e]) && !FloatSyntax(s[q..e])
    ensures ReadFormAt(s, q) == Step(Fail(InvalidNumber(s[q..e])), e)
  {
    ReadsNumber(s, q, e);
  }

  /** The text at position `q` of an `int` read from a number reads as that `int`. */
  lemma ReadsIntegerAt(s: string, q: nat, i: int)
    requires InInt64(i) && At(s, q, Itoa(i)) && StopsNumber(s[q + |Itoa(i)|..])
    ensures ReadFormAt(s, q) == Step(Form(Int(i)), q + |Itoa(i)|)
  {
    var t := Itoa(i);
    var e := q + |t|;
    ItoaShape(i);
    forall j | 0 < j < |t|
      ensures IsAsciiDigit(t[j])
    {
      if t[0] == '-' {
        assert t[j] == t[1..][j - 1];
      }
    }
    NumberTextAt(s, q, t, e);
    ReadsNumber(s, q, e);
    assert s[q..e] == t;
    MatchNumberItoa(i);
  }

  /** Digits after a digit or a minus sign, at `q`: a number, with no stop inside. */
  lemma NumberTextAt(s: string, q: nat, t: string, e: nat)
    requires At(s, q, t) && e == q + |t| && |t| >= 1
    requires forall j :: 0 < j < |t| ==> IsAsciiDigit(t[j])
    requires IsAsciiDigit(t[0]) || (t[0] == '-' && |t| >= 2)
    ensures forall j :: q < j < e ==> !IsWhitespace(s[j]) && !IsMacro(s[j])
    ensures IsDigit(s[q]) || (s[q] == '-' && q + 1 < |s| && IsDigit(s[q + 1]))
  {
    forall j | q < j < e
      ensures !IsWhitespace(s[j]) && !IsMacro(s[j])
    {
      AtIndex(s, q, t, j - q);
      DigitIsNoStop(s[j]);
    }
    AtIndex(s, q, t, 0);
    if t[0] == '-' {
      AtIndex(s, q, t, 1);
    }
  }

  /** Integers round-trip: the decimal text of an `int`, then a stop, reads as that `int`. */
  lemma ReadIntegerRoundTrip(i: int, rest: string)
    requires InInt64(i) && StopsNumber(rest)
    ensures Read(Itoa(i) + rest, 0) == Step(Form(Int(i)), |Itoa(i)|)
  {
    var t := Itoa(i);
    var s := t + rest;
    AtPrefix(t, rest);
    assert s[|t|..] == rest;
    ReadsIntegerAt(s, 0, i);
    ItoaShape(i);
    ReadAfterWhitespace(s, 0, 0);
  }

  // ---------------------------------------------------------------------
  // Tokens: symbols, keywords, nil, true and false
  // ---------------------------------------------------------------------

  /**
   * Text that reads as one token: constituent characters only, and not
   * the start of a number.
   */
  predicate ValidWord(t: string) {
    |t| > 0 &&
    (forall i :: 0 <= i < |t| ==> !EndsToken(t[i]) && !NonConstituent(t[i])) &&
    !IsDigit(t[0]) &&
    !((t[0] == '+' || t[0] == '-') && |t| > 1 && IsDigit(t[1]))
  }

  /** A token read at `q` stands for the value interpretToken gives its text. */
  lemma ReadsTokenAt(s: string, q: nat, t: string)
    requires ValidWord(t) && At(s, q, t) && StopsNumber(s[q + |t|..])
    ensures ReadFormAt(s, q) == Step(Form(InterpretToken(t)), q + |t|)
  {
    var e := q + |t|;
    forall j | q <= j < e
      ensures s[j] == t[j - q]
    {
      AtIndex(s, q, t, j - q);
    }
    assert !IsMacro(s[q]) by {
      assert !EndsToken(t[0]);
    }
    TokenStopAt(s, q + 1, e);
    assert ReadToken(s, q + 1, s[q]) == Scanned(t, e) by {
      assert [s[q]] + s[q + 1..e] == t;
    }
    assert !NonConstituent(s[q]) && !IsDigit(s[q]);
    assert !((s[q] == '+' || s[q] == '-') && q + 1 < |s| && IsDigit(s[q + 1])) by {
      if |t| > 1 {
        assert s[q + 1] == t[1];
      }
    }
  }

  /** interpretToken, case by case: the three names, keywords after `:`, symbols otherwise. */
  lemma InterpretTokenCases(t: string)
    requires |t| > 0
    ensures InterpretToken(t) == Nil <==> t == "nil"
    ensures InterpretToken(t).Bool? <==> t == "true" || t == "false"
    ensures InterpretToken(t).Keyword? <==> t[0] == ':'
    ensures InterpretToken(t).Keyword? ==> InterpretToken(t).name == t[1..]
    ensures InterpretToken(t).Symbol? <==> t != "nil" && t != "true" && t != "false" && t[0] != ':'
  {
  }

  /** A non-constituent character cannot start a form. */
  lemma RejectsLeadingNonConstituent(s: string, q: nat)
    requires q < |s| && NonConstituent(s[q])
    ensures ReadFormAt(s, q) == Step(Fail(InvalidLeadingCharacter(s[q])), q + 1)
  {
  }

  /** A non-constituent character inside a token is an error, reported just past it. */
  lemma RejectsNonConstituentInToken(s: string, q: nat, e: nat)
    requires q < e < |s| && NonConstituent(s[e])
    requires ValidWord(s[q..e])
    ensures ReadFormAt(s, q) == Step(Fail(InvalidConstituentCharacter(s[e])), e + 1)
  {
    var t := s[q..e];
    assert t[0] == s[q];
    assert !IsMacro(s[q]) by {
      assert !EndsToken(t[0]);
    }
    forall j | q + 1 <= j < e
      ensures !EndsToken(s[j]) && !NonConstituent(s[j])
    {
      assert s[j] == t[j - q];
    }
    TokenStopAt(s, q + 1, e);
  }

  // ---------------------------------------------------------------------
  // Strings
  // ---------------------------------------------------------------------

  /** The string-literal text of one character: `"` and `\` get a backslash. */
  function Escape(c: char): (t: string)
    ensures |t| > 0
  {
    if c == '"' || c == '\\' then ['\\', c] else [c]
  }

  function EscapeAll(x: string): string {
    if x == [] then [] else Escape(x[0]) + EscapeAll(x[1..])
  }

  /** Escaping works character by character. */
  lemma {:induction false} EscapeAllAppend(x: string, y: string)
    ensures EscapeAll(x + y) == EscapeAll(x) + EscapeAll(y)
    decreases x
  {
    if x != [] {
      assert (x + y)[1..] == x[1..] + y;
      EscapeAllAppend(x[1..], y);
    } else {
      assert x + y == y;
    }
  }

  /** Text with no quote and no backslash is its own escaped form. */
  lemma {:induction false} EscapePlain(x: string)
    requires forall i :: 0 <= i < |x| ==> x[i] != '"' && x[i] != '\\'
    ensures EscapeAll(x) == x
    decreases x
  {
    if x != [] {
      EscapePlain(x[1..]);
      assert x == [x[0]] + x[1..];
    }
  }

  /** The string literal for `x`. */
  function Quote(x: string): string {
    "\"" + EscapeAll(x) + "\""
  }

  /** stringReader decodes the escaped text of `x` and stops at the closing quote. */
  lemma {:induction false} StringBodyDecodes(s: string, p: nat, acc: string, x: string)
    requires At(s, p, EscapeAll(x) + "\"")
    ensures StringBody(s, p, acc) == Step(Form(Str(acc + x)), p + |EscapeAll(x)| + 1)
    decreases x
  {
    if x == [] {
      AtIndex(s, p, EscapeAll(x) + "\"", 0);
      assert acc + x == acc;
    } else {
      var c, e := x[0], Escape(x[0]);
      assert EscapeAll(x) + "\"" == e + (EscapeAll(x[1..]) + "\"");
      AtSplit(s, p, e, EscapeAll(x[1..]) + "\"");
      AtIndex(s, p, e, 0);
      if |e| == 2 {
        AtIndex(s, p, e, 1);
      }
      StringBodyDecodes(s, p + |e|, acc + [c], x[1..]);
      assert acc + [c] + x[1..] == acc + x;
    }
  }

  /** Strings round-trip: a string literal reads as the string it quotes, whatever follows. */
  lemma ReadStringRoundTrip(x: string, rest: string)
    ensures Read(Quote(x) + rest, 0) == Step(Form(Str(x)), |Quote(x)|)
  {
    var s := Quote(x) + rest;
    assert s == "\"" + (EscapeAll(x) + "\"") + rest;
    assert At(s, 1, EscapeAll(x) + "\"") by {
      assert s[1..1 + |EscapeAll(x)| + 1] == EscapeAll(x) + "\"";
    }
    StringBodyDecodes(s, 1, [], x);
    assert [] + x == x;
    ReadAfterWhitespace(s, 0, 0);
  }

  /** stringReader runs off the end of escaped text with no closing quote. */
  lemma {:induction false} StringBodyUnterminated(s: string, p: nat, acc: string, x: string)
    requires p <= |s| && s[p..] == EscapeAll(x)
    ensures StringBody(s, p, acc) == Step(Fail(UnterminatedString), |s|)
    decreases x
  {
    if x != [] {
      var e := Escape(x[0]);
      assert s[p..] == e + EscapeAll(x[1..]);
      assert s[p] == e[0];
      if |e| == 2 {
        assert s[p + 1] == e[1];
      }
      assert s[p + |e|..] == EscapeAll(x[1..]);
      StringBodyUnterminated(s, p + |e|, acc + [x[0]], x[1..]);
    }
  }

  /** A string literal whose closing quote is missing is an error. */
  lemma RejectsUnterminatedString(x: string)
    ensures Read("\"" + EscapeAll(x), 0).out == Fail(UnterminatedString)
  {
    var s := "\"" + EscapeAll(x);
    assert s[1..] == EscapeAll(x);
    StringBodyUnterminated(s, 1, [], x);
    ReadAfterWhitespace(s, 0, 0);
  }

  /** stringReader passes over escaped text and then meets a backslash. */
  lemma {:induction false} StringBodyBadEscape(s: string, p: nat, acc: string, x: string, c: char)
    requires !IsEscapeLetter(c)
    requires At(s, p, EscapeAll(x) + ['\\', c])
    ensures StringBody(s, p, acc) == Step(Fail(UnsupportedEscape(c)), p + |EscapeAll(x)| + 2)
    decreases x
  {
    if x == [] {
      AtIndex(s, p, EscapeAll(x) + ['\\', c], 0);
      AtIndex(s, p, EscapeAll(x) + ['\\', c], 1);
    } else {
      var e := Escape(x[0]);
      assert EscapeAll(x) + ['\\', c] == e + (EscapeAll(x[1..]) + ['\\', c]);
      AtSplit(s, p, e, EscapeAll(x[1..]) + ['\\', c]);
      AtIndex(s, p, e, 0);
      if |e| == 2 {
        AtIndex(s, p, e, 1);
      }
      StringBodyBadEscape(s, p + |e|, acc + [x[0]], x[1..], c);
    }
  }

  /** Only `t r n b f \ "` may follow a backslash in a string. */
  lemma RejectsUnknownEscape(x: string, c: char, rest: string)
    requires !IsEscapeLetter(c)
    ensures Read("\"" + EscapeAll(x) + ['\\', c] + rest, 0).out == Fail(UnsupportedEscape(c))
  {
    var s := "\"" + EscapeAll(x) + ['\\', c] + rest;
    var b := EscapeAll(x) + ['\\', c];
    assert s == "\"" + b + rest;
    assert At(s, 1, b) by {
      assert s[1..1 + |b|] == b;
    }
    StringBodyBadEscape(s, 1, [], x, c);
    ReadAfterWhitespace(s, 0, 0);
  }

  /** A backslash as the last character of the input ends it inside the escape. */
  lemma BackslashAtEnd(x: string)
    ensures Read("\"" + EscapeAll(x) + "\\", 0).out == Fail(EndOfInput)
  {
    var s := "\"" + EscapeAll(x) + "\\";
    assert s[1..] == EscapeAll(x) + "\\";
    StringBodyEndsInEscape(s, 1, [], x);
    ReadAfterWhitespace(s, 0, 0);
  }

  lemma {:induction false} StringBodyEndsInEscape(s: string, p: nat, acc: string, x: string)
    requires p <= |s| && s[p..] == EscapeAll(x) + "\\"
    ensures StringBody(s, p, acc) == Step(Fail(EndOfInput), |s|)
    decreases x
  {
    if x == [] {
      assert s[p] == '\\' && p + 1 == |s|;
    } else {
      var e := Escape(x[0]);
      assert s[p..] == e + (EscapeAll(x[1..]) + "\\");
      assert s[p] == e[0];
      if |e| == 2 {
        assert s[p + 1] == e[1];
      }
      assert s[p + |e|..] == EscapeAll(x[1..]) + "\\";
      StringBodyEndsInEscape(s, p + |e|, acc + [x[0]], x[1..]);
    }
  }

  /** The escape letters stand for tab, return, newline, backspace, form feed, backslash and quote. */
  lemma EscapeLetters(acc: string)
    ensures StringBody("\\t\"", 0, acc).out == Form(Str(acc + "\t"))
    ensures StringBody("\\r\"", 0, acc).out == Form(Str(acc + "\r"))
    ensures StringBody("\\n\"", 0, acc).out == Form(Str(acc + "\n"))
    ensures StringBody("\\b\"", 0, acc).out == Form(Str(acc + [8 as char]))
    ensures StringBody("\\f\"", 0, acc).out == Form(Str(acc + [12 as char]))
  {
  }

  // ---------------------------------------------------------------------
  // Characters
  // ---------------------------------------------------------------------

  /**
   * A character literal: `\`, then a first character taken as it is, then
   * constituent characters up to a stop; the token names the character.
   */
  lemma ReadsCharacterAt(s: string, q: nat, e: nat)
    requires q + 2 <= e <= |s| && s[q] == '\\'
    requires forall i :: q + 2 <= i < e ==> !EndsToken(s[i]) && !NonConstituent(s[i])
    requires StopsNumber(s[e..])
    ensures ReadFormAt(s, q) == Step(CharacterName(s[q + 1..e]), e)
  {
    TokenStopAt(s, q + 2, e);
    assert ReadToken(s, q + 2, s[q + 1]) == Scanned(s[q + 1..e], e) by {
      SliceCons(s, q + 1, e);
    }
    assert ReadFormAt(s, q) == Character(s, q + 1) by {
      assert MacroFor(s[q]) == Some(CharacterMacro);
    }
  }

  lemma SliceCons(s: string, i: nat, j: nat)
    requires i < j <= |s|
    ensures [s[i]] + s[i + 1..j] == s[i..j]
  {
    assert ([s[i]] + s[i + 1..j])[0] == s[i..j][0];
    assert ([s[i]] + s[i + 1..j])[1..] == s[i..j][1..];
  }

  /** A one-character token names itself exactly when that character is one UTF-8 byte. */
  lemma SingleCharacterName(c: char)
    ensures CharacterName([c]) == if (c as int) < 0x80 then Form(Char(c)) else Fail(UnsupportedCharacter([c]))
  {
    assert Utf8Length([c]) == Utf8Width(c) + Utf8Length([]);
  }

  /**
   * characterReader's error: a token of more than one byte that is not one
   * of the six names stops the read with "Unsupported character".
   */
  lemma RejectsUnknownCharacterName(s: string, q: nat, e: nat)
    requires q + 2 <= e <= |s| && s[q] == '\\'
    requires forall i :: q + 2 <= i < e ==> !EndsToken(s[i]) && !NonConstituent(s[i])
    requires StopsNumber(s[e..])
    requires Utf8Length(s[q + 1..e]) != 1 && !IsCharacterName(s[q + 1..e])
    ensures ReadFormAt(s, q) == Step(Fail(UnsupportedCharacter(s[q + 1..e])), e)
  {
    ReadsCharacterAt(s, q, e);
  }

  /** The six character names. */
  lemma CharacterNames(t: string)
    ensures t == "newline" ==> CharacterName(t) == Form(Char('\n'))
    ensures t == "space" ==> CharacterName(t) == Form(Char(' '))
    ensures t == "tab" ==> CharacterName(t) == Form(Char('\t'))
    ensures t == "backspace" ==> CharacterName(t) == Form(Char(8 as char))
    ensures t == "formfeed" ==> CharacterName(t) == Form(Char(12 as char))
    ensures t == "return" ==> CharacterName(t) == Form(Char('\r'))
  {
  }

  // ---------------------------------------------------------------------
  // Printed forms read back
  // ---------------------------------------------------------------------

  datatype Bracket = Parens | Brackets | Braces

  /** The text of a form as a printer would write it: items separated by single spaces. */
  datatype Syntax =
    | Number(i: int)
    | Word(text: string)
    | Text(chars: string)
    | Letter(c: char)
    | Group(bracket: Bracket, items: seq<Syntax>)

  function Opener(b: Bracket): char {
    match b
    case Parens => '('
    case Brackets => '['
    case Braces => '{'
  }

  function Closer(b: Bracket): char {
    match b
    case Parens => ')'
    case Brackets => ']'
    case Braces => '}'
  }

  predicate IsCloser(c: char) {
    c == ')' || c == ']' || c == '}'
  }

  function Render(e: Syntax): string
    decreases e
  {
    match e
    case Number(i) => Strconv.Itoa(i)
    case Word(t) => t
    case Text(x) => Quote(x)
    case Letter(c) => ['\\', c]
    case Group(b, items) => [Opener(b)] + RenderItems(items) + [Closer(b)]
  }

  function RenderItems(items: seq<Syntax>): string
    decreases items
  {
    if items == [] then ""
    else if |items| == 1 then Render(items[0])
    else Render(items[0]) + " " + RenderItems(items[1..])
  }

  /** A key a map entry may have: not nil (the pending-key marker) and hashable. */
  predicate GoodKey(k: Value) {
    k != Nil && Hashable(k)
  }

  /** Forms whose text reads back: ints in range, valid tokens, one-byte characters, paired map items. */
  predicate WellFormed(e: Syntax)
    decreases e, 0
  {
    match e
    case Number(i) => InInt64(i)
    case Word(t) => ValidWord(t)
    case Text(_) => true
    case Letter(c) => (c as int) < 0x80
    case Group(b, items) =>
      (forall i :: 0 <= i < |items| ==> WellFormed(items[i])) &&
      (b == Braces ==> |items| % 2 == 0 && forall i :: 0 <= i < |items| && i % 2 == 0 ==> GoodKey(Denote(items[i])))
  }

  /** The value a well-formed form stands for. */
  function Denote(e: Syntax): Value
    requires WellFormed(e)
    decreases e, 1
  {
    match e
    case Number(i) => Int(i)
    case Word(t) => InterpretToken(t)
    case Text(x) => Str(x)
    case Letter(c) => Char(c)
    case Group(b, items) =>
      match b
      case Parens => List(Denotes(items))
      case Brackets => Vector(Denotes(items))
      case Braces => Map(Pairs([], Denotes(items)))
  }

  function Denotes(items: seq<Syntax>): (vs: seq<Value>)
    requires forall i :: 0 <= i < |items| ==> WellFormed(items[i])
    ensures |vs| == |items|
    decreases items
  {
    if items == [] then [] else [Denote(items[0])] + Denotes(items[1..])
  }

  lemma {:induction false} DenotesIndex(items: seq<Syntax>, i: nat)
    requires forall j :: 0 <= j < |items| ==> WellFormed(items[j])
    requires i < |items|
    ensures Denotes(items)[i] == Denote(items[i])
    decreases i
  {
    if i > 0 {
      DenotesIndex(items[1..], i - 1);
    }
  }

  /** Map entries from alternating keys and values, assigned left to right. */
  function Pairs(entries: seq<(Value, Value)>, vs: seq<Value>): seq<(Value, Value)>
    decreases |vs|
  {
    if |vs| < 2 then entries else Pairs(Put(entries, vs[0], vs[1]), vs[2..])
  }

  /** The `add` callback applied to each value in turn; None when one of them panics. */
  function Feed(acc: Acc, vs: seq<Value>): Option<Acc>
    decreases |vs|
  {
    if vs == [] then Some(acc)
    else if AddPanics(acc, vs[0]) then None
    else Feed(AddItem(acc, vs[0]), vs[1..])
  }

  /** How readDelimitedList ends right after the items: end of input, the delimiter, or another closer. */
  function AfterItems(s: string, e: nat, delim: char, acc: Acc): Collected
    requires e <= |s|
  {
    if e == |s| then Stopped(acc, EndOfInput, e)
    else if s[e] == delim then Closed(acc, e + 1)
    else Stopped(acc, UnmatchedDelimiter, e + 1)
  }

  /** Printed text never starts with whitespace, `;` or a closing bracket. */
  lemma RenderStart(e: Syntax)
    requires WellFormed(e)
    ensures |Render(e)| > 0
    ensures var c := Render(e)[0]; !IsWhitespace(c) && c != ';' && !IsCloser(c)
  {
    match e
    case Number(i) =>
      ItoaShape(i);
      if Render(e)[0] != '-' {
        DigitIsNoStop(Render(e)[0]);
      }
    case Word(t) =>
      assert !EndsToken(t[0]);
    case Text(x) =>
      assert Render(e) == "\"" + (EscapeAll(x) + "\"");
    case Letter(_) =>
    case Group(_, _) =>
  }

  /** Inside a collection, an item that is not whitespace or a comment reads as a form does. */
  lemma ItemAtForm(s: string, q: nat)
    requires q < |s| && !IsWhitespace(s[q]) && s[q] != ';'
    ensures ItemAt(s, q) == ReadFormAt(s, q)
  {
    if IsMacro(s[q]) {
      assert !IsDigit(s[q]);
      assert ReadFormAt(s, q) == MacroStep(s, q + 1, MacroFor(s[q]).value);
    } else {
      assert ItemAt(s, q) == Read(s, q);
      ReadAfterWhitespace(s, q, q);
    }
  }

  /** The items of a list or vector are collected in order. */
  lemma {:induction false} FeedSequence(acc: Acc, vs: seq<Value>)
    requires acc.ListAcc? || acc.VectorAcc?
    ensures Feed(acc, vs) == Some(if acc.ListAcc? then ListAcc(acc.items + vs) else VectorAcc(acc.items + vs))
    decreases |vs|
  {
    if vs != [] {
      var next := AddItem(acc, vs[0]);
      assert Feed(acc, vs) == Feed(next, vs[1..]);
      assert next == if acc.ListAcc? then ListAcc(acc.items + [vs[0]]) else VectorAcc(acc.items + [vs[0]]);
      FeedSequence(next, vs[1..]);
      assert acc.items + [vs[0]] + vs[1..] == acc.items + vs;
    } else {
      assert acc.items + vs == acc.items;
    }
  }

  /** Every item at an even position is a good key. */
  predicate KeysGood(vs: seq<Value>) {
    forall i :: 0 <= i < |vs| && i % 2 == 0 ==> GoodKey(vs[i])
  }

  /**
   * mapReader's callback pairs the items: after an even number the entries
   * are the assignments of the pairs and no key is pending; after an odd
   * number the last item is the pending key.
   */
  lemma {:induction false} FeedMap(entries: seq<(Value, Value)>, vs: seq<Value>)
    requires KeysGood(vs)
    ensures Feed(MapAcc(entries, Nil), vs) ==
      Some(MapAcc(Pairs(entries, vs), if |vs| % 2 == 1 then vs[|vs| - 1] else Nil))
    decreases |vs|
  {
    if |vs| == 1 {
      assert GoodKey(vs[0]);
      assert Feed(MapAcc(entries, Nil), vs) == Feed(MapAcc(entries, vs[0]), []);
    } else if |vs| >= 2 {
      var entries', rest := Put(entries, vs[0], vs[1]), vs[2..];
      FeedPair(entries, vs);
      FeedMap(entries', rest);
      assert Pairs(entries, vs) == Pairs(entries', rest);
      assert |vs| == |rest| + 2;
      ParityStep(|rest|);
      if |rest| % 2 == 1 {
        assert rest[|rest| - 1] == vs[|vs| - 1];
      }
    }
  }

  lemma OddPredecessor(n: nat)
    requires n % 2 == 1
    ensures (n - 1) % 2 == 0
  {
  }

  lemma ParityStep(n: nat)
    ensures (n + 2) % 2 == n % 2
  {
  }

  /** The first key and value of a map become an entry; the rest are still well keyed. */
  lemma FeedPair(entries: seq<(Value, Value)>, vs: seq<Value>)
    requires |vs| >= 2 && KeysGood(vs)
    ensures Feed(MapAcc(entries, Nil), vs) == Feed(MapAcc(Put(entries, vs[0], vs[1]), Nil), vs[2..])
    ensures KeysGood(vs[2..])
  {
    assert GoodKey(vs[0]);
    var rest := vs[2..];
    forall i | 0 <= i < |rest| && i % 2 == 0
      ensures GoodKey(rest[i])
    {
      assert rest[i] == vs[i + 2];
    }
    assert vs[1..][1..] == rest;
    assert Feed(MapAcc(entries, Nil), vs) == Feed(MapAcc(entries, vs[0]), vs[1..]);
  }

  /** A string literal at `q` reads as its string. */
  lemma ReadsTextAt(s: string, q: nat, x: string)
    requires At(s, q, Quote(x))
    ensures ReadFormAt(s, q) == Step(Form(Str(x)), q + |Quote(x)|)
  {
    assert Quote(x) == "\"" + (EscapeAll(x) + "\"");
    AtSplit(s, q, "\"", EscapeAll(x) + "\"");
    AtIndex(s, q, Quote(x), 0);
    StringBodyDecodes(s, q + 1, [], x);
    assert [] + x == x;
  }

  /** A one-byte character literal at `q` reads as its character. */
  lemma ReadsLetterAt(s: string, q: nat, c: char)
    requires (c as int) < 0x80 && At(s, q, ['\\', c]) && StopsNumber(s[q + 2..])
    ensures ReadFormAt(s, q) == Step(Form(Char(c)), q + 2)
  {
    AtIndex(s, q, ['\\', c], 0);
    AtIndex(s, q, ['\\', c], 1);
    ReadsCharacterAt(s, q, q + 2);
    assert s[q + 1..q + 2] == [c];
    SingleCharacterName(c);
  }

  /** The accumulator a bracket's reader starts with. */
  function Empty(b: Bracket): Acc {
    match b
    case Parens => ListAcc([])
    case Brackets => VectorAcc([])
    case Braces => MapAcc([], Nil)
  }

  /** What the collection reader for `b` makes of the items, once it has closed. */
  lemma FeedGroup(b: Bracket, items: seq<Syntax>)
    requires WellFormed(Group(b, items))
    ensures Feed(Empty(b), Denotes(items)).Some?
    ensures match b
      case Braces => Feed(Empty(b), Denotes(items)) == Some(MapAcc(Pairs([], Denotes(items)), Nil))
      case _ => Feed(Empty(b), Denotes(items)) == Some(if b == Parens then ListAcc(Denotes(items)) else VectorAcc(Denotes(items)))
  {
    var vs := Denotes(items);
    if b == Braces {
      assert KeysGood(vs) by {
        forall i | 0 <= i < |vs| && i % 2 == 0
          ensures GoodKey(vs[i])
        {
          DenotesIndex(items, i);
        }
      }
      FeedMap([], vs);
    } else {
      FeedSequence(Empty(b), vs);
      assert [] + vs == vs;
    }
  }

  /** What listReader, vectorReader and mapReader make of what readDelimitedList returns. */
  function Finish(b: Bracket, c: Collected): Step
    requires SameShape(c.acc, Empty(b))
  {
    match b
    case Parens => FinishSequence(c, false)
    case Brackets => FinishSequence(c, true)
    case Braces => FinishMap(c)
  }

  /** An opening bracket dispatches to its collection reader. */
  lemma OpenerDispatch(s: string, q: nat, b: Bracket)
    requires q < |s| && s[q] == Opener(b)
    ensures ReadFormAt(s, q) == Finish(b, ReadDelimited(s, q + 1, Closer(b), Empty(b)))
  {
    var m := match b case Parens => ListMacro case Brackets => VectorMacro case Braces => MapMacro;
    assert MacroFor(s[q]) == Some(m);
    assert ReadFormAt(s, q) == MacroStep(s, q + 1, m);
  }

  /**
   * A printed form at `q`, followed by a stop, reads back as the value it
   * stands for and leaves the cursor just past its text.
   */
  lemma {:induction false} ReadsRenderedAt(s: string, q: nat, e: Syntax)
    requires WellFormed(e) && At(s, q, Render(e)) && StopsNumber(s[q + |Render(e)|..])
    ensures ReadFormAt(s, q) == Step(Form(Denote(e)), q + |Render(e)|)
    decreases e, 1
  {
    match e
    case Number(i) => ReadsIntegerAt(s, q, i);
    case Word(t) => ReadsTokenAt(s, q, t);
    case Text(x) => ReadsTextAt(s, q, x);
    case Letter(c) => ReadsLetterAt(s, q, c);
    case Group(b, items) => ReadsGroupAt(s, q, b, items);
  }

  /** A printed list, vector or map reads back as its value. */
  lemma {:induction false} ReadsGroupAt(s: string, q: nat, b: Bracket, items: seq<Syntax>)
    requires WellFormed(Group(b, items)) && At(s, q, Render(Group(b, items)))
    ensures ReadFormAt(s, q) == Step(Form(Denote(Group(b, items))), q + |Render(Group(b, items))|)
    decreases items, 2
  {
    var f := q + 1 + |RenderItems(items)|;
    GroupLayout(s, q, b, items);
    assert "" + RenderItems(items) == RenderItems(items);
    FeedGroup(b, items);
    ReadsItems(s, q + 1, Closer(b), Empty(b), items, "", f);
    GroupFromItems(s, q, b, items, f);
  }

  /** Once its items are read up to the closer at `f`, a group reads as the value it stands for. */
  lemma GroupFromItems(s: string, q: nat, b: Bracket, items: seq<Syntax>, f: nat)
    requires WellFormed(Group(b, items))
    requires q < f < |s| && s[q] == Opener(b) && s[f] == Closer(b)
    requires Feed(Empty(b), Denotes(items)).Some?
    requires ReadDelimited(s, q + 1, Closer(b), Empty(b)) == AfterItems(s, f, Closer(b), Feed(Empty(b), Denotes(items)).value)
    ensures ReadFormAt(s, q) == Step(Form(Denote(Group(b, items))), f + 1)
  {
    var acc := Feed(Empty(b), Denotes(items)).value;
    assert AfterItems(s, f, Closer(b), acc) == Closed(acc, f + 1);
    FinishGroup(b, items, f + 1);
    OpenerDispatch(s, q, b);
  }

  /** Where the brackets and the items of a printed group stand. */
  lemma GroupLayout(s: string, q: nat, b: Bracket, items: seq<Syntax>)
    requires At(s, q, Render(Group(b, items)))
    ensures var f := q + 1 + |RenderItems(items)|;
      && f < |s| && s[q] == Opener(b) && s[f] == Closer(b)
      && At(s, q + 1, RenderItems(items))
      && |Render(Group(b, items))| == f + 1 - q
  {
    var body := RenderItems(items);
    assert Render(Group(b, items)) == [Opener(b)] + (body + [Closer(b)]);
    BracketedAt(s, q, Opener(b), body, Closer(b));
  }

  lemma BracketedAt(s: string, q: nat, open: char, body: string, close: char)
    requires At(s, q, [open] + (body + [close]))
    ensures q + 1 + |body| < |s| && s[q] == open && s[q + 1 + |body|] == close
    ensures At(s, q + 1, body)
  {
    AtSplit(s, q, [open], body + [close]);
    AtIndex(s, q, [open] + (body + [close]), 0);
    AtSplit(s, q + 1, body, [close]);
    AtIndex(s, q + 1 + |body|, [close], 0);
  }

  /** A closed group's collection reader returns the value the group stands for. */
  lemma FinishGroup(b: Bracket, items: seq<Syntax>, n: nat)
    requires WellFormed(Group(b, items))
    ensures Feed(Empty(b), Denotes(items)).Some?
    ensures SameShape(Feed(Empty(b), Denotes(items)).value, Empty(b))
    ensures Finish(b, Closed(Feed(Empty(b), Denotes(items)).value, n)) == Step(Form(Denote(Group(b, items))), n)
  {
    FeedGroup(b, items);
  }

  /** One printed item of a collection, from `q` to `f` after whitespace, reads as its value. */
  lemma {:induction false} ItemForm(s: string, p: nat, w: string, x: Syntax, tail: string, q: nat, f: nat)
    requires WellFormed(x) && q == p + |w| && f == q + |Render(x)|
    requires forall i :: 0 <= i < |w| ==> IsWhitespace(w[i])
    requires At(s, p, w + (Render(x) + tail))
    requires StopsNumber(s[f..])
    ensures SkipWhitespace(s, p) == q < |s| && !IsCloser(s[q])
    ensures ItemAt(s, q) == Step(Form(Denote(x)), f)
    decreases x, 2
  {
    RenderStart(x);
    LayoutAt(s, p, w, Render(x), tail, q, f);
    ReadsRenderedAt(s, q, x);
    ItemAtForm(s, q);
  }

  /** readDelimitedList after the last item. */
  lemma DelimitedEnd(s: string, p: nat, q: nat, delim: char, acc: Acc)
    requires p <= |s| && SkipWhitespace(s, p) == q && IsCloser(delim)
    requires q == |s| || IsCloser(s[q])
    ensures ReadDelimited(s, p, delim, acc) == AfterItems(s, q, delim, acc)
  {
    if q < |s| && s[q] != delim {
      assert MacroFor(s[q]) == Some(UnmatchedDelimiterMacro);
      assert ItemAt(s, q) == Step(Fail(UnmatchedDelimiter), q + 1);
    }
  }

  /** readDelimitedList hands a form to the callback and goes on. */
  lemma DelimitedItem(s: string, p: nat, q: nat, delim: char, acc: Acc, v: Value, f: nat)
    requires p <= |s| && SkipWhitespace(s, p) == q && q < |s| && s[q] != delim
    requires ItemAt(s, q) == Step(Form(v), f) && !AddPanics(acc, v)
    ensures ReadDelimited(s, p, delim, acc) == ReadDelimited(s, f, delim, AddItem(acc, v))
  {
  }

  /** readDelimitedList stops at the first item that fails, with that item's error (reader.go:289-291, 298-301). */
  lemma ItemErrorAborts(s: string, p: nat, delim: char, acc: Acc)
    requires p <= |s|
    requires var q := SkipWhitespace(s, p); q < |s| && s[q] != delim && ItemAt(s, q).out.Fail?
    ensures var q := SkipWhitespace(s, p);
      ReadDelimited(s, p, delim, acc) == Stopped(acc, ItemAt(s, q).out.error, ItemAt(s, q).next)
  {
  }

  /** Feeding the values of some items: the first one, then the rest. */
  lemma FeedFirst(acc: Acc, items: seq<Syntax>)
    requires items != [] && forall i :: 0 <= i < |items| ==> WellFormed(items[i])
    requires Feed(acc, Denotes(items)).Some?
    ensures !AddPanics(acc, Denote(items[0]))
    ensures Feed(acc, Denotes(items)) == Feed(AddItem(acc, Denote(items[0])), Denotes(items[1..]))
  {
    var vs := Denotes(items);
    assert vs == [Denote(items[0])] + Denotes(items[1..]);
    assert vs[1..] == Denotes(items[1..]);
  }

  /** The text of items: the first one's, then a space if more follow, then theirs. */
  lemma {:induction false} RenderItemsFirst(items: seq<Syntax>)
    requires items != []
    ensures RenderItems(items) == Render(items[0]) + (Sep(items) + RenderItems(items[1..]))
  {
    var r, rest := Render(items[0]), RenderItems(items[1..]);
    if |items| == 1 {
      assert items[1..] == [];
      assert rest == "";
      assert Sep(items) + rest == "";
      assert r + "" == r;
    } else {
      assert RenderItems(items) == r + " " + rest;
      assert r + " " + rest == r + (" " + rest);
    }
  }


  /** Whitespace, then the text of `x`, then `tail`, at `p`: where `x` starts and ends. */
  lemma LayoutAt(s: string, p: nat, w: string, r: string, tail: string, q: nat, f: nat)
    requires q == p + |w| && f == q + |r|
    requires |r| > 0 && !IsWhitespace(r[0]) && r[0] != ';' && !IsCloser(r[0])
    requires forall i :: 0 <= i < |w| ==> IsWhitespace(w[i])
    requires At(s, p, w + (r + tail))
    ensures At(s, q, r) && At(s, f, tail)
    ensures SkipWhitespace(s, p) == q && q < |s|
    ensures !IsWhitespace(s[q]) && s[q] != ';' && !IsCloser(s[q])
  {
    AtSplit(s, p, w, r + tail);
    AtSplit(s, q, r, tail);
    forall i | p <= i < q
      ensures IsWhitespace(s[i])
    {
      AtIndex(s, p, w, i - p);
    }
    AtIndex(s, q, r, 0);
    SkipWhitespaceAt(s, p, q);
  }

  /** Whitespace alone before the end of the items. */
  lemma BlankAt(s: string, p: nat, w: string)
    requires forall i :: 0 <= i < |w| ==> IsWhitespace(w[i])
    requires At(s, p, w)
    requires p + |w| == |s| || IsCloser(s[p + |w|])
    ensures SkipWhitespace(s, p) == p + |w|
  {
    forall i | p <= i < p + |w|
      ensures IsWhitespace(s[i])
    {
      AtIndex(s, p, w, i - p);
    }
    SkipWhitespaceAt(s, p, p + |w|);
  }

  /**
   * readDelimitedList over whitespace and then printed items, up to `end`,
   * collects the items' values and ends as the text after them says: the
   * delimiter, another closing bracket, or the end of the input.
   */
  lemma {:induction false} ReadsItems(s: string, p: nat, delim: char, acc: Acc, items: seq<Syntax>, w: string, end: nat)
    requires IsCloser(delim)
    requires forall i :: 0 <= i < |items| ==> WellFormed(items[i])
    requires forall i :: 0 <= i < |w| ==> IsWhitespace(w[i])
    requires At(s, p, w + RenderItems(items)) && end == p + |w| + |RenderItems(items)|
    requires end == |s| || IsCloser(s[end])
    requires Feed(acc, Denotes(items)).Some?
    ensures ReadDelimited(s, p, delim, acc) == AfterItems(s, end, delim, Feed(acc, Denotes(items)).value)
    decreases items, 1
  {
    if items == [] {
      assert w + RenderItems(items) == w;
      BlankAt(s, p, w);
      DelimitedEnd(s, p, end, delim, acc);
    } else {
      ReadsMoreItems(s, p, delim, acc, items, w, end);
    }
  }

  /** What separates the first item from the others: a space, if there are others. */
  function Sep(items: seq<Syntax>): string {
    if |items| <= 1 then "" else " "
  }

  /** Where the first of some printed items ends, and what follows it. */
  lemma {:induction false} ItemsLayout(s: string, p: nat, items: seq<Syntax>, w: string, q: nat, f: nat, end: nat)
    requires items != [] && WellFormed(items[0])
    requires q == p + |w| && f == q + |Render(items[0])| && end == p + |w| + |RenderItems(items)|
    requires At(s, p, w + RenderItems(items))
    requires end == |s| || IsCloser(s[end])
    ensures At(s, p, w + (Render(items[0]) + (Sep(items) + RenderItems(items[1..]))))
    ensures At(s, f, Sep(items) + RenderItems(items[1..]))
    ensures end == f + |Sep(items)| + |RenderItems(items[1..])|
    ensures StopsNumber(s[f..])
  {
    var tail := Sep(items) + RenderItems(items[1..]);
    RenderItemsFirst(items);
    AtSplit(s, p, w, Render(items[0]) + tail);
    AtSplit(s, q, Render(items[0]), tail);
    StopAfterFirst(s, f, items, tail, end);
  }

  /** After the first item comes a space, a closing bracket or the end of the input. */
  lemma StopAfterFirst(s: string, f: nat, items: seq<Syntax>, tail: string, end: nat)
    requires items != [] && tail == Sep(items) + RenderItems(items[1..])
    requires At(s, f, tail) && end == f + |tail|
    requires end == |s| || IsCloser(s[end])
    ensures StopsNumber(s[f..])
  {
    if f < |s| {
      assert s[f..][0] == s[f];
      if |items| > 1 {
        AtIndex(s, f, tail, 0);
      } else {
        assert RenderItems(items[1..]) == [];
      }
    }
  }

  /** ReadsItems when there is at least one item. */
  lemma {:induction false} ReadsMoreItems(s: string, p: nat, delim: char, acc: Acc, items: seq<Syntax>, w: string, end: nat)
    requires IsCloser(delim) && items != []
    requires forall i :: 0 <= i < |items| ==> WellFormed(items[i])
    requires forall i :: 0 <= i < |w| ==> IsWhitespace(w[i])
    requires At(s, p, w + RenderItems(items)) && end == p + |w| + |RenderItems(items)|
    requires end == |s| || IsCloser(s[end])
    requires Feed(acc, Denotes(items)).Some?
    ensures ReadDelimited(s, p, delim, acc) == AfterItems(s, end, delim, Feed(acc, Denotes(items)).value)
    decreases items, 0
  {
    var x, rest, sep := items[0], items[1..], Sep(items);
    var q := p + |w|;
    var f := q + |Render(x)|;
    var v := Denote(x);
    FeedFirst(acc, items);
    var acc' := AddItem(acc, v);
    ItemsLayout(s, p, items, w, q, f, end);
    ItemForm(s, p, w, x, sep + RenderItems(rest), q, f);
    DelimitedItem(s, p, q, delim, acc, v, f);
    ReadsItems(s, f, delim, acc', rest, sep, end);
  }

  /** Printed forms round-trip: the text of a well-formed form reads back as its value. */
  lemma ReadRenderRoundTrip(e: Syntax, rest: string)
    requires WellFormed(e) && StopsNumber(rest)
    ensures Read(Render(e) + rest, 0) == Step(Form(Denote(e)), |Render(e)|)
  {
    var s := Render(e) + rest;
    AtPrefix(Render(e), rest);
    assert s[|Render(e)|..] == rest;
    RenderStart(e);
    ReadsRenderedAt(s, 0, e);
    ReadAfterWhitespace(s, 0, 0);
  }

  // ---------------------------------------------------------------------
  // Errors in collections
  // ---------------------------------------------------------------------

  /**
   * An opening bracket and printed items, up to `f`: the collection reader
   * ends as the text at `f` says.
   */
  lemma OpenedGroupAt(s: string, q: nat, b: Bracket, items: seq<Syntax>, acc: Acc, f: nat)
    requires forall i :: 0 <= i < |items| ==> WellFormed(items[i])
    requires At(s, q, [Opener(b)] + RenderItems(items)) && f == q + 1 + |RenderItems(items)|
    requires f == |s| || IsCloser(s[f])
    requires Feed(Empty(b), Denotes(items)) == Some(acc) && SameShape(acc, Empty(b))
    ensures ReadFormAt(s, q) == Finish(b, AfterItems(s, f, Closer(b), acc))
  {
    var body := RenderItems(items);
    AtSplit(s, q, [Opener(b)], body);
    AtIndex(s, q, [Opener(b)] + body, 0);
    assert "" + body == body;
    ReadsItems(s, q + 1, Closer(b), Empty(b), items, "", f);
    OpenerDispatch(s, q, b);
  }

  /** Read at the start of a printed collection's opening bracket and items. */
  lemma ReadOpenedGroup(s: string, b: Bracket, items: seq<Syntax>, acc: Acc, f: nat)
    requires forall i :: 0 <= i < |items| ==> WellFormed(items[i])
    requires At(s, 0, [Opener(b)] + RenderItems(items)) && f == 1 + |RenderItems(items)|
    requires f == |s| || IsCloser(s[f])
    requires Feed(Empty(b), Denotes(items)) == Some(acc) && SameShape(acc, Empty(b))
    ensures Read(s, 0) == Finish(b, AfterItems(s, f, Closer(b), acc))
  {
    OpenedGroupAt(s, 0, b, items, acc, f);
    AtIndex(s, 0, [Opener(b)] + RenderItems(items), 0);
    assert s[0] == Opener(b) && !IsWhitespace(Opener(b)) && Opener(b) != ';';
    ReadAfterWhitespace(s, 0, 0);
  }

  /** A printed collection whose closing bracket is missing runs into the end of the input. */
  lemma RejectsUnclosedGroup(b: Bracket, items: seq<Syntax>)
    requires WellFormed(Group(b, items))
    ensures Read([Opener(b)] + RenderItems(items), 0) == Step(Fail(EndOfInput), 1 + |RenderItems(items)|)
  {
    var s := [Opener(b)] + RenderItems(items);
    var f := |s|;
    AtPrefix(s, []);
    assert s + [] == s;
    FeedGroup(b, items);
    var acc := Feed(Empty(b), Denotes(items)).value;
    ReadOpenedGroup(s, b, items, acc, f);
  }

  /** A printed collection closed by the wrong kind of bracket is an unmatched delimiter. */
  lemma RejectsWrongCloser(b: Bracket, items: seq<Syntax>, c: char, rest: string)
    requires WellFormed(Group(b, items)) && IsCloser(c) && c != Closer(b)
    ensures Read([Opener(b)] + RenderItems(items) + [c] + rest, 0) ==
      Step(Fail(UnmatchedDelimiter), 2 + |RenderItems(items)|)
  {
    var open := [Opener(b)] + RenderItems(items);
    var s := open + ([c] + rest);
    assert s == [Opener(b)] + RenderItems(items) + [c] + rest;
    var f := |open|;
    AtPrefix(open, [c] + rest);
    assert s[f] == c;
    FeedGroup(b, items);
    var acc := Feed(Empty(b), Denotes(items)).value;
    ReadOpenedGroup(s, b, items, acc, f);
  }

  /** A map with an odd number of forms is an error, even when it is closed. */
  lemma RejectsOddMap(items: seq<Syntax>, rest: string)
    requires forall i :: 0 <= i < |items| ==> WellFormed(items[i])
    requires |items| % 2 == 1 && KeysGood(Denotes(items))
    ensures Read("{" + RenderItems(items) + "}" + rest, 0).out == Fail(OddMapForms)
  {
    var open := "{" + RenderItems(items);
    var s := open + ("}" + rest);
    assert s == "{" + RenderItems(items) + "}" + rest;
    var f := |open|;
    AtPrefix(open, "}" + rest);
    assert s[f] == '}';
    OddMapPending(items);
    var acc := Feed(MapAcc([], Nil), Denotes(items)).value;
    ReadOpenedGroup(s, Braces, items, acc, f);
  }

  /** After an odd number of items the map reader still has a key pending. */
  lemma OddMapPending(items: seq<Syntax>)
    requires forall i :: 0 <= i < |items| ==> WellFormed(items[i])
    requires |items| % 2 == 1 && KeysGood(Denotes(items))
    ensures Feed(MapAcc([], Nil), Denotes(items)).Some?
    ensures Feed(MapAcc([], Nil), Denotes(items)).value.MapAcc?
    ensures Feed(MapAcc([], Nil), Denotes(items)).value.key != Nil
  {
    var vs := Denotes(items);
    assert |vs| == |items|;
    OddPredecessor(|vs|);
    assert GoodKey(vs[|vs| - 1]);
    FeedMap([], vs);
  }

  /** A closing bracket outside any collection is an unmatched delimiter. */
  lemma RejectsStrayCloser(s: string, q: nat)
    requires q < |s| && IsCloser(s[q])
    ensures ReadFormAt(s, q) == Step(Fail(UnmatchedDelimiter), q + 1)
  {
    assert MacroFor(s[q]) == Some(UnmatchedDelimiterMacro);
  }

  /** Input that holds only whitespace from `p` on has no form. */
  lemma BlankInput(s: string, p: nat)
    requires p <= |s| && forall i :: p <= i < |s| ==> IsWhitespace(s[i])
    ensures Read(s, p) == Step(Fail(EndOfInput), |s|)
  {
    SkipWhitespaceAt(s, p, |s|);
  }

  /** Whitespace between forms does not matter: reading from before it and after it agree. */
  lemma {:induction false} WhitespaceIsIgnored(s: string, p: nat, q: nat)
    requires p <= q <= |s| && forall i :: p <= i < q ==> IsWhitespace(s[i])
    ensures SkipWhitespace(s, p) == SkipWhitespace(s, q)
    ensures Read(s, p) == Read(s, q)
    ensures forall delim, acc :: ReadDelimited(s, p, delim, acc) == ReadDelimited(s, q, delim, acc)
    decreases q - p
  {
    if p < q {
      WhitespaceIsIgnored(s, p + 1, q);
    }
  }

  // ---------------------------------------------------------------------
  // Maps
  // ---------------------------------------------------------------------

  /** Assigning one more pair after an even number of items. */
  lemma {:induction false} PairsAppend(entries: seq<(Value, Value)>, vs: seq<Value>, k: Value, v: Value)
    requires |vs| % 2 == 0
    ensures Pairs(entries, vs + [k, v]) == Put(Pairs(entries, vs), k, v)
    decreases |vs|
  {
    if |vs| >= 2 {
      assert (vs + [k, v])[2..] == vs[2..] + [k, v];
      PairsAppend(Put(entries, vs[0], vs[1]), vs[2..], k, v);
    } else {
      assert vs == [];
      assert Pairs(entries, [k, v]) == Pairs(Put(entries, k, v), []);
    }
  }

  /** The last assignment to a key wins. */
  lemma LastAssignmentWins(vs: seq<Value>, k: Value, v: Value)
    requires |vs| % 2 == 0 && !k.List?
    ensures Lookup(Pairs([], vs + [k, v]), k) == Some(v)
  {
    PairsAppend([], vs, k, v);
  }

  /** A nil read where a key is expected is dropped: nil marks "no pending key". */
  lemma NilKeyIsDropped(entries: seq<(Value, Value)>, vs: seq<Value>)
    ensures Feed(MapAcc(entries, Nil), [Nil] + vs) == Feed(MapAcc(entries, Nil), vs)
  {
    assert ([Nil] + vs)[1..] == vs;
  }

  /** A vector read as a key makes Go panic when it is stored. */
  lemma VectorKeyPanics(entries: seq<(Value, Value)>, items: seq<Value>, v: Value)
    ensures Feed(MapAcc(entries, Nil), [Vector(items), v]) == None
  {
  }
}
