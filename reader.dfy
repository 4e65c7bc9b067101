/**
 * The reader (reader.go) as the Go code runs it: routines that pull runes
 * one at a time from a buffered reader, push at most one back, and build
 * the form they read. Each routine is proved to leave the cursor where the
 * corresponding function of module ReaderSpec says, with the same result.
 */
module Reader {
  import opened Values
  import opened ReaderSpec

  /**
   * The part of `bufio.Reader` the reader uses: `ReadRune` and
   * `UnreadRune` over a fixed text. `UnreadRune` only steps back when the
   * last operation was a successful `ReadRune`.
   */
  class RuneReader {
    const text: string
    var pos: nat
    var canUnread: bool

    ghost predicate Valid()
      reads this
    {
      pos <= |text| && (canUnread ==> pos > 0)
    }

    constructor (s: string)
      ensures Valid() && text == s && pos == 0 && !canUnread
    {
      text, pos, canUnread := s, 0, false;
    }

    /** The next rune, or the zero rune and `ok == false` at end of input. */
    method ReadRune() returns (ch: char, ok: bool)
      requires Valid()
      modifies this
      ensures Valid()
      ensures ok == (old(pos) < |text|) && canUnread == ok
      ensures ok ==> ch == text[old(pos)] && pos == old(pos) + 1
      ensures !ok ==> ch == 0 as char && pos == old(pos)
    {
      if pos < |text| {
        ch, ok := text[pos], true;
        pos := pos + 1;
      } else {
        ch, ok := 0 as char, false;
      }
      canUnread := ok;
    }

    method UnreadRune()
      requires Valid()
      modifies this
      ensures Valid() && !canUnread
      ensures pos == if old(canUnread) then old(pos) - 1 else old(pos)
    {
      if canUnread {
        pos := pos - 1;
      }
      canUnread := false;
    }
  }

  /**
   * The loop `for isWhitespace(ch) { ch, _, err = r.ReadRune() }` that both
   * Read and readDelimitedList start with: the first rune that is not
   * whitespace, read, or end of input at the end of the text.
   */
  method ReadPastWhitespace(r: RuneReader) returns (ch: char, ok: bool)
    requires r.Valid()
    modifies r
    ensures r.Valid()
    ensures ok == (SkipWhitespace(r.text, old(r.pos)) < |r.text|)
    ensures ok ==> r.pos == SkipWhitespace(r.text, old(r.pos)) + 1 && ch == r.text[r.pos - 1] && r.canUnread
    ensures !ok ==> r.pos == |r.text|
  {
    ghost var p0 := r.pos;
    ch, ok := r.ReadRune();
    while IsWhitespace(ch)
      invariant r.Valid() && p0 <= r.pos
      invariant ok ==> r.pos > 0 && ch == r.text[r.pos - 1] && r.canUnread
      invariant !ok ==> ch == 0 as char && r.pos == |r.text|
      invariant SkipWhitespace(r.text, p0) == SkipWhitespace(r.text, if ok then r.pos - 1 else r.pos)
      decreases |r.text| - r.pos + (if ok then 1 else 0)
    {
      ch, ok := r.ReadRune();
    }
  }

  /** Read (reader.go:37-82). */
  method Read(r: RuneReader) returns (out: Outcome)
    requires r.Valid()
    modifies r
    ensures r.Valid()
    ensures Step(out, r.pos) == ReaderSpec.Read(r.text, old(r.pos))
    decreases |r.text| - r.pos, 2
  {
    ghost var p0 := r.pos;
    while true
      invariant r.Valid() && p0 <= r.pos
      invariant ReaderSpec.Read(r.text, r.pos) == ReaderSpec.Read(r.text, p0)
      decreases |r.text| - r.pos
    {
      out := ReadOnce(r);
      if out == NoOp {
        continue;
      }
      return;
    }
  }

  /**
   * One iteration of Read's loop (reader.go:39-81): skip whitespace and
   * read what starts at the next character. After NoOp the loop goes round
   * again from the new position.
   */
  method ReadOnce(r: RuneReader) returns (out: Outcome)
    requires r.Valid()
    modifies r
    ensures r.Valid()
    ensures out == NoOp ==> old(r.pos) < r.pos && ReaderSpec.Read(r.text, old(r.pos)) == ReaderSpec.Read(r.text, r.pos)
    ensures out != NoOp ==> ReaderSpec.Read(r.text, old(r.pos)) == Step(out, r.pos)
    decreases |r.text| - r.pos, 1
  {
    ghost var p := r.pos;
    var ch, ok := ReadPastWhitespace(r);
    if !ok {
      ReadEnds(r.text, p);
      return Fail(EndOfInput);
    }
    ghost var q := r.pos - 1;
    out := ReadFormAfter(r, ch);
    ReadContinues(r.text, p, q, Step(out, r.pos));
  }

  /**
   * The rest of an iteration of Read's loop, once `ch`, the first
   * character after whitespace, has been read (reader.go:49-80). NoOp
   * means the loop goes round again.
   */
  method ReadFormAfter(r: RuneReader, ch: char) returns (out: Outcome)
    requires r.Valid() && r.canUnread && ch == r.text[r.pos - 1]
    modifies r
    ensures r.Valid()
    ensures Step(out, r.pos) == ReadFormAt(r.text, old(r.pos) - 1)
    decreases |r.text| - r.pos, 7
  {
    ghost var q := r.pos - 1;
    if IsDigit(ch) {
      FormAtDigit(r.text, q);
      out := ReadNumber(r, ch);
      return;
    }
    var macro := MacroFor(ch);
    if macro.Some? {
      FormAtMacro(r.text, q);
      out := CallMacro(r, macro.value);
      return;
    }
    if ch == '+' || ch == '-' {
      var ch2, _ := r.ReadRune();
      r.UnreadRune();
      if IsDigit(ch2) {
        FormAtSigned(r.text, q);
        out := ReadNumber(r, ch);
        return;
      }
    }
    FormAtToken(r.text, q);
    if NonConstituent(ch) {
      return Fail(InvalidLeadingCharacter(ch));
    }
    var token, err := ReadToken(r, ch);
    if err.Some? {
      return Fail(err.value);
    }
    return Form(InterpretToken(token));
  }

  /** readToken (reader.go:84-102). */
  method ReadToken(r: RuneReader, init: char) returns (token: string, err: Option<ReadError>)
    requires r.Valid()
    modifies r
    ensures r.Valid()
    ensures ReaderSpec.ReadToken(r.text, old(r.pos), init)
         == if err.Some? then ScanFailed(err.value, r.pos) else Scanned(token, r.pos)
  {
    ghost var p0 := r.pos;
    var sb := [init];
    while true
      invariant r.Valid() && p0 <= r.pos
      invariant TokenStop(r.text, r.pos) == TokenStop(r.text, p0)
      invariant sb == [init] + r.text[p0..r.pos]
      decreases |r.text| - r.pos
    {
      var ch, ok := r.ReadRune();
      if !ok || IsWhitespace(ch) || IsTerminatingMacro(ch) {
        r.UnreadRune();
        return sb, None;
      }
      if NonConstituent(ch) {
        return "", Some(InvalidConstituentCharacter(ch));
      }
      sb := sb + [ch];
    }
  }

  /** readNumber (reader.go:104-118). */
  method ReadNumber(r: RuneReader, init: char) returns (out: Outcome)
    requires r.Valid()
    modifies r
    ensures r.Valid()
    ensures Step(out, r.pos) == ReaderSpec.ReadNumber(r.text, old(r.pos), init)
  {
    ghost var p0 := r.pos;
    var sb := [init];
    while true
      invariant r.Valid() && p0 <= r.pos
      invariant NumberEnd(r.text, r.pos) == NumberEnd(r.text, p0)
      invariant sb == [init] + r.text[p0..r.pos]
      decreases |r.text| - r.pos
    {
      var ch, ok := r.ReadRune();
      if !ok || IsWhitespace(ch) || IsMacro(ch) {
        r.UnreadRune();
        break;
      }
      sb := sb + [ch];
    }
    return MatchNumber(sb);
  }

  /** The call `macroFn(r)` through the `macros` table. */
  method CallMacro(r: RuneReader, m: Macro) returns (out: Outcome)
    requires r.Valid()
    modifies r
    ensures r.Valid()
    ensures Step(out, r.pos) == MacroStep(r.text, old(r.pos), m)
    decreases |r.text| - r.pos, 6
  {
    match m
    case StringMacro => out := StringReader(r);
    case CommentMacro => out := CommentReader(r);
    case ListMacro => out := ListReader(r);
    case VectorMacro => out := VectorReader(r);
    case MapMacro => out := MapReader(r);
    case UnmatchedDelimiterMacro => out := UnmatchedDelimiterReader(r);
    case CharacterMacro => out := CharacterReader(r);
  }

  /** stringReader (reader.go:158-191). */
  method StringReader(r: RuneReader) returns (out: Outcome)
    requires r.Valid()
    modifies r
    ensures r.Valid()
    ensures Step(out, r.pos) == StringBody(r.text, old(r.pos), [])
  {
    ghost var p0 := r.pos;
    var sb := "";
    var ch, ok := r.ReadRune();
    while ch != '"'
      invariant r.Valid()
      invariant ok ==> r.pos > 0 && ch == r.text[r.pos - 1]
      invariant !ok ==> ch == 0 as char && r.pos == |r.text|
      invariant StringBody(r.text, if ok then r.pos - 1 else r.pos, sb) == StringBody(r.text, p0, [])
      decreases |r.text| - r.pos + (if ok then 1 else 0)
    {
      if !ok {
        return Fail(UnterminatedString);
      }
      if ch == '\\' {
        ch, ok := r.ReadRune();
        if !ok {
          return Fail(EndOfInput);
        }
        if ch == 't' {
          ch := '\t';
        } else if ch == 'r' {
          ch := '\r';
        } else if ch == 'n' {
          ch := '\n';
        } else if ch == 'b' {
          ch := 8 as char;
        } else if ch == 'f' {
          ch := 12 as char;
        } else if ch != '\\' && ch != '"' {
          return Fail(UnsupportedEscape(ch));
        }
      }
      sb := sb + [ch];
      ch, ok := r.ReadRune();
    }
    return Form(Str(sb));
  }

  /**
   * commentReader (reader.go:193-199). Its loop condition tests for a
   * failed read, so a successful first read ends it at once; after a failed
   * one every further read fails too (ReadRune at the end of the text leaves
   * the cursor where it is) and the loop never ends.
   */
  method CommentReader(r: RuneReader) returns (out: Outcome)
    requires r.Valid()
    modifies r
    ensures r.Valid()
    ensures Step(out, r.pos) == Comment(r.text, old(r.pos))
  {
    var ch, ok := r.ReadRune();
    if !ok && ch != '\n' && ch != '\r' {
      return Fail(Hang);
    }
    return NoOp;
  }

  /** characterReader (reader.go:201-232). */
  method CharacterReader(r: RuneReader) returns (out: Outcome)
    requires r.Valid()
    modifies r
    ensures r.Valid()
    ensures Step(out, r.pos) == Character(r.text, old(r.pos))
  {
    var ch, ok := r.ReadRune();
    if !ok {
      return Fail(EndOfInput);
    }
    var token, err := ReadToken(r, ch);
    if err.Some? {
      return Fail(err.value);
    }
    if Utf8Length(token) == 1 {
      return Form(Char(token[0]));
    }
    if token == "newline" {
      out := Form(Char('\n'));
    } else if token == "space" {
      out := Form(Char(' '));
    } else if token == "tab" {
      out := Form(Char('\t'));
    } else if token == "backspace" {
      out := Form(Char(8 as char));
    } else if token == "formfeed" {
      out := Form(Char(12 as char));
    } else if token == "return" {
      out := Form(Char('\r'));
    } else {
      out := Fail(UnsupportedCharacter(token));
    }
  }

  /** listReader (reader.go:234-240). */
  method ListReader(r: RuneReader) returns (out: Outcome)
    requires r.Valid()
    modifies r
    ensures r.Valid()
    ensures Step(out, r.pos) == MacroStep(r.text, old(r.pos), ListMacro)
    decreases |r.text| - r.pos, 5
  {
    var acc, err := ReadDelimitedList(r, ')', ListAcc([]));
    if err.Some? {
      return Fail(err.value);
    }
    return Form(List(acc.items));
  }

  /** vectorReader (reader.go:242-248). */
  method VectorReader(r: RuneReader) returns (out: Outcome)
    requires r.Valid()
    modifies r
    ensures r.Valid()
    ensures Step(out, r.pos) == MacroStep(r.text, old(r.pos), VectorMacro)
    decreases |r.text| - r.pos, 5
  {
    var acc, err := ReadDelimitedList(r, ']', VectorAcc([]));
    if err.Some? {
      return Fail(err.value);
    }
    return Form(Vector(acc.items));
  }

  /**
   * mapReader (reader.go:250-265). A panic or an endless loop in the
   * middle of the list never reaches the pending-key test.
   */
  method MapReader(r: RuneReader) returns (out: Outcome)
    requires r.Valid()
    modifies r
    ensures r.Valid()
    ensures Step(out, r.pos) == MacroStep(r.text, old(r.pos), MapMacro)
    decreases |r.text| - r.pos, 5
  {
    var acc, err := ReadDelimitedList(r, '}', MapAcc([], Nil));
    if err.Some? && Aborts(err.value) {
      return Fail(err.value);
    }
    if acc.key != Nil {
      return Fail(OddMapForms);
    }
    if err.Some? {
      return Fail(err.value);
    }
    return Form(Map(acc.entries));
  }

  /** unmatchedDelimiterReader (reader.go:267-269). */
  method UnmatchedDelimiterReader(r: RuneReader) returns (out: Outcome)
    requires r.Valid()
    modifies r
    ensures r.Valid()
    ensures Step(out, r.pos) == MacroStep(r.text, old(r.pos), UnmatchedDelimiterMacro)
  {
    return Fail(UnmatchedDelimiter);
  }

  /**
   * readDelimitedList (reader.go:271-309). The `add` callback is the
   * accumulator `acc`, updated by AddItem; a panic inside it ends the read.
   */
  method ReadDelimitedList(r: RuneReader, delim: char, start: Acc) returns (acc: Acc, err: Option<ReadError>)
    requires r.Valid()
    modifies r
    ensures r.Valid()
    ensures ReadDelimited(r.text, old(r.pos), delim, start)
         == if err.Some? then Stopped(acc, err.value, r.pos) else Closed(acc, r.pos)
    decreases |r.text| - r.pos, 4
  {
    ghost var p0 := r.pos;
    acc := start;
    while true
      invariant r.Valid() && p0 <= r.pos
      invariant ReadDelimited(r.text, r.pos, delim, acc) == ReadDelimited(r.text, p0, delim, start)
      decreases |r.text| - r.pos
    {
      ghost var p := r.pos;
      var ch, ok := ReadPastWhitespace(r);
      if !ok {
        DelimitedEnds(r.text, p, delim, acc);
        return acc, Some(EndOfInput);
      }
      if ch == delim {
        DelimitedCloses(r.text, p, delim, acc);
        break;
      }
      var o := ReadItemAfter(r, ch);
      DelimitedContinues(r.text, p, delim, acc, Step(o, r.pos));
      if o.Fail? {
        return acc, Some(o.error);
      }
      if o.Form? {
        if AddPanics(acc, o.value) {
          return acc, Some(UnhashableKey(acc.key));
        }
        acc := AddItem(acc, o.value);
      }
    }
    return acc, None;
  }

  /**
   * One item of readDelimitedList's loop once `ch`, the first character
   * after whitespace and not the delimiter, has been read
   * (reader.go:287-305): a macro is dispatched directly, anything else is
   * pushed back and read with Read.
   */
  method ReadItemAfter(r: RuneReader, ch: char) returns (o: Outcome)
    requires r.Valid() && r.canUnread && ch == r.text[r.pos - 1]
    modifies r
    ensures r.Valid()
    ensures Step(o, r.pos) == ItemAt(r.text, old(r.pos) - 1)
    decreases |r.text| - r.pos + 1, 3
  {
    ghost var q := r.pos - 1;
    var macro := MacroFor(ch);
    if macro.Some? {
      ItemAtMacro(r.text, q);
      o := CallMacro(r, macro.value);
    } else {
      ItemAtOther(r.text, q);
      r.UnreadRune();
      o := Read(r);
    }
  }

  // ---------------------------------------------------------------------
  // One unfolding of Read and ReadDelimited at a time, for the proofs of
  // the loops above.
  // ---------------------------------------------------------------------

  lemma ReadEnds(s: string, p: nat)
    requires p <= |s| && SkipWhitespace(s, p) == |s|
    ensures ReaderSpec.Read(s, p) == Step(Fail(EndOfInput), |s|)
  {
  }

  lemma ReadContinues(s: string, p: nat, q: nat, f: Step)
    requires p <= |s| && q == SkipWhitespace(s, p) && q < |s|
    requires f == ReadFormAt(s, q)
    ensures ReaderSpec.Read(s, p) == if f.out == NoOp then ReaderSpec.Read(s, f.next) else f
  {
  }

  lemma FormAtDigit(s: string, q: nat)
    requires q < |s| && IsDigit(s[q])
    ensures ReadFormAt(s, q) == ReaderSpec.ReadNumber(s, q + 1, s[q])
  {
  }

  lemma FormAtMacro(s: string, q: nat)
    requires q < |s| && !IsDigit(s[q]) && IsMacro(s[q])
    ensures ReadFormAt(s, q) == MacroStep(s, q + 1, MacroFor(s[q]).value)
  {
  }

  lemma FormAtSigned(s: string, q: nat)
    requires q + 1 < |s| && !IsDigit(s[q]) && !IsMacro(s[q])
    requires (s[q] == '+' || s[q] == '-') && IsDigit(s[q + 1])
    ensures ReadFormAt(s, q) == ReaderSpec.ReadNumber(s, q + 1, s[q])
  {
  }

  lemma FormAtToken(s: string, q: nat)
    requires q < |s| && !IsDigit(s[q]) && !IsMacro(s[q])
    requires !((s[q] == '+' || s[q] == '-') && q + 1 < |s| && IsDigit(s[q + 1]))
    ensures ReadFormAt(s, q) ==
      if NonConstituent(s[q]) then Step(Fail(InvalidLeadingCharacter(s[q])), q + 1)
      else match ReaderSpec.ReadToken(s, q + 1, s[q])
        case ScanFailed(e, n) => Step(Fail(e), n)
        case Scanned(t, n) => Step(Form(InterpretToken(t)), n)
  {
  }

  lemma DelimitedEnds(s: string, p: nat, delim: char, acc: Acc)
    requires p <= |s| && SkipWhitespace(s, p) == |s|
    ensures ReadDelimited(s, p, delim, acc) == Stopped(acc, EndOfInput, |s|)
  {
  }

  lemma DelimitedCloses(s: string, p: nat, delim: char, acc: Acc)
    requires p <= |s| && SkipWhitespace(s, p) < |s| && s[SkipWhitespace(s, p)] == delim
    ensures ReadDelimited(s, p, delim, acc) == Closed(acc, SkipWhitespace(s, p) + 1)
  {
  }

  lemma DelimitedContinues(s: string, p: nat, delim: char, acc: Acc, it: Step)
    requires p <= |s| && SkipWhitespace(s, p) < |s| && s[SkipWhitespace(s, p)] != delim
    requires it == ItemAt(s, SkipWhitespace(s, p))
    ensures ReadDelimited(s, p, delim, acc) ==
      match it.out
      case Fail(e) => Stopped(acc, e, it.next)
      case NoOp => ReadDelimited(s, it.next, delim, acc)
      case Form(v) =>
        if AddPanics(acc, v) then Stopped(acc, UnhashableKey(acc.key), it.next)
        else ReadDelimited(s, it.next, delim, AddItem(acc, v))
  {
  }

  lemma ItemAtMacro(s: string, q: nat)
    requires q < |s| && IsMacro(s[q])
    ensures ItemAt(s, q) == MacroStep(s, q + 1, MacroFor(s[q]).value)
  {
  }

  lemma ItemAtOther(s: string, q: nat)
    requires q < |s| && !IsMacro(s[q])
    ensures ItemAt(s, q) == ReaderSpec.Read(s, q)
  {
  }
}
