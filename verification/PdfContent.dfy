/** The content streams of the PDF fixture, written and read back. Bytes are characters below 256. */
module PdfContent {
  import opened Basics
  import opened PdfText

  // ---------------------------------------------------------------- page content

  const PROLOGUE: seq<string> := ["BT", "/F1 11 Tf", "14 TL", "72 750 Td"]
  const NEXT_LINE: string := "T*"
  const SHOW: string := ") Tj"
  const END_TEXT: string := "ET"

  function Join(sep: string, parts: seq<string>): string {
    if parts == [] then "" else if |parts| == 1 then parts[0] else parts[0] + sep + Join(sep, parts[1..])
  }

  function ShowLine(line: string): string {
    "(" + Escape(line) + SHOW
  }

  function LineCommands(lines: seq<string>, first: bool): seq<string> {
    if lines == [] then []
    else (if first then [] else [NEXT_LINE]) + [ShowLine(lines[0])] + LineCommands(lines[1..], false)
  }

  function Commands(lines: seq<string>): seq<string> {
    PROLOGUE + LineCommands(lines, true) + [END_TEXT]
  }

  lemma {:induction false} LineCommandsAppend(lines: seq<string>, line: string, first: bool)
    ensures LineCommands(lines + [line], first)
            == LineCommands(lines, first)
               + (if lines == [] && first then [] else [NEXT_LINE]) + [ShowLine(line)]
  {
    if lines == [] {
      assert (lines + [line])[1..] == [];
    } else {
      assert (lines + [line])[1..] == lines[1..] + [line];
      LineCommandsAppend(lines[1..], line, false);
    }
  }

  /** `_page_content`: the commands are collected in a list and joined. */
  method PageContent(lines: seq<string>) returns (content: string)
    ensures content == Join("\n", Commands(lines))
  {
    var commands := PROLOGUE;
    var first := true;
    for i := 0 to |lines|
      invariant first <==> i == 0
      invariant commands == PROLOGUE + LineCommands(lines[..i], true)
    {
      assert lines[..i + 1] == lines[..i] + [lines[i]];
      LineCommandsAppend(lines[..i], lines[i], true);
      if !first {
        commands := commands + [NEXT_LINE];
      }
      commands := commands + [ShowLine(lines[i])];
      first := false;
    }
    assert lines[..|lines|] == lines;
    commands := commands + [END_TEXT];
    return Join("\n", commands);
  }

  // ---------------------------------------------------------------- Latin-1

  function Latin(c: char): char {
    if c as int < 256 then c else '?'
  }

  /** `encode("latin-1", errors="replace")`. */
  function Encode(text: string): string {
    if text == "" then "" else [Latin(text[0])] + Encode(text[1..])
  }

  predicate IsLatin(text: string) {
    forall i | 0 <= i < |text| :: text[i] as int < 256
  }

  lemma {:induction false} EncodeSum(a: string, b: string)
    ensures Encode(a + b) == Encode(a) + Encode(b)
  {
    if a == "" {
      assert a + b == b;
    } else {
      assert (a + b)[1..] == a[1..] + b;
      EncodeSum(a[1..], b);
    }
  }

  lemma {:induction false} EncodeLatin(text: string)
    ensures Encode(text) == text <==> IsLatin(text)
  {
    if text != "" {
      EncodeLatin(text[1..]);
      assert text == [text[0]] + text[1..];
      if IsLatin(text[1..]) && text[0] as int < 256 {
        assert forall i | 1 <= i < |text| :: text[i] == text[1..][i - 1];
      }
      if IsLatin(text) {
        assert forall i | 0 <= i < |text[1..]| :: text[1..][i] == text[i + 1];
      }
      if Encode(text) == text {
        assert Latin(text[0]) == text[0] && Encode(text[1..]) == text[1..];
      }
    }
  }

  /** Escaping before encoding is encoding before escaping. */
  lemma {:induction false} EncodeEscape(text: string)
    ensures Encode(Escape(text)) == Escape(Encode(text))
  {
    if text != "" {
      var x, tail := text[0], text[1..];
      assert text == [x] + tail;
      EscapeCons(x, tail);
      EscapeCons(Latin(x), Encode(tail));
      EncodeSum(EscapeChar(x), Escape(tail));
      EncodeEscape(tail);
      EncodeEscapeChar(x);
    }
  }

  lemma EncodeEscapeChar(x: char)
    ensures Encode(EscapeChar(x)) == EscapeChar(Latin(x))
  {
    EncodeOne(x);
    if EscapeChar(x) != [x] {
      EncodeOne('\\');
      EncodeSum(['\\'], [x]);
      assert ['\\', x] == ['\\'] + [x];
    }
  }

  lemma EncodeOne(x: char)
    ensures Encode([x]) == [Latin(x)]
  {
    assert Encode([x]) == [Latin(x)] + Encode([x][1..]);
  }

  function EncodeAll(lines: seq<string>): (r: seq<string>)
    ensures |r| == |lines|
  {
    seq(|lines|, i requires 0 <= i < |lines| => Encode(lines[i]))
  }

  lemma {:induction false} EncodeJoin(sep: string, parts: seq<string>)
    requires Encode(sep) == sep
    ensures Encode(Join(sep, parts)) == Join(sep, EncodeAll(parts))
  {
    if |parts| > 1 {
      EncodeSum(parts[0] + sep, Join(sep, parts[1..]));
      EncodeSum(parts[0], sep);
      EncodeJoin(sep, parts[1..]);
      assert EncodeAll(parts)[1..] == EncodeAll(parts[1..]);
    }
  }

  lemma EncodeShow(line: string)
    ensures Encode(ShowLine(line)) == ShowLine(Encode(line))
  {
    EncodeSum("(" + Escape(line), SHOW);
    EncodeSum("(", Escape(line));
    EncodeEscape(line);
    EncodeLatin("(");
    EncodeLatin(SHOW);
  }

  lemma {:induction false} EncodeLineCommands(lines: seq<string>, first: bool)
    ensures EncodeAll(LineCommands(lines, first)) == LineCommands(EncodeAll(lines), first)
  {
    if lines != [] {
      EncodeLineCommands(lines[1..], false);
      EncodeFirst(lines[0], if first then [] else [NEXT_LINE]);
      EncodeAllSum((if first then [] else [NEXT_LINE]) + [ShowLine(lines[0])], LineCommands(lines[1..], false));
      assert EncodeAll(lines)[1..] == EncodeAll(lines[1..]);
    }
  }

  lemma EncodeFirst(line: string, head: seq<string>)
    requires head == [] || head == [NEXT_LINE]
    ensures EncodeAll(head + [ShowLine(line)]) == head + [ShowLine(Encode(line))]
  {
    EncodeShow(line);
    EncodeLatin(NEXT_LINE);
  }

  lemma EncodeAllSum(a: seq<string>, b: seq<string>)
    ensures EncodeAll(a + b) == EncodeAll(a) + EncodeAll(b)
  {
  }

  lemma EncodeCommands(lines: seq<string>)
    ensures EncodeAll(Commands(lines)) == Commands(EncodeAll(lines))
  {
    EncodeLineCommands(lines, true);
    EncodePrologue();
    EncodeLatin(END_TEXT);
    assert EncodeAll(Commands(lines))
        == EncodeAll(PROLOGUE) + EncodeAll(LineCommands(lines, true)) + EncodeAll([END_TEXT]);
  }

  lemma EncodePrologue()
    ensures EncodeAll(PROLOGUE) == PROLOGUE
  {
    forall i | 0 <= i < 4
      ensures EncodeAll(PROLOGUE)[i] == PROLOGUE[i]
    {
      PrologueLatin(i);
      EncodeLatin(PROLOGUE[i]);
    }
  }

  lemma PrologueLatin(i: nat)
    requires i < 4
    ensures IsLatin(PROLOGUE[i])
  {
  }

  /** The content stream of a page. */
  function ContentOf(lines: seq<string>): string {
    Encode(Join("\n", Commands(lines)))
  }

  // ---------------------------------------------------------------- reading page content

  /** Read the lines of a text object, from its first or a later line on. */
  function ReadLines(input: string, first: bool): Option<seq<string>>
    decreases |input|
  {
    if input == END_TEXT then Some([])
    else
      var start := if first then Some(input) else Skip(NEXT_LINE + "\n", input);
      if start.None? then None
      else
        var opening := Skip("(", start.value);
        if opening.None? then None
        else
          var text := ReadLiteral(opening.value, 0);
          if text.None? then None
          else
            var next := Skip(" Tj\n", text.value.1);
            if next.None? || |next.value| >= |input| then None
            else
              var rest := ReadLines(next.value, false);
              if rest.None? then None else Some([text.value.0] + rest.value)
  }

  function ReadContent(content: string): Option<seq<string>> {
    var start := Skip(Join("\n", PROLOGUE) + "\n", content);
    if start.None? then None else ReadLines(start.value, true)
  }

  function NormalAll(lines: seq<string>): (r: seq<string>)
    ensures |r| == |lines|
  {
    seq(|lines|, i requires 0 <= i < |lines| => EolNormal(lines[i]))
  }

  /** The text of the line commands and the closing operator. */
  function LineText(lines: seq<string>, first: bool): string {
    Join("\n", LineCommands(lines, first) + [END_TEXT])
  }

  /** A line and the text of the lines after it. */
  function ShownText(line: string, tail: string): string {
    ShowLine(line) + "\n" + tail
  }

  lemma FirstLineText(lines: seq<string>)
    requires lines != []
    ensures LineText(lines, true) == ShownText(lines[0], LineText(lines[1..], false))
  {
    var tail := LineCommands(lines[1..], false) + [END_TEXT];
    JoinSum("\n", [ShowLine(lines[0])], tail);
    assert LineCommands(lines, true) + [END_TEXT] == [ShowLine(lines[0])] + tail;
  }

  lemma LaterLineText(lines: seq<string>)
    requires lines != []
    ensures LineText(lines, false) == (NEXT_LINE + "\n") + ShownText(lines[0], LineText(lines[1..], false))
  {
    var tail := LineCommands(lines[1..], false) + [END_TEXT];
    var shown := [ShowLine(lines[0])] + tail;
    JoinSum("\n", [ShowLine(lines[0])], tail);
    JoinSum("\n", [NEXT_LINE], shown);
    assert LineCommands(lines, false) + [END_TEXT] == [NEXT_LINE] + shown;
  }

  lemma NotTheEnd(rest: string)
    ensures "(" + rest != END_TEXT && NEXT_LINE + rest != END_TEXT
  {
    var opening, next := "(" + rest, NEXT_LINE + rest;
    assert opening[0] == "("[0] == '(' && next[0] == NEXT_LINE[0] == 'T' && END_TEXT[0] == 'E';
    assert opening != END_TEXT && next != END_TEXT;
  }

  /** What follows one shown line is found again. */
  lemma ShownLineRead(line: string, rest: string)
    ensures Skip("(", ShownText(line, rest)) == Some(Escape(line) + ")" + (" Tj\n" + rest))
    ensures ReadLiteral(Escape(line) + ")" + (" Tj\n" + rest), 0) == Some((EolNormal(line), " Tj\n" + rest))
    ensures Skip(" Tj\n", " Tj\n" + rest) == Some(rest)
    ensures |rest| < |ShownText(line, rest)|
  {
    assert SHOW + "\n" == ")" + " Tj\n";
    assert ShownText(line, rest) == "(" + (Escape(line) + ")" + (" Tj\n" + rest));
    SkipToken("(", Escape(line) + ")" + (" Tj\n" + rest));
    LiteralRoundTrip(line, " Tj\n" + rest);
    SkipToken(" Tj\n", rest);
  }

  lemma {:induction false} LinesRead(lines: seq<string>, first: bool)
    ensures ReadLines(LineText(lines, first), first) == Some(NormalAll(lines))
  {
    if lines == [] {
      assert LineText(lines, first) == END_TEXT;
    } else {
      var tail := LineText(lines[1..], false);
      var shown := ShownText(lines[0], tail);
      LinesRead(lines[1..], false);
      ShownLineRead(lines[0], tail);
      ShownStarts(lines, first, tail, shown);
      LineAndRest(LineText(lines, first), first, shown, Escape(lines[0]) + ")" + (" Tj\n" + tail),
                  EolNormal(lines[0]), " Tj\n" + tail, tail, NormalAll(lines[1..]));
      assert NormalAll(lines) == [EolNormal(lines[0])] + NormalAll(lines[1..]);
    }
  }

  lemma ShownStarts(lines: seq<string>, first: bool, tail: string, shown: string)
    requires lines != [] && tail == LineText(lines[1..], false) && shown == ShownText(lines[0], tail)
    ensures LineText(lines, first) != END_TEXT && |shown| <= |LineText(lines, first)|
    ensures (if first then Some(LineText(lines, first)) else Skip(NEXT_LINE + "\n", LineText(lines, first)))
            == Some(shown)
  {
    if first {
      FirstLineText(lines);
      ShownNotEnd(lines[0], tail);
    } else {
      LaterLineText(lines);
      LaterStarts(shown, LineText(lines, first));
    }
  }

  lemma ShownNotEnd(line: string, tail: string)
    ensures ShownText(line, tail) != END_TEXT
  {
    assert ShownText(line, tail) == "(" + (Escape(line) + SHOW + "\n" + tail);
    NotTheEnd(Escape(line) + SHOW + "\n" + tail);
  }

  lemma LaterStarts(shown: string, text: string)
    requires text == (NEXT_LINE + "\n") + shown
    ensures Skip(NEXT_LINE + "\n", text) == Some(shown) && text != END_TEXT && |shown| <= |text|
  {
    SkipToken(NEXT_LINE + "\n", shown);
    assert text == NEXT_LINE + ("\n" + shown);
    NotTheEnd("\n" + shown);
  }

  lemma LineAndRest(input: string, first: bool, shown: string, opening: string, line: string, next: string,
                    tail: string, rest: seq<string>)
    requires input != END_TEXT && |tail| < |input|
    requires (if first then Some(input) else Skip(NEXT_LINE + "\n", input)) == Some(shown)
    requires Skip("(", shown) == Some(opening) && ReadLiteral(opening, 0) == Some((line, next))
    requires Skip(" Tj\n", next) == Some(tail) && ReadLines(tail, false) == Some(rest)
    ensures ReadLines(input, first) == Some([line] + rest)
  {
  }

  lemma {:induction false} JoinSum(sep: string, a: seq<string>, b: seq<string>)
    requires a != [] && b != []
    ensures Join(sep, a + b) == Join(sep, a) + sep + Join(sep, b)
  {
    if |a| == 1 {
      assert (a + b)[1..] == b;
    } else {
      assert (a + b)[1..] == a[1..] + b;
      JoinSum(sep, a[1..], b);
      assert a[0] + sep + (Join(sep, a[1..]) + sep + Join(sep, b))
          == (a[0] + sep + Join(sep, a[1..])) + sep + Join(sep, b);
    }
  }

  /** The lines read from a content stream are the Latin-1 lines, up to end-of-line markers. */
  lemma ContentRoundTrip(lines: seq<string>)
    ensures ReadContent(ContentOf(lines)) == Some(NormalAll(EncodeAll(lines)))
  {
    var encoded := EncodeAll(lines);
    EncodeLatin("\n");
    EncodeJoin("\n", Commands(lines));
    EncodeCommands(lines);
    assert Commands(encoded) == PROLOGUE + (LineCommands(encoded, true) + [END_TEXT]);
    JoinSum("\n", PROLOGUE, LineCommands(encoded, true) + [END_TEXT]);
    SkipToken(Join("\n", PROLOGUE) + "\n", LineText(encoded, true));
    LinesRead(encoded, true);
  }

  /** A line comes back unchanged exactly if it is Latin-1 and has no carriage return. */
  lemma LinePreserved(line: string)
    ensures EolNormal(Encode(line)) == line <==> IsLatin(line) && '\r' !in line
  {
    EncodeLatin(line);
    EolNormalFixed(Encode(line));
    if EolNormal(Encode(line)) == line {
      EolNormalLatin(Encode(line));
      EncodeIsLatin(line);
    }
  }

  lemma {:induction false} EncodeIsLatin(text: string)
    ensures IsLatin(Encode(text))
  {
    if text != "" {
      EncodeIsLatin(text[1..]);
      var tail := Encode(text[1..]);
      assert forall i | 1 <= i < |Encode(text)| :: Encode(text)[i] == tail[i - 1];
    }
  }

  lemma {:induction false} EolNormalLatin(text: string)
    ensures IsLatin(text) ==> IsLatin(EolNormal(text))
    decreases |text|
  {
    if text != "" && IsLatin(text) {
      var k := if EolLength(text) > 0 then EolLength(text) else 1;
      assert forall i | 0 <= i < |text[k..]| :: text[k..][i] == text[i + k];
      EolNormalLatin(text[k..]);
      var tail := EolNormal(text[k..]);
      assert forall i | 1 <= i < |EolNormal(text)| :: EolNormal(text)[i] == tail[i - 1];
    }
  }
}
