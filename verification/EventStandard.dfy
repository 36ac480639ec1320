/** The reader's framing of a stream against that of section 9.2.6 of the WHATWG HTML standard. */
module EventStandard {
  import opened EventStream

  const MARK := '\U{FEFF}'

  // ---- Text to lines

  /** `bufio.ScanLines` over the rest of a stream, `line` being read: newlines end lines, one carriage return is dropped. */
  function Scanned(line: string, text: string): seq<string>
    decreases |text|
  {
    if text == "" then if line == "" then [] else [TrimCR(line)]
    else if text[0] == '\n' then [TrimCR(line)] + Scanned("", text[1..])
    else Scanned(line + [text[0]], text[1..])
  }

  /** The lines of the standard: CRLF, LF and CR each end one. */
  function Framed(line: string, text: string): seq<string>
    decreases |text|
  {
    if text == "" then if line == "" then [] else [line]
    else if text[0] == '\n' then [line] + Framed("", text[1..])
    else if text[0] != '\r' then Framed(line + [text[0]], text[1..])
    else if "\r\n" <= text then [line] + Framed("", text[2..])
    else [line] + Framed("", text[1..])
  }

  predicate Marked(text: string) { text != "" && text[0] == MARK }

  /** The standard's lines of a stream; one leading byte order mark is stripped. */
  function StandardLines(text: string): seq<string> { Framed("", if Marked(text) then text[1..] else text) }

  /** The lines as the reader looks at them, after its own trim. */
  function Trimmed(lines: seq<string>): seq<string> {
    if lines == [] then [] else [TrimCR(lines[0])] + Trimmed(lines[1..])
  }

  function ReaderLines(text: string): seq<string> { Trimmed(Scanned("", text)) }

  /** Every carriage return is followed by a newline, or by nothing. */
  predicate Tidy(text: string) {
    forall i :: 0 <= i < |text| - 1 && text[i] == '\r' ==> text[i + 1] == '\n'
  }

  // ---- Lines to events

  /** The standard's reading of a line, for the data field, whose name may stand alone. */
  function StandardLine(f: Feed, line: string): Feed {
    if line == "data" then f.(data := f.data + [""])
    else if "data:" <= line then
      f.(data := f.data + [if " " <= line[5..] then line[6..] else line[5..]])
    else if line == "" && f.data != [] then Feed([], f.events + [Join(f.data)])
    else f
  }

  function StandardRead(lines: seq<string>): Feed {
    if lines == [] then Feed([], []) else StandardLine(StandardRead(lines[..|lines| - 1]), lines[|lines| - 1])
  }

  function StandardEvents(text: string): seq<string> { StandardRead(StandardLines(text)).events }

  function ReaderEvents(text: string): seq<string> { Events(Scanned("", text)) }

  /** A line that is the bare field name is followed, at some point, by a blank line. */
  ghost predicate BareData(lines: seq<string>) {
    exists i, j :: 0 <= i < j < |lines| && lines[i] == "data" && lines[j] == ""
  }

  // ---- The lines agree exactly on tidy text without a mark

  lemma {:induction false} TrimmedAt(lines: seq<string>)
    ensures |Trimmed(lines)| == |lines|
    ensures forall i :: 0 <= i < |lines| ==> Trimmed(lines)[i] == TrimCR(lines[i])
  {
    if lines != [] { TrimmedAt(lines[1..]); }
  }

  lemma TidyFrom(text: string, n: nat)
    requires 1 <= n <= |text| && (n == 2 ==> text[0] == '\r' && text[1] == '\n') && n <= 2
    ensures Tidy(text) <==> (n == 1 && |text| > 1 && text[0] == '\r' ==> text[1] == '\n') && Tidy(text[n..])
  {
    var rest := text[n..];
    assert forall i :: 0 <= i < |rest| ==> rest[i] == text[i + n];
    if Tidy(rest) {
      forall i | n <= i < |text| - 1 && text[i] == '\r' ensures text[i + 1] == '\n' { assert rest[i - n] == '\r'; }
    }
  }

  predicate Plain(line: string) { forall i :: 0 <= i < |line| ==> line[i] != '\r' }

  lemma {:induction false} TidyLines(line: string, text: string)
    requires Tidy(text) && Plain(line)
    ensures Trimmed(Scanned(line, text)) == Framed(line, text)
    decreases |text|
  {
    if text == "" {
    } else if text[0] == '\r' && |text| > 1 {
      TidyFrom(text, 2);
      assert text[1..][0] == '\n' && text[1..][1..] == text[2..];
      TidyLines("", text[2..]);
    } else if text[0] == '\r' {
      assert text == "\r";
      assert Scanned(line + "\r", "") == [line];
    } else {
      TidyFrom(text, 1);
      TidyLines(if text[0] == '\n' then "" else line + [text[0]], text[1..]);
    }
  }

  /** The standard finds at least as many lines as the reader, and more where a carriage return stands alone. */
  lemma {:induction false} UntidyLines(l: string, line: string, text: string)
    requires text != "" || line == "" || l != ""
    ensures |Framed(l, text)| >= |Scanned(line, text)| + if Tidy(text) then 0 else 1
    decreases |text|
  {
    if text == "" {
    } else if "\r\n" <= text {
      TidyFrom(text, 2);
      assert text[1..][0] == '\n' && text[1..][1..] == text[2..];
      UntidyLines("", "", text[2..]);
    } else {
      TidyFrom(text, 1);
      if text[0] == '\n' {
        UntidyLines("", "", text[1..]);
      } else if text[0] == '\r' {
        if |text| > 1 { UntidyLines("", line + "\r", text[1..]); }
      } else {
        UntidyLines(l + [text[0]], line + [text[0]], text[1..]);
      }
    }
  }

  /** What was read of a line stays at its front. */
  lemma {:induction false} FrontStays(front: string, line: string, text: string)
    requires front != "" && front[|front| - 1] != '\r' && front <= line
    ensures |Scanned(line, text)| > 0 && front <= TrimCR(Scanned(line, text)[0])
    decreases |text|
  {
    if text != "" && text[0] != '\n' { FrontStays(front, line + [text[0]], text[1..]); }
  }

  lemma {:induction false} MarkStays(line: string, text: string)
    requires Plain(line)
    ensures Trimmed(Scanned([MARK] + line, text)) != Framed(line, text)
    decreases |text|
  {
    var front := [MARK] + line;
    TrimmedAt(Scanned(front, text));
    FrontStays(front, front, text);
    if text != "" && text[0] != '\n' && text[0] != '\r' {
      assert front + [text[0]] == [MARK] + (line + [text[0]]);
      MarkStays(line + [text[0]], text[1..]);
    }
  }

  lemma LinesAgree(text: string)
    ensures ReaderLines(text) == StandardLines(text) <==> Tidy(text) && !Marked(text)
  {
    if Marked(text) {
      assert "" + [text[0]] == [MARK] + "";
      MarkStays("", text[1..]);
    } else if Tidy(text) {
      TidyLines("", text);
    } else {
      UntidyLines("", "", text);
      TrimmedAt(Scanned("", text));
    }
  }

  // ---- The events of the same lines agree exactly when no bare field is dispatched

  /** One more line, for both. */
  lemma ReadMore(lines: seq<string>)
    requires lines != []
    ensures var before, line := lines[..|lines| - 1], lines[|lines| - 1];
      && Read(lines) == Line(Read(before), line)
      && Trimmed(lines) == Trimmed(before) + [TrimCR(line)]
      && StandardRead(Trimmed(lines)) == StandardLine(StandardRead(Trimmed(before)), TrimCR(line))
  {
    var before, line := lines[..|lines| - 1], lines[|lines| - 1];
    TrimmedAt(lines);
    TrimmedAt(before);
    assert Trimmed(lines)[..|before|] == Trimmed(before);
  }

  /** The characters of some strings, and one more for each. */
  function Weight(data: seq<string>): nat {
    if data == [] then 0 else Weight(data[..|data| - 1]) + |data[|data| - 1]| + 1
  }

  lemma WeightMore(data: seq<string>, s: string)
    ensures Weight(data + [s]) == Weight(data) + |s| + 1
  {
    assert (data + [s])[..|data|] == data;
  }

  /** Joining keeps the weight. */
  lemma {:induction false} JoinWeight(data: seq<string>)
    requires data != []
    ensures |Join(data)| + 1 == Weight(data)
  {
    if |data| == 1 {
      assert data[..0] == [];
    } else {
      JoinWeight(data[..|data| - 1]);
    }
  }

  /** The bare fields so far. */
  function Bare(lines: seq<string>): nat {
    if lines == [] then 0 else Bare(lines[..|lines| - 1]) + if lines[|lines| - 1] == "data" then 1 else 0
  }

  /** Those of them that no blank line has followed yet. */
  function Waiting(lines: seq<string>): nat {
    if lines == [] || lines[|lines| - 1] == "" then 0
    else Waiting(lines[..|lines| - 1]) + if lines[|lines| - 1] == "data" then 1 else 0
  }

  lemma LineWeighs(f: Feed, g: Feed, line: string)
    ensures var l, m := Line(f, line), StandardLine(g, TrimCR(line));
      var bare := if TrimCR(line) == "data" then 1 else 0;
      && Weight(l.events) + Weight(l.data) + Weight(g.events) + Weight(g.data) + bare
         == Weight(m.events) + Weight(m.data) + Weight(f.events) + Weight(f.data)
      && (Blank(line) ==> l.data == [] && m.data == [])
      && (!Blank(line) ==> Weight(m.data) + Weight(f.data) == Weight(l.data) + Weight(g.data) + bare)
  {
    if Blank(line) {
      if f.data != [] {
        JoinWeight(f.data);
        WeightMore(f.events, Join(f.data));
      }
      if g.data != [] {
        JoinWeight(g.data);
        WeightMore(g.events, Join(g.data));
      }
    } else if Data(line) {
      WeightMore(f.data, Field(line));
      WeightMore(g.data, Field(line));
    } else {
      WeightMore(g.data, "");
    }
  }

  /** Each dispatched bare field weighs one more in the standard's events. */
  lemma {:induction false} BareFieldsWeigh(lines: seq<string>)
    ensures var f, g, seen := Read(lines), StandardRead(Trimmed(lines)), Trimmed(lines);
      && Weight(g.data) == Weight(f.data) + Waiting(seen)
      && Weight(g.events) + Weight(g.data) == Weight(f.events) + Weight(f.data) + Bare(seen)
  {
    if lines != [] {
      var before, line := lines[..|lines| - 1], lines[|lines| - 1];
      BareFieldsWeigh(before);
      ReadMore(lines);
      assert Trimmed(lines)[..|Trimmed(lines)| - 1] == Trimmed(before);
      LineWeighs(Read(before), StandardRead(Trimmed(before)), line);
      hide Read, StandardRead, Line, StandardLine, Trimmed;
    }
  }

  lemma {:induction false} BareIsCounted(lines: seq<string>)
    ensures Waiting(lines) <= Bare(lines)
    ensures BareData(lines) ==> Waiting(lines) < Bare(lines)
  {
    if lines != [] {
      var n := |lines| - 1;
      BareIsCounted(lines[..n]);
      if BareData(lines) {
        var i, j :| 0 <= i < j < |lines| && lines[i] == "data" && lines[j] == "";
        if j < n { assert lines[..n][i] == "data" && lines[..n][j] == ""; }
        if j == n { BareAt(lines[..n], i); }
      }
    }
  }

  lemma {:induction false} BareAt(lines: seq<string>, i: nat)
    requires i < |lines| && lines[i] == "data"
    ensures Bare(lines) > 0
  {
    if i < |lines| - 1 { BareAt(lines[..|lines| - 1], i); }
  }

  lemma {:induction false} NoBareNoDifference(lines: seq<string>)
    requires !BareData(Trimmed(lines))
    ensures Read(lines).events == StandardRead(Trimmed(lines)).events
    ensures "data" !in Trimmed(lines) ==> Read(lines).data == StandardRead(Trimmed(lines)).data
  {
    if lines != [] {
      var before, line := lines[..|lines| - 1], lines[|lines| - 1];
      var seen := Trimmed(lines);
      ReadMore(lines);
      assert forall i :: 0 <= i < |Trimmed(before)| ==> seen[i] == Trimmed(before)[i];
      assert seen[|seen| - 1] == TrimCR(line);
      assert !BareData(Trimmed(before));
      NoBareNoDifference(before);
      hide Read, StandardRead, Trimmed;
      assert Blank(line) ==> "data" !in Trimmed(before);
    }
  }

  lemma EventsAgree(lines: seq<string>)
    ensures Events(lines) == StandardRead(Trimmed(lines)).events <==> !BareData(Trimmed(lines))
  {
    if BareData(Trimmed(lines)) {
      BareFieldsWeigh(lines);
      BareIsCounted(Trimmed(lines));
    } else {
      NoBareNoDifference(lines);
    }
  }

  // ---- The result, and one input for each difference

  /**
   * On a stream whose carriage returns all belong to line ends, without a byte order mark, the reader dispatches the
   * events of the standard exactly when no bare `data` line is followed by a blank one.
   */
  lemma ReaderMeetsStandard(text: string)
    requires Tidy(text) && !Marked(text)
    ensures ReaderEvents(text) == StandardEvents(text) <==> !BareData(StandardLines(text))
  {
    LinesAgree(text);
    EventsAgree(Scanned("", text));
  }

  lemma {:induction false} ScanLine(line: string, s: string, rest: string)
    requires '\n' !in s
    ensures Scanned(line, s + "\n" + rest) == [TrimCR(line + s)] + Scanned("", rest)
    decreases |s|
  {
    var text := s + "\n" + rest;
    if s == "" {
      assert text[1..] == rest && line + s == line;
    } else {
      assert text[1..] == s[1..] + "\n" + rest;
      assert line + [s[0]] + s[1..] == line + s;
      ScanLine(line + [s[0]], s[1..], rest);
    }
  }

  lemma {:induction false} FrameLine(line: string, s: string, end: char, rest: string)
    requires '\n' !in s && '\r' !in s && (end == '\n' || (end == '\r' && !("\n" <= rest)))
    ensures Framed(line, s + [end] + rest) == [line + s] + Framed("", rest)
    decreases |s|
  {
    var text := s + [end] + rest;
    if s == "" {
      assert text[1..] == rest && line + s == line;
      assert end == '\r' && |text| > 1 ==> text[1] == rest[0];
    } else {
      assert text[0] == s[0] && text[1..] == s[1..] + [end] + rest;
      assert line + [s[0]] + s[1..] == line + s;
      FrameLine(line + [s[0]], s[1..], end, rest);
    }
  }

  /** One line and a blank one, for both. */
  lemma OneEvent(s: string)
    requires '\n' !in s
    ensures Scanned("", s + "\n\n") == [TrimCR(s), ""]
    ensures '\r' !in s ==> Framed("", s + "\n\n") == [s, ""]
  {
    assert s + "\n\n" == s + "\n" + "\n" && "\n" == "" + "\n" + "" && "" + s == s;
    ScanLine("", s, "\n");
    ScanLine("", "", "");
    if '\r' !in s {
      FrameLine("", s, '\n', "\n");
      FrameLine("", "", '\n', "");
    }
  }

  lemma ReadOne(a: string)
    ensures Read([a]) == Line(Feed([], []), a) && StandardRead([a]) == StandardLine(Feed([], []), a)
  {
    assert [a][..0] == [];
  }

  lemma ReadTwo(a: string, b: string)
    ensures Read([a, b]) == Line(Line(Feed([], []), a), b)
    ensures StandardRead([a, b]) == StandardLine(StandardLine(Feed([], []), a), b)
  {
    ReadOne(a);
    assert [a, b][..1] == [a];
  }

  /** A bare field that is dispatched: the standard has an event, the reader none. */
  lemma BareFieldIsLost()
    ensures StandardEvents("data\n\n") == [""] && ReaderEvents("data\n\n") == []
  {
    assert "data\n\n" == "data" + "\n\n" && !Marked("data\n\n");
    OneEvent("data");
    ReadTwo("data", "");
    hide Scanned, Framed, Read, StandardRead;
  }

  lemma LoneReturnLines()
    ensures Scanned("", "data:a\rdata:b\n\n") == ["data:a\rdata:b", ""]
    ensures StandardLines("data:a\rdata:b\n\n") == ["data:a", "data:b", ""]
  {
    hide Scanned, Framed;
    var text := "data:a\rdata:b\n\n";
    assert text == "data:a\rdata:b" + "\n\n" == "data:a" + "\r" + "data:b\n\n" && "" + "data:a" == "data:a";
    OneEvent("data:a\rdata:b");
    assert "data:b\n\n"[0] == 'd';
    FrameLine("", "data:a", '\r', "data:b\n\n");
    assert "data:b\n\n" == "data:b" + "\n\n";
    OneEvent("data:b");
  }

  /** A lone carriage return: the standard ends the line there, the reader has it inside the event. */
  lemma LoneReturnIsKept()
    ensures StandardEvents("data:a\rdata:b\n\n") == ["a\nb"] && ReaderEvents("data:a\rdata:b\n\n") == ["a\rdata:b"]
  {
    hide Scanned, StandardLines;
    LoneReturnLines();
    var lines := ["data:a", "data:b", ""];
    assert lines[..2] == ["data:a", "data:b"];
    ReadTwo("data:a\rdata:b", "");
    ReadTwo("data:a", "data:b");
    assert StandardRead(lines) == StandardLine(StandardRead(lines[..2]), "");
    hide Read, StandardRead;
    var one := StandardLine(Feed([], []), "data:a");
    assert one == Feed(["a"], []);
    var two := StandardLine(one, "data:b");
    assert two == Feed(["a", "b"], []);
    assert ["a", "b"][..1] == ["a"] && Join(["a"]) == "a";
    assert "a" + "\n" + "b" == "a\nb";
  }

  /** A byte order mark: the standard strips it, the reader takes it as part of the first field name. */
  lemma MarkHidesField()
    ensures StandardEvents([MARK] + "data:a\n\n") == ["a"] && ReaderEvents([MARK] + "data:a\n\n") == []
  {
    hide Scanned, Framed;
    var a := [MARK] + "data:a";
    var text := [MARK] + "data:a\n\n";
    assert text == a + "\n\n" && text[1..] == "data:a" + "\n\n";
    OneEvent(a);
    OneEvent("data:a");
    ReadTwo(a, "");
    ReadTwo("data:a", "");
    hide Read, StandardRead;
  }
}
