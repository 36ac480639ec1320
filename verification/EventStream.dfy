/** The streaming reader: server-sent events, one JSON envelope each, closed by "[DONE]". */
module EventStream {
  import opened Options

  datatype Choice = Choice(index: int, finish: Option<string>, content: string)

  /** What `json.Unmarshal` finds in one event; `failing` when an error member is present. */
  datatype Envelope = Envelope(model: string, usage: Option<string>, failing: bool, choices: seq<Choice>)

  type Parser = string -> Option<Envelope>

  datatype Verdict = Complete(raw: string) | Broken | Interrupted

  datatype Output = Output(verdict: Verdict, model: string, usage: Option<string>)

  const DONE := "[DONE]"

  // ---- Lines to events (section 9.2.6 of the WHATWG HTML standard, for the data field)

  function TrimCR(line: string): string {
    if line != "" && line[|line| - 1] == '\r' then line[..|line| - 1] else line
  }

  predicate Blank(line: string) { TrimCR(line) == "" }

  predicate Data(line: string) { "data:" <= TrimCR(line) }

  function Field(line: string): string
    requires Data(line)
  {
    var rest := TrimCR(line)[5..];
    if " " <= rest then rest[1..] else rest
  }

  function Join(data: seq<string>): string
    requires data != []
  {
    if |data| == 1 then data[0] else Join(data[..|data| - 1]) + "\n" + data[|data| - 1]
  }

  /** The lines waiting for a blank one, and the events dispatched so far. */
  datatype Feed = Feed(data: seq<string>, events: seq<string>)

  function Line(f: Feed, line: string): Feed {
    if Data(line) then f.(data := f.data + [Field(line)])
    else if Blank(line) && f.data != [] then Feed([], f.events + [Join(f.data)])
    else f
  }

  function Read(lines: seq<string>): Feed {
    if lines == [] then Feed([], []) else Line(Read(lines[..|lines| - 1]), lines[|lines| - 1])
  }

  function Events(lines: seq<string>): seq<string> { Read(lines).events }

  // ---- Events to a verdict

  function Delta(parse: Parser, event: string): string {
    match parse(event)
    case None => ""
    case Some(env) => if |env.choices| == 1 then env.choices[0].content else ""
  }

  /** The last finish reason given, empty before any. */
  function Finish(parse: Parser, events: seq<string>): string {
    if events == [] then ""
    else
      var before := Finish(parse, events[..|events| - 1]);
      match parse(events[|events| - 1])
      case None => before
      case Some(env) =>
        if |env.choices| == 1 && env.choices[0].finish.Some? then env.choices[0].finish.value else before
  }

  predicate WellFormed(parse: Parser, event: string) {
    match parse(event)
    case None => false
    case Some(env) => |env.choices| <= 1 && !env.failing && (|env.choices| == 1 ==> env.choices[0].index == 0)
  }

  /** Every envelope is sound, none of them "[DONE]", and no content follows a finish reason. */
  ghost predicate Clean(parse: Parser, events: seq<string>) {
    forall i :: 0 <= i < |events| ==>
      events[i] != DONE && WellFormed(parse, events[i])
      && (Delta(parse, events[i]) != "" ==> Finish(parse, events[..i]) == "")
  }

  function Contents(parse: Parser, events: seq<string>): string {
    if events == [] then "" else Contents(parse, events[..|events| - 1]) + Delta(parse, events[|events| - 1])
  }

  /** The stream says it is over at event `n`, with everything before it in order. */
  ghost predicate Closes(parse: Parser, events: seq<string>, n: int) {
    0 <= n < |events| && events[n] == DONE && Clean(parse, events[..n])
  }

  /** Complete means closed after "stop"; a clean stream that never closes is interrupted, not failed. */
  ghost function Judge(parse: Parser, events: seq<string>): Verdict {
    if exists n :: Closes(parse, events, n) then
      var n :| Closes(parse, events, n);
      if Finish(parse, events[..n]) == "stop" then Complete(Contents(parse, events[..n])) else Broken
    else if Clean(parse, events) then Interrupted
    else Broken
  }

  lemma ClosesCleanly(parse: Parser, events: seq<string>, n: int)
    requires Closes(parse, events, n)
    ensures forall i :: 0 <= i < n ==> events[i] != DONE
    ensures forall j :: 0 <= j <= n ==> Clean(parse, events[..j])
  {
    assert forall i :: 0 <= i < n ==> events[..n][i] == events[i];
    forall j | 0 <= j <= n ensures Clean(parse, events[..j]) {
      CleanPrefix(parse, events[..n], j);
      assert events[..n][..j] == events[..j];
    }
  }

  lemma ClosesOnce(parse: Parser, events: seq<string>, m: int, n: int)
    requires Closes(parse, events, m) && Closes(parse, events, n)
    ensures m == n
  {
    ClosesCleanly(parse, events, m);
    ClosesCleanly(parse, events, n);
  }

  lemma CleanMore(parse: Parser, events: seq<string>, event: string)
    requires Clean(parse, events)
    ensures Clean(parse, events + [event]) <==>
      event != DONE && WellFormed(parse, event) && (Delta(parse, event) != "" ==> Finish(parse, events) == "")
  {
    var more := events + [event];
    assert more[|events|] == event && more[..|events|] == events;
    assert forall i :: 0 <= i < |events| ==> more[i] == events[i] && more[..i] == events[..i];
  }

  // ---- The reader

  /** The accumulators of the reader. `events` is what was dispatched so far. */
  class Reader {
    var data: seq<string>
    var content: string
    var finish: string
    var model: string
    var usage: Option<string>
    ghost var events: seq<string>

    ghost predicate Follows(parse: Parser)
      reads this
    {
      Clean(parse, events) && content == Contents(parse, events) && finish == Finish(parse, events)
    }

    constructor (parse: Parser)
      ensures Follows(parse) && data == [] && events == []
    {
      data, content, finish, model, usage, events := [], "", "", "", None, [];
    }

    /** The `consume` closure, on a blank line. */
    method Consume(parse: Parser) returns (done: bool, valid: bool)
      requires Follows(parse)
      modifies this
      ensures data == []
      ensures old(data) == [] ==> !done && valid && events == old(events) && Follows(parse)
      ensures done <==> old(data) != [] && Join(old(data)) == DONE
      ensures done ==> valid && events == old(events) && Follows(parse)
      ensures old(data) != [] && !done ==> (valid <==> Clean(parse, old(events) + [Join(old(data))]))
      ensures old(data) != [] && !done && valid ==> events == old(events) + [Join(old(data))] && Follows(parse)
    {
      if data == [] { return false, true; }
      var raw := Join(data);
      data := [];
      if raw == DONE { return true, true; }
      done := false;
      CleanMore(parse, events, raw);
      assert (events + [raw])[..|events + [raw]| - 1] == events;
      var env := parse(raw);
      if env.None? || |env.value.choices| > 1 || env.value.failing { return false, false; }
      if env.value.model != "" { model := env.value.model; }
      if env.value.usage.Some? { usage := env.value.usage; }
      if |env.value.choices| == 1 {
        var c := env.value.choices[0];
        if c.index != 0 { return false, false; }
        if c.content != "" {
          if finish != "" { return false, false; }
          content := content + c.content;
        }
        if c.finish.Some? { finish := c.finish.value; }
      }
      events := events + [raw];
      valid := true;
    }
  }

  method ReadSSE(lines: seq<string>, parse: Parser) returns (out: Output)
    ensures out.verdict == Judge(parse, Events(lines))
  {
    hide Clean, Judge, Contents, Finish;
    var r := new Reader(parse);
    for i := 0 to |lines|
      invariant Read(lines[..i]) == Feed(r.data, r.events)
      invariant r.Follows(parse)
    {
      assert lines[..i + 1][..i] == lines[..i];
      var line := TrimCR(lines[i]);
      assert Read(lines[..i + 1]) == Line(Feed(r.data, r.events), lines[i]);
      if ":" <= line {
        assert line[0] == ':' && !Data(lines[i]);
        continue;
      }
      if "data:" <= line {
        var rest := line[5..];
        if " " <= rest { rest := rest[1..]; }
        r.data := r.data + [rest];
        continue;
      }
      if line != "" { continue; }
      Grows(lines, i + 1);
      ghost var before, waiting := r.events, r.data;
      var done, valid := r.Consume(parse);
      if !valid {
        Spoiled(parse, Events(lines), before, Join(waiting));
        return Output(Broken, r.model, r.usage);
      }
      if done {
        assert Events(lines)[..|before|] == before;
        Closed(parse, Events(lines), |before|);
        return Output(if r.finish == "stop" then Complete(r.content) else Broken, r.model, r.usage);
      }
    }
    assert lines[..|lines|] == lines;
    Unclosed(parse, r.events);
    out := Output(Interrupted, r.model, r.usage);
  }

  lemma Closed(parse: Parser, events: seq<string>, n: int)
    requires Closes(parse, events, n)
    ensures Judge(parse, events) ==
      if Finish(parse, events[..n]) == "stop" then Complete(Contents(parse, events[..n])) else Broken
  {
    var m :| Closes(parse, events, m);
    forall k | Closes(parse, events, k) ensures k == n { ClosesOnce(parse, events, k, n); }
  }

  lemma Unclosed(parse: Parser, events: seq<string>)
    requires Clean(parse, events)
    ensures Judge(parse, events) == Interrupted
  {
  }

  lemma CleanPrefix(parse: Parser, events: seq<string>, n: nat)
    requires n <= |events| && Clean(parse, events)
    ensures Clean(parse, events[..n])
  {
    forall i | 0 <= i < n
      ensures var e := events[..n];
        e[i] != DONE && WellFormed(parse, e[i]) && (Delta(parse, e[i]) != "" ==> Finish(parse, e[..i]) == "")
    {
      assert events[..n][..i] == events[..i];
    }
  }

  /** An unsound event spoils the stream, whatever follows. */
  lemma Spoiled(parse: Parser, events: seq<string>, before: seq<string>, bad: string)
    requires before + [bad] <= events && bad != DONE && Clean(parse, before) && !Clean(parse, before + [bad])
    ensures Judge(parse, events) == Broken
  {
    var n := |before|;
    assert events[..n] == before && events[n] == bad && events[..n + 1] == before + [bad];
    assert forall i :: 0 <= i < n ==> events[i] == before[i] != DONE;
    if k :| Closes(parse, events, k) {
      ClosesCleanly(parse, events, k);
    }
    if Clean(parse, events) { CleanPrefix(parse, events, n + 1); }
  }

  /** More lines only add events. */
  lemma {:induction false} Grows(lines: seq<string>, n: nat)
    requires n <= |lines|
    ensures Events(lines[..n]) <= Events(lines)
    decreases |lines| - n
  {
    if n == |lines| {
      assert lines[..n] == lines;
    } else {
      Grows(lines, n + 1);
      assert lines[..n + 1][..n] == lines[..n];
    }
  }

  /** Whatever comes after a completed stream does not change what was read. */
  lemma ExtensionIsIgnored(parse: Parser, lines: seq<string>, more: seq<string>)
    requires Judge(parse, Events(lines)).Complete?
    ensures Judge(parse, Events(lines + more)) == Judge(parse, Events(lines))
  {
    Grows(lines + more, |lines|);
    assert (lines + more)[..|lines|] == lines;
    var a, b := Events(lines), Events(lines + more);
    var n :| Closes(parse, a, n);
    assert b[..n] == a[..n] && b[n] == a[n];
    Closed(parse, a, n);
    Closed(parse, b, n);
  }

  /** A complete stream cut before its closing blank line is interrupted, even in the middle of a line. */
  lemma TruncationIsInterrupted(parse: Parser, lines: seq<string>, k: nat, partial: string)
    requires k <= |lines| && Judge(parse, Events(lines)).Complete?
    requires DONE !in Events(lines[..k])
    requires !Blank(partial)
    ensures Judge(parse, Events(lines[..k])) == Interrupted
    ensures Judge(parse, Events(lines[..k] + [partial])) == Interrupted
  {
    Grows(lines, k);
    var a, b := Events(lines[..k]), Events(lines);
    var n :| Closes(parse, b, n);
    assert forall i :: 0 <= i < |a| ==> b[i] == a[i] != DONE;
    assert |a| <= n;
    CleanPrefix(parse, b[..n], |a|);
    assert b[..n][..|a|] == a;
    Unclosed(parse, a);
    var cut := lines[..k] + [partial];
    assert cut[..|cut| - 1] == lines[..k];
  }

  /** What was read is all the content sent, in order, none of it after a finish reason. */
  lemma CompleteIsWhole(parse: Parser, lines: seq<string>)
    requires Judge(parse, Events(lines)).Complete?
    ensures exists n :: Closes(parse, Events(lines), n) && Finish(parse, Events(lines)[..n]) == "stop"
                        && Judge(parse, Events(lines)).raw == Contents(parse, Events(lines)[..n])
  {
    var n :| Closes(parse, Events(lines), n);
    Closed(parse, Events(lines), n);
  }

  /** The content is that of all events, one after the other. */
  lemma {:induction false} ContentsAddUp(parse: Parser, a: seq<string>, b: seq<string>)
    ensures Contents(parse, a + b) == Contents(parse, a) + Contents(parse, b)
  {
    if b == [] {
      assert a + b == a;
    } else {
      var n := |b| - 1;
      ContentsAddUp(parse, a, b[..n]);
      assert (a + b)[..|a + b| - 1] == a + b[..n];
      hide Delta;
    }
  }

  lemma ContentOfOne(parse: Parser, event: string)
    ensures Contents(parse, [event]) == match parse(event)
      case Some(Envelope(_, _, _, choices)) => (if |choices| == 1 then choices[0].content else "")
      case None => ""
  {
    assert [event][..0] == [];
  }

  /** The event ends the generation for the reason. */
  predicate Finishes(parse: Parser, event: string, reason: string) {
    parse(event).Some? && |parse(event).value.choices| == 1 && parse(event).value.choices[0].finish == Some(reason)
  }

  /** The finish reason that counts is the last one given. */
  lemma {:induction false} FinishIsLast(parse: Parser, events: seq<string>, i: nat, reason: string)
    requires i < |events| && Finishes(parse, events[i], reason)
    requires forall j, other :: i < j < |events| ==> !Finishes(parse, events[j], other)
    ensures Finish(parse, events) == reason
  {
    var n := |events| - 1;
    if i < n {
      forall other ensures !Finishes(parse, events[n], other) { }
      FinishIsLast(parse, events[..n], i, reason);
      if parse(events[n]).Some? && |parse(events[n]).value.choices| == 1 {
        assert parse(events[n]).value.choices[0].finish.Some? ==> Finishes(parse, events[n], parse(events[n]).value.choices[0].finish.value);
      }
    }
  }

  /** Without a finish reason there is none. */
  lemma {:induction false} NoFinish(parse: Parser, events: seq<string>)
    requires forall j, other :: 0 <= j < |events| ==> !Finishes(parse, events[j], other)
    ensures Finish(parse, events) == ""
  {
    if events != [] {
      var n := |events| - 1;
      NoFinish(parse, events[..n]);
      if parse(events[n]).Some? && |parse(events[n]).value.choices| == 1 {
        assert parse(events[n]).value.choices[0].finish.Some? ==> Finishes(parse, events[n], parse(events[n]).value.choices[0].finish.value);
      }
    }
  }
}
