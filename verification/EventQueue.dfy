/**
 The offline event queue: one JSON event per line of a file. A flush sends events from the front;
 the first one that is refused stays at the front with one more retry on its count, and blocks
 the rest. The JSON codec and the transport's answers are parameters.
 */
module EventQueue {
  import opened Basics

  // ---- lines ----

  predicate NoNewline(s: string) {
    '\n' !in s
  }

  /** Position of the first newline at or after `from`, or the length if there is none. */
  function NewlineFrom(s: string, from: nat): (k: nat)
    requires from <= |s|
    ensures from <= k <= |s| && (k < |s| ==> s[k] == '\n') && (forall i | from <= i < k :: s[i] != '\n')
    decreases |s| - from
  {
    if from == |s| || s[from] == '\n' then from else NewlineFrom(s, from + 1)
  }

  /** The lines of a text; a last line need not be ended. */
  function Lines(s: string): seq<string>
    decreases |s|
  {
    if s == "" then []
    else
      var k := NewlineFrom(s, 0);
      if k == |s| then [s] else [s[..k]] + Lines(s[k + 1..])
  }

  /** Every line followed by a newline. */
  function Unlines(lines: seq<string>): string {
    if lines == [] then "" else lines[0] + "\n" + Unlines(lines[1..])
  }

  lemma FirstLine(line: string, rest: string)
    requires NoNewline(line)
    ensures Lines(line + "\n" + rest) == [line] + Lines(rest)
  {
    var s := line + "\n" + rest;
    var k := NewlineFrom(s, 0);
    assert s[|line|] == '\n';
    assert forall i | 0 <= i < |line| :: s[i] == line[i];
    assert k == |line|;
    assert s[..k] == line && s[k + 1..] == rest;
  }

  /** Splitting inverts writing ... */
  lemma {:induction false} SplitInvertsWrite(lines: seq<string>)
    requires forall i | 0 <= i < |lines| :: NoNewline(lines[i])
    ensures Lines(Unlines(lines)) == lines
  {
    if lines != [] {
      SplitInvertsWrite(lines[1..]);
      FirstLine(lines[0], Unlines(lines[1..]));
    }
  }

  predicate Ended(s: string) {
    s == "" || s[|s| - 1] == '\n'
  }

  /** ... and writing inverts splitting, up to the newline that an unfinished last line lacks. */
  lemma {:induction false} WriteInvertsSplit(s: string)
    ensures Unlines(Lines(s)) == if Ended(s) then s else s + "\n"
    ensures forall i | 0 <= i < |Lines(s)| :: NoNewline(Lines(s)[i])
    decreases |s|
  {
    if s != "" {
      var k := NewlineFrom(s, 0);
      if k == |s| {
        LastLine(s);
        UnlinesFirst(s, []);
      } else {
        var line, rest := s[..k], s[k + 1..];
        assert s == line + "\n" + rest;
        WriteInvertsSplit(rest);
        FirstLine(line, rest);
        UnlinesFirst(line, Lines(rest));
        if !Ended(rest) {
          Associates(line + "\n", rest, "\n");
        }
      }
    }
  }

  lemma UnlinesFirst(line: string, rest: seq<string>)
    ensures Unlines([line] + rest) == line + "\n" + Unlines(rest)
  {
    assert ([line] + rest)[1..] == rest;
  }

  lemma {:induction false} LinesAppend(s: string, t: string)
    requires Ended(s)
    ensures Lines(s + t) == Lines(s) + Lines(t)
    decreases |s|
  {
    if s == "" {
      assert s + t == t;
    } else {
      var line, rest := CutFirstLine(s);
      LinesAppend(rest, t);
      FirstLine(line, rest + t);
      Associates(line + "\n", rest, t);
      Associates([line], Lines(rest), Lines(t));
    }
  }

  lemma CutFirstLine(s: string) returns (line: string, rest: string)
    requires Ended(s) && s != ""
    ensures s == line + "\n" + rest && NoNewline(line) && Ended(rest) && Lines(s) == [line] + Lines(rest)
  {
    var k := NewlineFrom(s, 0);
    line, rest := s[..k], s[k + 1..];
    FirstLine(line, rest);
  }

  lemma LastLine(s: string)
    requires NoNewline(s) && s != ""
    ensures Lines(s) == [s]
  {
  }

  predicate OneLine(s: string, start: nat, i: nat) {
    start <= i <= |s| && forall j | start <= j < i :: s[j] != '\n'
  }

  /** `lines` are the lines of `s` up to `start`. */
  predicate SplitUpTo(s: string, lines: seq<string>, start: nat) {
    start <= |s| && lines + Lines(s[start..]) == Lines(s)
  }

  lemma SplitStart(s: string)
    ensures SplitUpTo(s, [], 0)
  {
    assert s[0..] == s;
  }

  lemma SplitNext(s: string, lines: seq<string>, start: nat, i: nat)
    requires SplitUpTo(s, lines, start) && OneLine(s, start, i) && i < |s| && s[i] == '\n'
    ensures SplitUpTo(s, lines + [s[start..i]], i + 1)
  {
    FirstLine(s[start..i], s[i + 1..]);
    assert s[start..] == s[start..i] + "\n" + s[i + 1..];
    Associates(lines, [s[start..i]], Lines(s[i + 1..]));
  }

  lemma SplitEnd(s: string, lines: seq<string>, start: nat)
    requires SplitUpTo(s, lines, start) && OneLine(s, start, |s|)
    ensures Lines(s) == if start < |s| then lines + [s[start..]] else lines
  {
    if start < |s| {
      LastLine(s[start..]);
    }
  }

  method SplitLines(s: string) returns (lines: seq<string>)
    ensures lines == Lines(s)
  {
    lines := [];
    var start := 0;
    SplitStart(s);
    for i := 0 to |s|
      invariant OneLine(s, start, i)
      invariant SplitUpTo(s, lines, start)
    {
      if s[i] == '\n' {
        SplitNext(s, lines, start, i);
        lines := lines + [s[start..i]];
        start := i + 1;
      }
    }
    SplitEnd(s, lines, start);
    if start < |s| {
      lines := lines + [s[start..]];
    }
  }

  // ---- events ----

  /** A stored event; `data` is its data as JSON text, and a count of retries that is missing is zero. */
  datatype Event = Event(kind: string, data: string, timestamp: string, retries: int)

  function Retried(e: Event): Event {
    e.(retries := e.retries + 1)
  }

  /** How events are written as lines; `holds` are the events that can be. */
  datatype Codec = Codec(encode: Event -> string, parse: string -> Option<Event>, holds: Event -> bool)

  /**
   Encoding gives one non-empty line, and parsing gives the event back; whatever is read can be written
   again, also with one retry more as long as it has a retry left.
   */
  ghost predicate Faithful(c: Codec, maxRetries: int) {
    && (forall e | c.holds(e) :: c.parse(c.encode(e)) == Some(e) && NoNewline(c.encode(e)) && c.encode(e) != "")
    && (forall line | c.parse(line).Some? :: c.holds(c.parse(line).value))
    && (forall e | c.holds(e) && e.retries < maxRetries :: c.holds(Retried(e)))
  }

  /** All of these events can be written. */
  predicate AllHeld(c: Codec, events: seq<Event>) {
    forall i | 0 <= i < |events| :: c.holds(events[i])
  }

  /** The events that the lines hold; blank and unreadable lines are skipped. */
  function Parsed(c: Codec, lines: seq<string>): seq<Event> {
    if lines == [] then []
    else if lines[0] != "" && c.parse(lines[0]).Some? then [c.parse(lines[0]).value] + Parsed(c, lines[1..])
    else Parsed(c, lines[1..])
  }

  function Encoded(c: Codec, events: seq<Event>): seq<string> {
    if events == [] then [] else [c.encode(events[0])] + Encoded(c, events[1..])
  }

  lemma ParsedFirst(c: Codec, line: string, rest: seq<string>)
    ensures Parsed(c, [line] + rest) ==
            if line != "" && c.parse(line).Some? then [c.parse(line).value] + Parsed(c, rest) else Parsed(c, rest)
  {
    assert ([line] + rest)[1..] == rest;
  }

  lemma {:induction false} ParsedAppend(c: Codec, a: seq<string>, b: seq<string>)
    ensures Parsed(c, a + b) == Parsed(c, a) + Parsed(c, b)
  {
    if a == [] {
      assert a + b == b;
    } else {
      var line, rest := a[0], a[1..];
      ParsedAppend(c, rest, b);
      ParsedFirst(c, line, rest);
      ParsedFirst(c, line, rest + b);
      assert a == [line] + rest;
      Associates([line], rest, b);
      if line != "" && c.parse(line).Some? {
        Associates([c.parse(line).value], Parsed(c, rest), Parsed(c, b));
      }
    }
  }

  lemma {:induction false} ParsedIsHeld(c: Codec, maxRetries: int, lines: seq<string>)
    requires Faithful(c, maxRetries)
    ensures AllHeld(c, Parsed(c, lines))
  {
    if lines != [] {
      ParsedIsHeld(c, maxRetries, lines[1..]);
    }
  }

  lemma {:induction false} ParsedInvertsEncoded(c: Codec, maxRetries: int, events: seq<Event>)
    requires Faithful(c, maxRetries) && AllHeld(c, events)
    ensures Parsed(c, Encoded(c, events)) == events
    ensures |Encoded(c, events)| == |events|
    ensures forall i | 0 <= i < |Encoded(c, events)| :: NoNewline(Encoded(c, events)[i])
  {
    if events != [] {
      ParsedInvertsEncoded(c, maxRetries, events[1..]);
    }
  }

  /** The events in a file's text. */
  function Queued(c: Codec, text: string): seq<Event> {
    Parsed(c, Lines(text))
  }

  /** What is written is what is read back. */
  lemma WrittenIsQueued(c: Codec, maxRetries: int, events: seq<Event>)
    requires Faithful(c, maxRetries) && AllHeld(c, events)
    ensures Queued(c, Unlines(Encoded(c, events))) == events && Ended(Unlines(Encoded(c, events)))
  {
    ParsedInvertsEncoded(c, maxRetries, events);
    SplitInvertsWrite(Encoded(c, events));
    UnlinesIsEnded(Encoded(c, events));
  }

  lemma {:induction false} UnlinesIsEnded(lines: seq<string>)
    ensures Ended(Unlines(lines))
  {
    if lines != [] {
      UnlinesIsEnded(lines[1..]);
      var rest := Unlines(lines[1..]);
      assert Unlines(lines) == lines[0] + "\n" + rest;
      if rest != "" {
        assert Unlines(lines)[|Unlines(lines)| - 1] == rest[|rest| - 1];
      }
    }
  }

  /** Appending one event's line adds that event at the back. */
  lemma AppendedIsQueued(c: Codec, maxRetries: int, text: string, e: Event)
    requires Faithful(c, maxRetries) && c.holds(e) && Ended(text)
    ensures Queued(c, text + c.encode(e) + "\n") == Queued(c, text) + [e]
  {
    var line := c.encode(e);
    FirstLine(line, "");
    assert line + "\n" + "" == line + "\n";
    LinesAppend(text, line + "\n");
    Associates(text, line, "\n");
    ParsedAppend(c, Lines(text), [line]);
    ParsedOne(c, line);
    assert Lines(line + "\n") == [line];
  }

  lemma ParsedOne(c: Codec, line: string)
    requires line != "" && c.parse(line).Some?
    ensures Parsed(c, [line]) == [c.parse(line).value]
  {
    assert Parsed(c, [line][1..]) == [];
  }

  /** What is written of `s` when a write fails after `size` bytes. */
  function Torn(s: string, size: nat): string {
    if size < |s| then s[..size] else s
  }

  /** Whatever is appended to finished lines, the events before it stay. */
  lemma TornKeepsQueued(c: Codec, text: string, rest: string)
    requires Ended(text)
    ensures Queued(c, text) <= Queued(c, text + rest)
  {
    LinesAppend(text, rest);
    ParsedAppend(c, Lines(text), Lines(rest));
  }

  /** An event appended behind a torn line shares its fate: the two are read as one line. */
  lemma TornLineSwallowsNext(c: Codec, done: string, torn: string, e: Event)
    requires NoNewline(c.encode(e)) && Ended(done) && NoNewline(torn)
    ensures Queued(c, done + torn + c.encode(e) + "\n") == Queued(c, done) + Parsed(c, [torn + c.encode(e)])
  {
    var line := torn + c.encode(e);
    FirstLine(line, "");
    assert line + "\n" + "" == line + "\n";
    LinesAppend(done, line + "\n");
    assert done + torn + c.encode(e) + "\n" == done + (line + "\n");
    ParsedAppend(c, Lines(done), [line]);
    assert Lines(line + "\n") == [line];
  }

  // ---- one flush ----

  datatype Answer = Accept | AcceptThenCancel | Refuse

  /** A flush that was cancelled half-way, or what it sent and what it keeps. */
  datatype Result = Cancelled | Finished(sent: seq<Event>, kept: seq<Event>)

  /** `answer(n)` is the transport's answer to the n-th event that is sent. */
  function Flush(events: seq<Event>, maxRetries: int, answer: nat -> Answer, sent: seq<Event>): Result
    decreases |events|
  {
    if events == [] then Finished(sent, [])
    else if events[0].retries >= maxRetries then Flush(events[1..], maxRetries, answer, sent)
    else match answer(|sent|)
      case Refuse => Finished(sent, [Retried(events[0])] + events[1..])
      case Accept => Flush(events[1..], maxRetries, answer, sent + [events[0]])
      case AcceptThenCancel => Cancelled
  }

  lemma FlushNext(e: Event, rest: seq<Event>, maxRetries: int, answer: nat -> Answer, sent: seq<Event>)
    ensures Flush([e] + rest, maxRetries, answer, sent) ==
            if e.retries >= maxRetries then Flush(rest, maxRetries, answer, sent)
            else match answer(|sent|)
              case Refuse => Finished(sent, [Retried(e)] + rest)
              case Accept => Flush(rest, maxRetries, answer, sent + [e])
              case AcceptThenCancel => Cancelled
  {
    assert ([e] + rest)[1..] == rest;
  }

  /** The events of `s` that still have a retry left. */
  function Live(s: seq<Event>, maxRetries: int): seq<Event> {
    if s == [] then []
    else if s[0].retries < maxRetries then [s[0]] + Live(s[1..], maxRetries)
    else Live(s[1..], maxRetries)
  }

  /**
   A finished flush cuts the queue at `n`: of the events before, those with a retry left were sent, in
   order, and the others had none left; the events after are kept, in order, and only the first of
   them has changed, by one retry.
   */
  lemma {:induction false} FlushConserves(events: seq<Event>, maxRetries: int, answer: nat -> Answer, sent: seq<Event>)
    returns (n: nat)
    requires Flush(events, maxRetries, answer, sent).Finished?
    ensures n <= |events|
    ensures var r := Flush(events, maxRetries, answer, sent);
            && r.sent == sent + Live(events[..n], maxRetries)
            && (n == |events| ==> r.kept == [])
            && (n < |events| ==>
                  && r.kept == [events[n].(retries := events[n].retries + 1)] + events[n + 1..]
                  && events[n].retries < maxRetries && answer(|r.sent|).Refuse?)
    ensures forall k: nat | |sent| <= k < |Flush(events, maxRetries, answer, sent).sent| :: answer(k).Accept?
    decreases |events|
  {
    if events == [] || (events[0].retries < maxRetries && answer(|sent|).Refuse?) {
      n := 0;
    } else {
      var before := if events[0].retries < maxRetries then sent + [events[0]] else sent;
      var m := FlushConserves(events[1..], maxRetries, answer, before);
      n := m + 1;
      assert events[..n][1..] == events[1..][..m];
      assert events[..n][0] == events[0];
      if m < |events| - 1 {
        assert events[1..][m + 1..] == events[n + 1..];
      }
    }
  }

  /** What has a retry left keeps its place among what has. */
  lemma {:induction false} LiveInPlace(s: seq<Event>, e: Event, t: seq<Event>, maxRetries: int)
    ensures Live(s + [e] + t, maxRetries)
         == Live(s, maxRetries) + (if e.retries < maxRetries then [e] else []) + Live(t, maxRetries)
  {
    if s == [] {
      assert [e] + t == s + [e] + t && ([e] + t)[1..] == t;
    } else {
      assert (s + [e] + t)[0] == s[0] && (s + [e] + t)[1..] == s[1..] + [e] + t;
      LiveInPlace(s[1..], e, t, maxRetries);
    }
  }

  /**
   How a flush ends is decided by the first `n` events with a retry left, all of them accepted, and by the answer to
   the next one: without a next one all were sent and nothing is kept; a refusal ends the sending and keeps the
   refused event in front; and an acceptance during which the flush was cancelled leaves it unfinished.
   */
  lemma {:induction false} FlushEnds(events: seq<Event>, maxRetries: int, answer: nat -> Answer, sent: seq<Event>,
                                     n: nat)
    requires n <= |Live(events, maxRetries)| && forall m: nat | |sent| <= m < |sent| + n :: answer(m) == Accept
    ensures var r := Flush(events, maxRetries, answer, sent);
            var live := Live(events, maxRetries);
            && (n == |live| ==> r == Finished(sent + live, []))
            && (n < |live| && answer(|sent| + n) == Refuse ==>
                  && r.Finished? && r.sent == sent + live[..n]
                  && |r.kept| > 0 && r.kept[0] == live[n].(retries := live[n].retries + 1))
            && (n < |live| && answer(|sent| + n) == AcceptThenCancel ==> r == Cancelled)
    decreases |events|
  {
    if events != [] {
      if events[0].retries >= maxRetries {
        FlushEnds(events[1..], maxRetries, answer, sent, n);
      } else if n > 0 {
        assert answer(|sent|) == Accept;
        FlushEnds(events[1..], maxRetries, answer, sent + [events[0]], n - 1);
      }
    }
  }

  /** A flush is cancelled exactly when it was while an event was accepted, with no refusal before. */
  lemma CancelledIff(events: seq<Event>, maxRetries: int, answer: nat -> Answer)
    ensures Flush(events, maxRetries, answer, []) == Cancelled <==>
            exists n: nat :: && n < |Live(events, maxRetries)| && answer(n) == AcceptThenCancel
                             && forall m: nat | m < n :: answer(m) == Accept
  {
    var count := |Live(events, maxRetries)|;
    var n := FirstNotAccepted(answer, count);
    FlushEnds(events, maxRetries, answer, [], n);
    forall k: nat | k < count && answer(k) == AcceptThenCancel && forall m: nat | m < k :: answer(m) == Accept
      ensures k == n
    {
    }
  }

  /** Every event with a retry left is accepted. */
  ghost predicate AllAccepted(events: seq<Event>, maxRetries: int, answer: nat -> Answer) {
    forall n: nat | n < |Live(events, maxRetries)| :: answer(n) == Accept
  }

  lemma AllAcceptedAreSent(events: seq<Event>, maxRetries: int, answer: nat -> Answer)
    ensures AllAccepted(events, maxRetries, answer) ==>
              Flush(events, maxRetries, answer, []) == Finished(Live(events, maxRetries), [])
  {
    if AllAccepted(events, maxRetries, answer) {
      FlushEnds(events, maxRetries, answer, [], |Live(events, maxRetries)|);
    }
  }

  /** The first of the answers that is no acceptance. */
  function FirstNotAccepted(answer: nat -> Answer, count: nat): (n: nat)
    ensures n <= count && (forall m: nat | m < n :: answer(m) == Accept)
    ensures n < count ==> answer(n) != Accept
  {
    if count == 0 then 0
    else
      var n := FirstNotAccepted(answer, count - 1);
      if n == count - 1 && answer(n) == Accept then count else n
  }

  lemma KeptIsHeld(c: Codec, maxRetries: int, events: seq<Event>, answer: nat -> Answer)
    requires Faithful(c, maxRetries) && AllHeld(c, events) && Flush(events, maxRetries, answer, []).Finished?
    ensures AllHeld(c, Flush(events, maxRetries, answer, []).kept)
  {
    var n := FlushConserves(events, maxRetries, answer, []);
  }

  // ---- the file ----

  class EventFile {
    /** The file's text; None while there is no file. */
    var text: Option<string>

    function Events(c: Codec): seq<Event>
      reads this
    {
      if text.Some? then Queued(c, text.value) else []
    }

    /** What the file holds is a sequence of finished lines. */
    predicate Whole()
      reads this
    {
      text.Some? ==> Ended(text.value)
    }

    constructor (stored: Option<string>)
      ensures text == stored
    {
      text := stored;
    }

    /**
     Appends the first `size` bytes of the event's line, if the event can be written; a write can fail
     anywhere. A complete line adds the event, and a torn one loses none of the events before it.
     */
    method BufferEvent(c: Codec, maxRetries: int, e: Event, started: bool, size: nat)
      requires Faithful(c, maxRetries)
      modifies this
      ensures !started || !c.holds(e) ==> text == old(text)
      ensures started && c.holds(e) ==>
                text == Some((if old(text).Some? then old(text).value else "") + Torn(c.encode(e) + "\n", size))
      ensures started && c.holds(e) && size > |c.encode(e)| && old(Whole()) ==>
              Events(c) == old(Events(c)) + [e] && Whole()
      ensures old(Whole()) ==> old(Events(c)) <= Events(c)
    {
      if started && c.holds(e) {
        var before := if text.Some? then text.value else "";
        var line := c.encode(e) + "\n";
        if Ended(before) {
          TornKeepsQueued(c, before, Torn(line, size));
          if size >= |line| {
            Associates(before, c.encode(e), "\n");
            AppendedIsQueued(c, maxRetries, before, e);
          }
        }
        text := Some(before + Torn(line, size));
      }
    }

    /**
     Sends the queued events and rewrites or removes the file; without a connection, when cancelled or
     when the file cannot be replaced, the file stays as it is.
     */
    method FlushBufferedEvents(c: Codec, maxRetries: int, connected: bool, answer: nat -> Answer, replaced: bool)
      returns (result: Option<Result>)
      requires Faithful(c, maxRetries)
      modifies this
      ensures result == if connected && old(text).Some? then Some(Flush(old(Events(c)), maxRetries, answer, []))
              else None
      ensures result.Some? && result.value.Finished? && replaced ==> Events(c) == result.value.kept && Whole()
      ensures result.Some? && result.value.Finished? && replaced ==> (text == None <==> result.value.kept == [])
      ensures connected && old(text).Some? && AllAccepted(old(Events(c)), maxRetries, answer) ==>
                result == Some(Finished(Live(old(Events(c)), maxRetries), [])) && (replaced ==> text == None)
      ensures result.None? || result.value.Cancelled? || !replaced ==> text == old(text)
    {
      if !connected || text.None? {
        return None;
      }
      var lines := SplitLines(text.value);
      AllAcceptedAreSent(Parsed(c, lines), maxRetries, answer);
      result := Some(Cancelled);
      var sent, kept := [], [];
      var i := 0;
      while i < |lines|
        invariant 0 <= i <= |lines| && kept == [] && text == old(text)
        invariant Flush(Parsed(c, lines[i..]), maxRetries, answer, sent) == Flush(Parsed(c, lines), maxRetries,
                  answer, [])
        invariant result == Some(Cancelled)
      {
        ParsedNext(c, lines, i);
        var line := lines[i];
        i := i + 1;
        if line == "" || c.parse(line).None? {
          continue;
        }
        var e := c.parse(line).value;
        FlushNext(e, Parsed(c, lines[i..]), maxRetries, answer, sent);
        if e.retries >= maxRetries {
          continue;
        }
        var reply := answer(|sent|);
        if reply.AcceptThenCancel? {
          return;
        }
        if reply.Refuse? {
          var remaining := ParseRemaining(c, lines, i);
          kept := [Retried(e)] + remaining;
          break;
        }
        sent := sent + [e];
      }
      result := Some(Finished(sent, kept));
      if replaced {
        ParsedIsHeld(c, maxRetries, lines);
        KeptIsHeld(c, maxRetries, Parsed(c, lines), answer);
        WrittenIsQueued(c, maxRetries, kept);
        text := if kept == [] then None else Some(Unlines(Encoded(c, kept)));
      }
    }
  }

  lemma ParsedNext(c: Codec, lines: seq<string>, i: nat)
    requires i < |lines|
    ensures Parsed(c, lines[i..]) ==
            if lines[i] != "" && c.parse(lines[i]).Some? then [c.parse(lines[i]).value] + Parsed(c, lines[i + 1..])
            else Parsed(c, lines[i + 1..])
  {
    assert lines[i..][1..] == lines[i + 1..];
  }

  /** The readable events after the one that was refused. */
  method ParseRemaining(c: Codec, lines: seq<string>, from: nat) returns (events: seq<Event>)
    requires from <= |lines|
    ensures events == Parsed(c, lines[from..])
  {
    events := [];
    var i := from;
    while i < |lines|
      invariant from <= i <= |lines|
      invariant events + Parsed(c, lines[i..]) == Parsed(c, lines[from..])
    {
      ParsedNext(c, lines, i);
      if lines[i] != "" && c.parse(lines[i]).Some? {
        Associates(events, [c.parse(lines[i]).value], Parsed(c, lines[i + 1..]));
        events := events + [c.parse(lines[i]).value];
      }
      i := i + 1;
    }
  }

  // ---- many flushes ----

  /** The queue, numbers for its events and for the next one, and which of them were refused at the front so far. */
  datatype Store = Store(queue: seq<Event>, ids: seq<nat>, next: nat, refused: seq<nat>)

  datatype Step =
    | Append(event: Event)
    | FlushAll(answer: nat -> Answer, replaced: bool)

  /** A new event starts without retries. */
  function Fresh(e: Event): Event {
    e.(retries := 0)
  }

  /** Cuts off the numbers of the events that left the front, and counts the refusal of the one now there. */
  function Cut(s: Store, kept: seq<Event>): Store
    requires |kept| <= |s.queue| == |s.ids|
  {
    var ids := s.ids[|s.queue| - |kept|..];
    s.(queue := kept, ids := ids, refused := if kept == [] then s.refused else s.refused + [ids[0]])
  }

  function After(s: Store, step: Step, maxRetries: int): Store {
    match step
    case Append(event) => s.(queue := s.queue + [Fresh(event)], ids := s.ids + [s.next], next := s.next + 1)
    case FlushAll(answer, replaced) =>
      var r := Flush(s.queue, maxRetries, answer, []);
      if r.Finished? && replaced && |r.kept| <= |s.queue| == |s.ids| then Cut(s, r.kept) else s
  }

  function Runs(s: Store, steps: seq<Step>, maxRetries: int): Store {
    if steps == [] then s else After(Runs(s, steps[..|steps| - 1], maxRetries), steps[|steps| - 1], maxRetries)
  }

  function Refusals(s: Store, id: nat): nat {
    multiset(s.refused)[id]
  }

  /** Events are numbered apart, and each has been refused at most as often as its retries say. */
  ghost predicate Counted(s: Store, maxRetries: int) {
    && |s.ids| == |s.queue|
    && (forall i, j | 0 <= i < j < |s.ids| :: s.ids[i] < s.ids[j])
    && (forall i | 0 <= i < |s.ids| :: s.ids[i] < s.next && Refusals(s, s.ids[i]) <= s.queue[i].retries)
    && (forall id: nat :: Refusals(s, id) > 0 ==> id < s.next && Refusals(s, id) <= maxRetries)
  }

  lemma FlushKeepsCounted(s: Store, answer: nat -> Answer, maxRetries: int)
    requires Counted(s, maxRetries)
    ensures Counted(After(s, FlushAll(answer, true), maxRetries), maxRetries)
  {
    if Flush(s.queue, maxRetries, answer, []).Finished? {
      var n := FlushCuts(s, answer, maxRetries);
      CutKeepsCounted(s, n, maxRetries);
    }
  }

  lemma FlushCuts(s: Store, answer: nat -> Answer, maxRetries: int) returns (n: nat)
    requires |s.ids| == |s.queue| && Flush(s.queue, maxRetries, answer, []).Finished?
    ensures n <= |s.queue| && (n < |s.queue| ==> s.queue[n].retries < maxRetries)
    ensures After(s, FlushAll(answer, true), maxRetries)
         == Cut(s, if n < |s.queue| then [Retried(s.queue[n])] + s.queue[n + 1..] else [])
  {
    n := FlushConserves(s.queue, maxRetries, answer, []);
  }

  lemma CutKeepsCounted(s: Store, n: nat, maxRetries: int)
    requires Counted(s, maxRetries) && n <= |s.queue| && (n < |s.queue| ==> s.queue[n].retries < maxRetries)
    ensures n < |s.queue| ==> Counted(Cut(s, [Retried(s.queue[n])] + s.queue[n + 1..]), maxRetries)
    ensures n == |s.queue| ==> Counted(Cut(s, []), maxRetries)
  {
    if n < |s.queue| {
      RefusalKeepsCounted(s, n, maxRetries);
    } else {
      assert forall id: nat :: Refusals(Cut(s, []), id) == Refusals(s, id);
    }
  }

  lemma RefusalKeepsCounted(s: Store, n: nat, maxRetries: int)
    requires Counted(s, maxRetries) && n < |s.queue| && s.queue[n].retries < maxRetries
    ensures Counted(Cut(s, [Retried(s.queue[n])] + s.queue[n + 1..]), maxRetries)
  {
    var t := Cut(s, [Retried(s.queue[n])] + s.queue[n + 1..]);
    assert t.ids == s.ids[n..];
    assert forall id: nat :: Refusals(t, id) == Refusals(s, id) + (if id == s.ids[n] then 1 else 0);
    forall i | 0 <= i < |t.queue|
      ensures t.queue[i] == (if i == 0 then Retried(s.queue[n]) else s.queue[n + i]) && t.ids[i] == s.ids[n + i]
    {
    }
  }

  lemma AppendKeepsCounted(s: Store, event: Event, maxRetries: int)
    requires Counted(s, maxRetries)
    ensures Counted(After(s, Append(event), maxRetries), maxRetries)
  {
    var t := After(s, Append(event), maxRetries);
    assert forall id: nat :: Refusals(t, id) == Refusals(s, id);
  }

  /** A stored queue, its events numbered in order, before any refusal was counted. */
  ghost predicate Numbered(s: Store) {
    && s.refused == [] && |s.ids| == |s.queue| && (forall i, j | 0 <= i < j < |s.ids| :: s.ids[i] < s.ids[j])
    && (forall i | 0 <= i < |s.ids| :: s.ids[i] < s.next && s.queue[i].retries >= 0)
  }

  /**
   Starting from any stored queue, no event is refused at the front of the queue in more than
   `maxRetries` flushes, however appends, flushes and failures follow one another.
   */
  lemma {:induction false} RefusedAtMostMaxRetries(start: Store, steps: seq<Step>, maxRetries: int, id: nat)
    requires Numbered(start)
    ensures Counted(Runs(start, steps, maxRetries), maxRetries)
    ensures Refusals(Runs(start, steps, maxRetries), id) <= if maxRetries >= 0 then maxRetries else 0
    decreases |steps|
  {
    if steps != [] {
      RefusedAtMostMaxRetries(start, steps[..|steps| - 1], maxRetries, id);
      var s := Runs(start, steps[..|steps| - 1], maxRetries);
      match steps[|steps| - 1]
      case Append(event) => AppendKeepsCounted(s, event, maxRetries);
      case FlushAll(answer, replaced) => FlushKeepsCounted(s, answer, maxRetries);
    }
  }

  // ---- the file goes through such a run ----

  /**
   The event file together with the run of the queue that its operations amount to. The numbers of the
   events are kept beside the file, which does not hold them.
   */
  class EventLog {
    const file: EventFile
    const codec: Codec
    const maxRetries: int
    ghost const start: Store
    ghost var steps: seq<Step>

    /** The file holds the queue of the run taken so far. */
    ghost predicate Valid()
      reads this, file
    {
      && Faithful(codec, maxRetries) && file.Whole() && Numbered(start)
      && Runs(start, steps, maxRetries).queue == file.Events(codec)
    }

    constructor (codec: Codec, maxRetries: int, stored: Option<string>)
      requires Faithful(codec, maxRetries) && (stored.Some? ==> Ended(stored.value))
      requires stored.Some? ==> forall e | e in Queued(codec, stored.value) :: e.retries >= 0
      ensures Valid() && fresh(file) && file.text == stored && steps == []
      ensures this.codec == codec && this.maxRetries == maxRetries
    {
      file := new EventFile(stored);
      this.codec, this.maxRetries := codec, maxRetries;
      ghost var queue := if stored.Some? then Queued(codec, stored.value) else [];
      start, steps := Store(queue, seq(|queue|, k => k), |queue|, []), [];
    }

    method Buffer(event: Event, started: bool)
      requires Valid()
      modifies this, file
      ensures Valid()
      ensures steps == if started && codec.holds(Fresh(event)) then old(steps) + [Append(event)] else old(steps)
    {
      var e := Fresh(event);
      file.BufferEvent(codec, maxRetries, e, started, |codec.encode(e)| + 1);
      if started && codec.holds(e) {
        RunsLast(start, steps, Append(event), maxRetries);
        steps := steps + [Append(event)];
      }
    }

    method Flush(connected: bool, answer: nat -> Answer, replaced: bool) returns (result: Option<Result>)
      requires Valid()
      modifies this, file
      ensures Valid()
      ensures steps == if result.Some? then old(steps) + [FlushAll(answer, replaced)] else old(steps)
      ensures result.None? <==> !connected || old(file.text).None?
    {
      ghost var s := Runs(start, steps, maxRetries);
      RefusedAtMostMaxRetries(start, steps, maxRetries, 0);
      result := file.FlushBufferedEvents(codec, maxRetries, connected, answer, replaced);
      if result.Some? {
        if result.value.Finished? {
          ghost var n := FlushConserves(s.queue, maxRetries, answer, []);
        }
        RunsLast(start, steps, FlushAll(answer, replaced), maxRetries);
        steps := steps + [FlushAll(answer, replaced)];
      }
    }

    /** So no event of the file is refused at its front in more than `maxRetries` flushes that were written back. */
    lemma FileRefusesAtMostMaxRetries(id: nat)
      requires Valid()
      ensures |Runs(start, steps, maxRetries).ids| == |file.Events(codec)|
      ensures Refusals(Runs(start, steps, maxRetries), id) <= if maxRetries >= 0 then maxRetries else 0
    {
      RefusedAtMostMaxRetries(start, steps, maxRetries, id);
    }
  }

  lemma RunsLast(s: Store, steps: seq<Step>, step: Step, maxRetries: int)
    ensures Runs(s, steps + [step], maxRetries) == After(Runs(s, steps, maxRetries), step, maxRetries)
  {
    assert (steps + [step])[..|steps|] == steps;
  }
}
