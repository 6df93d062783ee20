/**
 The loop of `client_thread_main` (src/client.c) over one connection: it reads lines until
 the stream ends, a line is empty, or a line begins with QUIT.
 */
module Sessions {
  import opened Types
  import opened Framing
  import opened Commands

  /** The lines that the loop looks at. */
  function Session(stream: string, size: nat): seq<string>
    requires size > 1
    decreases |stream|
  {
    match RecvLine(stream, size)
    case Text(text, rest) =>
      if text == "" then []
      else if KindOf(text) == Quit then [text]
      else [text] + Session(rest, size)
    case Partial(text) => [text]
    case Ended => []
  }

  /** What one call of `recv_line` adds to the session. */
  lemma SessionStep(stream: string, text: string, rest: string, size: nat)
    requires size > 1 && RecvLine(stream, size) == Received.Text(text, rest)
    ensures Session(stream, size) ==
            if text == "" then [] else if KindOf(text) == Quit then [text] else [text] + Session(rest, size)
  {
  }

  /** Nothing is read after the end of the stream. */
  lemma SessionEnd(stream: string, size: nat)
    requires size > 1
    ensures RecvLine(stream, size).Ended? ==> Session(stream, size) == []
    ensures RecvLine(stream, size).Partial? ==> Session(stream, size) == [RecvLine(stream, size).text]
    ensures Session("", size) == []
  {
  }

  method ReadSession(conn: Connection) returns (lines: seq<string>)
    modifies conn
    ensures lines == Session(old(conn.input), LINE_SIZE)
  {
    lines := [];
    var line := new char[LINE_SIZE];
    while true
      invariant fresh(line) && line.Length == LINE_SIZE
      invariant lines + Session(conn.input, LINE_SIZE) == Session(old(conn.input), LINE_SIZE)
      decreases |conn.input|
    {
      ghost var before, got := conn.input, RecvLine(conn.input, LINE_SIZE);
      SessionEnd(before, LINE_SIZE);
      if got.Text? {
        SessionStep(before, got.text, got.rest, LINE_SIZE);
      }
      var r := ReceiveLine(conn, line);
      if r <= 0 {
        break;
      }
      assert Session(before, LINE_SIZE) ==
        [line[..r]] + if KindOf(line[..r]) == Quit then [] else Session(conn.input, LINE_SIZE);
      lines := lines + [line[..r]];
      if KindOf(line[..r]) == Quit {
        break;
      }
    }
  }

  // ---------- Lines ----------

  /**
   A line that a session passes on whole.  After the last line nothing need follow, so it
   may be a byte longer and may end the session.
   */
  predicate LineFits(line: string, last: bool, size: nat) {
    1 <= |line| && if last then |line| < size else |line| < size - 1 && KindOf(line) != Quit
  }

  ghost predicate AllFit(lines: seq<string>, size: nat) {
    forall i :: 0 <= i < |lines| ==> LineFits(lines[i], i == |lines| - 1, size)
  }

  lemma AllFitTail(lines: seq<string>, size: nat)
    requires lines != []
    ensures AllFit(lines, size) <==> LineFits(lines[0], |lines| == 1, size) && AllFit(lines[1..], size)
  {
    var rest := lines[1..];
    if AllFit(lines, size) {
      forall i | 0 <= i < |rest|
        ensures LineFits(rest[i], i == |rest| - 1, size)
      {
        assert LineFits(lines[i + 1], i + 1 == |lines| - 1, size);
      }
    }
    if LineFits(lines[0], |lines| == 1, size) && AllFit(rest, size) {
      forall i | 0 <= i < |lines|
        ensures LineFits(lines[i], i == |lines| - 1, size)
      {
        if i > 0 {
          assert LineFits(rest[i - 1], i - 1 == |rest| - 1, size);
        }
      }
    }
  }

  /** A line as long as the buffer allows uses it up; its newline then ends the session. */
  lemma SessionOfFullLine(line: string, tail: string, size: nat)
    requires size > 1 && '\n' !in line && |line| == size - 1
    ensures Session(line + "\n" + tail, size) == [line]
  {
    FramedLine(line, tail, size);
    FramedLine("", tail, size);
    assert line[..size - 1] == line && line[size - 1..] == "";
    SessionStep(line + "\n" + tail, line, "" + "\n" + tail, size);
    SessionStep("" + "\n" + tail, "", tail, size);
    assert [line] + [] == [line];
  }

  lemma SessionOfLongLine(line: string, tail: string, size: nat)
    requires size > 1 && '\n' !in line && |line| >= size
    ensures Session(line + "\n" + tail, size) != [] && Session(line + "\n" + tail, size)[0] == line[..size - 1]
  {
    FramedLine(line, tail, size);
    SessionStep(line + "\n" + tail, line[..size - 1], line[size - 1..] + "\n" + tail, size);
  }

  /** One line at the front of the stream: it fits, or the session is not these lines. */
  lemma SessionCons(line: string, rest: seq<string>, size: nat)
    requires size > 1 && '\n' !in line
    ensures Session(line + "\n" + Frame(rest), size) == [line] + rest <==>
            LineFits(line, rest == [], size) && (rest != [] ==> Session(Frame(rest), size) == rest)
  {
    var tail := Frame(rest);
    var all := Session(line + "\n" + tail, size);
    assert ([line] + rest)[0] == line && ([line] + rest)[1..] == rest;
    if |line| <= size - 2 {
      FramedLine(line, tail, size);
      SessionStep(line + "\n" + tail, line, tail, size);
      assert ([line] + Session(tail, size))[1..] == Session(tail, size);
      if rest == [] {
        assert Session(tail, size) == [];
      }
    } else if |line| == size - 1 {
      SessionOfFullLine(line, tail, size);
    } else {
      SessionOfLongLine(line, tail, size);
    }
  }

  /**
   A session looks at exactly the lines sent when, and only when, each has 1 to size - 2
   bytes and only the last begins with QUIT; the last may have one byte more.
   */
  lemma {:induction false} SessionExact(lines: seq<string>, size: nat)
    requires size > 1
    requires forall l :: l in lines ==> '\n' !in l
    ensures Session(Frame(lines), size) == lines <==> AllFit(lines, size)
    decreases |lines|
  {
    if lines == [] {
      assert Frame(lines) == "";
    } else {
      assert lines == [lines[0]] + lines[1..];
      SessionCons(lines[0], lines[1..], size);
      AllFitTail(lines, size);
      SessionExact(lines[1..], size);
    }
  }

  // ---------- Commands ----------

  /** Everything that a client program writes. */
  function Printout(cs: seq<Command>): string {
    if cs == [] then "" else cs[0].Printed() + Printout(cs[1..])
  }

  /** The commands up to the first `Leave`, which is the last that the server looks at. */
  function UpToLeave(cs: seq<Command>): (r: seq<Command>)
    ensures r <= cs
    ensures forall i :: 0 <= i < |r| - 1 ==> r[i] != Leave
    ensures |r| < |cs| ==> r != [] && r[|r| - 1] == Leave
  {
    if cs == [] || cs[0] == Leave then cs[..if cs == [] then 0 else 1] else [cs[0]] + UpToLeave(cs[1..])
  }

  /** The server gets the line of `c` and makes of it what the client means. */
  predicate Understood(line: string, c: Command, client: nat, now: Timespec) {
    line == c.Line() && Dispatch(line, client, now) == c.Meaning(client, now)
  }

  lemma FirstCommand(c: Command, more: string, client: nat, now: Timespec)
    requires c.WellFormed() && c.Fits()
    ensures Session(c.Printed() + more, LINE_SIZE) ==
            [c.Line()] + if c == Leave then [] else Session(more, LINE_SIZE)
    ensures Understood(c.Line(), c, client, now)
  {
    FittingCommand(c, more, client, now);
    SessionStep(c.Printed() + more, c.Line(), more, LINE_SIZE);
    LineKind(c);
  }

  /**
   Commands that fit, printed one after the other whatever their number: the server looks
   at the lines of those up to the first `Leave`, and each is understood as it was meant.
   */
  lemma {:induction false} SessionRoundTrip(cs: seq<Command>, client: nat, now: Timespec)
    requires forall c :: c in cs ==> c.WellFormed() && c.Fits()
    ensures var lines, heard := Session(Printout(cs), LINE_SIZE), UpToLeave(cs);
            |lines| == |heard| && forall i :: 0 <= i < |heard| ==> Understood(lines[i], heard[i], client, now)
    decreases |cs|
  {
    if cs != [] {
      assert cs[0] in cs;
      FirstCommand(cs[0], Printout(cs[1..]), client, now);
      if cs[0] != Leave {
        SessionRoundTrip(cs[1..], client, now);
      }
    }
  }

  lemma LineKind(c: Command)
    ensures c.Line() != "" && KindOf(c.Line()) == c.Kind()
    ensures c.Kind() == Quit <==> c == Leave
  {
    KeywordIsFound(c.Kind(), Words(c.Arguments()));
  }
}
