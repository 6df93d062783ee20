/** The line framing of src/client.c: `recv_line` reads one byte at a time into a buffer. */
module Framing {
  import opened Types

  /** The size of the line buffer of `client_thread_main`. */
  const LINE_SIZE: nat := 512

  /**
   What one call returns: a text, at a newline or because the buffer is full; what there
   was before the end of the stream; or -1 at its end.
   */
  datatype Received = Text(text: string, rest: string) | Partial(text: string) | Ended

  /** The bytes before the first newline of `s`, if it has one. */
  function NewlineAt(s: string): (k: Option<nat>)
    ensures k.Some? ==> k.value < |s| && s[k.value] == '\n' && '\n' !in s[..k.value]
    ensures k.None? ==> '\n' !in s
  {
    if s == "" then None
    else if s[0] == '\n' then Some(0)
    else
      var k := NewlineAt(s[1..]);
      if k.Some? then Some(k.value + 1) else None
  }

  function RecvLine(stream: string, size: nat): (r: Received)
    requires size > 1
    ensures r.Text? ==> |r.rest| < |stream|
  {
    var window := if |stream| < size - 1 then stream else stream[..size - 1];
    var k := NewlineAt(window);
    if k.Some? then Text(stream[..k.value], stream[k.value + 1..])
    else if |stream| >= size - 1 then Text(window, stream[size - 1..])
    else if stream == "" then Ended
    else Partial(stream)
  }

  // ---------- The code ----------

  /** The bytes a connection will still deliver. */
  class Connection {
    var input: string

    constructor (input: string)
      ensures this.input == input
    {
      this.input := input;
    }

    /** `read` of one byte. */
    method ReadByte() returns (c: Option<char>)
      modifies this
      ensures old(input) == "" ==> c == None && input == ""
      ensures old(input) != "" ==> c == Some(old(input)[0]) && input == old(input)[1..]
    {
      if input == "" {
        return None;
      }
      c := Some(input[0]);
      input := input[1..];
    }
  }

  /** `recv_line`: the length of what it put in the buffer, or -1. */
  method ReceiveLine(conn: Connection, buf: array<char>) returns (n: int)
    requires buf.Length > 1
    modifies conn, buf
    ensures match RecvLine(old(conn.input), buf.Length)
            case Text(text, rest) =>
              n == |text| < buf.Length && buf[..n] == text && buf[n] == '\0' && conn.input == rest
            case Partial(text) => n == |text| < buf.Length && buf[..n] == text && conn.input == ""
            case Ended => n == -1 && conn.input == ""
  {
    var pos := 0;
    ghost var stream := conn.input;
    while pos < buf.Length - 1
      invariant 0 <= pos <= |stream| && pos < buf.Length
      invariant buf[..pos] == stream[..pos] && conn.input == stream[pos..]
      invariant '\n' !in stream[..pos]
    {
      var c := conn.ReadByte();
      if c == None {
        assert stream[..pos] == stream;
        return if pos > 0 then pos else -1;
      }
      if c.value == '\n' {
        NewlineIn(stream, buf.Length, pos);
        buf[pos] := '\0';
        return pos;
      }
      assert stream[..pos + 1] == stream[..pos] + [c.value];
      buf[pos] := c.value;
      pos := pos + 1;
    }
    buf[pos] := '\0';
    return pos;
  }

  /** A newline that comes before the buffer is full ends the line. */
  lemma {:induction false} FirstNewline(s: string, k: nat)
    requires k < |s| && s[k] == '\n' && '\n' !in s[..k]
    ensures NewlineAt(s) == Some(k)
  {
    if k > 0 {
      assert s[..k][0] == s[0];
      assert s[1..][..k - 1] == s[..k][1..];
      FirstNewline(s[1..], k - 1);
    }
  }

  lemma NewlineIn(stream: string, size: nat, k: nat)
    requires k < |stream| && k < size - 1 && stream[k] == '\n' && '\n' !in stream[..k]
    ensures RecvLine(stream, size) == Text(stream[..k], stream[k + 1..])
  {
  }

  /** No newline before the buffer is full: the line is cut there. */
  lemma LineIsCut(stream: string, size: nat)
    requires size > 1 && |stream| >= size - 1 && '\n' !in stream[..size - 1]
    ensures RecvLine(stream, size) == Text(stream[..size - 1], stream[size - 1..])
  {
  }

  /** What is left at the end of the stream without a newline is returned once, and then -1. */
  lemma UnfinishedLine(rest: string, size: nat)
    requires |rest| < size - 1 && '\n' !in rest
    ensures RecvLine(rest, size) == if rest == "" then Ended else Partial(rest)
  {
  }

  // ---------- Framing ----------

  function Frame(lines: seq<string>): string {
    if lines == [] then "" else lines[0] + "\n" + Frame(lines[1..])
  }

  /** Everything that repeated calls return. */
  function ReadAll(stream: string, size: nat): seq<string>
    requires size > 1
    decreases |stream|
  {
    match RecvLine(stream, size)
    case Text(text, rest) => [text] + ReadAll(rest, size)
    case Partial(text) => [text]
    case Ended => []
  }

  lemma FramedLine(line: string, tail: string, size: nat)
    requires size > 1 && '\n' !in line
    ensures |line| <= size - 2 ==> RecvLine(line + "\n" + tail, size) == Text(line, tail)
    ensures |line| >= size - 1 ==>
      RecvLine(line + "\n" + tail, size) == Text(line[..size - 1], line[size - 1..] + "\n" + tail)
  {
    var stream := line + "\n" + tail;
    if |line| <= size - 2 {
      assert stream[..|line|] == line && stream[|line| + 1..] == tail;
      NewlineIn(stream, size, |line|);
    } else {
      assert stream[..size - 1] == line[..size - 1];
      assert stream[size - 1..] == line[size - 1..] + "\n" + tail;
      LineIsCut(stream, size);
    }
  }

  lemma FrameCons(lines: seq<string>)
    requires lines != []
    ensures Frame(lines) == lines[0] + "\n" + Frame(lines[1..])
  {
  }

  /** However long its lines are, a stream with that many newlines gives at least as many texts. */
  lemma {:induction false} ReadAllCounts(stream: string, lines: seq<string>, size: nat)
    requires size > 1 && stream == Frame(lines)
    requires forall l :: l in lines ==> '\n' !in l
    ensures |ReadAll(stream, size)| >= |lines|
    decreases |stream|
  {
    if lines != [] {
      FrameCons(lines);
      FramedLine(lines[0], Frame(lines[1..]), size);
      if |lines[0]| <= size - 2 {
        ReadAllCounts(Frame(lines[1..]), lines[1..], size);
      } else {
        var cut := [lines[0][size - 1..]] + lines[1..];
        assert cut[1..] == lines[1..];
        ReadAllCounts(Frame(cut), cut, size);
      }
    }
  }

  /** Repeated calls return exactly the lines sent when, and only when, each fits the buffer. */
  lemma {:induction false} FramingExact(lines: seq<string>, size: nat)
    requires size > 1
    requires forall l :: l in lines ==> '\n' !in l
    ensures ReadAll(Frame(lines), size) == lines <==> forall l :: l in lines ==> |l| <= size - 2
    decreases |lines|
  {
    if lines == [] {
      assert Frame(lines) == "";
    } else {
      var tail := Frame(lines[1..]);
      FrameCons(lines);
      FramedLine(lines[0], tail, size);
      var all := ReadAll(Frame(lines), size);
      if |lines[0]| <= size - 2 {
        FramingExact(lines[1..], size);
        assert all[0] == lines[0] && all[1..] == ReadAll(tail, size);
        assert lines == [lines[0]] + lines[1..];
      } else {
        var cut := [lines[0][size - 1..]] + lines[1..];
        assert cut[1..] == lines[1..];
        assert all == [lines[0][..size - 1]] + ReadAll(Frame(cut), size);
        ReadAllCounts(Frame(cut), cut, size);
        assert lines[0] in lines;
      }
    }
  }
}
