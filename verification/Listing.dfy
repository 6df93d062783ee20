/**
 LIST, from the directory to the client's socket: the accumulation loop of `fs_list`
 (src/fs.c), the copy into the response (src/worker.c) and the line that answers the
 client (src/client.c).
 */
module Listing {
  import opened Types
  import opened Scanning
  import opened Framing

  /** The string in a buffer: what comes before the first terminator. */
  function CString(buf: seq<char>): string {
    if buf == [] || buf[0] == '\0' then "" else [buf[0]] + CString(buf[1..])
  }

  lemma {:induction false} CStringOf(s: string, rest: seq<char>)
    requires '\0' !in s && (rest == [] || rest[0] == '\0')
    ensures CString(s + rest) == s
    decreases |s|
  {
    if s == "" {
      assert s + rest == rest;
    } else {
      assert (s + rest)[1..] == s[1..] + rest;
      CStringOf(s[1..], rest);
    }
  }

  /** The first `n` characters of `s`, or all of them. */
  function First(s: string, n: nat): (r: string)
    ensures |r| == if |s| < n then |s| else n
  {
    if |s| < n then s else s[..n]
  }

  /** A buffer with `t` and a terminator written at the place `at`. */
  function Splice(buf: seq<char>, at: nat, t: string): (r: seq<char>)
    requires at + |t| < |buf|
    ensures |r| == |buf|
  {
    buf[..at] + t + "\0" + buf[at + |t| + 1..]
  }

  lemma SpliceTwice(buf: seq<char>, s: string, t: string)
    requires |s| + |t| < |buf|
    ensures Splice(Splice(buf, 0, s), |s|, t) == Splice(buf, 0, s + t)
  {
  }

  /** A buffer after `snprintf` of `s` to the place `at`. */
  function Written(buf: seq<char>, at: nat, s: string): (r: seq<char>)
    requires at <= |buf|
    ensures |r| == |buf|
  {
    if at == |buf| then buf else Splice(buf, at, Snprintf(|buf| - at, s))
  }

  /** `snprintf` returns the length that the text would have had. */
  method PrintAt(buf: array<char>, at: nat, s: string) returns (w: nat)
    requires at <= buf.Length
    modifies buf
    ensures w == |s| && buf[..] == Written(old(buf[..]), at, s)
  {
    if at < buf.Length {
      var t := Snprintf(buf.Length - at, s);
      forall i | 0 <= i < |t| {
        buf[at + i] := t[i];
      }
      buf[at + |t|] := '\0';
    }
    w := |s|;
  }

  // ---------- fs_list ----------

  /** The names that are shown, in the order of the directory. */
  function Shown(names: seq<string>): seq<string> {
    if names == [] then []
    else if names[0] == "." || names[0] == ".." then Shown(names[1..])
    else [names[0]] + Shown(names[1..])
  }

  lemma {:induction false} ShownAppend(a: seq<string>, b: seq<string>)
    ensures Shown(a + b) == Shown(a) + Shown(b)
    decreases |a|
  {
    if a == [] {
      assert a + b == b;
    } else {
      assert (a + b)[1..] == a[1..] + b;
      ShownAppend(a[1..], b);
    }
  }

  /** One by one: every name is shown but `.` and `..`. */
  lemma ShownOne(name: string)
    ensures Shown([name]) == if name == "." || name == ".." then [] else [name]
  {
    assert [name][1..] == [];
  }

  /** Every name is shown as often as the directory has it, but `.` and `..`, which never are. */
  lemma {:induction false} ShownCounts(names: seq<string>, name: string)
    ensures multiset(Shown(names))[name] == if name == "." || name == ".." then 0 else multiset(names)[name]
    decreases |names|
  {
    if names != [] {
      assert names == [names[0]] + names[1..];
      ShownCounts(names[1..], name);
    }
  }

  lemma {:induction false} FrameAppend(a: seq<string>, b: seq<string>)
    ensures Frame(a + b) == Frame(a) + Frame(b)
    decreases |a|
  {
    if a == [] {
      assert a + b == b;
    } else {
      assert (a + b)[1..] == a[1..] + b;
      FrameAppend(a[1..], b);
    }
  }

  /** A buffer over which `s` was printed, as far as there is room; printing nothing writes nothing. */
  function Overlay(buf: seq<char>, s: string): (r: seq<char>)
    ensures |r| == |buf|
  {
    if s == "" then buf else Written(buf, 0, s)
  }

  lemma SnprintfAppend(size: nat, s: string, piece: string)
    requires |s| < size
    ensures Snprintf(size, s + piece) == s + Snprintf(size - |s|, piece)
  {
  }

  /** Printing a piece behind what is there is printing the two together. */
  lemma OverlayMore(buf: seq<char>, s: string, piece: string)
    requires piece != "" && (|s| < |buf| || s == buf == [])
    ensures Written(Overlay(buf, s), |s|, piece) == Overlay(buf, s + piece)
  {
    if s != "" {
      SnprintfAppend(|buf|, s, piece);
      SpliceTwice(buf, s, Snprintf(|buf| - |s|, piece));
    } else {
      assert s + piece == piece;
    }
  }

  /** What does not fit leaves no trace. */
  lemma OverlayFull(buf: seq<char>, s: string, more: string)
    requires s != "" && |s| >= |buf|
    ensures Overlay(buf, s + more) == Overlay(buf, s)
  {
    if buf != [] {
      assert (s + more)[..|buf| - 1] == s[..|buf| - 1];
    }
  }

  /** What the directory's first `i` names contribute. */
  function Listed(names: seq<string>, i: nat): string
    requires i <= |names|
  {
    Frame(Shown(names[..i]))
  }

  lemma ListedNext(names: seq<string>, i: nat)
    requires i < |names|
    ensures Listed(names, i + 1) ==
            Listed(names, i) + if names[i] == "." || names[i] == ".." then "" else names[i] + "\n"
  {
    assert names[..i + 1] == names[..i] + [names[i]];
    ShownAppend(names[..i], [names[i]]);
    FrameAppend(Shown(names[..i]), Shown([names[i]]));
    assert [names[i]][1..] == [];
  }

  lemma ListedFull(buf: seq<char>, names: seq<string>, i: nat)
    requires i <= |names| && Listed(names, i) != "" && |Listed(names, i)| >= |buf|
    ensures Overlay(buf, Listed(names, |names|)) == Overlay(buf, Listed(names, i))
  {
    assert names[..|names|] == names == names[..i] + names[i..];
    ShownAppend(names[..i], names[i..]);
    FrameAppend(Shown(names[..i]), Shown(names[i..]));
    OverlayFull(buf, Listed(names, i), Frame(Shown(names[i..])));
  }

  /** `fs_list`: false when the directory cannot be opened. */
  method FsList(dir: Option<seq<string>>, buf: array<char>) returns (ok: bool)
    modifies buf
    ensures ok == dir.Some?
    ensures ok ==> buf[..] == Overlay(old(buf[..]), Frame(Shown(dir.value)))
    ensures !ok ==> buf[..] == old(buf[..])
  {
    if dir.None? {
      return false;
    }
    var names, used, i := dir.value, 0, 0;
    ghost var before := buf[..];
    assert names[..|names|] == names;
    while i < |names|
      invariant 0 <= i <= |names|
      invariant used == |Listed(names, i)| && (used < buf.Length || used == buf.Length == 0)
      invariant buf[..] == Overlay(before, Listed(names, i))
    {
      ListedNext(names, i);
      if names[i] != "." && names[i] != ".." {
        OverlayMore(before, Listed(names, i), names[i] + "\n");
        var w := PrintAt(buf, used, names[i] + "\n");
        if w >= buf.Length - used {
          ListedFull(before, names, i + 1);
          return true;
        }
        used := used + w;
      }
      i := i + 1;
    }
    return true;
  }

  // ---------- The response ----------

  const LIST_BUFFER: nat := 4096
  const MESSAGE_SIZE: nat := 512
  const OUT_SIZE: nat := 1024

  ghost predicate IsCString(s: string) {
    '\0' !in s
  }

  lemma {:induction false} FrameIsCString(lines: seq<string>)
    requires forall l :: l in lines ==> IsCString(l)
    ensures IsCString(Frame(lines))
    decreases |lines|
  {
    if lines != [] {
      assert lines[0] in lines;
      FrameIsCString(lines[1..]);
    }
  }

  lemma {:induction false} ShownAreNames(names: seq<string>)
    ensures forall l :: l in Shown(names) ==> l in names && l != "." && l != ".."
    decreases |names|
  {
    if names != [] {
      ShownAreNames(names[1..]);
    }
  }

  /** Over a buffer of zeros the listing is cut to leave room for the terminator. */
  lemma OverlayText(buf: seq<char>, s: string)
    requires buf != [] && IsCString(s) && forall c :: c in buf ==> c == '\0'
    ensures CString(Overlay(buf, s)) == First(s, |buf| - 1)
  {
    if s == "" {
      assert buf[0] in buf;
    } else {
      var t := Snprintf(|buf|, s);
      assert buf[..0] + t == t;
      assert Overlay(buf, s) == t + ("\0" + buf[|t| + 1..]);
      CStringOf(t, "\0" + buf[|t| + 1..]);
    }
  }

  /** The LIST branch of `worker_thread_main`, and the `strncpy` of `send_response`. */
  method ListTask(known: bool, dir: Option<seq<string>>) returns (ok: bool, message: string)
    requires dir.Some? ==> forall name :: name in dir.value ==> IsCString(name)
    ensures ok == (known && dir.Some?)
    ensures ok ==> message == First(Frame(Shown(dir.value)), MESSAGE_SIZE - 1)
    ensures !ok ==> message == if known then "opendir failed" else "User not found"
  {
    var buf := new char[LIST_BUFFER](_ => '\0');
    ghost var zeros := buf[..];
    var err := "";
    ok := false;
    if known {
      ok := FsList(dir, buf);
      if !ok {
        err := "opendir failed";
      }
    } else {
      err := "User not found";
    }
    message := First(if ok then CString(buf[..]) else err, MESSAGE_SIZE - 1);
    if ok {
      ShownAreNames(dir.value);
      FrameIsCString(Shown(dir.value));
      OverlayText(zeros, Frame(Shown(dir.value)));
    }
  }

  /** What the client thread writes to the socket for a response. */
  function ResponseLine(ok: bool, message: string): string {
    Snprintf(OUT_SIZE, (if ok then "OK" else "ERR") + " " + message + "\n")
  }

  /** The line for any message that fits a response: OK for success, ERR for failure, nothing lost. */
  lemma ReplyText(message: string)
    requires |message| <= 511
    ensures ResponseLine(true, message) == "OK " + message + "\n"
    ensures ResponseLine(false, message) == "ERR " + message + "\n"
  {
    assert "OK" + " " == "OK " && "ERR" + " " == "ERR ";
  }

  /** The client programs take a line for success by its first two characters, and rightly. */
  lemma ReplyStatus(ok: bool, message: string)
    requires |message| <= 511
    ensures ResponseLine(ok, message)[..2] == "OK" <==> ok
  {
    ReplyText(message);
    var line := ResponseLine(ok, message);
    if ok {
      assert line[..2] == "OK";
    } else {
      assert line[..2][0] == 'E';
    }
  }

  /** What a client is told when its wait times out. */
  lemma TimeoutText()
    ensures ResponseLine(false, "Request timed out") == "ERR Request timed out\n"
  {
    ReplyText("Request timed out");
  }

  /** The client is sent the first 511 characters of the listing; all of it only when there are no more. */
  lemma ListingReachesClient(names: seq<string>)
    ensures var all := Frame(Shown(names));
            var line := ResponseLine(true, First(all, MESSAGE_SIZE - 1));
            line == "OK " + First(all, MESSAGE_SIZE - 1) + "\n" &&
            (line == "OK " + all + "\n" <==> |all| < MESSAGE_SIZE)
  {
  }

  /** A cut listing holds a number of whole names and at most a part of the next. */
  lemma {:induction false} CutListing(lines: seq<string>, n: nat) returns (k: nat, part: string)
    ensures k <= |lines| && First(Frame(lines), n) == Frame(lines[..k]) + part
    ensures if k < |lines| then part < lines[k] + "\n" else part == ""
    decreases |lines|
  {
    if lines == [] {
      k, part := 0, "";
    } else {
      var head, tail := lines[0] + "\n", Frame(lines[1..]);
      FrameCons(lines);
      if n < |head| {
        k, part := 0, head[..n];
        assert (head + tail)[..n] == part;
      } else {
        k, part := CutListing(lines[1..], n - |head|);
        assert First(head + tail, n) == head + First(tail, n - |head|);
        assert lines[..k + 1] == [lines[0]] + lines[1..][..k];
        FrameCons(lines[..k + 1]);
        assert lines[..k + 1][1..] == lines[1..][..k];
        k := k + 1;
      }
    }
  }
}
