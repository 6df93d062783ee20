/**
 The command printers of src/client_program.c and the dispatch and `sscanf` calls of
 src/client.c that read what they print.
 */
module Commands {
  import opened Types
  import opened Scanning
  import opened Framing

  // ---------- sscanf ----------

  /** The conversions that occur: %`width`s and %zu. */
  datatype Conversion = Word(width: nat) | Size

  datatype Field = Str(text: string) | Num(value: nat)

  /** The fields converted before the first failure. */
  function Sscanf(input: string, format: seq<Conversion>): (r: seq<Field>)
    ensures |r| <= |format|
    decreases |format|
  {
    if format == [] then []
    else
      match format[0]
      case Word(width) =>
        var w := ScanWord(input, width);
        if w.None? then [] else [Str(w.value.0)] + Sscanf(w.value.1, format[1..])
      case Size =>
        var n := ScanSize(input);
        if n.None? then [] else [Num(n.value.0)] + Sscanf(n.value.1, format[1..])
  }

  /** The string a conversion stored, or the empty one `task_create` left there. */
  function TextAt(fields: seq<Field>, i: nat): string {
    if i < |fields| && fields[i].Str? then fields[i].text else ""
  }

  function NumberAt(fields: seq<Field>, i: nat): nat {
    if i < |fields| && fields[i].Num? then fields[i].value else 0
  }

  // ---------- The server's side ----------

  datatype Outcome = Submit(task: Task) | Hangup | Ignored

  function Lower(c: char): char {
    if 'A' <= c <= 'Z' then (c as int + 32) as char else c
  }

  /** `strcasecmp` in the C locale. */
  predicate EqualIgnoringCase(a: string, b: string) {
    |a| == |b| && forall i :: 0 <= i < |a| ==> Lower(a[i]) == Lower(b[i])
  }

  /** The priority that a third word of SIGNUP asks for. */
  function PriorityNamed(word: string): TaskPriority {
    if EqualIgnoringCase(word, "HIGH") then High
    else if EqualIgnoringCase(word, "LOW") then Low
    else Normal
  }

  /** The command whose name starts the line; names are tried in the order of the code. */
  function KindOf(line: string): (kind: CommandType)
    ensures Keyword(kind) <= line
  {
    if "SIGNUP" <= line then Signup
    else if "LOGIN" <= line then Login
    else if "UPLOAD" <= line then Upload
    else if "DOWNLOAD" <= line then Download
    else if "DELETE" <= line then Delete
    else if "LIST" <= line then List
    else if "QUIT" <= line then Quit
    else Unknown
  }

  function Keyword(kind: CommandType): string {
    match kind
    case Signup => "SIGNUP"
    case Login => "LOGIN"
    case Upload => "UPLOAD"
    case Download => "DOWNLOAD"
    case Delete => "DELETE"
    case List => "LIST"
    case Quit => "QUIT"
    case Unknown => ""
  }

  function Format(kind: CommandType): seq<Conversion> {
    match kind
    case Signup => [Word(63), Word(63), Word(15)]
    case Login => [Word(63), Word(63)]
    case Upload => [Word(63), Word(255), Size, Word(255)]
    case Download => [Word(63), Word(255)]
    case Delete => [Word(63), Word(255)]
    case List => [Word(63)]
    case Quit => []
    case Unknown => []
  }

  /** The priority the server gives a command; SIGNUP may choose its own. */
  function PriorityOf(kind: CommandType, fields: seq<Field>): TaskPriority {
    match kind
    case Signup => if |fields| >= 3 then PriorityNamed(TextAt(fields, 2)) else Normal
    case Login => High
    case Delete => High
    case List => Low
    case Upload => Normal
    case Download => Normal
    case Quit => Normal
    case Unknown => Normal
  }

  /** The task with the fields that were converted; the others keep their empty defaults. */
  function TaskOf(kind: CommandType, fields: seq<Field>, client: nat, now: Timespec): Task {
    var secret := kind == Signup || kind == Login;
    Task(kind, client, TextAt(fields, 0), if secret then TextAt(fields, 1) else "",
         if secret then "" else TextAt(fields, 1), if kind == Upload then TextAt(fields, 3) else "",
         if kind == Upload then NumberAt(fields, 2) else 0, PriorityOf(kind, fields), now)
  }

  /** What the server makes of a line. */
  function Dispatch(line: string, client: nat, now: Timespec): Outcome {
    var kind := KindOf(line);
    if kind == Quit then Hangup
    else if kind == Unknown then Ignored
    else Submit(TaskOf(kind, Sscanf(line[|Keyword(kind)|..], Format(kind)), client, now))
  }

  /** The branches of `client_thread_main`, which fill a fresh task field by field. */
  method ParseLine(line: string, client: nat, now: Timespec) returns (outcome: Outcome)
    ensures outcome == Dispatch(line, client, now)
  {
    var kind := KindOf(line);
    if kind == Quit {
      return Hangup;
    }
    if kind == Unknown {
      return Ignored;
    }
    var task := EmptyTask(client, now).(kind := kind);
    var parsed := Sscanf(line[|Keyword(kind)|..], Format(kind));
    task := task.(username := TextAt(parsed, 0));
    match kind {
      case Signup =>
        task := task.(password := TextAt(parsed, 1));
        if |parsed| >= 3 {
          if EqualIgnoringCase(TextAt(parsed, 2), "HIGH") {
            task := task.(priority := High);
          } else if EqualIgnoringCase(TextAt(parsed, 2), "LOW") {
            task := task.(priority := Low);
          }
        }
      case Login =>
        task := task.(password := TextAt(parsed, 1), priority := High);
      case Upload =>
        task := task.(path := TextAt(parsed, 1), size := NumberAt(parsed, 2), tmpfile := TextAt(parsed, 3));
      case Download =>
        task := task.(path := TextAt(parsed, 1));
      case Delete =>
        task := task.(path := TextAt(parsed, 1), priority := High);
      case List =>
        task := task.(priority := Low);
    }
    return Submit(task);
  }

  // ---------- The client's side ----------

  /** The calls of the client program. */
  datatype Command =
    | SignUp(user: string, password: string, priority: string)
    | LogIn(user: string, password: string)
    | UploadFile(user: string, path: string, size: nat, tmpfile: string)
    | DownloadFile(user: string, path: string)
    | DeleteFile(user: string, path: string)
    | ListFiles(user: string)
    | Leave
  {
    function Kind(): CommandType {
      match this
      case SignUp(_, _, _) => Signup
      case LogIn(_, _) => Login
      case UploadFile(_, _, _, _) => Upload
      case DownloadFile(_, _) => Download
      case DeleteFile(_, _) => Delete
      case ListFiles(_) => List
      case Leave => Quit
    }

    /** What follows the command's name; a missing priority is printed as NORMAL. */
    function Arguments(): seq<Field> {
      match this
      case SignUp(u, p, priority) => [Str(u), Str(p), Str(if priority == "" then "NORMAL" else priority)]
      case LogIn(u, p) => [Str(u), Str(p)]
      case UploadFile(u, path, size, tmp) => [Str(u), Str(path), Num(size), Str(tmp)]
      case DownloadFile(u, path) => [Str(u), Str(path)]
      case DeleteFile(u, path) => [Str(u), Str(path)]
      case ListFiles(u) => [Str(u)]
      case Leave => []
    }

    /** The size of the buffer the command is printed into. */
    function BufferSize(): nat {
      if UploadFile? || DownloadFile? then 512 else 256
    }

    /** The words are tokens within the lengths that the server's task has room for. */
    ghost predicate WellFormed() {
      match this
      case SignUp(u, p, priority) => IsName(u) && IsName(p) && (priority == "" || IsToken(priority))
      case LogIn(u, p) => IsName(u) && IsName(p)
      case UploadFile(u, path, size, tmp) => IsName(u) && IsPath(path) && size <= SIZE_MAX && IsPath(tmp)
      case DownloadFile(u, path) => IsName(u) && IsPath(path)
      case DeleteFile(u, path) => IsName(u) && IsPath(path)
      case ListFiles(u) => IsName(u)
      case Leave => true
    }

    /** The task that the client means. */
    function Meaning(client: nat, now: Timespec): Outcome {
      match this
      case SignUp(u, p, priority) => Submit(Task(Signup, client, u, p, "", "", 0, PriorityNamed(priority), now))
      case LogIn(u, p) => Submit(Task(Login, client, u, p, "", "", 0, High, now))
      case UploadFile(u, path, size, tmp) => Submit(Task(Upload, client, u, "", path, tmp, size, Normal, now))
      case DownloadFile(u, path) => Submit(Task(Download, client, u, "", path, "", 0, Normal, now))
      case DeleteFile(u, path) => Submit(Task(Delete, client, u, "", path, "", 0, High, now))
      case ListFiles(u) => Submit(Task(List, client, u, "", "", "", 0, Low, now))
      case Leave => Hangup
    }

    /** The command without its newline. */
    function Line(): string {
      Keyword(Kind()) + Words(Arguments())
    }

    /** What is written to the socket. */
    function Printed(): string {
      Snprintf(BufferSize(), Line() + "\n")
    }

    /**
     The longest line that survives: the newline has to be printed too, except that a line
     as long as the server's own buffer ends without one.
     */
    predicate Fits() {
      |Line()| < if BufferSize() == LINE_SIZE then LINE_SIZE else BufferSize() - 1
    }
  }

  ghost predicate IsName(s: string) {
    IsToken(s) && |s| <= 63
  }

  ghost predicate IsPath(s: string) {
    IsToken(s) && |s| <= 255
  }

  function Rendered(f: Field): string {
    match f
    case Str(s) => s
    case Num(n) => Decimal(n)
  }

  function Words(fields: seq<Field>): string {
    if fields == [] then "" else " " + Rendered(fields[0]) + Words(fields[1..])
  }

  // ---------- Scanning what was printed ----------

  /** A field that a conversion can read; a word beyond the width is cut. */
  ghost predicate Readable(f: Field, c: Conversion) {
    match f
    case Str(s) => c.Word? && c.width > 0 && IsToken(s)
    case Num(n) => c.Size? && n <= SIZE_MAX
  }

  function Taken(f: Field, c: Conversion): Field {
    if f.Str? && c.Word? && |f.text| > c.width then Str(f.text[..c.width]) else f
  }

  /**
   Printing and then scanning gives the fields back.  There may be fewer of them than
   conversions; only a field that is the last of both may be cut.
   */
  lemma {:induction false} SscanfOfWords(fields: seq<Field>, format: seq<Conversion>)
    requires |fields| <= |format|
    requires forall i :: 0 <= i < |fields| ==> Readable(fields[i], format[i])
    requires forall i :: 0 <= i < |fields| && i + 1 < |format| ==> Taken(fields[i], format[i]) == fields[i]
    ensures var r := Sscanf(Words(fields), format);
            |r| == |fields| && forall i :: 0 <= i < |r| ==> r[i] == Taken(fields[i], format[i])
    decreases |fields|
  {
    if fields != [] {
      var tail := Words(fields[1..]);
      assert Words(fields) == " " + Rendered(fields[0]) + tail;
      assert tail == "" || tail[0] == ' ';
      if fields[0].Num? {
        ScanDecimal(fields[0].value, tail);
        SscanfOfWords(fields[1..], format[1..]);
      } else if Taken(fields[0], format[0]) == fields[0] {
        ScanToken(fields[0].text, tail, format[0].width);
        SscanfOfWords(fields[1..], format[1..]);
      } else {
        assert |fields| == |format| == 1;
        ScanLongToken(fields[0].text, tail, format[0].width);
        assert format[1..] == [];
      }
    }
  }

  lemma {:induction false} WordsAreOneLine(fields: seq<Field>)
    requires forall i :: 0 <= i < |fields| && fields[i].Str? ==> IsToken(fields[i].text)
    ensures '\n' !in Words(fields)
    decreases |fields|
  {
    if fields != [] {
      if fields[0].Num? {
        DecimalIsDigits(fields[0].value);
      }
      WordsAreOneLine(fields[1..]);
    }
  }

  lemma LineIsOneLine(c: Command)
    requires c.WellFormed()
    ensures '\n' !in c.Line()
  {
    WordsAreOneLine(c.Arguments());
  }

  /** The limits of a well-formed command are those of the conversions. */
  lemma ArgumentsAreReadable(c: Command)
    requires c.WellFormed()
    ensures var fields, format := c.Arguments(), Format(c.Kind());
            && |fields| == |format|
            && (forall i :: 0 <= i < |fields| ==> Readable(fields[i], format[i]))
            && (forall i :: 0 <= i < |fields| - 1 ==> Taken(fields[i], format[i]) == fields[i])
  {
  }

  lemma ArgumentsAreRead(c: Command)
    requires c.WellFormed()
    ensures var fields, format := c.Arguments(), Format(c.Kind());
            var r := Sscanf(Words(fields), format);
            |fields| == |format| == |r| && forall i :: 0 <= i < |r| ==> r[i] == Taken(fields[i], format[i])
  {
    ArgumentsAreReadable(c);
    SscanfOfWords(c.Arguments(), Format(c.Kind()));
  }

  lemma FieldsMakeTheTask(c: Command, r: seq<Field>, client: nat, now: Timespec)
    requires c.WellFormed() && c != Leave
    requires var fields, format := c.Arguments(), Format(c.Kind());
             |fields| == |format| == |r| && forall i :: 0 <= i < |r| ==> r[i] == Taken(fields[i], format[i])
    ensures Submit(TaskOf(c.Kind(), r, client, now)) == c.Meaning(client, now)
  {
  }

  /** The line of a well-formed command is dispatched to the task the client means. */
  lemma LineIsUnderstood(c: Command, client: nat, now: Timespec)
    requires c.WellFormed()
    ensures Dispatch(c.Line(), client, now) == c.Meaning(client, now)
  {
    var kind, tail := c.Kind(), Words(c.Arguments());
    KeywordIsFound(kind, tail);
    assert c.Line()[|Keyword(kind)|..] == tail;
    if kind != Quit {
      ArgumentsAreRead(c);
      FieldsMakeTheTask(c, Sscanf(tail, Format(kind)), client, now);
    }
  }

  lemma KeywordIsFound(kind: CommandType, tail: string)
    requires kind != Unknown
    ensures KindOf(Keyword(kind) + tail) == kind
  {
    var line := Keyword(kind) + tail;
    assert line[..|Keyword(kind)|] == Keyword(kind);
    assert line[0] == Keyword(kind)[0] && line[1] == Keyword(kind)[1];
  }

  // ---------- From the client's buffer to the server's task ----------

  /** What the server receives when a client prints `c` and waits for the answer. */
  ghost predicate Arrives(c: Command, client: nat, now: Timespec) {
    var r := RecvLine(c.Printed(), LINE_SIZE);
    r.Text? && r.rest == "" && Dispatch(r.text, client, now) == c.Meaning(client, now)
  }

  /** A command that fits is received whole whatever follows it, and the rest of the stream is kept. */
  lemma FittingCommand(c: Command, more: string, client: nat, now: Timespec)
    requires c.WellFormed() && c.Fits()
    ensures RecvLine(c.Printed() + more, LINE_SIZE) == Received.Text(c.Line(), more)
    ensures Dispatch(c.Line(), client, now) == c.Meaning(client, now)
  {
    var line := c.Line();
    LineIsOneLine(c);
    LineIsUnderstood(c, client, now);
    if |line| + 1 < c.BufferSize() {
      FramedLine(line, more, LINE_SIZE);
    } else {
      var stream := c.Printed() + more;
      assert c.Printed() == line;
      assert stream[..LINE_SIZE - 1] == line && stream[LINE_SIZE - 1..] == more;
      LineIsCut(stream, LINE_SIZE);
    }
  }

  /** Without its newline a short command leaves the server waiting for more. */
  lemma UnfinishedCommand(c: Command)
    requires c.WellFormed() && !c.Fits() && c.BufferSize() < LINE_SIZE
    ensures !RecvLine(c.Printed(), LINE_SIZE).Text?
  {
    LineIsOneLine(c);
    assert c.Printed() == c.Line()[..c.BufferSize() - 1];
  }

  function Pow10(k: nat): nat {
    if k == 0 then 1 else 10 * Pow10(k - 1)
  }

  lemma {:induction false} DecimalLength(n: nat, k: nat)
    requires k > 0 && n < Pow10(k)
    ensures |Decimal(n)| <= k
    decreases k
  {
    if n >= 10 {
      DecimalLength(n / 10, k - 1);
    }
  }

  lemma SizeHasTwentyDigits(n: nat)
    requires n <= SIZE_MAX
    ensures |Decimal(n)| <= 20
  {
    assert Pow10(10) == 10_000_000_000;
    assert Pow10(20) == 10_000_000_000 * Pow10(10);
    DecimalLength(n, 20);
  }

  /** An upload whose line is too long is dispatched with a temporary path that was cut. */
  lemma OverlongUpload(c: Command, client: nat, now: Timespec) returns (k: nat)
    requires c.WellFormed() && c.UploadFile? && !c.Fits()
    ensures 0 < k < |c.tmpfile|
    ensures var cut := c.(tmpfile := c.tmpfile[..k]);
            RecvLine(c.Printed(), LINE_SIZE) == Received.Text(cut.Line(), "") &&
            Dispatch(cut.Line(), client, now) == cut.Meaning(client, now)
  {
    var line, printed := c.Line(), c.Printed();
    SizeHasTwentyDigits(c.size);
    UploadLine(c);
    k := UploadPrefix(c, LINE_SIZE - 1);
    var cut := c.(tmpfile := c.tmpfile[..k]);
    LineIsOneLine(c);
    assert printed == line[..LINE_SIZE - 1];
    assert printed[..LINE_SIZE - 1] == printed;
    LineIsCut(printed, LINE_SIZE);
    LineIsUnderstood(cut, client, now);
  }

  /** The start of an upload's line is the line of an upload with a shorter last word. */
  lemma UploadPrefix(c: Command, n: nat) returns (k: nat)
    requires c.UploadFile?
    requires var before := |"UPLOAD"| + 1 + |c.user| + 1 + |c.path| + 1 + |Decimal(c.size)| + 1;
             before < n < before + |c.tmpfile|
    ensures n < |c.Line()| && 0 < k < |c.tmpfile|
    ensures c.Line()[..n] == c.(tmpfile := c.tmpfile[..k]).Line()
  {
    var head := "UPLOAD" + (" " + c.user + (" " + c.path + (" " + Decimal(c.size) + " ")));
    k := n - |head|;
    UploadLine(c);
    UploadLine(c.(tmpfile := c.tmpfile[..k]));
    assert (head + c.tmpfile)[..n] == head + c.tmpfile[..k];
  }

  lemma UploadLine(c: Command)
    requires c.UploadFile?
    ensures c.Line() ==
      "UPLOAD" + (" " + c.user + (" " + c.path + (" " + Decimal(c.size) + " "))) + c.tmpfile
  {
    var tmp := [Str(c.tmpfile)];
    var size := [Num(c.size)] + tmp;
    var path := [Str(c.path)] + size;
    assert c.Arguments() == [Str(c.user)] + path;
    WordsCons(Str(c.user), path);
    WordsCons(Str(c.path), size);
    WordsCons(Num(c.size), tmp);
    WordsCons(Str(c.tmpfile), []);
    assert [Str(c.tmpfile)] + [] == tmp;
  }

  lemma WordsCons(f: Field, rest: seq<Field>)
    ensures Words([f] + rest) == " " + Rendered(f) + Words(rest)
  {
  }

  /**
   Print, frame and parse: the server sees the task the client means if and only if the
   command fits its buffer.
   */
  lemma RoundTripIff(c: Command, client: nat, now: Timespec)
    requires c.WellFormed()
    ensures Arrives(c, client, now) <==> c.Fits()
  {
    if c.Fits() {
      FittingCommand(c, "", client, now);
      assert c.Printed() + "" == c.Printed();
    } else if c.UploadFile? {
      var k := OverlongUpload(c, client, now);
    } else if c.DownloadFile? {
      AlwaysFits(c);
    } else {
      UnfinishedCommand(c);
    }
  }

  /** Only a long path, or a long priority, can make a command too long. */
  lemma AlwaysFits(c: Command)
    requires c.WellFormed()
    requires c.LogIn? || c.DownloadFile? || c.ListFiles? || c.Leave? || (c.SignUp? && |c.priority| <= 119)
    ensures c.Fits()
  {
    var a := c.Arguments();
    if a != [] {
      assert a == [a[0]] + a[1..];
      WordsCons(a[0], a[1..]);
    }
    if |a| > 1 {
      assert a[1..] == [a[1]] + a[2..];
      WordsCons(a[1], a[2..]);
    }
    if |a| > 2 {
      assert a[2..] == [a[2]] + a[3..];
      WordsCons(a[2], a[3..]);
    }
  }
}
