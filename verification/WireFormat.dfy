/**
 The text protocol word by word: what the client program prints, what the server makes of
 lines that it would not print, and what is answered.  Texts, lengths and limits are
 written out here, apart from the definitions that produce them.
 */
module WireFormat {
  import opened Types
  import opened Scanning
  import opened Commands

  // ---------- What is printed ----------

  /** The text that reaches the socket: at most `n` characters of it. */
  function Cut(s: string, n: nat): string {
    if |s| <= n then s else s[..n]
  }

  /** The formats of the client program. */
  function Text(c: Command): string {
    match c
    case SignUp(u, p, priority) => "SIGNUP " + u + " " + p + " " + if priority == "" then "NORMAL" else priority
    case LogIn(u, p) => "LOGIN " + u + " " + p
    case UploadFile(u, path, size, tmp) => "UPLOAD " + u + " " + path + " " + Decimal(size) + " " + tmp
    case DownloadFile(u, path) => "DOWNLOAD " + u + " " + path
    case DeleteFile(u, path) => "DELETE " + u + " " + path
    case ListFiles(u) => "LIST " + u
    case Leave => "QUIT"
  }

  /** Each command is printed in its format, and cut by its buffer of 256 or 512 bytes. */
  lemma PrintedText(c: Command)
    ensures c.Line() == Text(c)
    ensures c.UploadFile? || c.DownloadFile? ==> c.Printed() == Cut(Text(c) + "\n", 511)
    ensures !c.UploadFile? && !c.DownloadFile? ==> c.Printed() == Cut(Text(c) + "\n", 255)
  {
    LineText(c);
  }

  lemma LineText(c: Command)
    ensures c.Line() == Text(c)
  {
    match c
    case SignUp(u, p, priority) =>
      ThreeWords("SIGNUP", "SIGNUP ", u, p, if priority == "" then "NORMAL" else priority);
    case LogIn(u, p) => TwoWords("LOGIN", "LOGIN ", u, p);
    case UploadFile(u, path, size, tmp) => UploadText(c);
    case DownloadFile(u, path) => TwoWords("DOWNLOAD", "DOWNLOAD ", u, path);
    case DeleteFile(u, path) => TwoWords("DELETE", "DELETE ", u, path);
    case ListFiles(u) => OneWord("LIST", "LIST ", u);
    case Leave => assert Words([]) == "" && "QUIT" + "" == "QUIT";
  }

  lemma OneWord(keyword: string, start: string, a: string)
    requires start == keyword + " "
    ensures keyword + Words([Str(a)]) == start + a
  {
    WordsCons(Str(a), []);
    assert [Str(a)] + [] == [Str(a)];
    assert keyword + (" " + a + "") == start + a;
  }

  lemma TwoWords(keyword: string, start: string, a: string, b: string)
    requires start == keyword + " "
    ensures keyword + Words([Str(a), Str(b)]) == start + a + " " + b
  {
    WordsCons(Str(a), [Str(b)]);
    assert [Str(a)] + [Str(b)] == [Str(a), Str(b)];
    OneWord(" " + a, " " + a + " ", b);
    assert keyword + (" " + a + " " + b) == start + a + " " + b;
  }

  lemma ThreeWords(keyword: string, start: string, a: string, b: string, c: string)
    requires start == keyword + " "
    ensures keyword + Words([Str(a), Str(b), Str(c)]) == start + a + " " + b + " " + c
  {
    WordsCons(Str(a), [Str(b), Str(c)]);
    assert [Str(a)] + [Str(b), Str(c)] == [Str(a), Str(b), Str(c)];
    TwoWords(" " + a, " " + a + " ", b, c);
    assert keyword + (" " + a + " " + b + " " + c) == start + a + " " + b + " " + c;
  }

  lemma UploadText(c: Command)
    requires c.UploadFile?
    ensures c.Line() == Text(c)
  {
    UploadLine(c);
    var d := Decimal(c.size);
    assert "UPLOAD" + (" " + c.user + (" " + c.path + (" " + d + " "))) ==
           "UPLOAD " + c.user + " " + c.path + " " + d + " ";
  }

  /** Which commands fit, in numbers. */
  lemma FitsIff(c: Command)
    requires c.WellFormed()
    ensures c.Fits() <==>
            match c
            case SignUp(u, p, priority) => |u| + |p| + (if priority == "" then 6 else |priority|) <= 245
            case LogIn(u, p) => true
            case UploadFile(u, path, size, tmp) => |u| + |path| + |Decimal(size)| + |tmp| <= 501
            case DownloadFile(u, path) => true
            case DeleteFile(u, path) => |u| + |path| <= 246
            case ListFiles(u) => true
            case Leave => true
  {
    LineText(c);
  }

  // ---------- What a line begins with ----------

  predicate Begins(line: string, word: string) {
    |line| >= |word| && forall i :: 0 <= i < |word| ==> line[i] == word[i]
  }

  lemma BeginsIsPrefix(line: string, word: string)
    ensures Begins(line, word) <==> word <= line
  {
    if Begins(line, word) {
      assert line[..|word|] == word;
    }
  }

  /** A line is taken for the command it begins with, whatever follows. */
  lemma KindIff(line: string)
    ensures KindOf(line) == Signup <==> Begins(line, "SIGNUP")
    ensures KindOf(line) == Login <==> Begins(line, "LOGIN")
    ensures KindOf(line) == Upload <==> Begins(line, "UPLOAD")
    ensures KindOf(line) == Download <==> Begins(line, "DOWNLOAD")
    ensures KindOf(line) == Delete <==> Begins(line, "DELETE")
    ensures KindOf(line) == List <==> Begins(line, "LIST")
    ensures KindOf(line) == Quit <==> Begins(line, "QUIT")
  {
    forall word
      ensures Begins(line, word) <==> word <= line
    {
      BeginsIsPrefix(line, word);
    }
    NoCommonBeginning(line);
  }

  lemma NoCommonBeginning(line: string)
    ensures Begins(line, "LOGIN") || Begins(line, "LIST") ==> line[0] == 'L'
    ensures Begins(line, "DOWNLOAD") || Begins(line, "DELETE") ==> line[0] == 'D'
    ensures Begins(line, "SIGNUP") ==> line[0] == 'S'
    ensures Begins(line, "UPLOAD") ==> line[0] == 'U'
    ensures Begins(line, "QUIT") ==> line[0] == 'Q'
    ensures !(Begins(line, "LOGIN") && Begins(line, "LIST"))
    ensures !(Begins(line, "DOWNLOAD") && Begins(line, "DELETE"))
  {
    assert "LOGIN"[1] == 'O' && "LIST"[1] == 'I' && "DOWNLOAD"[1] == 'O' && "DELETE"[1] == 'E';
  }

  /** Only a line that begins with QUIT hangs up; one that begins with no command is ignored. */
  lemma OutcomeIff(line: string, client: nat, now: Timespec)
    ensures Dispatch(line, client, now) == Hangup <==> Begins(line, "QUIT")
    ensures Dispatch(line, client, now) == Ignored <==>
            !(Begins(line, "SIGNUP") || Begins(line, "LOGIN") || Begins(line, "UPLOAD") || Begins(line, "DOWNLOAD")
              || Begins(line, "DELETE") || Begins(line, "LIST") || Begins(line, "QUIT"))
  {
    KindIff(line);
  }

  // ---------- Words ----------

  /** `w` is the word letter by letter, each in either case. */
  predicate Spells(w: string, upper: string, lower: string)
    requires |upper| == |lower|
  {
    |w| == |upper| && forall i :: 0 <= i < |w| ==> w[i] == upper[i] || w[i] == lower[i]
  }

  lemma SpellsIff(w: string)
    ensures EqualIgnoringCase(w, "HIGH") <==> Spells(w, "HIGH", "high")
    ensures EqualIgnoringCase(w, "LOW") <==> Spells(w, "LOW", "low")
  {
    if |w| == 4 {
      assert forall i :: 0 <= i < 4 ==> (Lower(w[i]) == Lower("HIGH"[i]) <==> w[i] == "HIGH"[i] || w[i] == "high"[i]);
    }
    if |w| == 3 {
      assert forall i :: 0 <= i < 3 ==> (Lower(w[i]) == Lower("LOW"[i]) <==> w[i] == "LOW"[i] || w[i] == "low"[i]);
    }
  }

  /**
   The priority of a SIGNUP is HIGH exactly when its third word is HIGH, LOW exactly when
   it is LOW, in any case of the letters, and else NORMAL; what follows does not matter.
   */
  lemma SignupPriority(u: string, p: string, w: string, rest: string, client: nat, now: Timespec)
    requires IsName(u) && IsName(p) && IsToken(w) && (rest == "" || IsSpace(rest[0]))
    ensures var o := Dispatch("SIGNUP" + (" " + u + (" " + p + (" " + w + rest))), client, now);
            && o.Submit? && o.task.kind == Signup && o.task.username == u && o.task.password == p
            && (o.task.priority == High <==> Spells(w, "HIGH", "high"))
            && (o.task.priority == Low <==> Spells(w, "LOW", "low"))
            && (o.task.priority == Normal <==> !Spells(w, "HIGH", "high") && !Spells(w, "LOW", "low"))
  {
    var third := " " + w + rest;
    var second := " " + p + third;
    var first := " " + u + second;
    KeywordIsFound(Signup, first);
    assert ("SIGNUP" + first)[6..] == first;
    ThreeScanned(u, p, w, rest);
    SpellsIff(w);
    if |w| > 15 {
      SpellsIff(w[..15]);
    }
  }

  lemma WordScanned(w: string, tail: string, width: nat, format: seq<Conversion>)
    requires IsToken(w) && |w| <= width && (tail == "" || IsSpace(tail[0]))
    ensures Sscanf(" " + w + tail, [Word(width)] + format) == [Str(w)] + Sscanf(tail, format)
  {
    ScanToken(w, tail, width);
    assert ([Word(width)] + format)[1..] == format;
  }

  lemma ThreeScanned(u: string, p: string, w: string, rest: string)
    requires IsName(u) && IsName(p) && IsToken(w) && (rest == "" || IsSpace(rest[0]))
    ensures Sscanf(" " + u + (" " + p + (" " + w + rest)), [Word(63), Word(63), Word(15)]) ==
            [Str(u), Str(p), Str(if |w| <= 15 then w else w[..15])]
  {
    var third := " " + w + rest;
    if |w| <= 15 {
      ScanToken(w, rest, 15);
    } else {
      ScanLongToken(w, rest, 15);
    }
    assert [Word(15)][1..] == [];
    WordScanned(p, third, 63, [Word(15)]);
    WordScanned(u, " " + p + third, 63, [Word(63), Word(15)]);
    assert [Word(63)] + [Word(15)] == [Word(63), Word(15)];
    assert [Word(63)] + [Word(63), Word(15)] == [Word(63), Word(63), Word(15)];
  }

  /** The task of a line of which at most two words were converted. */
  function ShortTask(kind: CommandType, first: string, second: string, client: nat, now: Timespec): Task {
    match kind
    case Signup => Task(Signup, client, first, second, "", "", 0, Normal, now)
    case Login => Task(Login, client, first, second, "", "", 0, High, now)
    case Upload => Task(Upload, client, first, "", second, "", 0, Normal, now)
    case Download => Task(Download, client, first, "", second, "", 0, Normal, now)
    case Delete => Task(Delete, client, first, "", second, "", 0, High, now)
    case List => Task(List, client, first, "", second, "", 0, Low, now)
    case _ => EmptyTask(client, now)
  }

  /**
   A line with fewer words than its command takes: what is missing stays empty, and a
   SIGNUP without a third word has priority NORMAL.
   */
  lemma FewWords(kind: CommandType, words: seq<string>, client: nat, now: Timespec)
    requires kind != Unknown && kind != Quit && |words| <= (if kind == List then 1 else 2)
    requires forall i :: 0 <= i < |words| ==> IsName(words[i])
    ensures var first := if |words| > 0 then words[0] else "";
            var second := if |words| > 1 then words[1] else "";
            Dispatch(Keyword(kind) + Words(AsFields(words)), client, now) ==
            Submit(ShortTask(kind, first, second, client, now))
  {
    var fields := AsFields(words);
    KeywordIsFound(kind, Words(fields));
    assert (Keyword(kind) + Words(fields))[|Keyword(kind)|..] == Words(fields);
    FewScanned(kind, words);
    FewTaken(kind, words, client, now);
  }

  lemma FewTaken(kind: CommandType, words: seq<string>, client: nat, now: Timespec)
    requires kind != Unknown && kind != Quit && |words| <= (if kind == List then 1 else 2)
    ensures TaskOf(kind, AsFields(words), client, now) ==
            ShortTask(kind, if |words| > 0 then words[0] else "", if |words| > 1 then words[1] else "", client, now)
  {
  }

  lemma FewScanned(kind: CommandType, words: seq<string>)
    requires kind != Unknown && kind != Quit && |words| <= (if kind == List then 1 else 2)
    requires forall i :: 0 <= i < |words| ==> IsName(words[i])
    ensures Sscanf(Words(AsFields(words)), Format(kind)) == AsFields(words)
  {
    FormatTakesNames(kind);
    NamesScanned(words, Format(kind));
  }

  lemma FormatTakesNames(kind: CommandType)
    requires kind != Unknown && kind != Quit
    ensures var n := if kind == List then 1 else 2;
            |Format(kind)| >= n && forall i :: 0 <= i < n ==> Format(kind)[i].Word? && Format(kind)[i].width >= 63
  {
  }

  lemma NamesScanned(words: seq<string>, format: seq<Conversion>)
    requires |words| <= |format|
    requires forall i :: 0 <= i < |words| ==> IsName(words[i]) && format[i].Word? && format[i].width >= 63
    ensures Sscanf(Words(AsFields(words)), format) == AsFields(words)
  {
    SscanfOfWords(AsFields(words), format);
  }

  function AsFields(words: seq<string>): (r: seq<Field>)
    ensures |r| == |words| && forall i :: 0 <= i < |r| ==> r[i] == Str(words[i])
  {
    if words == [] then [] else [Str(words[0])] + AsFields(words[1..])
  }

  /** An UPLOAD without its last word keeps the size; one whose third word is no number keeps neither. */
  lemma BrokenUpload(u: string, path: string, size: nat, w: string, rest: string, client: nat, now: Timespec)
    requires IsName(u) && IsPath(path) && size <= SIZE_MAX
    requires w != "" && !IsSpace(w[0]) && !IsDigit(w[0]) && w[0] != '-' && w[0] != '+'
    ensures Dispatch("UPLOAD" + (" " + u + (" " + path + (" " + Decimal(size) + ""))), client, now) ==
            Submit(Task(Upload, client, u, "", path, "", size, Normal, now))
    ensures Dispatch("UPLOAD" + (" " + u + (" " + path + (" " + w + rest))), client, now) ==
            Submit(Task(Upload, client, u, "", path, "", 0, Normal, now))
  {
    var number, word := " " + Decimal(size) + "", " " + w + rest;
    ScanDecimal(size, "");
    assert Sscanf("", [Word(255)]) == [];
    assert [Size, Word(255)][1..] == [Word(255)];
    assert Sscanf(number, [Size, Word(255)]) == [Num(size)];
    assert word[1..] == w + rest;
    assert SkipSpaces(word) == SkipSpaces(w + rest) == w + rest;
    assert Sscanf(word, [Size, Word(255)]) == [];
    UploadScanned(u, path, number, client, now);
    UploadScanned(u, path, word, client, now);
  }

  lemma UploadScanned(u: string, path: string, tail: string, client: nat, now: Timespec)
    requires IsName(u) && IsPath(path) && tail != "" && tail[0] == ' '
    ensures Dispatch("UPLOAD" + (" " + u + (" " + path + tail)), client, now) ==
            Submit(TaskOf(Upload, [Str(u)] + ([Str(path)] + Sscanf(tail, [Size, Word(255)])), client, now))
  {
    var second := " " + path + tail;
    var first := " " + u + second;
    KeywordIsFound(Upload, first);
    assert ("UPLOAD" + first)[6..] == first;
    WordScanned(path, tail, 255, [Size, Word(255)]);
    WordScanned(u, second, 63, [Word(255), Size, Word(255)]);
    assert [Word(255)] + [Size, Word(255)] == [Word(255), Size, Word(255)];
    assert [Word(63)] + [Word(255), Size, Word(255)] == Format(Upload);
  }
}
