/**
 One pass of `worker_thread_main` (src/worker.c): the switch that carries out a task on
 the user store and the files and sends the response.  What the file system answers is
 a parameter.
 */
module Worker {
  import opened Types
  import opened UserStore
  import opened Scanning
  import Commands
  import Framing
  import Listing
  import Protocol

  /** What `send_response` puts on the entry of the task's client. */
  datatype Response = Response(ok: bool, message: string)

  /** A file operation succeeds with a text, or fails with an error text that may be empty. */
  datatype FileResult = Good(text: string) | Bad(error: string)

  /** The answers of the file system; `megabytes` is the printed size of the task. */
  datatype Files = Files(tmpOpens: bool, upload: FileResult, download: FileResult, delete: FileResult,
                         dir: Option<seq<string>>, megabytes: string)

  const QUOTA: nat := 100 * 1024 * 1024
  const UPLOAD_LIMIT: nat := 10 * 1024 * 1024

  // ---------- What a task should achieve ----------

  /** The operation on the user list that a task stands for. */
  function AccountOp(t: Task): Op {
    match t.kind
    case Signup => Op.Signup(t.username, t.password, QUOTA)
    case Login => Op.Login(t.username, t.password)
    case _ => Lookup(t.username)
  }

  /** The part of a task's success that does not depend on the users. */
  predicate FilesAllow(files: Files, t: Task) {
    match t.kind
    case Upload =>
      t.path != "" && t.tmpfile != "" && t.size <= UPLOAD_LIMIT && files.tmpOpens && files.upload.Good?
    case Download => t.path != "" && files.download.Good?
    case Delete => files.delete.Good?
    case List => files.dir.Some?
    case _ => true
  }

  /** Whether the user store allows it, given the reply of the list to the task's operation. */
  predicate UserAllows(reply: Reply) {
    match reply
    case Done(ok) => ok
    case Quota(quota) => quota.Some?
  }

  predicate Succeeds(accounts: seq<Account>, files: Files, t: Task) {
    UserAllows(ListReply(accounts, AccountOp(t))) && FilesAllow(files, t)
  }

  function Praise(files: Files, t: Task): string {
    match t.kind
    case Signup => "signed_up"
    case Login => "logged_in"
    case Upload => "uploaded"
    case Download => if files.download.Good? then files.download.text else ""
    case Delete => "deleted"
    case List => if files.dir.Some? then Framing.Frame(Listing.Shown(files.dir.value)) else ""
    case _ => ""
  }

  function ErrorOr(r: FileResult, default: string): string {
    if r.Bad? && r.error != "" then r.error else default
  }

  /** The first complaint, for a task that fails. */
  function Complaint(known: bool, files: Files, t: Task): string {
    match t.kind
    case Signup => "Signup failed - user may already exist"
    case Login => if known then "Invalid username or password" else "User not found"
    case Upload =>
      if t.path == "" || t.tmpfile == "" then "Invalid file path or temporary file"
      else if !known then "User not found or not logged in"
      else if t.size > UPLOAD_LIMIT then
        "File too large (" + files.megabytes + " MB). Upgrade to high priority for larger uploads."
      else if !files.tmpOpens then "Temporary file not found or inaccessible"
      else ErrorOr(files.upload, "upload failed")
    case Download =>
      if t.path == "" then "Invalid file path"
      else if !known then "User not found or not logged in"
      else ErrorOr(files.download, "Download failed")
    case Delete => if known then ErrorOr(files.delete, "") else "User not found"
    case List => if known then "opendir failed" else "User not found"
    case _ => ""
  }

  /** The response that tells the client how its task went. */
  function Verdict(accounts: seq<Account>, files: Files, t: Task): Response {
    var ok := Succeeds(accounts, files, t);
    Sent(ok, if ok then Praise(files, t) else Complaint(Find(accounts, t.username).Some?, files, t))
  }

  function Sent(ok: bool, text: string): Response {
    Response(ok, Listing.First(text, Listing.MESSAGE_SIZE - 1))
  }

  /** At most 511 characters of a text fit a response. */
  function Short(s: string): string {
    if |s| <= 511 then s else s[..511]
  }

  // The response to each kind of task, in the order in which the reasons to refuse it are looked at.

  lemma SignupVerdict(accounts: seq<Account>, files: Files, t: Task)
    requires t.kind.Signup?
    ensures Verdict(accounts, files, t) ==
            if Find(accounts, t.username) == None then Response(true, "signed_up")
            else Response(false, "Signup failed - user may already exist")
  {
  }

  lemma LoginVerdict(accounts: seq<Account>, files: Files, t: Task)
    requires t.kind.Login?
    ensures Verdict(accounts, files, t) ==
            match Find(accounts, t.username)
            case None => Response(false, "User not found")
            case Some(a) =>
              if a.pass == t.password then Response(true, "logged_in")
              else Response(false, "Invalid username or password")
  {
  }

  lemma UploadVerdict(accounts: seq<Account>, files: Files, t: Task)
    requires t.kind.Upload?
    ensures Verdict(accounts, files, t) ==
            if t.path == "" || t.tmpfile == "" then Response(false, "Invalid file path or temporary file")
            else if Find(accounts, t.username) == None then Response(false, "User not found or not logged in")
            else if t.size > 10485760 then
              Response(false, Short("File too large (" + files.megabytes
                                    + " MB). Upgrade to high priority for larger uploads."))
            else if !files.tmpOpens then Response(false, "Temporary file not found or inaccessible")
            else match files.upload
                 case Good(_) => Response(true, "uploaded")
                 case Bad(error) => Response(false, if error == "" then "upload failed" else Short(error))
  {
  }

  lemma DownloadVerdict(accounts: seq<Account>, files: Files, t: Task)
    requires t.kind.Download?
    ensures Verdict(accounts, files, t) ==
            if t.path == "" then Response(false, "Invalid file path")
            else if Find(accounts, t.username) == None then Response(false, "User not found or not logged in")
            else match files.download
                 case Good(path) => Response(true, Short(path))
                 case Bad(error) => Response(false, if error == "" then "Download failed" else Short(error))
  {
  }

  lemma DeleteVerdict(accounts: seq<Account>, files: Files, t: Task)
    requires t.kind.Delete?
    ensures Verdict(accounts, files, t) ==
            if Find(accounts, t.username) == None then Response(false, "User not found")
            else match files.delete
                 case Good(_) => Response(true, "deleted")
                 case Bad(error) => Response(false, Short(error))
  {
  }

  lemma ListVerdict(accounts: seq<Account>, files: Files, t: Task)
    requires t.kind.List?
    ensures Verdict(accounts, files, t) ==
            if Find(accounts, t.username) == None then Response(false, "User not found")
            else match files.dir
                 case None => Response(false, "opendir failed")
                 case Some(names) => Response(true, Short(Framing.Frame(Listing.Shown(names))))
  {
  }

  /** The line that answers a task begins with OK exactly when what the task needs is there. */
  lemma StatusIff(accounts: seq<Account>, files: Files, t: Task)
    requires Protocol.Pushable(t.kind)
    ensures var who := Find(accounts, t.username);
            Listing.ResponseLine(Verdict(accounts, files, t).ok, Verdict(accounts, files, t).message)[..2] == "OK" <==>
            match t.kind
            case Signup => who.None?
            case Login => who.Some? && who.value.pass == t.password
            case Upload =>
              t.path != "" && t.tmpfile != "" && who.Some? && t.size <= 10485760 && files.tmpOpens && files.upload.Good?
            case Download => t.path != "" && who.Some? && files.download.Good?
            case Delete => who.Some? && files.delete.Good?
            case _ => who.Some? && files.dir.Some?
  {
    Listing.ReplyStatus(Verdict(accounts, files, t).ok, Verdict(accounts, files, t).message);
  }

  /** Only a SIGNUP changes the users: it adds a new name with a quota of 100 MiB. */
  lemma UsersAfter(accounts: seq<Account>, t: Task)
    ensures ListExec(accounts, AccountOp(t)) ==
            if t.kind.Signup? && Find(accounts, t.username) == None then
              [Account(Stored(t.username), Stored(t.password), 104857600)] + accounts
            else accounts
  {
  }

  // ---------- The code ----------

  /** The responses sent so far, and one more. */
  method SendResponse(responses: seq<Response>, ok: bool, message: string) returns (more: seq<Response>)
    ensures more == responses + [Sent(ok, message)]
  {
    more := responses + [Response(ok, Listing.First(message, Listing.MESSAGE_SIZE - 1))];
  }

  lemma FirstTwice(s: string, n: nat)
    ensures Listing.First(Listing.First(s, n), n) == Listing.First(s, n)
  {
  }

  method ServeSignup(store: Store, files: Files, t: Task) returns (responses: seq<Response>)
    requires store.Valid() && t.kind.Signup?
    modifies store
    ensures store.Valid() && store.Accounts() == AfterSignup(old(store.Accounts()), t.username, t.password, QUOTA)
    ensures responses == [Verdict(old(store.Accounts()), files, t)]
  {
    var ok, err := false, "";
    ok := store.Signup(t.username, t.password, QUOTA);
    if !ok {
      err := "Signup failed - user may already exist";
    }
    responses := SendResponse([], ok, if ok then "signed_up" else err);
  }

  method ServeLogin(store: Store, files: Files, t: Task) returns (responses: seq<Response>)
    requires store.Valid() && t.kind.Login?
    ensures responses == [Verdict(store.Accounts(), files, t)]
  {
    var ok, err := false, "";
    var u := store.LockUser(t.username);
    if u.Some? {
      ok := store.Login(t.username, t.password);
      if !ok {
        err := "Invalid username or password";
      }
    } else {
      err := "User not found";
    }
    responses := SendResponse([], ok, if ok then "logged_in" else err);
  }

  /** The looked-up user always has priority LOW, so that more than 10 MiB is refused to everyone. */
  method ServeUpload(store: Store, files: Files, t: Task) returns (responses: seq<Response>)
    requires store.Valid() && t.kind.Upload?
    ensures responses == [Verdict(store.Accounts(), files, t)]
    ensures t.size > UPLOAD_LIMIT ==> !responses[0].ok
  {
    var ok, err := false, "";
    if t.path == "" || t.tmpfile == "" {
      err := "Invalid file path or temporary file";
    } else {
      var u := store.LockUser(t.username);
      if u.Some? {
        if t.size > UPLOAD_LIMIT && Rank(u.value.priority) < Rank(High) {
          err := "File too large (" + files.megabytes + " MB). Upgrade to high priority for larger uploads.";
        } else if files.tmpOpens {
          ok := files.upload.Good?;
          if !ok {
            err := files.upload.error;
          }
        } else {
          err := "Temporary file not found or inaccessible";
        }
      } else {
        err := "User not found or not logged in";
      }
    }
    responses := SendResponse([], ok, if ok then "uploaded" else if err != "" then err else "upload failed");
  }

  /** Each of the four branches sends its own response. */
  method ServeDownload(store: Store, files: Files, t: Task) returns (responses: seq<Response>)
    requires store.Valid() && t.kind.Download?
    ensures responses == [Verdict(store.Accounts(), files, t)]
  {
    responses := [];
    if t.path == "" {
      responses := SendResponse(responses, false, "Invalid file path");
    } else {
      var u := store.LockUser(t.username);
      if u.Some? {
        if files.download.Good? {
          if u.value.priority == High {
            responses := SendResponse(responses, true, "downloaded");
          } else {
            responses := SendResponse(responses, true, files.download.text);
          }
        } else {
          responses := SendResponse(responses, false, ErrorOr(files.download, "Download failed"));
        }
      } else {
        responses := SendResponse(responses, false, "User not found or not logged in");
      }
    }
  }

  method ServeDelete(store: Store, files: Files, t: Task) returns (responses: seq<Response>)
    requires store.Valid() && t.kind.Delete?
    ensures responses == [Verdict(store.Accounts(), files, t)]
  {
    var ok, err := false, "";
    var u := store.LockUser(t.username);
    if u.Some? {
      ok := files.delete.Good?;
      if !ok {
        err := files.delete.error;
      }
    } else {
      err := "User not found";
    }
    responses := SendResponse([], ok, if ok then "deleted" else err);
  }

  method ServeList(store: Store, files: Files, t: Task) returns (responses: seq<Response>)
    requires store.Valid() && t.kind.List?
    requires files.dir.Some? ==> forall name :: name in files.dir.value ==> Listing.IsCString(name)
    ensures responses == [Verdict(store.Accounts(), files, t)]
  {
    var u := store.LockUser(t.username);
    var ok, message := Listing.ListTask(u.Some?, files.dir);
    if ok {
      FirstTwice(Praise(files, t), Listing.MESSAGE_SIZE - 1);
    }
    responses := SendResponse([], ok, message);
  }

  /** The switch: everything it sends for a task. */
  method ServeTask(store: Store, files: Files, t: Task) returns (responses: seq<Response>)
    requires store.Valid()
    requires files.dir.Some? ==> forall name :: name in files.dir.value ==> Listing.IsCString(name)
    modifies store
    ensures store.Valid() && store.Accounts() == ListExec(old(store.Accounts()), AccountOp(t))
    ensures |responses| == Protocol.ResponsesSent(t.kind)
    ensures Protocol.Pushable(t.kind) ==> responses == [Verdict(old(store.Accounts()), files, t)]
    ensures Protocol.Pushable(t.kind) ==>
              var who := Find(old(store.Accounts()), t.username);
              (Listing.ResponseLine(responses[0].ok, responses[0].message)[..2] == "OK" <==>
               match t.kind
               case Signup => who.None?
               case Login => who.Some? && who.value.pass == t.password
               case Upload =>
                 t.path != "" && t.tmpfile != "" && who.Some? && t.size <= 10485760 && files.tmpOpens && files.upload.Good?
               case Download => t.path != "" && who.Some? && files.download.Good?
               case Delete => who.Some? && files.delete.Good?
               case _ => who.Some? && files.dir.Some?)
  {
    if Protocol.Pushable(t.kind) {
      StatusIff(store.Accounts(), files, t);
    }
    match t.kind {
      case Signup => responses := ServeSignup(store, files, t);
      case Login => responses := ServeLogin(store, files, t);
      case Upload => responses := ServeUpload(store, files, t);
      case Download => responses := ServeDownload(store, files, t);
      case Delete => responses := ServeDelete(store, files, t);
      case List => responses := ServeList(store, files, t);
      case _ => responses := [];
    }
  }

  // ---------- Whole histories of served tasks ----------

  /** The task came from a line that a client sent. */
  ghost predicate FromLine(t: Task) {
    exists line, client, now :: Commands.Dispatch(line, client, now) == Commands.Submit(t)
  }

  /** A task and what the file system answers while it is served. */
  datatype Job = Job(task: Task, files: Files)

  /** The responses to tasks served one after the other, on the user list. */
  function ServeAll(accounts: seq<Account>, jobs: seq<Job>): seq<Response>
    decreases |jobs|
  {
    if jobs == [] then []
    else
      [Verdict(accounts, jobs[0].files, jobs[0].task)]
      + ServeAll(ListExec(accounts, AccountOp(jobs[0].task)), jobs[1..])
  }

  /** What a map from name to password and quota allows. */
  predicate MapAllows(users: Directory, t: Task) {
    match t.kind
    case Signup => t.username !in users
    case Login => t.username in users && users[t.username].0 == t.password
    case _ => t.username in users
  }

  function MapAfter(users: Directory, t: Task): Directory {
    if t.kind.Signup? && t.username !in users then users[t.username := (t.password, QUOTA)] else users
  }

  /** The response that the map's answer calls for. */
  function MapVerdict(users: Directory, files: Files, t: Task): Response {
    var ok := MapAllows(users, t) && FilesAllow(files, t);
    Sent(ok, if ok then Praise(files, t) else Complaint(t.username in users, files, t))
  }

  /** The same responses on the map. */
  function ServeAllOnMap(users: Directory, jobs: seq<Job>): seq<Response>
    decreases |jobs|
  {
    if jobs == [] then []
    else
      var t := jobs[0].task;
      [MapVerdict(users, jobs[0].files, t)] + ServeAllOnMap(MapAfter(users, t), jobs[1..])
  }

  /** A conversion stores no more than its width, so a task's strings fit its fields. */
  lemma {:induction false} SscanfWidths(input: string, format: seq<Commands.Conversion>)
    ensures var r := Commands.Sscanf(input, format);
            forall i :: 0 <= i < |r| && format[i].Word? ==> r[i].Str? && |r[i].text| <= format[i].width
    decreases |format|
  {
    if format != [] {
      match format[0]
      case Word(width) =>
        var w := ScanWord(input, width);
        if w.Some? {
          SscanfWidths(w.value.1, format[1..]);
        }
      case Size =>
        var n := ScanSize(input);
        if n.Some? {
          SscanfWidths(n.value.1, format[1..]);
        }
    }
  }

  /** Whatever the line, its task is pushable and its strings fit the fields of a `Task`. */
  lemma LineTaskFits(line: string, client: nat, now: Timespec)
    ensures var o := Commands.Dispatch(line, client, now);
            o.Submit? ==>
              && Protocol.Pushable(o.task.kind) && o.task.client == client
              && |o.task.username| <= 63 && |o.task.password| <= 63
              && |o.task.path| <= 255 && |o.task.tmpfile| <= 255
  {
    var kind := Commands.KindOf(line);
    SscanfWidths(line[|Commands.Keyword(kind)|..], Commands.Format(kind));
  }

  lemma MapTask(accounts: seq<Account>, users: Directory, t: Task)
    requires Represents(accounts, users) && |t.username| <= 63 && |t.password| <= 63
    ensures UserAllows(ListReply(accounts, AccountOp(t))) == MapAllows(users, t)
    ensures Find(accounts, t.username).Some? <==> t.username in users
    ensures Represents(ListExec(accounts, AccountOp(t)), MapAfter(users, t))
  {
    SignupKeepsRepresentation(accounts, users, AccountOp(t));
    assert MapExec(users, AccountOp(t)) == MapAfter(users, t);
  }

  /**
   Whatever lines clients send and in whatever order workers serve their tasks, every
   response is the one that a map calls for: the list never cuts a name or a password.
   */
  lemma {:induction false} ServerRefinesMap(accounts: seq<Account>, users: Directory, jobs: seq<Job>)
    requires Represents(accounts, users)
    requires forall j :: j in jobs ==> FromLine(j.task)
    ensures ServeAll(accounts, jobs) == ServeAllOnMap(users, jobs)
    decreases |jobs|
  {
    if jobs != [] {
      var t := jobs[0].task;
      TaskFits(t);
      MapTask(accounts, users, t);
      ServerRefinesMap(ListExec(accounts, AccountOp(t)), MapAfter(users, t), jobs[1..]);
    }
  }

  lemma TaskFits(t: Task)
    requires FromLine(t)
    ensures |t.username| <= 63 && |t.password| <= 63
  {
    var line, client, now :| Commands.Dispatch(line, client, now) == Commands.Submit(t);
    LineTaskFits(line, client, now);
  }
}
