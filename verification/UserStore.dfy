/** The in-memory user list of src/user_db.c and the map it stands for. */
module UserStore {
  import opened Types

  /** What `strncpy` keeps of a string in a zeroed 64-byte field. */
  function Stored(s: string): (r: string)
    ensures r <= s && |r| == if |s| < 63 then |s| else 63
    ensures |r| <= 63
    ensures r == s <==> |s| <= 63
  {
    if |s| <= 63 then s else s[..63]
  }

  datatype Account = Account(name: string, pass: string, quota: nat)

  /** The copy that `user_store_lock_user` returns; every field it does not set is zero. */
  datatype User = User(name: string, pass: string, priority: TaskPriority, used: nat, quota: nat)

  /** The first account whose stored name equals `name`. */
  function Find(accounts: seq<Account>, name: string): Option<Account> {
    if accounts == [] then None
    else if accounts[0].name == name then Some(accounts[0])
    else Find(accounts[1..], name)
  }

  function AfterSignup(accounts: seq<Account>, name: string, pass: string, quota: nat): seq<Account> {
    if Find(accounts, name).Some? then accounts
    else [Account(Stored(name), Stored(pass), quota)] + accounts
  }

  predicate Authenticates(accounts: seq<Account>, name: string, pass: string) {
    var a := Find(accounts, name);
    a.Some? && a.value.pass == pass
  }

  // ---------- The linked list ----------

  /** A node of the list; a node is filled in before it is linked and never written again. */
  class InMemoryUser {
    const name: string
    const pass: string
    const quota: nat
    const next: InMemoryUser?
    ghost const chain: seq<Account>

    ghost predicate Valid()
      decreases |chain|
    {
      && chain != []
      && chain[0] == Account(name, pass, quota)
      && (next == null ==> |chain| == 1)
      && (next != null ==> next.chain == chain[1..] && next.Valid())
    }

    constructor (name: string, pass: string, quota: nat, next: InMemoryUser?)
      requires next != null ==> next.Valid()
      ensures Valid()
      ensures chain == [Account(Stored(name), Stored(pass), quota)] + Chain(next)
    {
      this.name := Stored(name);
      this.pass := Stored(pass);
      this.quota := quota;
      this.next := next;
      this.chain := [Account(Stored(name), Stored(pass), quota)] + Chain(next);
    }
  }

  ghost function Chain(user: InMemoryUser?): seq<Account> {
    if user == null then [] else user.chain
  }

  class Store {
    var users: InMemoryUser?

    ghost predicate Valid()
      reads this
    {
      users != null ==> users.Valid()
    }

    ghost function Accounts(): seq<Account>
      reads this
    {
      Chain(users)
    }

    constructor ()
      ensures Valid() && Accounts() == []
    {
      users := null;
    }

    /** The pointer walk that all three operations share. */
    method Walk(name: string) returns (user: InMemoryUser?)
      requires Valid()
      ensures user == null <==> Find(Accounts(), name) == None
      ensures user != null ==> Find(Accounts(), name) == Some(Account(user.name, user.pass, user.quota))
    {
      user := users;
      while user != null
        invariant user != null ==> user.Valid()
        invariant Find(Chain(user), name) == Find(Accounts(), name)
        decreases |Chain(user)|
      {
        if user.name == name {
          return;
        }
        user := user.next;
      }
    }

    method Signup(name: string, pass: string, quota: nat) returns (ok: bool)
      requires Valid()
      modifies this
      ensures Valid()
      ensures ok <==> Find(old(Accounts()), name) == None
      ensures Accounts() == AfterSignup(old(Accounts()), name, pass, quota)
    {
      var user := Walk(name);
      if user != null {
        return false;
      }
      users := new InMemoryUser(name, pass, quota, users);
      return true;
    }

    method Login(name: string, pass: string) returns (authenticated: bool)
      requires Valid()
      ensures authenticated <==> Authenticates(Accounts(), name, pass)
    {
      var user := Walk(name);
      authenticated := user != null && user.pass == pass;
    }

    method LockUser(name: string) returns (copy: Option<User>)
      requires Valid()
      ensures copy == match Find(Accounts(), name)
                      case None => None
                      case Some(a) => Some(User(Stored(a.name), "", Low, 0, a.quota))
    {
      var user := Walk(name);
      if user == null {
        return None;
      }
      return Some(User(Stored(user.name), "", Low, 0, user.quota));
    }
  }

  // ---------- The list refines a map ----------

  datatype Op = Signup(name: string, pass: string, quota: nat) | Login(name: string, pass: string) | Lookup(name: string)

  datatype Reply = Done(ok: bool) | Quota(quota: Option<nat>)

  function ListExec(accounts: seq<Account>, op: Op): seq<Account> {
    match op
    case Signup(name, pass, quota) => AfterSignup(accounts, name, pass, quota)
    case _ => accounts
  }

  function ListReply(accounts: seq<Account>, op: Op): Reply {
    match op
    case Signup(name, _, _) => Done(Find(accounts, name).None?)
    case Login(name, pass) => Done(Authenticates(accounts, name, pass))
    case Lookup(name) =>
      var a := Find(accounts, name);
      Quota(if a.Some? then Some(a.value.quota) else None)
  }

  /** The map keeps, for each name, the password and quota of its successful signup. */
  type Directory = map<string, (string, nat)>

  function MapExec(users: Directory, op: Op): Directory {
    match op
    case Signup(name, pass, quota) => if name in users then users else users[name := (pass, quota)]
    case _ => users
  }

  function MapReply(users: Directory, op: Op): Reply {
    match op
    case Signup(name, _, _) => Done(name !in users)
    case Login(name, pass) => Done(name in users && users[name].0 == pass)
    case Lookup(name) => Quota(if name in users then Some(users[name].1) else None)
  }

  function ListRun(accounts: seq<Account>, ops: seq<Op>): (seq<Account>, seq<Reply>)
    decreases |ops|
  {
    if ops == [] then (accounts, [])
    else
      var (end, replies) := ListRun(ListExec(accounts, ops[0]), ops[1..]);
      (end, [ListReply(accounts, ops[0])] + replies)
  }

  function MapRun(users: Directory, ops: seq<Op>): (Directory, seq<Reply>)
    decreases |ops|
  {
    if ops == [] then (users, [])
    else
      var (end, replies) := MapRun(MapExec(users, ops[0]), ops[1..]);
      (end, [MapReply(users, ops[0])] + replies)
  }

  /** Names and passwords that the 64-byte fields hold in full. */
  predicate Fits(op: Op) {
    match op
    case Signup(name, pass, _) => |name| <= 63 && |pass| <= 63
    case _ => true
  }

  ghost predicate DistinctNames(accounts: seq<Account>) {
    forall i, j :: 0 <= i < j < |accounts| ==> accounts[i].name != accounts[j].name
  }

  ghost predicate Represents(accounts: seq<Account>, users: Directory) {
    && DistinctNames(accounts)
    && |accounts| == |users|
    && forall name :: Find(accounts, name) ==
         if name in users then Some(Account(name, users[name].0, users[name].1)) else None
  }

  lemma {:induction false} FindIsMember(accounts: seq<Account>, name: string)
    ensures Find(accounts, name).Some? <==> exists i :: 0 <= i < |accounts| && accounts[i].name == name
    ensures Find(accounts, name).Some? ==> Find(accounts, name).value in accounts && Find(accounts, name).value.name == name
    decreases |accounts|
  {
    if accounts != [] && accounts[0].name != name {
      FindIsMember(accounts[1..], name);
      if i :| 0 <= i < |accounts| && accounts[i].name == name {
        assert accounts[1..][i - 1].name == name;
      }
    }
  }

  /** Of several accounts with a stored name the first counts, which is the one signed up last. */
  lemma {:induction false} FindIsFirst(accounts: seq<Account>, name: string, i: nat)
    requires i < |accounts| && accounts[i].name == name
    requires forall j :: 0 <= j < i ==> accounts[j].name != name
    ensures Find(accounts, name) == Some(accounts[i])
    decreases i
  {
    if i > 0 {
      FindIsFirst(accounts[1..], name, i - 1);
    }
  }

  lemma SignupKeepsRepresentation(accounts: seq<Account>, users: Directory, op: Op)
    requires Represents(accounts, users) && Fits(op)
    ensures Represents(ListExec(accounts, op), MapExec(users, op))
  {
    if op.Signup? && op.name !in users {
      var added := [Account(op.name, op.pass, op.quota)] + accounts;
      assert Find(accounts, op.name) == None;
      FindIsMember(accounts, op.name);
      assert added[1..] == accounts;
      forall i, j | 0 <= i < j < |added|
        ensures added[i].name != added[j].name
      {
        if i > 0 {
          assert accounts[i - 1].name != accounts[j - 1].name;
        }
      }
    }
  }

  /** Over any history of names and passwords that fit, the list answers as the map does. */
  lemma {:induction false} ListRefinesMap(accounts: seq<Account>, users: Directory, ops: seq<Op>)
    requires Represents(accounts, users)
    requires forall op :: op in ops ==> Fits(op)
    ensures ListRun(accounts, ops).1 == MapRun(users, ops).1
    ensures Represents(ListRun(accounts, ops).0, MapRun(users, ops).0)
    decreases |ops|
  {
    if ops != [] {
      SignupKeepsRepresentation(accounts, users, ops[0]);
      ListRefinesMap(ListExec(accounts, ops[0]), MapExec(users, ops[0]), ops[1..]);
    }
  }

  /** From the empty list: every answer is the map's, and no two stored names are equal. */
  lemma HistoryRefinesMap(ops: seq<Op>)
    requires forall op :: op in ops ==> Fits(op)
    ensures ListRun([], ops).1 == MapRun(map[], ops).1
    ensures DistinctNames(ListRun([], ops).0)
  {
    ListRefinesMap([], map[], ops);
  }

  // ---------- Strings that do not fit ----------

  /** Stored names are at most 63 characters, whatever was signed up. */
  ghost predicate Truncated(accounts: seq<Account>) {
    forall i :: 0 <= i < |accounts| ==> |accounts[i].name| <= 63 && |accounts[i].pass| <= 63
  }

  lemma {:induction false} RunTruncates(accounts: seq<Account>, ops: seq<Op>)
    requires Truncated(accounts)
    ensures Truncated(ListRun(accounts, ops).0)
    decreases |ops|
  {
    if ops != [] {
      RunTruncates(ListExec(accounts, ops[0]), ops[1..]);
    }
  }

  /** After any history and one more SIGNUP of a name, the name is found exactly when it fits. */
  lemma SignupThenFindIff(ops: seq<Op>, name: string, pass: string, quota: nat)
    ensures Find(AfterSignup(ListRun([], ops).0, name, pass, quota), name).Some? <==> |name| <= 63
  {
    RunTruncates([], ops);
    FindIsMember(ListRun([], ops).0, name);
  }

  /** Logging in with what has just been accepted works exactly when both strings fit. */
  lemma SignupThenLoginIff(accounts: seq<Account>, name: string, pass: string, quota: nat)
    requires Find(accounts, name) == None
    ensures Authenticates(AfterSignup(accounts, name, pass, quota), name, pass) <==> |name| <= 63 && |pass| <= 63
  {
  }

  /** A name of 64 characters can be signed up twice, and then names are not distinct. */
  lemma LongNameSignsUpTwice() returns (name: string, ops: seq<Op>)
    ensures |name| == 64 && ops == [Op.Signup(name, "", 0), Op.Signup(name, "", 0)]
    ensures ListRun([], ops).1 == [Done(true), Done(true)]
    ensures !DistinctNames(ListRun([], ops).0)
  {
    name := seq(64, _ => 'a');
    ops := [Op.Signup(name, "", 0), Op.Signup(name, "", 0)];
    var one := AfterSignup([], name, "", 0);
    SignupThenFindIff([], name, "", 0);
    assert ListRun([], []).0 == [];
    var two := AfterSignup(one, name, "", 0);
    assert ops[1..] == [Op.Signup(name, "", 0)] && ops[1..][1..] == [];
    var op := ops[0];
    assert ListExec(one, op) == two && ListReply(one, op) == Done(true);
    assert ListRun(one, [op]) == (two, [Done(true)]) by {
      assert [op][1..] == [] && [Done(true)] + [] == [Done(true)];
    }
    assert ListRun([], ops) == (two, [Done(true)] + [Done(true)]);
    assert two[0].name == two[1].name;
  }
}
