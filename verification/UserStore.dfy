/** The users table of the sign-in sidecar under signups and OAuth callbacks: `CreateUserPassword` and
    `UpsertUserFromOAuth` of the SQL store. */
module UserStore {
  import opened Wrappers

  datatype User = User(id: string, email: string, passwordHash: string, name: string, provider: string, providerId: string)

  datatype Error = InvalidEmail | ShortPassword | HashFailed | EmailTaken | InsertFailed | UpdateFailed

  const PASSWORD_PROVIDER := "password"
  const MIN_PASSWORD: nat := 8

  type Users = map<string, User>

  ghost predicate Linked(users: Users, id: string, provider: string, providerId: string) {
    id in users && users[id].provider == provider && users[id].providerId == providerId
  }

  predicate SameIdentity(a: User, b: User) {
    a.provider != PASSWORD_PROVIDER && a.provider == b.provider && a.providerId == b.providerId
  }

  /** Ids and addresses are unique, which the table's constraints enforce; an OAuth identity belongs to at
      most one row, which no constraint enforces. */
  ghost predicate UsersOk(users: Users) {
    && (forall id :: id in users ==> users[id].id == id)
    && (forall a, b :: a in users && b in users && users[a].email == users[b].email ==> a == b)
    && (forall a, b :: a in users && b in users && SameIdentity(users[a], users[b]) ==> a == b)
  }

  /** The rows of `before`, none with another address or password hash. */
  ghost predicate Extends(before: Users, after: Users) {
    forall id :: id in before ==> id in after && after[id].email == before[id].email && after[id].passwordHash == before[id].passwordHash
  }

  /** What the callback finds: the identity, else the address, else nobody. */
  datatype Found = ByIdentity(id: string) | ByEmail(id: string) | Nobody

  ghost predicate Finds(users: Users, provider: string, providerId: string, email: string, f: Found) {
    match f
    case ByIdentity(id) => Linked(users, id, provider, providerId)
    case ByEmail(id) =>
      (forall a :: !Linked(users, a, provider, providerId)) && id in users && users[id].email == email
    case Nobody =>
      (forall a :: !Linked(users, a, provider, providerId)) && forall a :: a in users ==> users[a].email != email
  }

  /** One OAuth callback: who comes back, with which address and name, and the id a new row would get. */
  datatype Callback = Callback(provider: string, providerId: string, email: string, name: string, uid: string)

  /** The table after it; `trimmed` is the name as a new row stores it, `writes` whether an UPDATE or INSERT
      reaches the table. */
  function AfterCallback(users: Users, c: Callback, f: Found, trimmed: string, writes: bool): Users
    requires f.ByIdentity? || f.ByEmail? ==> f.id in users
  {
    match f
    case ByIdentity(id) => if writes && c.name != "" then users[id := users[id].(name := c.name)] else users
    case ByEmail(id) =>
      if writes then users[id := users[id].(provider := c.provider, providerId := c.providerId, name := c.name)] else users
    case Nobody => if !writes || c.uid in users then users else users[c.uid := User(c.uid, c.email, "", trimmed, c.provider, c.providerId)]
  }

  /** Whether the caller gets a user, and which one. */
  function Accepted(users: Users, c: Callback, f: Found, writes: bool): Option<string> {
    match f
    case ByIdentity(id) => Some(id)
    case ByEmail(id) => if writes then Some(id) else None
    case Nobody => if !writes || c.uid in users then None else Some(c.uid)
  }

  /** A row set or added whose address is its own and whose identity is nobody else's. */
  lemma RowSet(users: Users, u: User)
    requires UsersOk(users)
    requires forall a :: a in users && a != u.id ==> users[a].email != u.email && !SameIdentity(u, users[a])
    requires u.id in users ==> u.email == users[u.id].email && u.passwordHash == users[u.id].passwordHash
    ensures UsersOk(users[u.id := u]) && Extends(users, users[u.id := u])
  {
    var after := users[u.id := u];
    forall a, b | a in after && b in after && a != b
      ensures after[a].email != after[b].email && !SameIdentity(after[a], after[b])
    {
      if a != u.id && b != u.id {
        assert users[a] == after[a] && users[b] == after[b];
      }
    }
  }

  /** Every callback keeps the table in order: the identity belongs to the returned user afterwards, nobody's
      password hash or address changes, at most one row is added, and no other row is touched. */
  lemma CallbackKeeps(users: Users, c: Callback, f: Found, trimmed: string, writes: bool)
    requires UsersOk(users) && c.provider != PASSWORD_PROVIDER && Finds(users, c.provider, c.providerId, c.email, f)
    ensures var after, r := AfterCallback(users, c, f, trimmed, writes), Accepted(users, c, f, writes);
            && UsersOk(after) && Extends(users, after)
            && (after.Keys == users.Keys || after.Keys == users.Keys + {c.uid})
            && (r.Some? ==> Linked(after, r.value, c.provider, c.providerId))
            && (r.None? ==> after == users)
            && forall id :: id in users && Some(id) != r ==> after[id] == users[id]
  {
    hide UsersOk, Finds, Extends;
    NobodyElse(users, c, f);
    match f {
      case ByIdentity(id) =>
        RowSet(users, users[id].(name := c.name));
      case ByEmail(id) =>
        RowSet(users, users[id].(provider := c.provider, providerId := c.providerId, name := c.name));
      case Nobody =>
        if c.uid !in users {
          RowSet(users, User(c.uid, c.email, "", trimmed, c.provider, c.providerId));
        }
    }
    ExtendsSelf(users);
  }

  lemma ExtendsSelf(users: Users)
    ensures Extends(users, users)
  {}

  /** Whoever is found, no other row has the identity, nor the address unless the identity came first. */
  lemma NobodyElse(users: Users, c: Callback, f: Found)
    requires UsersOk(users) && c.provider != PASSWORD_PROVIDER && Finds(users, c.provider, c.providerId, c.email, f)
    ensures f.ByIdentity? || f.ByEmail? ==> f.id in users && users[f.id].id == f.id
    ensures forall a :: a in users && (f.Nobody? || a != f.id) ==> !(users[a].provider == c.provider && users[a].providerId == c.providerId)
    ensures forall a :: a in users && !f.ByIdentity? && (f.Nobody? || a != f.id) ==> users[a].email != c.email
    ensures forall a :: a in users && !f.Nobody? && a != f.id ==> users[a].email != users[f.id].email
    ensures f.ByIdentity? ==> Linked(users, f.id, c.provider, c.providerId)
  {
    forall a | a in users && (f.Nobody? || a != f.id)
      ensures !(users[a].provider == c.provider && users[a].providerId == c.providerId)
    {
      if f.ByIdentity? {
        assert !SameIdentity(users[f.id], users[a]);
      } else {
        assert !Linked(users, a, c.provider, c.providerId);
      }
    }
  }

  /** Names stay fresh: after every accepted callback whose write reached the table, an attached or returning
      user has the name it came with; except that a returning user's is kept when it came with none. */
  lemma NamesStayFresh(users: Users, c: Callback, f: Found, trimmed: string)
    requires UsersOk(users) && Finds(users, c.provider, c.providerId, c.email, f) && !f.Nobody?
    ensures var after := AfterCallback(users, c, f, trimmed, true);
            f.id in after && after[f.id].name == if f.ByIdentity? && c.name == "" then users[f.id].name else c.name
    ensures f.ByIdentity? ==> AfterCallback(users, c, f, trimmed, false) == users
  {}

  /** The same callback again, right away, whichever name refreshes reach the table: the same user, and the
      table has the same rows. */
  lemma RepeatFindsSameUser(users: Users, c: Callback, f: Found, trimmed: string, first: bool, again: Callback, g: Found, second: bool)
    requires UsersOk(users) && c.provider != PASSWORD_PROVIDER && Finds(users, c.provider, c.providerId, c.email, f)
    requires Accepted(users, c, f, first).Some?
    requires again == c.(uid := again.uid) && Finds(AfterCallback(users, c, f, trimmed, first), c.provider, c.providerId, c.email, g)
    ensures g.ByIdentity?
    ensures var between := AfterCallback(users, c, f, trimmed, first);
            && Accepted(between, again, g, second) == Accepted(users, c, f, first)
            && AfterCallback(between, again, g, trimmed, second).Keys == between.Keys
  {
    CallbackKeeps(users, c, f, trimmed, first);
    var between, id := AfterCallback(users, c, f, trimmed, first), Accepted(users, c, f, first).value;
    assert Linked(between, id, c.provider, c.providerId);
    assert g.ByIdentity?;
    assert SameIdentity(between[g.id], between[id]);
  }

  // ---- many visits -----------------------------------------------------------------------------

  /** A signup tries to insert its row; a callback finds someone and goes on from there. */
  datatype Visit =
    | Signup(u: User)
    | Back(c: Callback, f: Found, trimmed: string, writes: bool)

  ghost predicate Happens(users: Users, v: Visit) {
    match v
    case Signup(u) => u.provider == PASSWORD_PROVIDER
    case Back(c, f, _, _) => c.provider != PASSWORD_PROVIDER && Finds(users, c.provider, c.providerId, c.email, f)
  }

  predicate Insertable(users: Users, u: User) {
    u.id !in users && forall a :: a in users ==> users[a].email != u.email
  }

  ghost function Next(users: Users, v: Visit): Users
    requires Happens(users, v)
  {
    match v
    case Signup(u) => if Insertable(users, u) then users[u.id := u] else users
    case Back(c, f, trimmed, writes) => AfterCallback(users, c, f, trimmed, writes)
  }

  ghost predicate AllHappen(users: Users, visits: seq<Visit>)
    decreases |visits|
  {
    visits == [] || (Happens(users, visits[0]) && AllHappen(Next(users, visits[0]), visits[1..]))
  }

  ghost function End(users: Users, visits: seq<Visit>): Users
    requires AllHappen(users, visits)
    decreases |visits|
  {
    if visits == [] then users else End(Next(users, visits[0]), visits[1..])
  }

  lemma VisitKeeps(users: Users, v: Visit)
    requires UsersOk(users) && Happens(users, v)
    ensures UsersOk(Next(users, v)) && Extends(users, Next(users, v))
  {
    match v {
      case Signup(u) =>
        if Insertable(users, u) {
          RowSet(users, u);
        }
      case Back(c, f, trimmed, writes) =>
        CallbackKeeps(users, c, f, trimmed, writes);
    }
  }

  /** The visit attaches its identity to the existing user `x` by address. */
  predicate Attaches(v: Visit, x: string) {
    v.Back? && v.f == ByEmail(x) && v.writes
  }

  /** The identity user `x` has after the visits, by the attachments alone: the last one made, if any. */
  function LastAttached(visits: seq<Visit>, x: string, provider: string, providerId: string): (string, string)
    decreases |visits|
  {
    if visits == [] then (provider, providerId)
    else if Attaches(visits[0], x) then LastAttached(visits[1..], x, visits[0].c.provider, visits[0].c.providerId)
    else LastAttached(visits[1..], x, provider, providerId)
  }

  /** The table agrees: nothing but an attachment by address ever changes whose row it is. */
  lemma {:induction false} IdentityIsLastAttached(users: Users, visits: seq<Visit>, x: string)
    requires UsersOk(users) && AllHappen(users, visits) && x in users
    ensures var end := End(users, visits);
            && UsersOk(end) && x in end && end[x].email == users[x].email
            && (end[x].provider, end[x].providerId) == LastAttached(visits, x, users[x].provider, users[x].providerId)
    decreases |visits|
  {
    if visits != [] {
      var v := visits[0];
      VisitKeeps(users, v);
      OneVisit(users, v, x);
      IdentityIsLastAttached(Next(users, v), visits[1..], x);
    }
  }

  lemma OneVisit(users: Users, v: Visit, x: string)
    requires UsersOk(users) && Happens(users, v) && x in users
    ensures var after := Next(users, v);
            && x in after
            && (after[x].provider, after[x].providerId)
               == if Attaches(v, x) then (v.c.provider, v.c.providerId) else (users[x].provider, users[x].providerId)
  {}

  function Answer(users: Users, v: Visit): Option<string>
    requires v.Back?
  {
    Accepted(users, v.c, v.f, v.writes)
  }

  /** Nobody has the identity and it comes with the address of `x`, so that it is attached to `x` (again). */
  ghost predicate Reattaches(users: Users, v: Visit, x: string)
    requires v.Back? && x in users
  {
    (forall a :: !Linked(users, a, v.c.provider, v.c.providerId)) && v.c.email == users[x].email && v.writes
  }

  /** Someone answered with user `x` comes back after any visits of anybody: the answer is `x` again exactly
      when the last identity attached to `x` by address in between, if any, was this one, or this visit attaches
      it again. */
  lemma SameUserIffNotDisplaced(users: Users, first: Visit, between: seq<Visit>, again: Visit, x: string)
    requires UsersOk(users) && Happens(users, first) && AllHappen(Next(users, first), between)
    requires first.Back? && Answer(users, first) == Some(x)
    requires Happens(End(Next(users, first), between), again)
    requires again.Back? && again.c.provider == first.c.provider && again.c.providerId == first.c.providerId
    ensures x in End(Next(users, first), between)
    ensures Answer(End(Next(users, first), between), again) == Some(x)
            <==> LastAttached(between, x, first.c.provider, first.c.providerId) == (first.c.provider, first.c.providerId)
                 || Reattaches(End(Next(users, first), between), again, x)
  {
    CallbackKeeps(users, first.c, first.f, first.trimmed, first.writes);
    var after := Next(users, first);
    IdentityIsLastAttached(after, between, x);
    AnsweredIff(End(after, between), again, x);
  }

  lemma AnsweredIff(users: Users, v: Visit, x: string)
    requires UsersOk(users) && x in users && v.Back? && Happens(users, v)
    ensures Answer(users, v) == Some(x) <==> Linked(users, x, v.c.provider, v.c.providerId) || Reattaches(users, v, x)
  {
    if Linked(users, x, v.c.provider, v.c.providerId) {
      assert v.f.ByIdentity?;
      assert SameIdentity(users[v.f.id], users[x]);
    }
  }

  lemma {:induction false} NothingAttached(between: seq<Visit>, x: string, provider: string, providerId: string)
    requires forall i :: 0 <= i < |between| ==> !Attaches(between[i], x)
    ensures LastAttached(between, x, provider, providerId) == (provider, providerId)
    decreases |between|
  {
    if between != [] {
      NothingAttached(between[1..], x, provider, providerId);
    }
  }

  /** In particular it is while nobody attaches anything to `x` by address, whatever address and name the
      visitor comes back under. */
  lemma SameUserUnlessAttached(users: Users, first: Visit, between: seq<Visit>, again: Visit, x: string)
    requires UsersOk(users) && Happens(users, first) && AllHappen(Next(users, first), between)
    requires first.Back? && Answer(users, first) == Some(x)
    requires Happens(End(Next(users, first), between), again)
    requires again.Back? && again.c.provider == first.c.provider && again.c.providerId == first.c.providerId
    requires forall i :: 0 <= i < |between| ==> !Attaches(between[i], x)
    ensures Answer(End(Next(users, first), between), again) == Some(x)
  {
    hide UsersOk, Happens, Next, AllHappen, End, Answer, Attaches;
    NothingAttached(between, x, first.c.provider, first.c.providerId);
    SameUserIffNotDisplaced(users, first, between, again, x);
  }

  /** A run in which it is not: a second provider under the same address takes the row over, and the first
      identity, back under a new address, gets a second account. */
  lemma DisplacedIdentityGetsSecondAccount()
    ensures var google1 := Back(Callback("google", "g1", "a@x", "Ann", "1"), Nobody, "Ann", true);
            var github := Back(Callback("github", "h1", "a@x", "Ann", "2"), ByEmail("1"), "Ann", true);
            var google2 := Back(Callback("google", "g1", "b@x", "Ann", "3"), Nobody, "Ann", true);
            && AllHappen(map[], [google1, github, google2])
            && Answer(map[], google1) == Some("1")
            && Answer(End(map[], [google1]), github) == Some("1")
            && Answer(End(map[], [google1, github]), google2) == Some("3")
            && End(map[], [google1, github, google2]).Keys == {"1", "3"}
  {
    var google1 := Back(Callback("google", "g1", "a@x", "Ann", "1"), Nobody, "Ann", true);
    var github := Back(Callback("github", "h1", "a@x", "Ann", "2"), ByEmail("1"), "Ann", true);
    var google2 := Back(Callback("google", "g1", "b@x", "Ann", "3"), Nobody, "Ann", true);
    var one: Users := map["1" := User("1", "a@x", "", "Ann", "google", "g1")];
    var two: Users := map["1" := User("1", "a@x", "", "Ann", "github", "h1")];
    var three: Users := two["3" := User("3", "b@x", "", "Ann", "google", "g1")];
    assert Next(map[], google1) == one && Next(one, github) == two && Next(two, google2) == three;
    EndOfThree(map[], google1, github, google2);
  }

  lemma EndOfThree(users: Users, a: Visit, b: Visit, c: Visit)
    requires Happens(users, a) && Happens(Next(users, a), b) && Happens(Next(Next(users, a), b), c)
    ensures AllHappen(users, [a]) && End(users, [a]) == Next(users, a)
    ensures AllHappen(users, [a, b]) && End(users, [a, b]) == Next(Next(users, a), b)
    ensures AllHappen(users, [a, b, c]) && End(users, [a, b, c]) == Next(Next(Next(users, a), b), c)
  {
    hide Happens, Next;
    assert [a, b, c][1..] == [b, c] && [b, c][1..] == [c] && [a, b][1..] == [b];
    EndOfOne(users, a);
    EndOfOne(Next(users, a), b);
    EndOfOne(Next(Next(users, a), b), c);
    assert AllHappen(Next(users, a), [b, c]);
  }

  lemma EndOfOne(users: Users, v: Visit)
    requires Happens(users, v)
    ensures AllHappen(users, [v]) && End(users, [v]) == Next(users, v)
  {}

  class Store {
    var users: Users
    /** `strings.ToLower(strings.TrimSpace(s))` and `strings.TrimSpace(s)`. */
    const norm: string -> string
    const trim: string -> string

    ghost predicate Valid()
      reads this
    {
      UsersOk(users)
    }

    constructor (norm: string -> string, trim: string -> string)
      ensures Valid() && users == map[] && this.norm == norm && this.trim == trim
    {
      this.norm, this.trim := norm, trim;
      users := map[];
    }

    /** INSERT, if it reaches the table: the primary key and the unique address refuse a second row. */
    method Insert(u: User, writes: bool) returns (ok: bool)
      modifies this
      ensures ok <==> writes && u.id !in old(users) && forall a :: a in old(users) ==> old(users)[a].email != u.email
      ensures users == if ok then old(users)[u.id := u] else old(users)
    {
      if !writes || u.id in users {
        return false;
      }
      if a :| a in users && users[a].email == u.email {
        return false;
      }
      users := users[u.id := u];
      ok := true;
    }

    method Find(provider: string, providerId: string, email: string) returns (f: Found)
      ensures Finds(users, provider, providerId, email, f)
    {
      if a :| a in users && users[a].provider == provider && users[a].providerId == providerId {
        return ByIdentity(a);
      }
      if a :| a in users && users[a].email == email {
        return ByEmail(a);
      }
      f := Nobody;
    }

    /** `uid` is the fresh random id and `hash` what bcrypt makes of the password: it refuses long ones. */
    method CreateUserPassword(email: string, password: string, name: string, uid: string, hash: Option<string>, writes: bool)
      returns (r: Result<User, Error>)
      requires Valid()
      modifies this
      ensures Valid() && Extends(old(users), users)
      ensures r.Ok? <==> norm(email) != "" && '@' in norm(email) && |password| >= 8 && hash.Some? && writes && uid !in old(users)
                         && forall a :: a in old(users) ==> old(users)[a].email != norm(email)
      ensures r.Ok? ==> r.value == User(uid, norm(email), hash.value, trim(name), PASSWORD_PROVIDER, "")
      ensures users == if r.Ok? then old(users)[uid := r.value] else old(users)
      ensures (r.Ok? || r == Err(EmailTaken)) && hash.Some? ==>
                var visit := Signup(User(uid, norm(email), hash.value, trim(name), PASSWORD_PROVIDER, ""));
                Happens(old(users), visit) && users == Next(old(users), visit)
      ensures r == Err(EmailTaken) ==> uid in users || exists a :: a in users && users[a].email == norm(email)
      ensures r == Err(HashFailed) <==> norm(email) != "" && '@' in norm(email) && |password| >= 8 && hash.None?
    {
      var address := norm(email);
      if address == "" || '@' !in address {
        return Err(InvalidEmail);
      }
      if |password| < MIN_PASSWORD {
        return Err(ShortPassword);
      }
      if hash.None? {
        return Err(HashFailed);
      }
      var u := User(uid, address, hash.value, trim(name), PASSWORD_PROVIDER, "");
      var ok := Insert(u, writes);
      if !ok {
        return Err(if writes then EmailTaken else InsertFailed);
      }
      r := Ok(u);
    }

    /** The returned name is the stored one except where the code lets them differ: a refresh that did not
        reach the table, and an attached account whose name an empty one overwrote. */
    method UpsertUserFromOAuth(provider: string, providerId: string, email: string, name: string, uid: string, writes: bool)
      returns (r: Result<User, Error>, ghost c: Callback, ghost f: Found)
      requires Valid() && provider != PASSWORD_PROVIDER
      modifies this
      ensures c == Callback(provider, providerId, norm(email), name, uid)
      ensures Valid() && Finds(old(users), c.provider, c.providerId, c.email, f)
      ensures users == AfterCallback(old(users), c, f, trim(c.name), writes)
      ensures var visit := Back(c, f, trim(c.name), writes);
              && Happens(old(users), visit) && users == Next(old(users), visit)
              && Answer(old(users), visit) == if r.Ok? then Some(r.value.id) else None
      ensures r.Ok? <==> Accepted(old(users), c, f, writes).Some?
      ensures r.Ok? ==> Some(r.value.id) == Accepted(old(users), c, f, writes) && r.value.id in users
      ensures r.Ok? ==> r.value == users[r.value.id].(name := r.value.name)
      ensures r.Ok? ==> r.value.name == if f.Nobody? then trim(name) else if name != "" then name else old(users)[f.id].name
      ensures r.Ok? ==>
                (r.value.name == users[r.value.id].name <==>
                 match f
                 case ByIdentity(id) => writes || c.name == "" || c.name == old(users)[id].name
                 case ByEmail(id) => c.name != "" || old(users)[id].name == ""
                 case Nobody => true)
    {
      var address := norm(email);
      c := Callback(provider, providerId, address, name, uid);
      var found := Find(provider, providerId, address);
      f := found;
      CallbackKeeps(users, c, f, trim(name), writes);
      hide UsersOk, Finds;
      match found {
        case ByIdentity(id) =>
          var u := users[id];
          if name != "" && name != u.name {
            if writes {
              users := users[id := u.(name := name)];
            }
            u := u.(name := name);
          }
          r := Ok(u);
        case ByEmail(id) =>
          var u := users[id];
          if !writes {
            r := Err(UpdateFailed);
            return;
          }
          users := users[id := u.(provider := provider, providerId := providerId, name := name)];
          u := u.(provider := provider, providerId := providerId);
          if name != "" {
            u := u.(name := name);
          }
          r := Ok(u);
        case Nobody =>
          var u := User(uid, address, "", trim(name), provider, providerId);
          var ok := Insert(u, writes);
          if !ok {
            r := Err(InsertFailed);
            return;
          }
          r := Ok(u);
      }
    }
  }

  /** Such an account: the caller is told the old name, and the table has none. */
  method EmptyNameIsStored(norm: string -> string, trim: string -> string) returns (s: Store, r: Result<User, Error>)
    requires norm("a@x") == "a@x" && trim("Ann") == "Ann"
    ensures s.Valid() && r.Ok? && r.value.name == "Ann" && r.value.id in s.users && s.users[r.value.id].name == ""
  {
    s := new Store(norm, trim);
    var signedUp := s.CreateUserPassword("a@x", "password", "Ann", "1", Some("hash"), true);
    ghost var c, f;
    r, c, f := s.UpsertUserFromOAuth("google", "g1", "a@x", "", "2", true);
  }
}
