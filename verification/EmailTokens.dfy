/** Single-use email tokens for password reset and address verification, as interleaved steps of the
    handlers that create and redeem them. SQL deletes before it inserts and marks before it looks
    up the owner; Mongo finds and marks in one step and reaps expired rows in the background. */
module EmailTokens {
  import opened Wrappers

  datatype Purpose = ResetPassword | VerifyEmail

  type Hash = string
  type User = string

  datatype Row = Row(user: User, purpose: Purpose, expires: int, used: bool)

  type Tokens = map<Hash, Row>

  // ---- the statements -----------------------------------------------------------------

  /** DELETE ... WHERE user_id = ? AND purpose = ? */
  function WithoutOutstanding(tokens: Tokens, user: User, purpose: Purpose): Tokens {
    map h | h in tokens && !(tokens[h].user == user && tokens[h].purpose == purpose) :: tokens[h]
  }

  /** The row an UPDATE at reading `at` of the clock, or Mongo's filter, matches. */
  predicate Redeemable(tokens: Tokens, purpose: Purpose, hash: Hash, at: int) {
    hash in tokens && tokens[hash].purpose == purpose && !tokens[hash].used && tokens[hash].expires > at
  }

  // ---- handlers in flight ----------------------------------------------------------------

  /** `sendResetEmail` and `sendVerifyEmail`. */
  datatype MintPc = ToDelete | ToInsert | Minted | MintFailed

  /** `postReset` and `getVerify`; `at` is the reading of the clock the store decides by. */
  datatype RedeemPc = ToRead | ToMark(at: int) | ToLook | ToApply(user: User) | Applied(owner: User) | Rejected | Failed

  datatype Handler =
    | Mint(user: User, purpose: Purpose, hash: Hash, expires: int, mint: MintPc)
    | Redeem(purpose: Purpose, hash: Hash, password: string, pc: RedeemPc)

  /** A token found valid and marked used. */
  datatype Mark = Mark(hash: Hash, purpose: Purpose, at: int)

  /** A password set, or an address verified, on behalf of a token. */
  datatype Change = Change(user: User, purpose: Purpose, password: string, hash: Hash)

  datatype Kind = Sql | Mongo

  /** `minted`, `marks` and `changes` are the run's history. */
  datatype State = State(
    kind: Kind, now: int, tokens: Tokens, users: set<User>, passwords: map<User, string>, verified: set<User>,
    handlers: seq<Handler>, minted: map<Hash, Row>, marks: seq<Mark>, changes: seq<Change>)

  datatype Action =
    | Tick(t: int)
    | StartMint(user: User, purpose: Purpose, hash: Hash, expires: int)
    | StartRedeem(purpose: Purpose, hash: Hash, password: string)
    | Step(i: nat)
    | Fault(i: nat)
    | Lost(i: nat)
    | Reap(hash: Hash)

  predicate Hashed(handlers: seq<Handler>, hash: Hash) {
    exists i :: 0 <= i < |handlers| && handlers[i].Mint? && handlers[i].hash == hash
  }

  /** The request for a token that has not tried to insert it. */
  predicate Due(h: Handler) {
    h.Mint? && (h.mint == ToDelete || h.mint == ToInsert)
  }

  predicate Live(h: Handler) {
    match h
    case Mint(_, _, _, _, _) => Due(h)
    case Redeem(_, _, _, pc) => !pc.Applied? && !pc.Rejected? && !pc.Failed?
  }

  /** Hashes of new raw tokens are fresh; the reaper runs only for Mongo, and only after expiry. */
  predicate Can(s: State, a: Action) {
    match a
    case Tick(t) => s.now <= t
    case StartMint(_, _, hash, _) => !Hashed(s.handlers, hash)
    case StartRedeem(_, _, _) => true
    case Step(i) => i < |s.handlers| && Live(s.handlers[i])
    case Fault(i) => i < |s.handlers| && Live(s.handlers[i])
    case Lost(i) => i < |s.handlers| && Live(s.handlers[i])
    case Reap(hash) => s.kind == Mongo && hash in s.tokens && s.tokens[hash].expires <= s.now
  }

  function Set(s: State, i: nat, h: Handler): State
    requires i < |s.handlers|
  {
    s.(handlers := s.handlers[i := h])
  }

  function MintStep(s: State, i: nat): State
    requires i < |s.handlers| && s.handlers[i].Mint? && Live(s.handlers[i])
  {
    var h := s.handlers[i];
    if h.mint == ToDelete then
      Set(s.(tokens := WithoutOutstanding(s.tokens, h.user, h.purpose)), i, h.(mint := ToInsert))
    else if h.hash in s.tokens then Set(s, i, h.(mint := MintFailed))
    else
      var row := Row(h.user, h.purpose, h.expires, false);
      Set(s.(tokens := s.tokens[h.hash := row], minted := s.minted[h.hash := row]), i, h.(mint := Minted))
  }

  function MarkStep(s: State, i: nat, at: int): State
    requires i < |s.handlers| && s.handlers[i].Redeem?
  {
    var h := s.handlers[i];
    if !Redeemable(s.tokens, h.purpose, h.hash, at) then Set(s, i, h.(pc := Rejected))
    else
      var row := s.tokens[h.hash];
      var next := if s.kind == Sql then ToLook else if row.user == "" then Rejected else ToApply(row.user);
      Set(s.(tokens := s.tokens[h.hash := row.(used := true)], marks := s.marks + [Mark(h.hash, h.purpose, at)]), i, h.(pc := next))
  }

  function ApplyStep(s: State, i: nat, user: User): State
    requires i < |s.handlers| && s.handlers[i].Redeem?
  {
    var h := s.handlers[i];
    var change := Change(user, h.purpose, h.password, h.hash);
    if h.purpose == VerifyEmail then
      Set(s.(verified := if user in s.users then s.verified + {user} else s.verified, changes := s.changes + [change]), i, h.(pc := Applied(user)))
    else if user !in s.users then Set(s, i, h.(pc := Failed))
    else Set(s.(passwords := s.passwords[user := h.password], changes := s.changes + [change]), i, h.(pc := Applied(user)))
  }

  function RedeemStep(s: State, i: nat): State
    requires i < |s.handlers| && s.handlers[i].Redeem? && Live(s.handlers[i])
  {
    var h := s.handlers[i];
    match h.pc
    case ToRead => Set(s, i, h.(pc := ToMark(s.now)))
    case ToMark(at) => MarkStep(s, i, at)
    case ToLook => Set(s, i, h.(pc := if h.hash in s.tokens then ToApply(s.tokens[h.hash].user) else Failed))
    case ToApply(user) => ApplyStep(s, i, user)
  }

  function HandlerStep(s: State, i: nat): State
    requires i < |s.handlers| && Live(s.handlers[i])
  {
    if s.handlers[i].Mint? then MintStep(s, i) else RedeemStep(s, i)
  }

  /** A database error ends a handler; only the deletion of outstanding tokens may fail unnoticed. */
  function Faulted(h: Handler): Handler {
    match h
    case Mint(_, _, _, _, pc) => h.(mint := if pc == ToDelete then ToInsert else MintFailed)
    case Redeem(_, _, _, _) => h.(pc := Failed)
  }

  /** The error of a statement without effect, and of one that took effect all the same. */
  function FaultStep(s: State, i: nat): State
    requires i < |s.handlers| && Live(s.handlers[i])
  {
    Set(s, i, Faulted(s.handlers[i]))
  }

  function LostStep(s: State, i: nat): State
    requires i < |s.handlers| && Live(s.handlers[i])
  {
    var h, next := s.handlers[i], HandlerStep(s, i);
    next.(handlers := s.handlers[i := Faulted(h)])
  }

  function Do(s: State, a: Action): State
    requires Can(s, a)
  {
    match a
    case Tick(t) => s.(now := t)
    case StartMint(user, purpose, hash, expires) => s.(handlers := s.handlers + [Mint(user, purpose, hash, expires, ToDelete)])
    case StartRedeem(purpose, hash, password) => s.(handlers := s.handlers + [Redeem(purpose, hash, password, ToRead)])
    case Step(i) => HandlerStep(s, i)
    case Fault(i) => FaultStep(s, i)
    case Lost(i) => LostStep(s, i)
    case Reap(hash) => s.(tokens := s.tokens - {hash})
  }

  predicate Feasible(s: State, run: seq<Action>)
    decreases |run|
  {
    run == [] || (Can(s, run[0]) && Feasible(Do(s, run[0]), run[1..]))
  }

  function Exec(s: State, run: seq<Action>): State
    requires Feasible(s, run)
    decreases |run|
  {
    if run == [] then s else Exec(Do(s, run[0]), run[1..])
  }

  function Start(kind: Kind, users: set<User>, passwords: map<User, string>): State {
    State(kind, 0, map[], users, passwords, {}, [], map[], [], [])
  }

  // ---- the invariant -----------------------------------------------------------------------

  function Marked(marks: seq<Mark>): set<Hash> {
    set m | m in marks :: m.hash
  }

  function Changed(changes: seq<Change>): set<Hash> {
    set c | c in changes :: c.hash
  }

  lemma MarkedAppend(marks: seq<Mark>, m: Mark)
    ensures Marked(marks + [m]) == Marked(marks) + {m.hash}
  {
    assert forall x :: x in marks + [m] <==> x in marks || x == m;
  }

  lemma ChangedAppend(changes: seq<Change>, c: Change)
    ensures Changed(changes + [c]) == Changed(changes) + {c.hash}
  {
    assert forall x :: x in changes + [c] <==> x in changes || x == c;
  }

  /** The passwords after the changes made on behalf of reset tokens. */
  function Replayed(passwords: map<User, string>, changes: seq<Change>): map<User, string> {
    if changes == [] then passwords
    else
      var before, c := Replayed(passwords, changes[..|changes| - 1]), changes[|changes| - 1];
      if c.purpose == ResetPassword then before[c.user := c.password] else before
  }

  /** The existing users whose address a token of theirs verified. */
  function VerifiedBy(users: set<User>, changes: seq<Change>): set<User> {
    set c | c in changes && c.purpose == VerifyEmail && c.user in users :: c.user
  }

  /** Every row was minted as it stands, up to its used mark; hashes are minted once. */
  ghost predicate TokensOk(tokens: Tokens, minted: Tokens, handlers: seq<Handler>) {
    && (forall h :: h in tokens ==> h in minted && tokens[h].(used := false) == minted[h])
    && (forall i :: 0 <= i < |handlers| && Due(handlers[i]) ==> handlers[i].hash !in minted)
    && (forall h :: h in minted ==> Hashed(handlers, h))
    && (forall i, j :: 0 <= i < j < |handlers| && handlers[i].Mint? && handlers[j].Mint? ==> handlers[i].hash != handlers[j].hash)
  }

  /** A mark was set on a minted token of that purpose before its expiry. */
  ghost predicate MarkOk(m: Mark, tokens: Tokens, minted: Tokens) {
    && m.hash in minted && minted[m.hash].purpose == m.purpose && m.at < minted[m.hash].expires
    && (m.hash in tokens ==> tokens[m.hash].used)
  }

  /** And no token was marked twice. */
  ghost predicate MarksOk(marks: seq<Mark>, tokens: Tokens, minted: Tokens) {
    && (forall m :: m in marks ==> MarkOk(m, tokens, minted))
    && (forall j, k :: 0 <= j < k < |marks| ==> marks[j].hash != marks[k].hash)
  }

  /** A redeeming handler past its mark. */
  predicate Holds(h: Handler) {
    h.Redeem? && (h.pc.ToLook? || h.pc.ToApply? || h.pc.Applied?)
  }

  ghost predicate HolderOk(h: Handler, minted: Tokens, marked: set<Hash>, changed: set<Hash>) {
    Holds(h) ==>
      && h.hash in marked && h.hash in minted && minted[h.hash].purpose == h.purpose
      && (h.pc.ToApply? ==> h.pc.user == minted[h.hash].user)
      && (h.pc.Applied? ==> h.pc.owner == minted[h.hash].user)
      && (!h.pc.Applied? ==> h.hash !in changed)
  }

  ghost predicate HoldersOk(handlers: seq<Handler>, minted: Tokens, marked: set<Hash>, changed: set<Hash>) {
    && (forall i :: 0 <= i < |handlers| ==> HolderOk(handlers[i], minted, marked, changed))
    && (forall i, j :: 0 <= i < j < |handlers| && Holds(handlers[i]) && Holds(handlers[j]) ==> handlers[i].hash != handlers[j].hash)
  }

  ghost predicate ChangeOk(c: Change, minted: Tokens, marked: set<Hash>) {
    c.hash in marked && c.hash in minted && c.user == minted[c.hash].user && c.purpose == minted[c.hash].purpose
  }

  ghost predicate ChangesOk(changes: seq<Change>, minted: Tokens, marked: set<Hash>) {
    && (forall c :: c in changes ==> ChangeOk(c, minted, marked))
    && (forall j, k :: 0 <= j < k < |changes| ==> changes[j].hash != changes[k].hash)
  }

  ghost predicate Inv(s: State, passwords: map<User, string>) {
    && TokensOk(s.tokens, s.minted, s.handlers)
    && MarksOk(s.marks, s.tokens, s.minted)
    && HoldersOk(s.handlers, s.minted, Marked(s.marks), Changed(s.changes))
    && ChangesOk(s.changes, s.minted, Marked(s.marks))
    && s.passwords == Replayed(passwords, s.changes)
    && s.verified == VerifiedBy(s.users, s.changes)
  }

  // ---- steps on the parts of the state ---------------------------------------------------------

  /** One handler moves on and some rows go. */
  lemma TokensUpdate(tokens: Tokens, tokens': Tokens, minted: Tokens, handlers: seq<Handler>, i: nat, h: Handler)
    requires TokensOk(tokens, minted, handlers)
    requires i < |handlers| && h.Mint? == handlers[i].Mint? && h.hash == handlers[i].hash
    requires Due(h) ==> Due(handlers[i])
    requires forall k :: k in tokens' ==> k in tokens && tokens'[k].(used := false) == tokens[k].(used := false)
    ensures TokensOk(tokens', minted, handlers[i := h])
  {
    forall hash | Hashed(handlers, hash)
      ensures Hashed(handlers[i := h], hash)
    {
      var j :| 0 <= j < |handlers| && handlers[j].Mint? && handlers[j].hash == hash;
      assert handlers[i := h][j].hash == hash;
    }
  }

  lemma TokensInsert(tokens: Tokens, minted: Tokens, handlers: seq<Handler>, i: nat, row: Row)
    requires TokensOk(tokens, minted, handlers)
    requires i < |handlers| && handlers[i].Mint? && handlers[i].mint == ToInsert && !row.used
    ensures handlers[i].hash !in minted
    ensures TokensOk(tokens[handlers[i].hash := row], minted[handlers[i].hash := row], handlers[i := handlers[i].(mint := Minted)])
  {
    var h := handlers[i].(mint := Minted);
    TokensUpdate(tokens, tokens, minted, handlers, i, h);
    assert handlers[i := h][i] == h && Hashed(handlers[i := h], h.hash);
  }

  /** One handler moves on: others hold different hashes. */
  lemma HoldersUpdate(handlers: seq<Handler>, i: nat, h: Handler, minted: Tokens, minted': Tokens,
                      marked: set<Hash>, marked': set<Hash>, changed: set<Hash>, changed': set<Hash>)
    requires HoldersOk(handlers, minted, marked, changed) && i < |handlers| && HolderOk(h, minted', marked', changed')
    requires forall k :: k in minted ==> k in minted' && minted'[k] == minted[k]
    requires marked <= marked' && changed' <= changed + {h.hash}
    requires Holds(h) || changed' <= changed
    requires Holds(h) ==> h.hash !in marked || (Holds(handlers[i]) && handlers[i].hash == h.hash)
    ensures HoldersOk(handlers[i := h], minted', marked', changed')
  {
    forall j | 0 <= j < |handlers| && j != i
      ensures HolderOk(handlers[j], minted', marked', changed') && (Holds(h) && Holds(handlers[j]) ==> h.hash != handlers[j].hash)
    {
      assert HolderOk(handlers[j], minted, marked, changed);
    }
  }

  lemma MarksAppend(marks: seq<Mark>, tokens: Tokens, minted: Tokens, purpose: Purpose, hash: Hash, at: int)
    requires MarksOk(marks, tokens, minted) && Redeemable(tokens, purpose, hash, at)
    requires hash in minted && tokens[hash].(used := false) == minted[hash]
    ensures hash !in Marked(marks)
    ensures MarksOk(marks + [Mark(hash, purpose, at)], tokens[hash := tokens[hash].(used := true)], minted)
    ensures Marked(marks + [Mark(hash, purpose, at)]) == Marked(marks) + {hash}
  {
    var m, tokens' := Mark(hash, purpose, at), tokens[hash := tokens[hash].(used := true)];
    MarkedAppend(marks, m);
    assert hash !in Marked(marks);
    forall x | x in marks + [m]
      ensures MarkOk(x, tokens', minted)
    {
      if x != m { assert x in marks && MarkOk(x, tokens, minted); }
    }
    forall j | 0 <= j < |marks|
      ensures marks[j].hash != hash
    {
      assert marks[j] in marks;
    }
  }

  lemma ChangesAppend(changes: seq<Change>, minted: Tokens, marked: set<Hash>, c: Change)
    requires ChangesOk(changes, minted, marked) && ChangeOk(c, minted, marked) && c.hash !in Changed(changes)
    ensures ChangesOk(changes + [c], minted, marked)
    ensures Changed(changes + [c]) == Changed(changes) + {c.hash}
  {
    ChangedAppend(changes, c);
    forall x | x in changes + [c]
      ensures ChangeOk(x, minted, marked)
    {
      if x != c { assert x in changes; }
    }
    forall j | 0 <= j < |changes|
      ensures changes[j].hash != c.hash
    {
      assert changes[j] in changes;
    }
  }

  lemma MarksRestrict(marks: seq<Mark>, tokens: Tokens, tokens': Tokens, minted: Tokens, minted': Tokens)
    requires MarksOk(marks, tokens, minted)
    requires forall k :: k in tokens' && k in minted ==> k in tokens && tokens'[k] == tokens[k]
    requires forall k :: k in minted ==> k in minted' && minted'[k] == minted[k]
    ensures MarksOk(marks, tokens', minted')
  {
    forall m | m in marks
      ensures MarkOk(m, tokens', minted')
    {
      assert MarkOk(m, tokens, minted);
    }
  }

  lemma ChangesMonotone(changes: seq<Change>, minted: Tokens, minted': Tokens, marked: set<Hash>, marked': set<Hash>)
    requires ChangesOk(changes, minted, marked) && marked <= marked'
    requires forall k :: k in minted ==> k in minted' && minted'[k] == minted[k]
    ensures ChangesOk(changes, minted', marked')
    ensures Changed(changes) <= marked
  {
    forall c | c in changes
      ensures ChangeOk(c, minted', marked') && c.hash in marked
    {
      assert ChangeOk(c, minted, marked);
    }
  }

  // ---- every step keeps the invariant ------------------------------------------------------------

  /** A step of one handler that leaves the history alone and makes it at most an earlier holder. */
  lemma QuietStep(s: State, passwords: map<User, string>, i: nat, h: Handler, tokens: Tokens)
    requires Inv(s, passwords) && i < |s.handlers| && h.Mint? == s.handlers[i].Mint? && h.hash == s.handlers[i].hash
    requires Due(h) ==> Due(s.handlers[i])
    requires Holds(h) ==> Holds(s.handlers[i])
    requires HolderOk(h, s.minted, Marked(s.marks), Changed(s.changes))
    requires forall k :: k in tokens ==> k in s.tokens && tokens[k] == s.tokens[k]
    ensures Inv(Set(s.(tokens := tokens), i, h), passwords)
  {
    TokensUpdate(s.tokens, tokens, s.minted, s.handlers, i, h);
    MarksRestrict(s.marks, s.tokens, tokens, s.minted, s.minted);
    HoldersUpdate(s.handlers, i, h, s.minted, s.minted, Marked(s.marks), Marked(s.marks), Changed(s.changes), Changed(s.changes));
    hide TokensOk, MarksOk, HoldersOk, ChangesOk, Replayed;
  }

  lemma InsertStep(s: State, passwords: map<User, string>, i: nat)
    requires Inv(s, passwords) && i < |s.handlers| && s.handlers[i].Mint? && s.handlers[i].mint == ToInsert
    ensures Inv(MintStep(s, i), passwords)
  {
    var h := s.handlers[i];
    var row := Row(h.user, h.purpose, h.expires, false);
    TokensInsert(s.tokens, s.minted, s.handlers, i, row);
    NotInTokens(s, i);
    hide TokensOk, MarksOk, HoldersOk, ChangesOk, Replayed;
    var minted := s.minted[h.hash := row];
    MarksRestrict(s.marks, s.tokens, s.tokens[h.hash := row], s.minted, minted);
    ChangesMonotone(s.changes, s.minted, minted, Marked(s.marks), Marked(s.marks));
    HoldersUpdate(s.handlers, i, h.(mint := Minted), s.minted, minted, Marked(s.marks), Marked(s.marks), Changed(s.changes), Changed(s.changes));
  }

  lemma NotInTokens(s: State, i: nat)
    requires TokensOk(s.tokens, s.minted, s.handlers) && i < |s.handlers| && Due(s.handlers[i])
    ensures s.handlers[i].hash !in s.tokens
  {}

  lemma MarkKeeps(s: State, passwords: map<User, string>, i: nat, at: int)
    requires Inv(s, passwords) && i < |s.handlers| && s.handlers[i].Redeem? && s.handlers[i].pc == ToMark(at)
    requires Redeemable(s.tokens, s.handlers[i].purpose, s.handlers[i].hash, at)
    ensures Inv(MarkStep(s, i, at), passwords)
  {
    var h, s' := s.handlers[i], MarkStep(s, i, at);
    MarksAppend(s.marks, s.tokens, s.minted, h.purpose, h.hash, at);
    TokensUpdate(s.tokens, s'.tokens, s.minted, s.handlers, i, s'.handlers[i]);
    assert h.hash in s.minted && s.minted[h.hash].purpose == h.purpose && s.minted[h.hash].user == s.tokens[h.hash].user;
    hide TokensOk, MarksOk, HoldersOk, ChangesOk, Replayed, Marked, Changed;
    ChangesMonotone(s.changes, s.minted, s.minted, Marked(s.marks), Marked(s'.marks));
    HoldersUpdate(s.handlers, i, s'.handlers[i], s.minted, s.minted, Marked(s.marks), Marked(s'.marks), Changed(s.changes), Changed(s.changes));
  }

  lemma ApplyKeeps(s: State, passwords: map<User, string>, i: nat, user: User)
    requires Inv(s, passwords) && i < |s.handlers| && s.handlers[i].Redeem? && s.handlers[i].pc == ToApply(user)
    requires s.handlers[i].purpose == VerifyEmail || user in s.users
    ensures Inv(ApplyStep(s, i, user), passwords)
  {
    var h, s' := s.handlers[i], ApplyStep(s, i, user);
    var c := Change(user, h.purpose, h.password, h.hash);
    assert HolderOk(h, s.minted, Marked(s.marks), Changed(s.changes));
    ReplayedAppend(passwords, s.changes, c);
    VerifiedAppend(s.users, s.changes, c);
    hide VerifiedBy, TokensOk, MarksOk, HoldersOk, ChangesOk, Replayed, Marked, Changed;
    TokensUpdate(s.tokens, s.tokens, s.minted, s.handlers, i, s'.handlers[i]);
    ChangesAppend(s.changes, s.minted, Marked(s.marks), c);
    HoldersUpdate(s.handlers, i, s'.handlers[i], s.minted, s.minted, Marked(s.marks), Marked(s.marks), Changed(s.changes), Changed(s'.changes));
  }

  lemma VerifiedAppend(users: set<User>, changes: seq<Change>, c: Change)
    ensures VerifiedBy(users, changes + [c]) ==
            VerifiedBy(users, changes) + if c.purpose == VerifyEmail && c.user in users then {c.user} else {}
  {
    assert forall x :: x in changes + [c] <==> x in changes || x == c;
  }

  lemma ReplayedAppend(passwords: map<User, string>, changes: seq<Change>, c: Change)
    ensures Replayed(passwords, changes + [c]) ==
            if c.purpose == ResetPassword then Replayed(passwords, changes)[c.user := c.password] else Replayed(passwords, changes)
  {
    assert (changes + [c])[..|changes|] == changes;
  }

  lemma StartKeeps(s: State, passwords: map<User, string>, h: Handler)
    requires Inv(s, passwords) && !Holds(h) && (h.Mint? ==> h.mint == ToDelete && !Hashed(s.handlers, h.hash))
    ensures Inv(s.(handlers := s.handlers + [h]), passwords)
  {
    var handlers := s.handlers + [h];
    assert TokensOk(s.tokens, s.minted, handlers) by {
      hide HoldersOk, MarksOk, ChangesOk;
      forall hash | Hashed(s.handlers, hash)
        ensures Hashed(handlers, hash)
      {
        var j :| 0 <= j < |s.handlers| && s.handlers[j].Mint? && s.handlers[j].hash == hash;
        assert handlers[j] == s.handlers[j];
      }
      forall i | 0 <= i < |s.handlers| && s.handlers[i].Mint? && h.Mint?
        ensures s.handlers[i].hash != h.hash
      {}
    }
    assert HoldersOk(handlers, s.minted, Marked(s.marks), Changed(s.changes)) by {
      hide TokensOk, MarksOk, ChangesOk;
      forall j | 0 <= j < |handlers|
        ensures HolderOk(handlers[j], s.minted, Marked(s.marks), Changed(s.changes))
      {
        if j < |s.handlers| { assert HolderOk(s.handlers[j], s.minted, Marked(s.marks), Changed(s.changes)); }
      }
    }
    hide TokensOk, MarksOk, HoldersOk, ChangesOk;
  }

  lemma StepKeeps(s: State, passwords: map<User, string>, a: Action)
    requires Inv(s, passwords) && Can(s, a)
    ensures Inv(Do(s, a), passwords)
  {
    match a {
      case Tick(t) => hide TokensOk, MarksOk, HoldersOk, ChangesOk, Replayed;
      case Reap(hash) => ReapKeeps(s, passwords, hash);
      case StartMint(_, _, _, _) => StartKeeps(s, passwords, Do(s, a).handlers[|s.handlers|]);
      case StartRedeem(_, _, _) => StartKeeps(s, passwords, Do(s, a).handlers[|s.handlers|]);
      case Fault(i) => HandlerKeeps(s, passwords, i, true);
      case Step(i) => HandlerKeeps(s, passwords, i, false);
      case Lost(i) => LostKeeps(s, passwords, i);
    }
  }

  /** The step, and then the handler learns nothing of it. */
  lemma LostKeeps(s: State, passwords: map<User, string>, i: nat)
    requires Inv(s, passwords) && i < |s.handlers| && Live(s.handlers[i])
    ensures Inv(LostStep(s, i), passwords)
  {
    HandlerKeeps(s, passwords, i, false);
    hide Inv;
    HandlersAfter(s, i);
    var h, next := s.handlers[i], HandlerStep(s, i);
    QuietStep(next, passwords, i, Faulted(h), next.tokens);
    assert LostStep(s, i) == Set(next.(tokens := next.tokens), i, Faulted(h));
  }

  /** A step of a handler changes no other, and not what it is about. */
  lemma HandlersAfter(s: State, i: nat)
    requires i < |s.handlers| && Live(s.handlers[i])
    ensures var h, next := s.handlers[i], HandlerStep(s, i);
            && |next.handlers| == |s.handlers| && next.handlers[i := Faulted(h)] == s.handlers[i := Faulted(h)]
            && next.handlers[i].Mint? == h.Mint? && next.handlers[i].hash == h.hash
            && (Due(Faulted(h)) ==> Due(next.handlers[i]))
  {
    var h, next := s.handlers[i], HandlerStep(s, i);
    assert next.handlers == s.handlers[i := next.handlers[i]] && next.handlers[i].Mint? == h.Mint? && next.handlers[i].hash == h.hash by {
      hide Redeemable, WithoutOutstanding, Faulted;
    }
    assert Due(Faulted(h)) ==> Due(next.handlers[i]);
    hide HandlerStep, Faulted, Due;
  }

  lemma ReapKeeps(s: State, passwords: map<User, string>, hash: Hash)
    requires Inv(s, passwords)
    ensures Inv(s.(tokens := s.tokens - {hash}), passwords)
  {
    MarksRestrict(s.marks, s.tokens, s.tokens - {hash}, s.minted, s.minted);
    hide MarksOk, HoldersOk, ChangesOk, Replayed;
  }

  lemma HandlerKeeps(s: State, passwords: map<User, string>, i: nat, fault: bool)
    requires Inv(s, passwords) && i < |s.handlers| && Live(s.handlers[i])
    ensures Inv(if fault then FaultStep(s, i) else HandlerStep(s, i), passwords)
  {
    var h := s.handlers[i];
    assert HolderOk(h, s.minted, Marked(s.marks), Changed(s.changes));
    var s' := if fault then FaultStep(s, i) else HandlerStep(s, i);
    assert h.hash in s.tokens && h.hash in s.minted ==> s.tokens[h.hash].user == s.minted[h.hash].user;
    hide Inv, MarksOk, ChangesOk, HoldersOk, TokensOk, Marked, Changed;
    if h.Mint? && !fault && h.mint == ToInsert {
      InsertStep(s, passwords, i);
    } else if !fault && h.Redeem? && h.pc.ToMark? && Redeemable(s.tokens, h.purpose, h.hash, h.pc.at) {
      MarkKeeps(s, passwords, i, h.pc.at);
    } else if !fault && h.Redeem? && h.pc.ToApply? && (h.purpose == VerifyEmail || h.pc.user in s.users) {
      ApplyKeeps(s, passwords, i, h.pc.user);
    } else {
      QuietStep(s, passwords, i, s'.handlers[i], s'.tokens);
    }
  }

  lemma {:induction false} RunKeeps(s: State, passwords: map<User, string>, run: seq<Action>)
    requires Inv(s, passwords) && Feasible(s, run)
    ensures Inv(Exec(s, run), passwords)
    decreases |run|
  {
    hide Inv, Can, Do;
    if run != [] {
      StepKeeps(s, passwords, run[0]);
      RunKeeps(Do(s, run[0]), passwords, run[1..]);
    }
  }

  lemma StartOk(kind: Kind, users: set<User>, passwords: map<User, string>)
    ensures Inv(Start(kind, users, passwords), passwords)
  {}

  // ---- what every run keeps ---------------------------------------------------------------------

  /** Each token is found valid at most once, only before its expiry, and only for its own purpose. */
  lemma SingleUse(kind: Kind, users: set<User>, passwords: map<User, string>, run: seq<Action>, j: nat)
    requires Feasible(Start(kind, users, passwords), run) && j < |Exec(Start(kind, users, passwords), run).marks|
    ensures var s := Exec(Start(kind, users, passwords), run);
            && (forall k :: 0 <= k < |s.marks| && s.marks[k].hash == s.marks[j].hash ==> k == j)
            && s.marks[j].hash in s.minted
            && s.marks[j].purpose == s.minted[s.marks[j].hash].purpose
            && s.marks[j].at < s.minted[s.marks[j].hash].expires
  {
    StartOk(kind, users, passwords);
    RunKeeps(Start(kind, users, passwords), passwords, run);
    var s := Exec(Start(kind, users, passwords), run);
    assert MarkOk(s.marks[j], s.tokens, s.minted);
  }

  /** A redeemed token yields the user it was created for. */
  lemma YieldsItsCreator(kind: Kind, users: set<User>, passwords: map<User, string>, run: seq<Action>, i: nat)
    requires Feasible(Start(kind, users, passwords), run)
    requires var s := Exec(Start(kind, users, passwords), run); i < |s.handlers| && s.handlers[i].Redeem? && s.handlers[i].pc.ToApply?
    ensures var s := Exec(Start(kind, users, passwords), run);
            var h := s.handlers[i];
            h.hash in s.minted && s.minted[h.hash].user == h.pc.user && s.minted[h.hash].purpose == h.purpose
  {
    StartOk(kind, users, passwords);
    RunKeeps(Start(kind, users, passwords), passwords, run);
    var s := Exec(Start(kind, users, passwords), run);
    assert HolderOk(s.handlers[i], s.minted, Marked(s.marks), Changed(s.changes));
  }

  /** The passwords are the initial ones with the recorded changes made, and are these themselves while there
      are none. */
  lemma PasswordsReplayed(kind: Kind, users: set<User>, passwords: map<User, string>, run: seq<Action>)
    requires Feasible(Start(kind, users, passwords), run)
    ensures var s := Exec(Start(kind, users, passwords), run);
            s.passwords == Replayed(passwords, s.changes) && (s.changes == [] ==> s.passwords == passwords)
  {
    StartOk(kind, users, passwords);
    RunKeeps(Start(kind, users, passwords), passwords, run);
  }

  /** And the addresses verified are exactly those of existing users for whom a verification was made. */
  lemma VerifiedExactly(kind: Kind, users: set<User>, passwords: map<User, string>, run: seq<Action>, u: User)
    requires Feasible(Start(kind, users, passwords), run)
    ensures var s := Exec(Start(kind, users, passwords), run);
            u in s.verified <==> u in s.users && exists j :: 0 <= j < |s.changes| && s.changes[j].purpose == VerifyEmail && s.changes[j].user == u
  {
    StartOk(kind, users, passwords);
    RunKeeps(Start(kind, users, passwords), passwords, run);
    hide TokensOk, MarksOk, HoldersOk, ChangesOk, Replayed;
    var s := Exec(Start(kind, users, passwords), run);
    assert forall j :: 0 <= j < |s.changes| ==> s.changes[j] in s.changes;
  }

  /** Every one of those changes stands for a redeemed token of its own: of its purpose, created for its user,
      used by no other change. */
  lemma ChangesMatchTokens(kind: Kind, users: set<User>, passwords: map<User, string>, run: seq<Action>, j: nat)
    requires Feasible(Start(kind, users, passwords), run) && j < |Exec(Start(kind, users, passwords), run).changes|
    ensures var s := Exec(Start(kind, users, passwords), run);
            var c := s.changes[j];
            && (exists k :: 0 <= k < |s.marks| && s.marks[k].hash == c.hash && s.marks[k].purpose == c.purpose)
            && c.hash in s.minted && s.minted[c.hash].user == c.user
            && (forall k :: 0 <= k < |s.changes| && s.changes[k].hash == c.hash ==> k == j)
  {
    StartOk(kind, users, passwords);
    RunKeeps(Start(kind, users, passwords), passwords, run);
    var s := Exec(Start(kind, users, passwords), run);
    var c := s.changes[j];
    assert ChangeOk(c, s.minted, Marked(s.marks));
    var m :| m in s.marks && m.hash == c.hash;
    assert MarkOk(m, s.tokens, s.minted);
    var k :| 0 <= k < |s.marks| && s.marks[k] == m;
  }

  /** A deleted token is never inserted again, so it is never found valid again. */
  lemma {:induction false} GoneStaysGone(s: State, passwords: map<User, string>, hash: Hash, run: seq<Action>)
    requires Inv(s, passwords) && hash in s.minted && hash !in s.tokens && Feasible(s, run)
    ensures hash in Marked(Exec(s, run).marks) <==> hash in Marked(s.marks)
    decreases |run|
  {
    hide Inv;
    if run != [] {
      StepKeeps(s, passwords, run[0]);
      GoneStep(s, passwords, hash, run[0]);
      GoneStaysGone(Do(s, run[0]), passwords, hash, run[1..]);
    }
  }

  lemma GoneHandler(s: State, passwords: map<User, string>, hash: Hash, i: nat)
    requires Inv(s, passwords) && hash in s.minted && hash !in s.tokens && i < |s.handlers| && Live(s.handlers[i])
    ensures var s' := HandlerStep(s, i); hash in s'.minted && hash !in s'.tokens && (hash in Marked(s'.marks) <==> hash in Marked(s.marks))
  {
    hide MarksOk, HoldersOk, ChangesOk, Replayed;
    var h := s.handlers[i];
    if h.Redeem? && h.pc.ToMark? {
      MarkedAppend(s.marks, Mark(h.hash, h.purpose, h.pc.at));
    }
  }

  lemma GoneStep(s: State, passwords: map<User, string>, hash: Hash, a: Action)
    requires Inv(s, passwords) && hash in s.minted && hash !in s.tokens && Can(s, a)
    ensures var s' := Do(s, a); hash in s'.minted && hash !in s'.tokens && (hash in Marked(s'.marks) <==> hash in Marked(s.marks))
  {
    if a.Step? || a.Lost? {
      GoneHandler(s, passwords, hash, a.i);
    }
    hide Inv, HandlerStep, Marked;
  }

  /** Asking for another link kills the earlier ones: once the new request has deleted, no unused token
      of that user and purpose minted before is ever found valid, however the run goes on. */
  lemma NewLinkKillsOld(s: State, passwords: map<User, string>, i: nat, hash: Hash, run: seq<Action>)
    requires Inv(s, passwords) && Can(s, Step(i)) && s.handlers[i].Mint? && s.handlers[i].mint == ToDelete
    requires hash in s.minted && s.minted[hash].user == s.handlers[i].user && s.minted[hash].purpose == s.handlers[i].purpose
    requires Feasible(Do(s, Step(i)), run)
    ensures hash in Marked(Exec(Do(s, Step(i)), run).marks) ==> hash in Marked(s.marks)
  {
    StepKeeps(s, passwords, Step(i));
    GoneStaysGone(Do(s, Step(i)), passwords, hash, run);
  }

  // ---- what undisturbed handlers reach ------------------------------------------------------------

  /** `s` with one more handler. */
  function With(s: State, h: Handler): State {
    s.(handlers := s.handlers + [h])
  }

  lemma WithSet(s: State, h: Handler, h': Handler)
    ensures Set(With(s, h), |s.handlers|, h') == With(s, h') && With(s, h).handlers[|s.handlers|] == h
  {}

  function Steps(i: nat, n: nat): seq<Action> {
    if n == 0 then [] else [Step(i)] + Steps(i, n - 1)
  }

  lemma StepsOn(s: State, i: nat, n: nat)
    requires Can(s, Step(i)) && Feasible(Do(s, Step(i)), Steps(i, n))
    ensures Feasible(s, Steps(i, n + 1)) && Exec(s, Steps(i, n + 1)) == Exec(Do(s, Step(i)), Steps(i, n))
  {
    hide Can, Do;
    assert ([Step(i)] + Steps(i, n))[1..] == Steps(i, n);
  }

  /** A redeeming handler reads the clock and looks for its token. */
  lemma TokenTried(s: State, purpose: Purpose, hash: Hash, password: string)
    ensures var i := |s.handlers|;
            var h := Redeem(purpose, hash, password, ToRead);
            var ready := With(s, h.(pc := ToMark(s.now)));
            && Can(With(s, h), Step(i)) && Do(With(s, h), Step(i)) == ready
            && Can(ready, Step(i))
            && Do(ready, Step(i)) ==
               if hash in s.tokens && s.tokens[hash].purpose == purpose && !s.tokens[hash].used && s.now < s.tokens[hash].expires then
                 var row := s.tokens[hash];
                 With(s.(tokens := s.tokens[hash := row.(used := true)], marks := s.marks + [Mark(hash, purpose, s.now)]),
                      h.(pc := if s.kind == Sql then ToLook else if row.user == "" then Rejected else ToApply(row.user)))
               else With(s, h.(pc := Rejected))
  {
    var i, h := |s.handlers|, Redeem(purpose, hash, password, ToRead);
    WithSet(s, h, h.(pc := ToMark(s.now)));
    WithSet(s, h.(pc := ToMark(s.now)), h.(pc := Rejected));
  }

  lemma TokenApplied(s: State, purpose: Purpose, hash: Hash, password: string, user: User)
    requires user in s.users
    ensures var i := |s.handlers|;
            var h := Redeem(purpose, hash, password, ToApply(user));
            && Can(With(s, h), Step(i))
            && Do(With(s, h), Step(i)) ==
               With(s.(passwords := if purpose == ResetPassword then s.passwords[user := password] else s.passwords,
                       verified := if purpose == VerifyEmail then s.verified + {user} else s.verified,
                       changes := s.changes + [Change(user, purpose, password, hash)]),
                    h.(pc := Applied(user)))
  {
    WithSet(s, Redeem(purpose, hash, password, ToApply(user)), Redeem(purpose, hash, password, Applied(user)));
  }

  lemma OwnerLooked(s: State, h: Handler)
    requires h.Redeem? && h.pc == ToLook && h.hash in s.tokens
    ensures Can(With(s, h), Step(|s.handlers|))
    ensures Do(With(s, h), Step(|s.handlers|)) == With(s, h.(pc := ToApply(s.tokens[h.hash].user)))
  {
    WithSet(s, h, h.(pc := ToApply(s.tokens[h.hash].user)));
  }

  /** In every state, an undisturbed redeem of an unused, unexpired token of that purpose, whose owner exists, is
      applied: the password is set or the address verified, the token is used up, and nothing else changes. (Mongo
      refuses a document without an owner.) */
  lemma RedeemSucceeds(s: State, purpose: Purpose, hash: Hash, password: string)
    requires hash in s.tokens && s.tokens[hash].purpose == purpose && !s.tokens[hash].used && s.now < s.tokens[hash].expires
    requires s.tokens[hash].user in s.users && (s.kind == Mongo ==> s.tokens[hash].user != "")
    ensures var row, begin, run := s.tokens[hash], StartRedeem(purpose, hash, password), Steps(|s.handlers|, if s.kind == Sql then 4 else 3);
            && Feasible(s, [begin] + run)
            && Exec(s, [begin] + run) ==
               s.(tokens := s.tokens[hash := row.(used := true)],
                  passwords := if purpose == ResetPassword then s.passwords[row.user := password] else s.passwords,
                  verified := if purpose == VerifyEmail then s.verified + {row.user} else s.verified,
                  handlers := s.handlers + [Redeem(purpose, hash, password, Applied(row.user))],
                  marks := s.marks + [Mark(hash, purpose, s.now)],
                  changes := s.changes + [Change(row.user, purpose, password, hash)])
  {
    var i, row, h := |s.handlers|, s.tokens[hash], Redeem(purpose, hash, password, ToRead);
    var s1, ready := With(s, h), With(s, h.(pc := ToMark(s.now)));
    var r := s.(tokens := s.tokens[hash := row.(used := true)], marks := s.marks + [Mark(hash, purpose, s.now)]);
    var s4 := With(r, h.(pc := ToApply(row.user)));
    TokenTried(s, purpose, hash, password);
    TokenApplied(r, purpose, hash, password, row.user);
    if s.kind == Sql { OwnerLooked(r, h.(pc := ToLook)); }
    assert Can(s, StartRedeem(purpose, hash, password)) && Do(s, StartRedeem(purpose, hash, password)) == s1;
    hide Can, Do, Redeemable, WithoutOutstanding;
    StepsOn(s4, i, 0);
    if s.kind == Sql {
      StepsOn(With(r, h.(pc := ToLook)), i, 1);
      StepsOn(ready, i, 2);
      StepsOn(s1, i, 3);
      Then(s, StartRedeem(purpose, hash, password), Steps(i, 4));
    } else {
      StepsOn(ready, i, 1);
      StepsOn(s1, i, 2);
      Then(s, StartRedeem(purpose, hash, password), Steps(i, 3));
    }
  }

  /** And any other token is rejected, with nothing changed at all. */
  lemma RedeemRejected(s: State, purpose: Purpose, hash: Hash, password: string)
    requires !(hash in s.tokens && s.tokens[hash].purpose == purpose && !s.tokens[hash].used && s.now < s.tokens[hash].expires)
    ensures var begin, run := StartRedeem(purpose, hash, password), Steps(|s.handlers|, 2);
            && Feasible(s, [begin] + run)
            && Exec(s, [begin] + run) == s.(handlers := s.handlers + [Redeem(purpose, hash, password, Rejected)])
  {
    var i, h := |s.handlers|, Redeem(purpose, hash, password, ToRead);
    var s1, ready := With(s, h), With(s, h.(pc := ToMark(s.now)));
    TokenTried(s, purpose, hash, password);
    assert Can(s, StartRedeem(purpose, hash, password)) && Do(s, StartRedeem(purpose, hash, password)) == s1;
    hide Can, Do, Redeemable, WithoutOutstanding;
    StepsOn(ready, i, 0);
    StepsOn(s1, i, 1);
    Then(s, StartRedeem(purpose, hash, password), Steps(i, 2));
  }

  lemma MintDeletes(s: State, h: Handler)
    requires h.Mint? && h.mint == ToDelete
    ensures Can(With(s, h), Step(|s.handlers|)) && Can(With(s, h), Fault(|s.handlers|))
    ensures Do(With(s, h), Step(|s.handlers|)) == With(s.(tokens := WithoutOutstanding(s.tokens, h.user, h.purpose)), h.(mint := ToInsert))
    ensures Do(With(s, h), Fault(|s.handlers|)) == With(s, h.(mint := ToInsert))
  {
    WithSet(s, h, h.(mint := ToInsert));
    hide WithoutOutstanding;
  }

  lemma MintInserts(s: State, h: Handler)
    requires h.Mint? && h.mint == ToInsert && h.hash !in s.tokens
    ensures var row := Row(h.user, h.purpose, h.expires, false);
            && Can(With(s, h), Step(|s.handlers|))
            && Do(With(s, h), Step(|s.handlers|))
               == With(s.(tokens := s.tokens[h.hash := row], minted := s.minted[h.hash := row]), h.(mint := Minted))
  {
    WithSet(s, h, h.(mint := Minted));
  }

  /** In every reachable state, an undisturbed request for a token leaves it unused and as asked for, also if
      the deletion of earlier ones failed; and if it did not, the other tokens of that user and purpose are gone,
      and no others. */
  lemma MintSucceeds(kind: Kind, users: set<User>, passwords: map<User, string>, before: seq<Action>, user: User, purpose: Purpose,
                     hash: Hash, expires: int, deletes: bool)
    requires Feasible(Start(kind, users, passwords), before)
    requires Can(Exec(Start(kind, users, passwords), before), StartMint(user, purpose, hash, expires))
    ensures var s := Exec(Start(kind, users, passwords), before);
            var i := |s.handlers|;
            var run := [StartMint(user, purpose, hash, expires), if deletes then Step(i) else Fault(i), Step(i)];
            && Feasible(s, run) && hash in Exec(s, run).tokens && Exec(s, run).tokens[hash] == Row(user, purpose, expires, false)
            && (forall h :: h in Exec(s, run).tokens && h != hash <==>
                  h != hash && h in s.tokens && (deletes ==> s.tokens[h].user != user || s.tokens[h].purpose != purpose))
            && forall h :: h in Exec(s, run).tokens && h != hash ==> Exec(s, run).tokens[h] == s.tokens[h]
  {
    var s := Exec(Start(kind, users, passwords), before);
    StartOk(kind, users, passwords);
    RunKeeps(Start(kind, users, passwords), passwords, before);
    FreshHash(s, passwords, hash);
    MintFrom(s, user, purpose, hash, expires, deletes);
  }

  lemma FreshHash(s: State, passwords: map<User, string>, hash: Hash)
    requires Inv(s, passwords) && !Hashed(s.handlers, hash)
    ensures hash !in s.tokens
  {
    hide MarksOk, HoldersOk, ChangesOk, Replayed, VerifiedBy, Hashed;
  }

  lemma MintFrom(s: State, user: User, purpose: Purpose, hash: Hash, expires: int, deletes: bool)
    requires Can(s, StartMint(user, purpose, hash, expires)) && hash !in s.tokens
    ensures var i := |s.handlers|;
            var run := [StartMint(user, purpose, hash, expires), if deletes then Step(i) else Fault(i), Step(i)];
            var kept := if deletes then WithoutOutstanding(s.tokens, user, purpose) else s.tokens;
            Feasible(s, run) && Exec(s, run).tokens == kept[hash := Row(user, purpose, expires, false)]
  {
    var i, h := |s.handlers|, Mint(user, purpose, hash, expires, ToDelete);
    var kept := if deletes then WithoutOutstanding(s.tokens, user, purpose) else s.tokens;
    var delete := if deletes then Step(i) else Fault(i);
    var r := s.(tokens := kept);
    MintDeletes(s, h);
    MintInserts(r, h.(mint := ToInsert));
    assert Do(s, StartMint(user, purpose, hash, expires)) == With(s, h);
    hide Can, Do, WithoutOutstanding;
    var s2 := With(r, h.(mint := ToInsert));
    Then(s2, Step(i), []);
    Then(With(s, h), delete, [Step(i)]);
    Then(s, StartMint(user, purpose, hash, expires), [delete, Step(i)]);
    assert [StartMint(user, purpose, hash, expires)] + [delete, Step(i)] == [StartMint(user, purpose, hash, expires), delete, Step(i)];
  }

  // ---- Mongo's reaper -----------------------------------------------------------------------------

  /** A handler has read the clock before the token's expiry and not yet looked for it. */
  predicate Pending(s: State, hash: Hash, i: nat)
    requires hash in s.tokens
  {
    i < |s.handlers| && s.handlers[i].Redeem? && s.handlers[i].pc.ToMark? && s.handlers[i].hash == hash
    && s.handlers[i].purpose == s.tokens[hash].purpose && s.handlers[i].pc.at < s.tokens[hash].expires
  }

  /** No handler in flight can find the token valid any more. */
  ghost predicate Dead(s: State, hash: Hash)
    requires hash in s.tokens
  {
    s.tokens[hash].used || forall i :: !Pending(s, hash, i)
  }

  /** Everything but the rows themselves: what handlers answered, and what they changed. */
  function Results(s: State): State {
    s.(tokens := map[])
  }

  /** The rows of `t` are those in `kept` and dead ones. */
  ghost predicate LeftOver(kept: Tokens, t: State) {
    && (forall h :: h in kept ==> h in t.tokens && t.tokens[h] == kept[h])
    && (forall h :: h in t.tokens && h !in kept ==> t.tokens[h].expires <= t.now && Dead(t, h))
  }

  predicate NoneLooking(s: State) {
    forall i :: 0 <= i < |s.handlers| && s.handlers[i].Redeem? ==> !s.handlers[i].pc.ToLook?
  }

  /** `t` is `s` with some dead rows not reaped. */
  ghost predicate Unreaped(s: State, t: State) {
    s.kind == Mongo && Results(s) == Results(t) && NoneLooking(s) && LeftOver(s.tokens, t)
  }

  /** A dead row stays dead: whoever reads the clock from now on reads it after the expiry. */
  lemma DeadStays(t: State, t': State, hash: Hash)
    requires hash in t.tokens && hash in t'.tokens && t'.tokens[hash] == t.tokens[hash] && t.tokens[hash].expires <= t.now
    requires forall j :: 0 <= j < |t'.handlers| && t'.handlers[j].Redeem? && t'.handlers[j].pc.ToMark? ==>
               (j < |t.handlers| && t.handlers[j] == t'.handlers[j]) || t'.handlers[j].pc.at >= t.now
    requires Dead(t, hash)
    ensures Dead(t', hash)
  {
    forall j | !Pending(t, hash, j)
      ensures !Pending(t', hash, j)
    {}
  }

  /** What handlers do leaves dead rows dead. */
  predicate Onward(t: State, t': State) {
    && t.now <= t'.now
    && forall j :: 0 <= j < |t'.handlers| && t'.handlers[j].Redeem? && t'.handlers[j].pc.ToMark? ==>
         (j < |t.handlers| && t.handlers[j] == t'.handlers[j]) || t'.handlers[j].pc.at >= t.now
  }

  lemma LeftOverStays(kept: Tokens, kept': Tokens, t: State, t': State)
    requires LeftOver(kept, t) && Onward(t, t')
    requires forall h :: h in kept' ==> h in t'.tokens && t'.tokens[h] == kept'[h]
    requires forall h :: h in t'.tokens && h !in kept' ==> h in t.tokens && h !in kept && t'.tokens[h] == t.tokens[h]
    ensures LeftOver(kept', t')
  {
    hide Dead;
    forall h | h in t'.tokens && h !in kept'
      ensures t'.tokens[h].expires <= t'.now && Dead(t', h)
    {
      DeadStays(t, t', h);
    }
  }

  lemma UnreapedMint(s: State, t: State, passwords: map<User, string>, i: nat)
    requires Unreaped(s, t) && Inv(t, passwords) && i < |s.handlers| && s.handlers[i].Mint? && Live(s.handlers[i])
    ensures Unreaped(MintStep(s, i), MintStep(t, i))
  {
    NotInTokens(t, i);
    hide Inv, Dead;
    LeftOverStays(s.tokens, MintStep(s, i).tokens, t, MintStep(t, i));
    hide LeftOver;
  }

  /** A left-over row is not found valid. */
  lemma DeadNotFound(t: State, i: nat, hash: Hash)
    requires hash in t.tokens && Dead(t, hash) && i < |t.handlers| && t.handlers[i].Redeem? && t.handlers[i].pc.ToMark? && t.handlers[i].hash == hash
    ensures !Redeemable(t.tokens, t.handlers[i].purpose, hash, t.handlers[i].pc.at)
  {
    assert t.tokens[hash].used || !Pending(t, hash, i);
  }

  lemma UnreapedMark(s: State, t: State, i: nat, at: int)
    requires Unreaped(s, t) && i < |s.handlers| && s.handlers[i].Redeem? && s.handlers[i].pc == ToMark(at)
    ensures Unreaped(MarkStep(s, i, at), MarkStep(t, i, at))
  {
    var hash := s.handlers[i].hash;
    if hash in t.tokens && hash !in s.tokens {
      DeadNotFound(t, i, hash);
    }
    hide Dead;
    var s', t' := MarkStep(s, i, at), MarkStep(t, i, at);
    LeftOverStays(s.tokens, s'.tokens, t, t');
    hide LeftOver;
    assert Results(s') == Results(t');
  }

  /** Reading the clock and applying a change do not look at the rows. */
  lemma RowsUnread(t: State, tokens: Tokens, i: nat)
    requires i < |t.handlers| && t.handlers[i].Redeem? && (t.handlers[i].pc.ToRead? || t.handlers[i].pc.ToApply?)
    ensures var t' := RedeemStep(t, i);
            && RedeemStep(t.(tokens := tokens), i) == t'.(tokens := tokens)
            && t'.tokens == t.tokens && Onward(t, t') && t'.kind == t.kind
            && (NoneLooking(t) ==> NoneLooking(t'))
  {
    hide Onward, NoneLooking, MarkStep;
    var t' := RedeemStep(t, i);
    assert t'.handlers == t.handlers[i := t'.handlers[i]] && t'.now == t.now;
    OneMoved(t, t', i);
  }

  lemma OneMoved(t: State, t': State, i: nat)
    requires i < |t.handlers| && t'.now == t.now && |t'.handlers| == |t.handlers| && t'.handlers == t.handlers[i := t'.handlers[i]]
    requires t'.handlers[i].Redeem? && !t'.handlers[i].pc.ToLook? && (t'.handlers[i].pc.ToMark? ==> t'.handlers[i].pc.at >= t.now)
    ensures Onward(t, t') && (NoneLooking(t) ==> NoneLooking(t'))
  {}

  lemma UnreapedRedeem(s: State, t: State, i: nat)
    requires Unreaped(s, t) && i < |s.handlers| && s.handlers[i].Redeem? && Live(s.handlers[i])
    ensures Unreaped(RedeemStep(s, i), RedeemStep(t, i))
  {
    var h := s.handlers[i];
    if h.pc.ToMark? {
      UnreapedMark(s, t, i, h.pc.at);
    } else {
      RowsUnread(t, s.tokens, i);
      assert s == t.(tokens := s.tokens);
      hide Dead, Onward, NoneLooking, RedeemStep;
      LeftOverStays(s.tokens, s.tokens, t, RedeemStep(t, i));
    }
  }

  lemma UnreapedHandler(s: State, t: State, passwords: map<User, string>, i: nat)
    requires Unreaped(s, t) && Inv(t, passwords) && i < |s.handlers| && Live(s.handlers[i])
    ensures Unreaped(HandlerStep(s, i), HandlerStep(t, i))
  {
    if s.handlers[i].Mint? {
      UnreapedMint(s, t, passwords, i);
    } else {
      UnreapedRedeem(s, t, i);
    }
  }

  lemma UnreapedLost(s: State, t: State, i: nat)
    requires Unreaped(s, t) && i < |s.handlers| && Live(s.handlers[i]) && Unreaped(HandlerStep(s, i), HandlerStep(t, i))
    ensures Unreaped(LostStep(s, i), LostStep(t, i))
  {
    HandlersAfter(s, i);
    HandlersAfter(t, i);
    hide Dead, HandlerStep;
    var next := HandlerStep(t, i);
    LeftOverStays(HandlerStep(s, i).tokens, HandlerStep(s, i).tokens, next, LostStep(t, i));
    hide LeftOver;
  }

  lemma UnreapedStep(s: State, t: State, passwords: map<User, string>, a: Action)
    requires Unreaped(s, t) && Inv(t, passwords) && Can(s, a) && !a.Reap?
    ensures Can(t, a) && Unreaped(Do(s, a), Do(t, a))
  {
    hide Inv, Dead;
    if a.Step? {
      UnreapedHandler(s, t, passwords, a.i);
    } else if a.Lost? {
      UnreapedHandler(s, t, passwords, a.i);
      UnreapedLost(s, t, a.i);
    } else {
      LeftOverStays(s.tokens, s.tokens, t, Do(t, a));
    }
  }

  lemma UnreapedReap(s: State, t: State, hash: Hash)
    requires Unreaped(s, t) && Can(s, Reap(hash)) && Dead(s, hash)
    ensures Unreaped(Do(s, Reap(hash)), t)
  {
    forall i | !Pending(s, hash, i)
      ensures !Pending(t, hash, i)
    {}
    assert Dead(t, hash);
  }

  function WithoutReaps(run: seq<Action>): seq<Action> {
    if run == [] then [] else (if run[0].Reap? then [] else [run[0]]) + WithoutReaps(run[1..])
  }

  /** Every reaped row is dead when it goes. */
  ghost predicate HarmlessReaps(s: State, run: seq<Action>)
    requires Feasible(s, run)
    decreases |run|
  {
    run != [] ==> (run[0].Reap? ==> Dead(s, run[0].hash)) && HarmlessReaps(Do(s, run[0]), run[1..])
  }

  lemma {:induction false} UnreapedRun(s: State, t: State, passwords: map<User, string>, run: seq<Action>)
    requires Unreaped(s, t) && Inv(t, passwords) && Feasible(s, run) && HarmlessReaps(s, run)
    ensures Feasible(t, WithoutReaps(run)) && Results(Exec(s, run)) == Results(Exec(t, WithoutReaps(run)))
    decreases |run|
  {
    hide Inv, Do, Can;
    if run != [] {
      var a := run[0];
      var rest := WithoutReaps(run[1..]);
      assert WithoutReaps(run) == (if a.Reap? then [] else [a]) + rest;
      if a.Reap? {
        assert [] + rest == rest;
        UnreapedReap(s, t, a.hash);
        UnreapedRun(Do(s, a), t, passwords, run[1..]);
      } else {
        UnreapedStep(s, t, passwords, a);
        StepKeeps(t, passwords, a);
        UnreapedRun(Do(s, a), Do(t, a), passwords, run[1..]);
        assert ([a] + rest)[1..] == rest;
      }
    }
  }

  /** Leaving out the reaper's steps changes no answer and no effect of any run in which it takes only
      rows that no handler in flight can still find valid. */
  lemma ReaperInvisible(users: set<User>, passwords: map<User, string>, run: seq<Action>)
    requires Feasible(Start(Mongo, users, passwords), run) && HarmlessReaps(Start(Mongo, users, passwords), run)
    ensures var s := Start(Mongo, users, passwords);
            Feasible(s, WithoutReaps(run)) && Results(Exec(s, run)) == Results(Exec(s, WithoutReaps(run)))
  {
    var s := Start(Mongo, users, passwords);
    StartOk(Mongo, users, passwords);
    UnreapedRun(s, s, passwords, run);
  }

  ghost predicate ReapFree(run: seq<Action>) {
    forall a :: a in run ==> !a.Reap?
  }

  lemma {:induction false} ReapFreeRun(s: State, run: seq<Action>)
    requires Feasible(s, run) && ReapFree(run)
    ensures HarmlessReaps(s, run) && WithoutReaps(run) == run
    decreases |run|
  {
    hide Can, Do;
    if run != [] {
      assert run == [run[0]] + run[1..];
      ReapFreeRun(Do(s, run[0]), run[1..]);
    }
  }

  lemma {:induction false} MongoNeverLooks(s: State, run: seq<Action>)
    requires s.kind == Mongo && NoneLooking(s) && Feasible(s, run)
    ensures Exec(s, run).kind == Mongo && NoneLooking(Exec(s, run))
    decreases |run|
  {
    if run != [] {
      MongoStep(s, run[0]);
      hide Can, Do;
      MongoNeverLooks(Do(s, run[0]), run[1..]);
    }
  }

  lemma MongoRedeem(s: State, i: nat)
    requires s.kind == Mongo && i < |s.handlers| && s.handlers[i].Redeem? && Live(s.handlers[i]) && !s.handlers[i].pc.ToLook?
    ensures var s' := RedeemStep(s, i);
            && s'.kind == Mongo && |s'.handlers| == |s.handlers| && s'.handlers == s.handlers[i := s'.handlers[i]]
            && s'.handlers[i].Redeem? && !s'.handlers[i].pc.ToLook?
  {
    hide Redeemable;
  }

  lemma MongoStep(s: State, a: Action)
    requires s.kind == Mongo && NoneLooking(s) && Can(s, a)
    ensures Do(s, a).kind == Mongo && NoneLooking(Do(s, a))
  {
    hide Redeemable, WithoutOutstanding;
    if (a.Step? || a.Lost?) && s.handlers[a.i].Redeem? {
      MongoRedeem(s, a.i);
      hide RedeemStep;
    }
  }

  /** Reaping `hash` now makes no difference to any way the run can go on. */
  ghost predicate Invisible(s: State, hash: Hash)
    requires Can(s, Reap(hash))
  {
    var reaped := Do(s, Reap(hash));
    forall run :: Feasible(reaped, run) && ReapFree(run) ==>
      Feasible(s, run) && Results(Exec(reaped, run)) == Results(Exec(s, run))
  }

  /** Reaping a row some handler in flight would still find valid, because it read the clock before the
      expiry, changes that handler's answer. */
  lemma LateReapShows(s: State, passwords: map<User, string>, hash: Hash, i: nat)
    requires Inv(s, passwords) && Can(s, Reap(hash)) && !s.tokens[hash].used && Pending(s, hash, i)
    ensures var reaped := Do(s, Reap(hash));
            && Can(s, Step(i)) && Can(reaped, Step(i))
            && hash in Marked(Do(s, Step(i)).marks) && hash !in Marked(Do(reaped, Step(i)).marks)
  {
    var h := s.handlers[i];
    MarkedAppend(s.marks, Mark(hash, h.purpose, h.pc.at));
    assert hash !in Marked(s.marks) by {
      assert forall m :: m in s.marks && m.hash == hash ==> MarkOk(m, s.tokens, s.minted);
    }
    hide Inv;
  }

  /** In every reachable state: the reaper changes no result exactly when no handler in flight read the
      clock before the row's expiry and could still find it valid. */
  lemma ReapInvisibleIffDead(users: set<User>, passwords: map<User, string>, before: seq<Action>, hash: Hash)
    requires Feasible(Start(Mongo, users, passwords), before) && Can(Exec(Start(Mongo, users, passwords), before), Reap(hash))
    ensures var s := Exec(Start(Mongo, users, passwords), before);
            Dead(s, hash) <==> Invisible(s, hash)
  {
    var start := Start(Mongo, users, passwords);
    var s := Exec(start, before);
    StartOk(Mongo, users, passwords);
    RunKeeps(start, passwords, before);
    MongoNeverLooks(start, before);
    var reaped := Do(s, Reap(hash));
    if Dead(s, hash) {
      UnreapedReap(s, s, hash);
      forall run | Feasible(reaped, run) && ReapFree(run)
        ensures Feasible(s, run) && Results(Exec(reaped, run)) == Results(Exec(s, run))
      {
        ReapFreeRun(reaped, run);
        UnreapedRun(reaped, s, passwords, run);
      }
    } else {
      var i :| Pending(s, hash, i);
      LateReapShows(s, passwords, hash, i);
      ShowsInOneStep(s, hash, i);
    }
  }

  lemma ShowsInOneStep(s: State, hash: Hash, i: nat)
    requires Can(s, Reap(hash)) && Can(s, Step(i)) && Can(Do(s, Reap(hash)), Step(i))
    requires Marked(Do(s, Step(i)).marks) != Marked(Do(Do(s, Reap(hash)), Step(i)).marks)
    ensures !Invisible(s, hash)
  {
    var reaped, run := Do(s, Reap(hash)), [Step(i)];
    hide Do, Can, Marked;
    Then(reaped, Step(i), []);
    Then(s, Step(i), []);
    assert [Step(i)] + [] == run && ReapFree(run);
    assert Results(Exec(reaped, run)).marks == Exec(reaped, run).marks && Results(Exec(s, run)).marks == Exec(s, run).marks;
  }

  lemma Then(s: State, a: Action, rest: seq<Action>)
    requires Can(s, a) && Feasible(Do(s, a), rest)
    ensures Feasible(s, [a] + rest) && Exec(s, [a] + rest) == Exec(Do(s, a), rest)
  {
    hide Can, Do;
    assert ([a] + rest)[1..] == rest;
  }

  /** A token of "u" that expires at 1, and a handler that read the clock at 0 and has not looked for it. */
  lemma ReadInTime() returns (s: State)
    ensures var run := [StartMint("u", ResetPassword, "h", 1), Step(0), Step(0), StartRedeem(ResetPassword, "h", "new"), Step(1)];
            Feasible(Start(Mongo, {"u"}, map[]), run) && Exec(Start(Mongo, {"u"}, map[]), run) == s
    ensures s.kind == Mongo && s.now == 0 && s.tokens == map["h" := Row("u", ResetPassword, 1, false)]
    ensures |s.handlers| == 2 && s.handlers[1] == Redeem(ResetPassword, "h", "new", ToMark(0))
  {
    var s0 := Start(Mongo, {"u"}, map[]);
    var mint, redeem := StartMint("u", ResetPassword, "h", 1), StartRedeem(ResetPassword, "h", "new");
    var s1 := Do(s0, mint);
    var s2 := Do(s1, Step(0));
    var s3 := Do(s2, Step(0));
    assert s3.tokens == map["h" := Row("u", ResetPassword, 1, false)];
    var s4 := Do(s3, redeem);
    s := Do(s4, Step(1));
    assert Feasible(s, []) && Exec(s, []) == s;
    hide Do, Can;
    Then(s4, Step(1), []);
    Then(s3, redeem, [Step(1)]);
    Then(s2, Step(0), [redeem, Step(1)]);
    Then(s1, Step(0), [Step(0), redeem, Step(1)]);
    Then(s0, mint, [Step(0), Step(0), redeem, Step(1)]);
  }

  /** A run in which that happens: the clock is read at 0, the token expires at 1 and is reaped before
      the handler looks for it. */
  lemma ReaperCanShow()
    ensures var s := Start(Mongo, {"u"}, map[]);
            var before := [StartMint("u", ResetPassword, "h", 1), Step(0), Step(0), StartRedeem(ResetPassword, "h", "new"), Step(1), Tick(1)];
            && Feasible(s, before) && Inv(Exec(s, before), map[])
            && Can(Exec(s, before), Reap("h")) && !Dead(Exec(s, before), "h")
  {
    var start := Start(Mongo, {"u"}, map[]);
    var read := [StartMint("u", ResetPassword, "h", 1), Step(0), Step(0), StartRedeem(ResetPassword, "h", "new"), Step(1)];
    hide Do, Can, Feasible, Exec, Inv, Dead;
    var s := ReadInTime();
    TooLate(s);
    OneMore(start, read, Tick(1));
    StartOk(Mongo, {"u"}, map[]);
    RunKeeps(start, map[], read + [Tick(1)]);
  }

  lemma TooLate(s: State)
    requires s.kind == Mongo && s.now == 0 && s.tokens == map["h" := Row("u", ResetPassword, 1, false)]
    requires |s.handlers| == 2 && s.handlers[1] == Redeem(ResetPassword, "h", "new", ToMark(0))
    ensures Can(s, Tick(1)) && Can(Do(s, Tick(1)), Reap("h")) && !Dead(Do(s, Tick(1)), "h")
  {
    assert Pending(Do(s, Tick(1)), "h", 1);
  }

  lemma {:induction false} OneMore(s: State, run: seq<Action>, a: Action)
    requires Feasible(s, run) && Can(Exec(s, run), a)
    ensures Feasible(s, run + [a]) && Exec(s, run + [a]) == Do(Exec(s, run), a)
    decreases |run|
  {
    hide Can, Do;
    if run == [] {
      assert [a][1..] == [];
    } else {
      OneMore(Do(s, run[0]), run[1..], a);
      assert (run + [a])[1..] == run[1..] + [a];
    }
  }

  // ---- the stores' own operations -----------------------------------------------------------------

  datatype TokenError = TokenInvalid | DatabaseError

  /** One token table used by one handler at a time; `Sql` and `Mongo` differ in their statements only. */
  class TokenStore {
    var tokens: Tokens

    constructor ()
      ensures tokens == map[]
    {
      tokens := map[];
    }

    /** Afterwards the new token is the one token of its user and purpose, if the best-effort deletion of
        outstanding ones, which `deletes` tells, reached the table. */
    method CreateEmailToken(user: User, purpose: Purpose, hash: Hash, expires: int, deletes: bool) returns (ok: bool)
      modifies this
      ensures var kept := if deletes then WithoutOutstanding(old(tokens), user, purpose) else old(tokens);
              && (ok <==> hash !in kept)
              && tokens == if ok then kept[hash := Row(user, purpose, expires, false)] else kept
      ensures ok && deletes ==> forall h :: h in tokens && tokens[h].user == user && tokens[h].purpose == purpose ==> h == hash
    {
      if deletes {
        tokens := WithoutOutstanding(tokens, user, purpose);
      }
      ok := hash !in tokens;
      if ok {
        tokens := tokens[hash := Row(user, purpose, expires, false)];
      }
    }

    /** The UPDATE, then the SELECT. */
    method ConsumeSql(purpose: Purpose, hash: Hash, now: int) returns (r: Result<User, TokenError>)
      modifies this
      ensures r == if Redeemable(old(tokens), purpose, hash, now) then Ok(old(tokens)[hash].user) else Err(TokenInvalid)
      ensures tokens == if r.Ok? then old(tokens)[hash := old(tokens)[hash].(used := true)] else old(tokens)
      ensures !Redeemable(tokens, purpose, hash, now)
    {
      var affected := 0;
      if Redeemable(tokens, purpose, hash, now) {
        tokens := tokens[hash := tokens[hash].(used := true)];
        affected := 1;
      }
      if affected == 0 {
        return Err(TokenInvalid);
      }
      if hash !in tokens {
        return Err(DatabaseError);
      }
      r := Ok(tokens[hash].user);
    }

    /** FindOneAndUpdate returns the document as it was; one without an owner is refused, though marked. */
    method ConsumeMongo(purpose: Purpose, hash: Hash, now: int) returns (r: Result<User, TokenError>)
      modifies this
      ensures r == if Redeemable(old(tokens), purpose, hash, now) && old(tokens)[hash].user != ""
                   then Ok(old(tokens)[hash].user) else Err(TokenInvalid)
      ensures tokens == if Redeemable(old(tokens), purpose, hash, now) then old(tokens)[hash := old(tokens)[hash].(used := true)] else old(tokens)
      ensures !Redeemable(tokens, purpose, hash, now)
    {
      if !Redeemable(tokens, purpose, hash, now) {
        return Err(TokenInvalid);
      }
      var doc := tokens[hash];
      tokens := tokens[hash := doc.(used := true)];
      if doc.user == "" {
        return Err(TokenInvalid);
      }
      r := Ok(doc.user);
    }
  }
}
