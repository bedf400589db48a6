/** The REST server's guards: the token middleware, the admin login
    decision, voter registration, whitelist additions by the election's owner,
    access to results, and the vote handler's check-then-write. Token
    verification and password hashing are supplied from outside as functions;
    the database is the in-memory state of a `Backend` object. */
module Server {
  import opened Types

  datatype Account = Account(id: string, name: string, email: string, passwordHash: string,
                             role: Role, isActive: bool)

  /** The claims a verified token carries. The e-mail is the voter's, as an
      issuer of voter tokens would sign it; the login route of this server
      signs only the id and the role. */
  datatype Claims = Claims(id: string, role: Role, email: string)

  datatype Election = Election(id: string, title: string, status: ElectionStatus, createdBy: string)

  datatype WhitelistRecord = WhitelistRecord(
    electionId: string, email: string,
    isRegistered: bool, passwordHash: Option<string>, passwordPlain: Option<string>,
    hasVoted: bool, registeredAt: Option<int>)

  datatype VoteRecord = VoteRecord(electionId: string, positionId: string, candidateId: string,
                                   voterEmail: string)

  /** A whitelist row as the database creates it: not registered, not voted. */
  function NewWhitelistRecord(electionId: string, email: string): (w: WhitelistRecord)
    ensures w.electionId == electionId && w.email == email
    ensures !w.isRegistered && !w.hasVoted && w.passwordPlain.None?
  {
    WhitelistRecord(electionId, email, false, None, None, false, None)
  }

  // ---------------------------------------------------------------------------
  // Middleware
  // ---------------------------------------------------------------------------

  /** 401, 403, 400, or continue with the token's claims. */
  datatype AuthDecision = AccessDenied | Forbidden | InvalidToken | Proceed(claims: Claims)

  /** `req.header('Authorization')?.replace('Bearer ', '')`: the token of a
      "Bearer <token>" header, and a header without the scheme word as it is. */
  function TokenOf(header: Option<string>): (r: Option<string>)
    ensures r.None? <==> header.None?
    ensures header.Some? && StartsWith(header.value, "Bearer ") ==> r == Some(header.value[7..])
    ensures header.Some? && !Contains(header.value, "Bearer ") ==> r == header
  {
    match header
    case None => None
    case Some(h) =>
      if StartsWith(h, "Bearer ") then
        assert OccursAt(h, "Bearer ", 0);
        assert IndexOf(h, "Bearer ", 0) == Some(0);
        assert h[..0] + h[7..] == h[7..];
        Some(RemoveFirst(h, "Bearer "))
      else Some(RemoveFirst(h, "Bearer "))
  }

  /** `auth(roles)`: `verify` stands for `jwt.verify` with the server secret,
      giving None for a token that fails verification. */
  function Authenticate(header: Option<string>, verify: string -> Option<Claims>, roles: seq<Role>)
    : (r: AuthDecision)
    ensures r == AccessDenied <==> TokenOf(header).None? || TokenOf(header).value == ""
    ensures r == InvalidToken <==>
      TokenOf(header).Some? && TokenOf(header).value != "" && verify(TokenOf(header).value).None?
    ensures r == Forbidden <==>
      TokenOf(header).Some? && TokenOf(header).value != "" && verify(TokenOf(header).value).Some? &&
      verify(TokenOf(header).value).value.role !in roles
    ensures r.Proceed? ==> r.claims.role in roles && verify(TokenOf(header).value) == Some(r.claims)
  {
    var token := TokenOf(header);
    if token.None? || token.value == "" then AccessDenied
    else match verify(token.value)
      case None => InvalidToken
      case Some(claims) => if claims.role !in roles then Forbidden else Proceed(claims)
  }

  // ---------------------------------------------------------------------------
  // Admin login
  // ---------------------------------------------------------------------------

  datatype LoginReply = MasterSession | AccountSession(account: Account) | LoginInvalid

  /** `User.findOne({ email })`: the first account with the e-mail. */
  function FindAccount(accounts: seq<Account>, email: string): (r: Option<Account>)
    ensures r.Some? ==> r.value in accounts && r.value.email == email
    ensures r.Some? ==> exists i :: 0 <= i < |accounts| && accounts[i] == r.value &&
                                    forall j :: 0 <= j < i ==> accounts[j].email != email
    ensures r.None? ==> forall a :: a in accounts ==> a.email != email
  {
    if accounts == [] then None
    else if accounts[0].email == email then Some(accounts[0])
    else
      var r := FindAccount(accounts[1..], email);
      if r.Some? then FirstAfterHead(accounts, email, r.value); r else r
  }

  lemma FirstAfterHead(accounts: seq<Account>, email: string, a: Account)
    requires accounts != [] && accounts[0].email != email
    requires exists i :: 0 <= i < |accounts[1..]| && accounts[1..][i] == a &&
                         forall j :: 0 <= j < i ==> accounts[1..][j].email != email
    ensures exists i :: 0 <= i < |accounts| && accounts[i] == a &&
                        forall j :: 0 <= j < i ==> accounts[j].email != email
  {
    var i :| 0 <= i < |accounts[1..]| && accounts[1..][i] == a &&
             forall j :: 0 <= j < i ==> accounts[1..][j].email != email;
    assert accounts[i + 1] == a;
    forall j | 0 <= j < i + 1 ensures accounts[j].email != email {
      if j > 0 {
        assert accounts[j] == accounts[1..][j - 1];
      }
    }
  }

  /** `POST /auth/admin/login`; `matches` stands for `bcrypt.compare`. The
      built-in master credentials win; otherwise only the account the lookup
      returns is considered, and it must be active and its hash must match. */
  function AdminLogin(email: string, password: string, accounts: seq<Account>,
                      matches: (string, string) -> bool): (r: LoginReply)
    ensures r == MasterSession <==> email == "admin" && password == "admin"
    ensures r.AccountSession? ==>
      r.account in accounts && r.account.email == email && r.account.isActive &&
      matches(password, r.account.passwordHash)
    ensures var f := FindAccount(accounts, email);
      r.AccountSession? <==>
        !(email == "admin" && password == "admin") && f.Some? && f.value.isActive &&
        matches(password, f.value.passwordHash)
    ensures r.AccountSession? ==> Some(r.account) == FindAccount(accounts, email)
    ensures var f := FindAccount(accounts, email);
      r == LoginInvalid <==>
        !(email == "admin" && password == "admin") &&
        (f.None? || !f.value.isActive || !matches(password, f.value.passwordHash))
  {
    if email == "admin" && password == "admin" then MasterSession
    else match FindAccount(accounts, email)
      case None => LoginInvalid
      case Some(a) =>
        if !a.isActive then LoginInvalid
        else if !matches(password, a.passwordHash) then LoginInvalid
        else AccountSession(a)
  }

  // ---------------------------------------------------------------------------
  // Lookups
  // ---------------------------------------------------------------------------

  /** `Whitelist.findOne({ email })`: the first row for the email, in any
      election. */
  function FindByEmail(wl: seq<WhitelistRecord>, email: string): (r: Option<nat>)
    ensures r.Some? ==> r.value < |wl| && wl[r.value].email == email &&
                        forall j :: 0 <= j < r.value ==> wl[j].email != email
    ensures r.None? ==> forall j :: 0 <= j < |wl| ==> wl[j].email != email
  {
    if wl == [] then None
    else if wl[0].email == email then Some(0)
    else match FindByEmail(wl[1..], email)
      case None => None
      case Some(i) => Some(i + 1)
  }

  predicate Matches(w: WhitelistRecord, email: string, electionId: string) {
    w.email == email && w.electionId == electionId
  }

  /** `Whitelist.findOne({ email, electionId })`. */
  function FindEntry(wl: seq<WhitelistRecord>, email: string, electionId: string): (r: Option<nat>)
    ensures r.Some? ==> r.value < |wl| && Matches(wl[r.value], email, electionId) &&
                        forall j :: 0 <= j < r.value ==> !Matches(wl[j], email, electionId)
    ensures r.None? ==> forall j :: 0 <= j < |wl| ==> !Matches(wl[j], email, electionId)
  {
    if wl == [] then None
    else if Matches(wl[0], email, electionId) then Some(0)
    else match FindEntry(wl[1..], email, electionId)
      case None => None
      case Some(i) => Some(i + 1)
  }

  /** The first matching row depends only on the emails and election ids of
      the rows up to it, so rewriting other fields or appending rows keeps it. */
  lemma {:induction false} FindEntryStable(wl: seq<WhitelistRecord>, wl': seq<WhitelistRecord>,
                                           email: string, electionId: string)
    requires |wl| <= |wl'|
    requires forall j :: 0 <= j < |wl| ==>
      wl'[j].email == wl[j].email && wl'[j].electionId == wl[j].electionId
    requires FindEntry(wl, email, electionId).Some?
    ensures FindEntry(wl', email, electionId) == FindEntry(wl, email, electionId)
  {
    var i := FindEntry(wl, email, electionId).value;
    var r := FindEntry(wl', email, electionId);
    assert Matches(wl'[i], email, electionId);
    assert forall j :: 0 <= j < i ==> !Matches(wl'[j], email, electionId);
  }

  /** `Election.findById(id)`. */
  function FindElection(elections: seq<Election>, id: string): (r: Option<Election>)
    ensures r.Some? ==> r.value in elections && r.value.id == id
    ensures r.None? ==> forall e :: e in elections ==> e.id != id
  {
    if elections == [] then None
    else if elections[0].id == id then Some(elections[0])
    else FindElection(elections[1..], id)
  }

  /** `Election.findOne({ _id: id, createdBy: caller })` found something. */
  predicate Owns(elections: seq<Election>, callerId: string, electionId: string) {
    exists e :: e in elections && e.id == electionId && e.createdBy == callerId
  }

  // ---------------------------------------------------------------------------
  // Registration
  // ---------------------------------------------------------------------------

  datatype RegisterReply = Registered | NotAuthorized | AlreadyRegistered

  /** `POST /auth/voter/register` on the whitelist `wl`; `hash` is the bcrypt
      hash of the password, `now` the registration time. */
  function Register(wl: seq<WhitelistRecord>, email: string, password: string, hash: string, now: int)
    : (r: (RegisterReply, seq<WhitelistRecord>))
    ensures FindByEmail(wl, email).None? ==> r == (NotAuthorized, wl)
    ensures FindByEmail(wl, email).Some? && wl[FindByEmail(wl, email).value].isRegistered ==>
      r == (AlreadyRegistered, wl)
    ensures r.0 == Registered ==>
      var i := FindByEmail(wl, email).value;
      && !wl[i].isRegistered
      && |r.1| == |wl|
      && r.1[i] == wl[i].(isRegistered := true, passwordHash := Some(hash),
                          passwordPlain := Some(password), registeredAt := Some(now))
      && forall j :: 0 <= j < |wl| && j != i ==> r.1[j] == wl[j]
  {
    match FindByEmail(wl, email)
    case None => (NotAuthorized, wl)
    case Some(i) =>
      if wl[i].isRegistered then (AlreadyRegistered, wl)
      else (Registered, wl[i := wl[i].(isRegistered := true, passwordHash := Some(hash),
                                       passwordPlain := Some(password), registeredAt := Some(now))])
  }

  /** Registration succeeds at most once per email: a second attempt, with
      any password, is refused and changes nothing. */
  lemma {:induction false} RegisterAtMostOnce(wl: seq<WhitelistRecord>, email: string, p1: string, h1: string,
                                              t1: int, p2: string, h2: string, t2: int)
    requires Register(wl, email, p1, h1, t1).0 == Registered
    ensures var wl1 := Register(wl, email, p1, h1, t1).1;
      Register(wl1, email, p2, h2, t2) == (AlreadyRegistered, wl1)
  {
    var i := FindByEmail(wl, email).value;
    var wl1 := Register(wl, email, p1, h1, t1).1;
    assert wl1[i].email == email;
    assert forall j :: 0 <= j < i ==> wl1[j].email != email;
    assert FindByEmail(wl1, email) == Some(i);
  }

  // ---------------------------------------------------------------------------
  // Whitelist additions and results access
  // ---------------------------------------------------------------------------

  datatype WhitelistReply = WhitelistAdded(entry: WhitelistRecord) | WhitelistForbidden

  /** `POST /admin/elections/:id/whitelist` by `caller`. */
  function AddWhitelist(elections: seq<Election>, wl: seq<WhitelistRecord>, caller: Claims,
                        electionId: string, email: string): (r: (WhitelistReply, seq<WhitelistRecord>))
    ensures !Owns(elections, caller.id, electionId) ==> r == (WhitelistForbidden, wl)
    ensures Owns(elections, caller.id, electionId) ==>
      r.0 == WhitelistAdded(NewWhitelistRecord(electionId, email)) &&
      r.1 == wl + [NewWhitelistRecord(electionId, email)]
  {
    if !Owns(elections, caller.id, electionId) then (WhitelistForbidden, wl)
    else var entry := NewWhitelistRecord(electionId, email); (WhitelistAdded(entry), wl + [entry])
  }

  /** The results route answers 200, 403, or fails because the election does
      not exist (the handler dereferences a null election and throws). */
  datatype ResultsReply = ResultsAllowed | ResultsForbidden | ElectionMissing

  /** `GET /admin/elections/:id/results` for an ADMIN or VOTER caller. */
  function ResultsAccess(elections: seq<Election>, caller: Claims, electionId: string): (r: ResultsReply)
    ensures r == ElectionMissing <==> FindElection(elections, electionId).None?
    ensures r == ResultsAllowed && caller.role == VOTER ==>
      FindElection(elections, electionId).value.status == ANNOUNCED
    ensures r == ResultsAllowed && caller.role == ADMIN ==>
      FindElection(elections, electionId).value.createdBy == caller.id
    ensures (FindElection(elections, electionId).Some? && caller.role == VOTER &&
             FindElection(elections, electionId).value.status == ANNOUNCED) ==> r == ResultsAllowed
    ensures (FindElection(elections, electionId).Some? && caller.role == ADMIN &&
             FindElection(elections, electionId).value.createdBy == caller.id) ==> r == ResultsAllowed
  {
    match FindElection(elections, electionId)
    case None => ElectionMissing
    case Some(e) =>
      if caller.role == VOTER && e.status != ANNOUNCED then ResultsForbidden
      else if caller.role == ADMIN && e.createdBy != caller.id then ResultsForbidden
      else ResultsAllowed
  }

  // ---------------------------------------------------------------------------
  // Voting
  // ---------------------------------------------------------------------------

  datatype VoteReply = VoteSuccess | VoteInvalid

  /** The records `insertMany` receives: one per entry of `selections`
      (position id, candidate id), in order. */
  function BallotRecords(electionId: string, email: string, selections: seq<(string, string)>)
    : (r: seq<VoteRecord>)
    ensures |r| == |selections|
    ensures forall i :: 0 <= i < |r| ==>
      r[i] == VoteRecord(electionId, selections[i].0, selections[i].1, email)
  {
    seq(|selections|, i requires 0 <= i < |selections| =>
      VoteRecord(electionId, selections[i].0, selections[i].1, email))
  }

  /** The database as the vote handler sees it. */
  datatype Tables = Tables(whitelist: seq<WhitelistRecord>, votes: seq<VoteRecord>)

  /** `POST /voter/vote` for the voter whose token carries `email`. */
  function CastVote(t: Tables, email: string, electionId: string, selections: seq<(string, string)>)
    : (r: (VoteReply, Tables))
    ensures var f := FindEntry(t.whitelist, email, electionId);
      (r.0 == VoteInvalid <==> f.None? || t.whitelist[f.value].hasVoted)
    ensures r.0 == VoteInvalid ==> r.1 == t
    ensures r.0 == VoteSuccess ==>
      var i := FindEntry(t.whitelist, email, electionId).value;
      && r.1.votes == t.votes + BallotRecords(electionId, email, selections)
      && r.1.whitelist == t.whitelist[i := t.whitelist[i].(hasVoted := true)]
  {
    match FindEntry(t.whitelist, email, electionId)
    case None => (VoteInvalid, t)
    case Some(i) =>
      if t.whitelist[i].hasVoted then (VoteInvalid, t)
      else (VoteSuccess, Tables(t.whitelist[i := t.whitelist[i].(hasVoted := true)],
                                t.votes + BallotRecords(electionId, email, selections)))
  }

  /** Number of vote records attributed to a voter in an election. */
  function VotesBy(votes: seq<VoteRecord>, email: string, electionId: string): nat
  {
    if votes == [] then 0
    else VotesBy(votes[..|votes| - 1], email, electionId) +
         (if votes[|votes| - 1].voterEmail == email && votes[|votes| - 1].electionId == electionId then 1 else 0)
  }

  lemma {:induction false} VotesByAppend(a: seq<VoteRecord>, b: seq<VoteRecord>, email: string, electionId: string)
    ensures VotesBy(a + b, email, electionId) == VotesBy(a, email, electionId) + VotesBy(b, email, electionId)
    decreases |b|
  {
    if b != [] {
      assert (a + b)[..|a + b| - 1] == a + b[..|b| - 1];
      VotesByAppend(a, b[..|b| - 1], email, electionId);
    } else {
      assert a + b == a;
    }
  }

  lemma {:induction false} VotesByBallot(electionId: string, email: string, selections: seq<(string, string)>)
    ensures VotesBy(BallotRecords(electionId, email, selections), email, electionId) == |selections|
    decreases |selections|
  {
    if selections != [] {
      var n := |selections| - 1;
      assert BallotRecords(electionId, email, selections)[..n] == BallotRecords(electionId, email, selections[..n]);
      VotesByBallot(electionId, email, selections[..n]);
    }
  }

  /** Two votes in a row by one voter: the second is refused and changes
      nothing, and the first adds exactly its selections to the voter's
      count (`FirstBallotCounted` gives the total under the invariant). */
  lemma {:induction false} SecondVoteRejected(t: Tables, email: string, electionId: string,
                                              s1: seq<(string, string)>, s2: seq<(string, string)>)
    requires CastVote(t, email, electionId, s1).0 == VoteSuccess
    ensures var t1 := CastVote(t, email, electionId, s1).1;
      && CastVote(t1, email, electionId, s2) == (VoteInvalid, t1)
      && VotesBy(t1.votes, email, electionId) == VotesBy(t.votes, email, electionId) + |s1|
  {
    var i := FindEntry(t.whitelist, email, electionId).value;
    var t1 := CastVote(t, email, electionId, s1).1;
    FindEntryStable(t.whitelist, t1.whitelist, email, electionId);
    VotesByAppend(t.votes, BallotRecords(electionId, email, s1), email, electionId);
    VotesByBallot(electionId, email, s1);
  }

  /** No record in `votes` belongs to the voter and election: none is counted. */
  lemma {:induction false} VotesByNone(votes: seq<VoteRecord>, email: string, electionId: string)
    requires forall v :: v in votes ==> !(v.voterEmail == email && v.electionId == electionId)
    ensures VotesBy(votes, email, electionId) == 0
    decreases |votes|
  {
    if votes != [] {
      var n := |votes| - 1;
      assert forall v :: v in votes[..n] ==> v in votes;
      assert votes[n] in votes;
      VotesByNone(votes[..n], email, electionId);
    }
  }

  /** Under the vote invariant, the first accepted ballot is all that is
      counted for the voter: the records attributed to them are exactly
      its selections, and a second ballot is refused. */
  lemma {:induction false} FirstBallotCounted(t: Tables, email: string, electionId: string,
                                              s1: seq<(string, string)>, s2: seq<(string, string)>)
    requires VotesAccounted(t)
    requires CastVote(t, email, electionId, s1).0 == VoteSuccess
    ensures var t1 := CastVote(t, email, electionId, s1).1;
      && CastVote(t1, email, electionId, s2) == (VoteInvalid, t1)
      && VotesBy(t1.votes, email, electionId) == |s1|
  {
    NotVotedMeansNoVotes(t, email, electionId);
    VotesByNone(t.votes, email, electionId);
    SecondVoteRejected(t, email, electionId, s1, s2);
  }

  /** The vote invariant: every vote record belongs to a voter whose
      whitelist row (the one the handler finds) is marked as voted. */
  ghost predicate VotesAccounted(t: Tables) {
    forall v :: v in t.votes ==>
      FindEntry(t.whitelist, v.voterEmail, v.electionId).Some? &&
      t.whitelist[FindEntry(t.whitelist, v.voterEmail, v.electionId).value].hasVoted
  }

  /** A voter whose row is not marked has no votes recorded, so an accepted
      ballot is never counted twice. */
  lemma NotVotedMeansNoVotes(t: Tables, email: string, electionId: string)
    requires VotesAccounted(t)
    requires FindEntry(t.whitelist, email, electionId).Some?
    requires !t.whitelist[FindEntry(t.whitelist, email, electionId).value].hasVoted
    ensures forall v :: v in t.votes ==> !(v.voterEmail == email && v.electionId == electionId)
  {
  }

  lemma {:induction false} CastVoteKeepsInvariant(t: Tables, email: string, electionId: string,
                                                  selections: seq<(string, string)>)
    requires VotesAccounted(t)
    ensures VotesAccounted(CastVote(t, email, electionId, selections).1)
  {
    var r := CastVote(t, email, electionId, selections);
    if r.0 == VoteSuccess {
      var i := FindEntry(t.whitelist, email, electionId).value;
      var t1 := r.1;
      forall v | v in t1.votes
        ensures FindEntry(t1.whitelist, v.voterEmail, v.electionId).Some? &&
                t1.whitelist[FindEntry(t1.whitelist, v.voterEmail, v.electionId).value].hasVoted
      {
        if v in t.votes {
          FindEntryStable(t.whitelist, t1.whitelist, v.voterEmail, v.electionId);
        } else {
          var k :| 0 <= k < |selections| && v == BallotRecords(electionId, email, selections)[k];
          FindEntryStable(t.whitelist, t1.whitelist, email, electionId);
        }
      }
    }
  }

  lemma {:induction false} RegisterKeepsInvariant(t: Tables, email: string, password: string, hash: string, now: int)
    requires VotesAccounted(t)
    ensures VotesAccounted(Tables(Register(t.whitelist, email, password, hash, now).1, t.votes))
  {
    var wl1 := Register(t.whitelist, email, password, hash, now).1;
    forall v | v in t.votes
      ensures FindEntry(wl1, v.voterEmail, v.electionId).Some? &&
              wl1[FindEntry(wl1, v.voterEmail, v.electionId).value].hasVoted
    {
      FindEntryStable(t.whitelist, wl1, v.voterEmail, v.electionId);
    }
  }

  lemma {:induction false} AddWhitelistKeepsInvariant(elections: seq<Election>, t: Tables, caller: Claims,
                                                      electionId: string, email: string)
    requires VotesAccounted(t)
    ensures VotesAccounted(Tables(AddWhitelist(elections, t.whitelist, caller, electionId, email).1, t.votes))
  {
    var wl1 := AddWhitelist(elections, t.whitelist, caller, electionId, email).1;
    forall v | v in t.votes
      ensures FindEntry(wl1, v.voterEmail, v.electionId).Some? &&
              wl1[FindEntry(wl1, v.voterEmail, v.electionId).value].hasVoted
    {
      FindEntryStable(t.whitelist, wl1, v.voterEmail, v.electionId);
    }
  }

  // ---------------------------------------------------------------------------
  // The server's database
  // ---------------------------------------------------------------------------

  class Backend {
    var accounts: seq<Account>
    var elections: seq<Election>
    var whitelist: seq<WhitelistRecord>
    var votes: seq<VoteRecord>

    ghost predicate Valid()
      reads this
    {
      VotesAccounted(Tables(whitelist, votes))
    }

    constructor (accounts: seq<Account>)
      ensures Valid()
      ensures this.accounts == accounts && elections == [] && whitelist == [] && votes == []
    {
      this.accounts := accounts;
      elections := [];
      whitelist := [];
      votes := [];
    }

    /** The admin login route over the stored accounts: a session is only
        ever opened for a stored, active account. */
    function Login(email: string, password: string, matches: (string, string) -> bool): (r: LoginReply)
      reads this
      ensures r == AdminLogin(email, password, accounts, matches)
      ensures r.AccountSession? ==> r.account in accounts && r.account.isActive
    {
      AdminLogin(email, password, accounts, matches)
    }

    /** `POST /admin/elections`: the election is owned by the caller and
        starts NOT_STARTED unless the request body names a status. */
    method CreateElection(caller: Claims, id: string, title: string, status: Option<ElectionStatus>)
      returns (e: Election)
      requires Valid()
      modifies this`elections
      ensures Valid()
      ensures e == Election(id, title, if status.Some? then status.value else DefaultStatus, caller.id)
      ensures elections == old(elections) + [e]
      ensures Owns(elections, caller.id, id)
    {
      e := Election(id, title, if status.Some? then status.value else NOT_STARTED, caller.id);
      elections := elections + [e];
      assert e in elections;
    }

    method RegisterVoter(email: string, password: string, hash: string, now: int) returns (reply: RegisterReply)
      requires Valid()
      modifies this`whitelist
      ensures Valid()
      ensures (reply, whitelist) == Register(old(whitelist), email, password, hash, now)
    {
      RegisterKeepsInvariant(Tables(whitelist, votes), email, password, hash, now);
      var found := FindByEmail(whitelist, email);
      if found.None? {
        return NotAuthorized;
      }
      var i := found.value;
      if whitelist[i].isRegistered {
        return AlreadyRegistered;
      }
      whitelist := whitelist[i := whitelist[i].(passwordHash := Some(hash), passwordPlain := Some(password),
                                                isRegistered := true, registeredAt := Some(now))];
      reply := Registered;
    }

    method AddToWhitelist(caller: Claims, electionId: string, email: string) returns (reply: WhitelistReply)
      requires Valid()
      modifies this`whitelist
      ensures Valid()
      ensures (reply, whitelist) == AddWhitelist(elections, old(whitelist), caller, electionId, email)
    {
      AddWhitelistKeepsInvariant(elections, Tables(whitelist, votes), caller, electionId, email);
      if !Owns(elections, caller.id, electionId) {
        return WhitelistForbidden;
      }
      var entry := NewWhitelistRecord(electionId, email);
      whitelist := whitelist + [entry];
      reply := WhitelistAdded(entry);
    }

    /** The results route over the stored elections: an admin is let in
        only to an election they own, by the same test as whitelist additions. */
    function Results(caller: Claims, electionId: string): (r: ResultsReply)
      reads this
      ensures r == ResultsAccess(elections, caller, electionId)
      ensures r == ResultsAllowed && caller.role == ADMIN ==> Owns(elections, caller.id, electionId)
    {
      var r := ResultsAccess(elections, caller, electionId);
      if r == ResultsAllowed && caller.role == ADMIN then
        assert FindElection(elections, electionId).value in elections;
        r
      else r
    }

    /** The vote handler: check the voter's row, insert one record per
        selection, then mark the row. */
    method Vote(caller: Claims, electionId: string, selections: seq<(string, string)>) returns (reply: VoteReply)
      requires Valid()
      modifies this`whitelist, this`votes
      ensures Valid()
      ensures (reply, Tables(whitelist, votes)) ==
              CastVote(Tables(old(whitelist), old(votes)), caller.email, electionId, selections)
    {
      CastVoteKeepsInvariant(Tables(whitelist, votes), caller.email, electionId, selections);
      var found := FindEntry(whitelist, caller.email, electionId);
      if found.None? || whitelist[found.value].hasVoted {
        return VoteInvalid;
      }
      var i := found.value;
      votes := votes + BallotRecords(electionId, caller.email, selections);
      whitelist := whitelist[i := whitelist[i].(hasVoted := true)];
      reply := VoteSuccess;
    }
  }
}
