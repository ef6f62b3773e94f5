/** The backend session handlers (backend/controllers/authController.js): `register`, `login`
    and `refreshToken` as a state machine over the user collection. Every user record has one
    refresh-token slot; a successful login or refresh overwrites it, so an earlier token stops
    being accepted.

    JWT signing is abstracted: the tokens a handler would issue at this moment are passed in.
    JWT verification under the refresh secret is the store's fixed `verifyRefresh`, and the User
    model's `matchPassword` is its fixed `passwordMatches`. */
module AuthController {
  import opened Common

  type Token = string

  const UserExists := "User already exists"
  const ServerError := "Server error"
  const InvalidCredentials := "Invalid email or password"
  const TokenRequired := "Refresh token is required"
  const InvalidRefresh := "Invalid refresh token"
  const InvalidOrExpired := "Invalid or expired refresh token"

  /** The role the client's User type allows; the User model assigns it to new accounts. */
  const DefaultRole := "citizen"

  /** One document of the user collection. `password` is the value handed to `User.create`. */
  datatype UserRecord = UserRecord(
    firstName: string, lastName: string, email: string, password: string,
    phone: Option<string>, address: Option<string>, avatar: Option<string>,
    role: string, refreshToken: Option<Token>)

  /** The profile a response carries. It has no password, address or token field. */
  datatype UserSummary = UserSummary(
    id: UserId, firstName: string, lastName: string, email: string,
    phone: Option<string>, avatar: Option<string>, role: string)

  /** The text fields of the multipart registration body. */
  datatype RegisterRequest = RegisterRequest(
    firstName: string, lastName: string, email: string, password: string,
    phone: Option<string>, address: Option<string>)

  datatype Session = Session(user: UserSummary, token: Token, refreshToken: Token)
  datatype TokenPair = TokenPair(token: Token, refreshToken: Token)

  type Users = map<UserId, UserRecord>

  function Summary(id: UserId, u: UserRecord): UserSummary {
    UserSummary(id, u.firstName, u.lastName, u.email, u.phone, u.avatar, u.role)
  }

  /** `User.findOne({ email })` finds a document. */
  predicate EmailTaken(users: Users, email: string) {
    exists id :: id in users && users[id].email == email
  }

  predicate EmailsUnique(users: Users) {
    forall a, b :: a in users && b in users && users[a].email == users[b].email ==> a == b
  }

  /** Some account has this email and the password matches it. */
  predicate Authenticates(users: Users, passwordMatches: (string, string) -> bool, email: string, password: string) {
    exists id :: id in users && users[id].email == email && passwordMatches(users[id].password, password)
  }

  /** The record `register` hands to `User.create`; it has no refresh token yet. */
  function NewUser(req: RegisterRequest, avatar: Option<string>): UserRecord {
    UserRecord(req.firstName, req.lastName, req.email, req.password, req.phone, req.address,
               avatar, DefaultRole, None)
  }

  /** The avatar URL stored for a registration: null without a file, else the uploaded URL. */
  function AvatarUrl(upload: Option<UploadResult>): (url: Option<string>)
    requires upload != Some(UploadFailed)
    ensures url.None? <==> upload.None?
    ensures upload.Some? ==> url == Some(upload.value.secureUrl)
  {
    match upload
    case None => None
    case Some(u) => Some(u.secureUrl)
  }

  /** `refreshToken` accepts `t`: it verifies to a user that still exists and whose stored
      slot holds exactly `t`. */
  predicate IsCurrent(users: Users, verify: Token -> Option<UserId>, t: Token) {
    verify(t).Some? && verify(t).value in users && users[verify(t).value].refreshToken == Some(t)
  }

  /** `user.refreshToken = t; await user.save()`. */
  function Rotate(users: Users, id: UserId, t: Token): Users
    requires id in users
  {
    users[id := users[id].(refreshToken := Some(t))]
  }

  /** After a rotation to `t`, the user's other tokens are rejected, the new one is accepted
      when it verifies to that user, and what every other user's tokens do is unchanged. */
  lemma RotateSupersedes(users: Users, verify: Token -> Option<UserId>, id: UserId, t: Token, u: Token)
    requires id in users
    ensures verify(u) == Some(id) && u != t ==> !IsCurrent(Rotate(users, id, t), verify, u)
    ensures verify(u) == Some(id) && u == t ==> IsCurrent(Rotate(users, id, t), verify, u)
    ensures verify(u) != Some(id) ==> (IsCurrent(Rotate(users, id, t), verify, u) <==> IsCurrent(users, verify, u))
  {
  }

  /** At most one refresh token per user is accepted at any time. */
  lemma OneCurrentTokenPerUser(users: Users, verify: Token -> Option<UserId>, t: Token, u: Token)
    requires IsCurrent(users, verify, t) && IsCurrent(users, verify, u)
    requires verify(t) == verify(u)
    ensures t == u
  {
  }

  /** A rotation changes no e-mail address, so uniqueness of addresses survives it. */
  lemma RotateKeepsEmails(users: Users, id: UserId, t: Token)
    requires id in users
    ensures Rotate(users, id, t).Keys == users.Keys
    ensures EmailsUnique(users) ==> EmailsUnique(Rotate(users, id, t))
  {
  }

  /** The user collection together with the process-wide verification and password checks. */
  class UserStore {
    var users: Users
    /** Stands in for the database's fresh `_id`. */
    var nextId: UserId
    const verifyRefresh: Token -> Option<UserId>
    const passwordMatches: (string, string) -> bool

    ghost predicate Valid()
      reads this
    {
      && (forall id :: id in users ==> id < nextId)
      && EmailsUnique(users)
    }

    constructor (verifyRefresh: Token -> Option<UserId>, passwordMatches: (string, string) -> bool)
      ensures Valid()
      ensures users == map[] && nextId == 0
      ensures this.verifyRefresh == verifyRefresh && this.passwordMatches == passwordMatches
    {
      users := map[];
      nextId := 0;
      this.verifyRefresh := verifyRefresh;
      this.passwordMatches := passwordMatches;
    }

    /** `User.findOne({ email })`. */
    method FindByEmail(email: string) returns (found: Option<UserId>)
      ensures found.Some? <==> EmailTaken(users, email)
      ensures found.Some? ==> found.value in users && users[found.value].email == email
    {
      if id :| id in users && users[id].email == email {
        found := Some(id);
      } else {
        found := None;
      }
    }

    /** `register`. A duplicate email is refused with 400 before anything else happens. The
        avatar, when a file came with the request, is uploaded before `User.create`, so a
        failed upload answers 500 and creates no record; `createAccepted` is whether
        `User.create` accepts the record (the User model's own validation is not part of this
        model), and a refusal answers 500 as well. */
    method Register(req: RegisterRequest, avatarUpload: Option<UploadResult>, createAccepted: bool)
      returns (r: Response<UserSummary>)
      requires Valid()
      modifies this
      ensures Valid()
      ensures EmailTaken(old(users), req.email) ==> r == Reject(400, UserExists) && users == old(users)
      ensures !EmailTaken(old(users), req.email) && (avatarUpload == Some(UploadFailed) || !createAccepted) ==>
                r == Reject(500, ServerError) && users == old(users)
      ensures r.Respond? <==> !EmailTaken(old(users), req.email) && avatarUpload != Some(UploadFailed) && createAccepted
      ensures r.Respond? ==>
                && r.status == 201
                && old(nextId) !in old(users)
                && users == old(users)[old(nextId) := NewUser(req, AvatarUrl(avatarUpload))]
                && r.body == Summary(old(nextId), users[old(nextId)])
    {
      var existing := FindByEmail(req.email);
      if existing.Some? {
        return Reject(400, UserExists);
      }
      var avatarUrl: Option<string> := None;
      if avatarUpload.Some? {
        if avatarUpload.value.UploadFailed? {
          return Reject(500, ServerError);
        }
        avatarUrl := Some(avatarUpload.value.secureUrl);
      }
      if !createAccepted {
        return Reject(500, ServerError);
      }
      var id := nextId;
      users := users[id := NewUser(req, avatarUrl)];
      nextId := nextId + 1;
      r := Respond(201, Summary(id, users[id]));
    }

    /** `login`. An unknown email and a wrong password give the same 401 answer. On success the
        user's refresh-token slot is overwritten with exactly the token returned; no other
        record changes. */
    method Login(email: string, password: string, issuedToken: Token, issuedRefresh: Token)
      returns (r: Response<Session>)
      requires Valid()
      modifies this
      ensures Valid()
      ensures r.Respond? <==> Authenticates(old(users), passwordMatches, email, password)
      ensures r.Reject? ==> r == Reject(401, InvalidCredentials) && users == old(users)
      ensures r.Respond? ==>
                var id := r.body.user.id;
                && id in old(users)
                && old(users)[id].email == email
                && r.status == 200
                && r.body == Session(Summary(id, old(users)[id]), issuedToken, issuedRefresh)
                && users == Rotate(old(users), id, issuedRefresh)
    {
      var found := FindByEmail(email);
      if found.Some? && passwordMatches(users[found.value].password, password) {
        var id := found.value;
        RotateKeepsEmails(users, id, issuedRefresh);
        users := Rotate(users, id, issuedRefresh);
        r := Respond(200, Session(Summary(id, users[id]), issuedToken, issuedRefresh));
      } else {
        r := Reject(401, InvalidCredentials);
      }
    }

    /** `refreshToken`. A missing or empty token answers 400; a token that fails verification,
        names no user, or is not the one stored answers 401; all three change nothing. A
        current token is rotated: the new refresh token is stored and returned, and when it
        differs from the one presented, the presented one is rejected from then on. */
    method Refresh(token: Option<Token>, issuedToken: Token, issuedRefresh: Token)
      returns (r: Response<TokenPair>)
      requires Valid()
      modifies this
      ensures Valid()
      ensures !Truthy(token) ==> r == Reject(400, TokenRequired) && users == old(users)
      ensures Truthy(token) && verifyRefresh(token.value).None? ==>
                r == Reject(401, InvalidOrExpired) && users == old(users)
      ensures Truthy(token) && verifyRefresh(token.value).Some? && !IsCurrent(old(users), verifyRefresh, token.value) ==>
                r == Reject(401, InvalidRefresh) && users == old(users)
      ensures Truthy(token) && IsCurrent(old(users), verifyRefresh, token.value) ==>
                && r == Respond(200, TokenPair(issuedToken, issuedRefresh))
                && users == Rotate(old(users), verifyRefresh(token.value).value, issuedRefresh)
      ensures r.Respond? && issuedRefresh != token.value ==> !IsCurrent(users, verifyRefresh, token.value)
    {
      if !Truthy(token) {
        return Reject(400, TokenRequired);
      }
      var decoded := verifyRefresh(token.value);
      if decoded.None? {
        return Reject(401, InvalidOrExpired);
      }
      var id := decoded.value;
      if id !in users || users[id].refreshToken != Some(token.value) {
        return Reject(401, InvalidRefresh);
      }
      RotateKeepsEmails(users, id, issuedRefresh);
      RotateSupersedes(users, verifyRefresh, id, issuedRefresh, token.value);
      users := Rotate(users, id, issuedRefresh);
      r := Respond(200, TokenPair(issuedToken, issuedRefresh));
    }
  }

  /** Register, log in, refresh once with the login's refresh token, then replay that same
      token: the first refresh succeeds and the replay is refused, provided the second refresh
      token differs from the first. */
  method ReplayAfterRotation(
    verify: Token -> Option<UserId>, matches: (string, string) -> bool, req: RegisterRequest,
    token1: Token, refresh1: Token, token2: Token, refresh2: Token, token3: Token, refresh3: Token)
    returns (first: Response<TokenPair>, replay: Response<TokenPair>)
    requires matches(req.password, req.password)
    requires verify(refresh1) == Some(0)
    requires refresh1 != "" && refresh1 != refresh2
    ensures first == Respond(200, TokenPair(token2, refresh2))
    ensures replay == Reject(401, InvalidRefresh)
  {
    var store := new UserStore(verify, matches);
    var registered := store.Register(req, None, true);
    var session := store.Login(req.email, req.password, token1, refresh1);
    first := store.Refresh(Some(refresh1), token2, refresh2);
    replay := store.Refresh(Some(refresh1), token3, refresh3);
  }
}
