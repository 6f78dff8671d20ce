/**
 * The account routes (server/src/routes/auth.py) over the `users` table: registration,
 * login with a bearer token, and the profile the dashboard reads back from `/me`.
 * Password hashing, password checking, token encoding and the free-licence service are
 * outside this model and come in as parameters.
 */
module Accounts {
  import opened Wrappers
  import opened Text
  import opened Http
  import opened Tables

  /** The licence row joined to a user. */
  datatype LicenseRecord = LicenseRecord(tierId: string, status: string, trialEndsAt: Option<int>, expiresAt: Option<int>)

  datatype UserRecord = UserRecord(
    id: int, email: string, hashedPassword: string, fullName: Option<string>,
    isActive: bool, isVerified: bool, createdAt: int, lastLoginAt: Option<int>,
    license: Option<LicenseRecord>)

  datatype UserCreate = UserCreate(email: string, password: string, fullName: Option<string>)
  datatype LoginRequest = LoginRequest(email: string, password: string)

  /** The claims put into an access token, and how long it lives. */
  datatype Claims = Claims(sub: string, email: string, expireMinutes: int)
  datatype Token = Token(accessToken: string, tokenType: string)

  /** A JSON value of the `/me` response body. */
  datatype Field = FInt(i: int) | FStr(s: string) | FBool(b: bool) | FNull | FObject(fields: map<string, Field>)

  const EmailTaken := "Email already registered"
  const BadCredentials := "Incorrect email or password"
  const AccountDisabled := "Account is disabled"
  const BearerScheme := "bearer"

  function WithEmail(email: string): UserRecord -> bool
  {
    (u: UserRecord) => u.email == email
  }

  predicate UniqueIds(users: seq<UserRecord>)
  {
    forall i, j :: 0 <= i < j < |users| ==> users[i].id != users[j].id
  }

  /** The `unique=True` constraint on `users.email`. */
  predicate UniqueEmails(users: seq<UserRecord>)
  {
    forall i, j :: 0 <= i < j < |users| ==> users[i].email != users[j].email
  }

  /** The 401 both unknown addresses and wrong passwords get, asking for a bearer token. */
  function CredentialsRejected(): (e: HttpError)
    ensures e.status == Unauthorized && e.detail == BadCredentials
    ensures e.headers == map["WWW-Authenticate" := "Bearer"]
  {
    HttpError(Unauthorized, BadCredentials, map["WWW-Authenticate" := "Bearer"])
  }

  /**
   * The claims of a user's token: its subject reads back as the user's id. `expireMinutes`
   * is the `ACCESS_TOKEN_EXPIRE_MINUTES` setting (by default `Config.DefaultAccessTokenExpireMinutes`).
   */
  function TokenClaims(user: UserRecord, expireMinutes: int): (c: Claims)
    ensures ParseInt(c.sub) == Some(user.id)
    ensures c.email == user.email && c.expireMinutes == expireMinutes
  {
    IntToStringRoundTrip(user.id);
    Claims(IntToString(user.id), user.email, expireMinutes)
  }

  /** The bearer token handed back by a successful login. */
  function IssueToken(user: UserRecord, expireMinutes: int, encode: Claims -> string): (t: Token)
    ensures t.tokenType == BearerScheme && t.accessToken == encode(TokenClaims(user, expireMinutes))
  {
    Token(encode(TokenClaims(user, expireMinutes)), BearerScheme)
  }

  /** The licence part of `/me`: those four fields. */
  function LicenseObject(l: LicenseRecord): (r: map<string, Field>)
    ensures r.Keys == {"tier_id", "status", "trial_ends_at", "expires_at"}
  {
    map["tier_id" := FStr(l.tierId), "status" := FStr(l.status),
        "trial_ends_at" := OptionalInt(l.trialEndsAt), "expires_at" := OptionalInt(l.expiresAt)]
  }

  function OptionalInt(t: Option<int>): Field
  {
    if t.Some? then FInt(t.value) else FNull
  }

  function OptionalStr(t: Option<string>): Field
  {
    if t.Some? then FStr(t.value) else FNull
  }

  const ProfileKeys: set<string> := {"id", "email", "full_name", "is_active", "is_verified", "created_at", "last_login_at"}

  /** `get_me`: the profile fields, plus `license` exactly when the user has one. */
  function MeResponse(u: UserRecord): (r: map<string, Field>)
    ensures "license" in r <==> u.license.Some?
    ensures r.Keys == ProfileKeys + (if u.license.Some? then {"license"} else {})
    ensures u.license.Some? ==> r["license"].FObject? && r["license"].fields == LicenseObject(u.license.value)
    ensures r["id"] == FInt(u.id) && r["email"] == FStr(u.email)
    ensures r["full_name"] == OptionalStr(u.fullName) && r["is_active"] == FBool(u.isActive)
    ensures r["is_verified"] == FBool(u.isVerified) && r["created_at"] == FInt(u.createdAt)
    ensures r["last_login_at"] == OptionalInt(u.lastLoginAt)
  {
    var profile := map["id" := FInt(u.id), "email" := FStr(u.email), "full_name" := OptionalStr(u.fullName),
                       "is_active" := FBool(u.isActive), "is_verified" := FBool(u.isVerified),
                       "created_at" := FInt(u.createdAt), "last_login_at" := OptionalInt(u.lastLoginAt)];
    if u.license.Some? then profile["license" := FObject(LicenseObject(u.license.value))] else profile
  }

  function ReadOptionalInt(f: Field): Option<int>
  {
    if f.FInt? then Some(f.i) else None
  }

  /** A client's reading of the `license` key of a `/me` body, as the dashboard's `User` type does. */
  function ReadLicense(body: map<string, Field>): Option<LicenseRecord>
  {
    if "license" in body && body["license"].FObject? then
      var o := body["license"].fields;
      if "tier_id" in o && o["tier_id"].FStr? && "status" in o && o["status"].FStr?
         && "trial_ends_at" in o && "expires_at" in o
      then Some(LicenseRecord(o["tier_id"].s, o["status"].s, ReadOptionalInt(o["trial_ends_at"]), ReadOptionalInt(o["expires_at"])))
      else None
    else None
  }

  /** The licence a client reads from `/me` is the user's own, and absent exactly when the user has none. */
  lemma MeLicenseReadsBack(u: UserRecord)
    ensures ReadLicense(MeResponse(u)) == u.license
  {
    var r := MeResponse(u);
    if u.license.Some? {
      var l := u.license.value;
      var o := LicenseObject(l);
      assert r["license"] == FObject(o);
      assert ReadOptionalInt(OptionalInt(l.trialEndsAt)) == l.trialEndsAt;
      assert ReadOptionalInt(OptionalInt(l.expiresAt)) == l.expiresAt;
    } else {
      assert "license" !in r;
    }
  }

  class UserTable {
    var users: seq<UserRecord>
    /** The id the database assigns to the next user. */
    var nextId: int

    ghost predicate Valid()
      reads this
    {
      UniqueIds(users) && UniqueEmails(users) && forall i :: 0 <= i < |users| ==> users[i].id < nextId
    }

    constructor ()
      ensures Valid() && users == []
    {
      users, nextId := [], 1;
    }

    /**
     * `register`: 400 if the address is taken, leaving the table alone; otherwise one new,
     * active, unverified user holding the password's hash, with the free licence the
     * licence service created for it.
     */
    method Register(data: UserCreate, hash: string -> string, freeLicense: LicenseRecord, now: int)
      returns (r: Result<UserRecord, HttpError>)
      requires Valid()
      modifies this
      ensures Valid()
      ensures (exists i :: 0 <= i < |old(users)| && old(users)[i].email == data.email) ==>
        r == Err(Raise(BadRequest, EmailTaken)) && users == old(users) && nextId == old(nextId)
      ensures (forall i :: 0 <= i < |old(users)| ==> old(users)[i].email != data.email) ==>
        && r.Ok? && users == old(users) + [r.value] && nextId == old(nextId) + 1
        && r.value == UserRecord(old(nextId), data.email, hash(data.password), data.fullName,
                                 true, false, now, None, Some(freeLicense))
    {
      var existing := First(users, WithEmail(data.email));
      if existing.Some? {
        return Err(Raise(BadRequest, EmailTaken));
      }
      var user := UserRecord(nextId, data.email, hash(data.password), data.fullName, true, false, now, None, Some(freeLicense));
      users := users + [user];
      nextId := nextId + 1;
      r := Ok(user);
    }

    /**
     * `login`: the same 401 for an unknown address and a wrong password; 403 for a
     * disabled account with the right password; otherwise the login time is recorded and
     * a bearer token for the user is returned.
     */
    method Login(data: LoginRequest, verify: (string, string) -> bool, encode: Claims -> string,
                 expireMinutes: int, now: int)
      returns (r: Result<Token, HttpError>)
      requires Valid()
      modifies this
      ensures Valid() && nextId == old(nextId) && |users| == |old(users)|
      ensures First(old(users), WithEmail(data.email)).None? ==>
        r == Err(CredentialsRejected()) && users == old(users)
      ensures First(old(users), WithEmail(data.email)).Some? ==>
        var k := First(old(users), WithEmail(data.email)).value;
        var u := old(users)[k];
        && (!verify(data.password, u.hashedPassword) ==> r == Err(CredentialsRejected()) && users == old(users))
        && (verify(data.password, u.hashedPassword) && !u.isActive ==>
              r == Err(Raise(Forbidden, AccountDisabled)) && users == old(users))
        && (verify(data.password, u.hashedPassword) && u.isActive ==>
              users == old(users)[k := u.(lastLoginAt := Some(now))] && r == Ok(IssueToken(u, expireMinutes, encode)))
    {
      var found := First(users, WithEmail(data.email));
      if found.None? || !verify(data.password, users[found.value].hashedPassword) {
        return Err(CredentialsRejected());
      }
      var k := found.value;
      var user := users[k];
      if !user.isActive {
        return Err(Raise(Forbidden, AccountDisabled));
      }
      users := users[k := user.(lastLoginAt := Some(now))];
      r := Ok(IssueToken(user, expireMinutes, encode));
    }
  }
}
