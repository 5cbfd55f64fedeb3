/**
 * The mock authentication service of the frontend (the request handlers the mock
 * service worker installs): a one-user table and the single current token pair.
 * Logging is left out; clock readings are parameters.
 */
module MockHandlers {
  import opened Wrappers
  import opened Strings
  import opened Identity

  /** A row of the user table; the password never leaves the server. */
  datatype Account = Account(id: string, email: string, password: string, name: string, createdAt: string)

  /** The fields `GET`/`PUT /users/me` answer with. */
  function PublicView(a: Account): User {
    User(a.id, a.email, a.name, a.createdAt)
  }

  /** What a handler answers: a token pair, the current user, or an error status with its text. */
  datatype Reply =
    | Tokens(accessToken: string, refreshToken: string)
    | Me(user: User)
    | Error(status: int, text: string)

  /**
   * The shape of both tokens `generateTokens` builds: `{prefix}{user.id}-{Date.now()}`.
   * The reading can be read back from the end of the token.
   */
  function TokenFor(prefix: string, id: string, now: nat): (t: string)
    ensures prefix <= t && |t| > |prefix| + |id| + 1
    ensures AllDigits(t[|prefix| + |id| + 1..]) && DecimalValue(t[|prefix| + |id| + 1..]) == now
  {
    DecimalRoundTrip(now);
    var t := prefix + id + "-" + NatToDecimal(now);
    assert t[|prefix| + |id| + 1..] == NatToDecimal(now);
    t
  }

  /** The access and refresh tokens for a user at a reading of `Date.now()`. */
  function AccessTokenFor(id: string, now: nat): string {
    TokenFor("access-token-", id, now)
  }

  function RefreshTokenFor(id: string, now: nat): string {
    TokenFor("refresh-token-", id, now)
  }

  /** An access token is never a refresh token: the two prefixes differ at the first character. */
  lemma AccessIsNotRefresh(id: string, a: nat, id': string, r: nat)
    ensures AccessTokenFor(id, a) != RefreshTokenFor(id', r)
  {
    assert AccessTokenFor(id, a)[0] == 'a' && RefreshTokenFor(id', r)[0] == 'r';
  }

  /** Tokens issued to one user at different milliseconds differ. */
  lemma AccessTokensDistinct(id: string, m: nat, n: nat)
    requires m != n
    ensures AccessTokenFor(id, m) != AccessTokenFor(id, n)
  {
    var k := |"access-token-"| + |id| + 1;
    assert DecimalValue(AccessTokenFor(id, m)[k..]) == m;
    assert DecimalValue(AccessTokenFor(id, n)[k..]) == n;
  }

  /** `users.find(u => u.email === email && u.password === password)`, as an index. */
  function FindUser(users: seq<Account>, email: Option<string>, password: Option<string>): (r: Option<nat>)
    ensures r.Some? ==> (
      && r.value < |users|
      && Some(users[r.value].email) == email && Some(users[r.value].password) == password
      && forall j :: 0 <= j < r.value ==> !(Some(users[j].email) == email && Some(users[j].password) == password))
    ensures r.None? ==> forall j :: 0 <= j < |users| ==> !(Some(users[j].email) == email && Some(users[j].password) == password)
    decreases |users|
  {
    if users == [] then None
    else if Some(users[0].email) == email && Some(users[0].password) == password then Some(0)
    else match FindUser(users[1..], email, password)
      case None => None
      case Some(i) => Some(i + 1)
  }

  /** `authHeader?.split(' ')[1]`: the second space-separated part of the header, if any. */
  function BearerToken(header: Option<string>): (r: Option<string>)
    ensures r.Some? <==> header.Some? && Occurrences(header.value, ' ') >= 1
    ensures r.Some? ==> ' ' !in r.value
  {
    if header.None? then None
    else
      var parts := Split(header.value, ' ');
      SplitCount(header.value, ' ');
      if |parts| < 2 then None else Some(parts[1])
  }

  /** The guard of both `/users/me` handlers: `!token || token !== accessToken` rejects. */
  predicate Authorized(header: Option<string>, current: string)
    ensures Authorized(header, current) ==>
      current != "" && ' ' !in current && header.Some? && Occurrences(header.value, ' ') >= 1
  {
    var token := BearerToken(header);
    Truthy(token) && token.value == current
  }

  /** Before any login the stored token is `''`, and no header passes. */
  lemma NothingAuthorizedBeforeLogin(header: Option<string>)
    ensures !Authorized(header, "")
  {
  }

  /** Exactly the header the profile page sends, `Bearer <token>`, is accepted for the stored token. */
  lemma {:induction false} BearerHeaderAccepted(token: string, current: string)
    requires token != "" && ' ' !in token
    ensures Authorized(Some("Bearer " + token), current) <==> token == current
  {
    assert "Bearer " + token == "Bearer" + [' '] + token;
    assert ' ' !in "Bearer";
    SplitAtSeparator("Bearer", ' ', token);
    SplitWithoutSeparator(token, ' ');
  }

  /** A header passes only if its second part is the stored token, which therefore is non-empty. */
  lemma AuthorizedMeansCurrent(header: Option<string>, current: string)
    requires Authorized(header, current)
    ensures current != "" && header.Some? && Split(header.value, ' ')[1] == current
  {
  }

  /** Issued tokens hold no space when the user id holds none, so they survive the header split. */
  lemma IssuedTokenHasNoSpace(id: string, now: nat)
    requires ' ' !in id
    ensures ' ' !in AccessTokenFor(id, now)
  {
    var d := NatToDecimal(now);
    assert AccessTokenFor(id, now) == "access-token-" + id + "-" + d;
    assert ' ' !in d by {
      forall i | 0 <= i < |d| ensures d[i] != ' ' { assert IsDigit(d[i]); }
    }
  }

  /** The handlers' shared state: the user table and the current token pair (`''` until a login). */
  class MockServer {
    var users: seq<Account>
    var accessToken: string
    var refreshToken: string

    /** The table always holds the seeded user, and the two tokens are issued together. */
    ghost predicate Valid()
      reads this
    {
      |users| >= 1 && (accessToken == "" <==> refreshToken == "")
    }

    /** The seeded table: one test user, created at the given time; no tokens issued. */
    constructor (createdAt: string)
      ensures Valid()
      ensures users == [Account("1", "test@example.com", "password123", "Test User", createdAt)]
      ensures accessToken == "" && refreshToken == ""
    {
      users := [Account("1", "test@example.com", "password123", "Test User", createdAt)];
      accessToken := "";
      refreshToken := "";
    }

    /** `generateTokens`: issues a new pair for `user` and makes it the stored pair. */
    method GenerateTokens(user: Account, accessNow: nat, refreshNow: nat) returns (r: Reply)
      requires Valid()
      modifies this
      ensures Valid() && users == old(users)
      ensures accessToken == AccessTokenFor(user.id, accessNow)
      ensures refreshToken == RefreshTokenFor(user.id, refreshNow)
      ensures r == Tokens(accessToken, refreshToken)
    {
      accessToken := AccessTokenFor(user.id, accessNow);
      refreshToken := RefreshTokenFor(user.id, refreshNow);
      r := Tokens(accessToken, refreshToken);
    }

    /** `POST /users/login`. */
    method Login(email: Option<string>, password: Option<string>, accessNow: nat, refreshNow: nat) returns (r: Reply)
      requires Valid()
      modifies this
      ensures Valid() && users == old(users)
      ensures match FindUser(old(users), email, password)
        case None =>
          r == Error(401, "Invalid credentials")
          && accessToken == old(accessToken) && refreshToken == old(refreshToken)
        case Some(i) =>
          accessToken == AccessTokenFor(old(users)[i].id, accessNow)
          && refreshToken == RefreshTokenFor(old(users)[i].id, refreshNow)
          && r == Tokens(accessToken, refreshToken)
    {
      var found := FindUser(users, email, password);
      if found.None? {
        return Error(401, "Invalid credentials");
      }
      r := GenerateTokens(users[found.value], accessNow, refreshNow);
    }

    /** `POST /users/refresh`: only the stored refresh token, once one was issued, gets a new pair. */
    method Refresh(presented: Option<string>, accessNow: nat, refreshNow: nat) returns (r: Reply)
      requires Valid()
      modifies this
      ensures Valid() && users == old(users)
      ensures presented != Some(old(refreshToken)) || old(refreshToken) == "" ==>
        r == Error(401, "Invalid refresh token")
        && accessToken == old(accessToken) && refreshToken == old(refreshToken)
      ensures presented == Some(old(refreshToken)) && old(refreshToken) != "" ==>
        accessToken == AccessTokenFor(users[0].id, accessNow)
        && refreshToken == RefreshTokenFor(users[0].id, refreshNow)
        && r == Tokens(accessToken, refreshToken)
    {
      if presented != Some(refreshToken) || refreshToken == "" {
        return Error(401, "Invalid refresh token");
      }
      r := GenerateTokens(users[0], accessNow, refreshNow);
    }

    /** `GET /users/me`: the first user's public fields, for the current bearer token only. */
    method GetMe(header: Option<string>) returns (r: Reply)
      requires Valid()
      ensures !Authorized(header, accessToken) ==> r == Error(401, "Unauthorized")
      ensures Authorized(header, accessToken) ==> r == Me(PublicView(users[0]))
    {
      if !Authorized(header, accessToken) {
        return Error(401, "Unauthorized");
      }
      r := Me(PublicView(users[0]));
    }

    /** `PUT /users/me`: authorization first, then a non-empty name renames the first user in place. */
    method PutMe(header: Option<string>, name: Option<string>) returns (r: Reply)
      requires Valid()
      modifies this
      ensures Valid() && accessToken == old(accessToken) && refreshToken == old(refreshToken)
      ensures !Authorized(header, old(accessToken)) ==> r == Error(401, "Unauthorized") && users == old(users)
      ensures Authorized(header, old(accessToken)) && !Truthy(name) ==>
        r == Error(400, "Name is required") && users == old(users)
      ensures Authorized(header, old(accessToken)) && Truthy(name) ==>
        users == old(users)[0 := old(users)[0].(name := name.value)]
        && r == Me(PublicView(users[0]))
    {
      if !Authorized(header, accessToken) {
        return Error(401, "Unauthorized");
      }
      if !Truthy(name) {
        return Error(400, "Name is required");
      }
      users := users[0 := users[0].(name := name.value)];
      r := Me(PublicView(users[0]));
    }
  }

  /** A rename followed by a read: the read reports the new name, and nothing but the name changed. */
  method RenameThenRead(server: MockServer, header: Option<string>, name: string) returns (put: Reply, get: Reply)
    requires server.Valid()
    requires Authorized(header, server.accessToken) && name != ""
    modifies server
    ensures server.Valid()
    ensures put.Me? && put == get && get.user.name == name
    ensures get.user == PublicView(old(server.users[0])).(name := name)
    ensures |server.users| == |old(server.users)|
    ensures forall i :: 1 <= i < |server.users| ==> server.users[i] == old(server.users[i])
  {
    put := server.PutMe(header, Some(name));
    get := server.GetMe(header);
  }

  /** The seeded scenario: the test user logs in and reads its profile with the returned token. */
  method LoginThenReadSeeded(createdAt: string, accessNow: nat, refreshNow: nat) returns (login: Reply, me: Reply)
    ensures login == Tokens(AccessTokenFor("1", accessNow), RefreshTokenFor("1", refreshNow))
    ensures me == Me(User("1", "test@example.com", "Test User", createdAt))
  {
    var server := new MockServer(createdAt);
    login := server.Login(Some("test@example.com"), Some("password123"), accessNow, refreshNow);
    IssuedTokenHasNoSpace("1", accessNow);
    BearerHeaderAccepted(login.accessToken, server.accessToken);
    me := server.GetMe(Some("Bearer " + login.accessToken));
  }

  /**
   * A wrong password on the seeded table is refused and issues nothing: both stored
   * tokens stay `''`, so even the token a successful login at that reading would
   * have issued is refused.
   */
  method WrongPasswordSeeded(createdAt: string, password: string, accessNow: nat, refreshNow: nat)
    returns (login: Reply, me: Reply, storedAccess: string, storedRefresh: string)
    requires password != "password123"
    ensures login == Error(401, "Invalid credentials")
    ensures storedAccess == "" && storedRefresh == ""
    ensures me == Error(401, "Unauthorized")
  {
    var server := new MockServer(createdAt);
    login := server.Login(Some("test@example.com"), Some(password), accessNow, refreshNow);
    storedAccess, storedRefresh := server.accessToken, server.refreshToken;
    NothingAuthorizedBeforeLogin(Some("Bearer " + AccessTokenFor("1", accessNow)));
    me := server.GetMe(Some("Bearer " + AccessTokenFor("1", accessNow)));
  }
}
