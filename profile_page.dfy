/**
 * The profile page (`/me`): loading the profile and renaming the user, each with
 * the "refresh once and retry once" rule on a 401, and the redirect of a signed-out
 * visitor. Server replies and the outcome of `refreshAccessToken()` are inputs, in
 * the order the page awaits them; rendering is left out.
 */
module ProfilePage {
  import opened Wrappers
  import opened Strings
  import opened Identity
  import AuthContext

  /** A response body as `response.json()` sees it: not JSON (it throws), or an object. */
  datatype Body = NotJson | Json(profile: User, message: string)

  /** What a `fetch` yields: a rejected promise, or a response. */
  datatype Reply = NetworkError | Answer(status: int, body: Body)

  /** `response.ok`. */
  predicate IsOk(status: int) {
    200 <= status <= 299
  }

  predicate IsOkJson(r: Reply) {
    r.Answer? && IsOk(r.status) && r.body.Json?
  }

  /**
   * What `await refreshAccessToken()` yields. `NotAFunction` is the provider as
   * written, which has no such member: the call throws a TypeError before any
   * request is sent.
   */
  datatype RefreshCall = NotAFunction | RefreshThrew | Refreshed(token: Option<string>)

  /** The requests the page sends, in order. */
  datatype Request = GetMe(bearer: string) | RefreshRequest | PutMe(bearer: string, name: string)

  function GetCount(r: Request): nat { if r.GetMe? then 1 else 0 }
  function PutCount(r: Request): nat { if r.PutMe? then 1 else 0 }
  function RefreshCount(r: Request): nat { if r.RefreshRequest? then 1 else 0 }

  function CountGets(rs: seq<Request>): nat {
    if rs == [] then 0 else GetCount(rs[0]) + CountGets(rs[1..])
  }

  function CountPuts(rs: seq<Request>): nat {
    if rs == [] then 0 else PutCount(rs[0]) + CountPuts(rs[1..])
  }

  function CountRefreshes(rs: seq<Request>): nat {
    if rs == [] then 0 else RefreshCount(rs[0]) + CountRefreshes(rs[1..])
  }

  lemma CountsOfTwo(a: Request, b: Request)
    ensures CountGets([a, b]) == GetCount(a) + GetCount(b)
    ensures CountPuts([a, b]) == PutCount(a) + PutCount(b)
    ensures CountRefreshes([a, b]) == RefreshCount(a) + RefreshCount(b)
  {
    assert [a, b][1..] == [b];
    assert [b][1..] == [];
    assert CountGets([b]) == GetCount(b) + CountGets([]);
    assert CountPuts([b]) == PutCount(b) + CountPuts([]);
    assert CountRefreshes([b]) == RefreshCount(b) + CountRefreshes([]);
  }

  lemma CountsOfThree(a: Request, b: Request, c: Request)
    ensures CountGets([a, b, c]) == GetCount(a) + GetCount(b) + GetCount(c)
    ensures CountPuts([a, b, c]) == PutCount(a) + PutCount(b) + PutCount(c)
    ensures CountRefreshes([a, b, c]) == RefreshCount(a) + RefreshCount(b) + RefreshCount(c)
  {
    assert [a, b, c][1..] == [b, c];
    CountsOfTwo(b, c);
  }

  /** Every PUT in `rs` carries `name`. */
  predicate PutsCarry(rs: seq<Request>, name: string) {
    forall i :: 0 <= i < |rs| && rs[i].PutMe? ==> rs[i].name == name
  }

  /** The first reply was a 401 and the refresh produced a usable token: the one case that retries. */
  predicate RetriesAfter(first: Reply, refresh: RefreshCall) {
    first.Answer? && first.status == 401 && refresh.Refreshed? && Truthy(refresh.token)
  }

  // ---------------------------------------------------------------------------
  // fetchProfile

  datatype FetchOutcome = Skipped | Loaded(profile: User) | LoggedOut

  datatype FetchFlow = FetchFlow(requests: seq<Request>, outcome: FetchOutcome)

  /** The decision tree of `fetchProfile` for the session's token and the replies it awaits. */
  function FetchProfileFlow(token: Option<string>, first: Reply, refresh: RefreshCall, retry: Reply): (f: FetchFlow)
    ensures !Truthy(token) <==> f.requests == []
    ensures !Truthy(token) <==> f.outcome == Skipped
    ensures Truthy(token) ==> f.requests[0] == GetMe(token.value)
    ensures CountGets(f.requests) <= 2 && CountRefreshes(f.requests) <= 1 && CountPuts(f.requests) == 0
    ensures CountGets(f.requests) == 2 <==> Truthy(token) && RetriesAfter(first, refresh)
    ensures CountGets(f.requests) == 2 ==>
      f.requests == [GetMe(token.value), RefreshRequest, GetMe(refresh.token.value)]
    ensures CountRefreshes(f.requests) == 1 <==>
      Truthy(token) && first.Answer? && first.status == 401 && !refresh.NotAFunction?
    ensures f.outcome.Loaded? <==>
      Truthy(token) && ((first.Answer? && first.status != 401 && IsOkJson(first))
                        || (RetriesAfter(first, refresh) && IsOkJson(retry)))
    ensures f.outcome.Loaded? ==> f.outcome.profile == (if IsOkJson(first) then first.body.profile else retry.body.profile)
  {
    if !Truthy(token) then FetchFlow([], Skipped)
    else
      var sent := [GetMe(token.value)];
      match first
      case NetworkError => FetchFlow(sent, LoggedOut)
      case Answer(status, body) =>
        if status == 401 then
          match refresh
          case NotAFunction => FetchFlow(sent, LoggedOut)
          case RefreshThrew =>
            CountsOfTwo(GetMe(token.value), RefreshRequest);
            FetchFlow([GetMe(token.value), RefreshRequest], LoggedOut)
          case Refreshed(newToken) =>
            CountsOfTwo(GetMe(token.value), RefreshRequest);
            if !Truthy(newToken) then FetchFlow([GetMe(token.value), RefreshRequest], LoggedOut)
            else
              var retried := [GetMe(token.value), RefreshRequest, GetMe(newToken.value)];
              CountsOfThree(GetMe(token.value), RefreshRequest, GetMe(newToken.value));
              if IsOkJson(retry) then FetchFlow(retried, Loaded(retry.body.profile))
              else FetchFlow(retried, LoggedOut)
        else if IsOk(status) && body.Json? then FetchFlow(sent, Loaded(body.profile))
        else FetchFlow(sent, LoggedOut)
  }

  /**
   * The refresh-once law: unauthorized on the first request and on the retry means
   * exactly two profile requests and one refresh, then logout.
   */
  lemma UnauthorizedTwiceLogsOut(token: string, newToken: string, b1: Body, b2: Body)
    requires token != "" && newToken != ""
    ensures var f := FetchProfileFlow(Some(token), Answer(401, b1), Refreshed(Some(newToken)), Answer(401, b2));
      f.requests == [GetMe(token), RefreshRequest, GetMe(newToken)] && f.outcome == LoggedOut
  {
  }

  /** With the provider as written, a 401 ends in logout and nothing is retried. */
  lemma AsWrittenFetchNeverRetries(token: Option<string>, first: Reply, retry: Reply)
    ensures var f := FetchProfileFlow(token, first, NotAFunction, retry);
      && CountGets(f.requests) <= 1 && CountRefreshes(f.requests) == 0
      && (Truthy(token) && first.Answer? && first.status == 401 ==> f.outcome == LoggedOut)
  {
  }

  /** Every way `fetchProfile` fails once it has a token ends in logout. */
  lemma FetchFailureLogsOut(token: Option<string>, first: Reply, refresh: RefreshCall, retry: Reply)
    requires Truthy(token)
    ensures var f := FetchProfileFlow(token, first, refresh, retry);
      f.outcome.Loaded? || f.outcome == LoggedOut
  {
  }

  // ---------------------------------------------------------------------------
  // handleUpdateName

  const EmptyNameError := "Name cannot be empty."
  const NotAuthenticatedError := "Not authenticated."
  const RetryFailedError := "Failed to update profile after token refresh."
  const RefreshFailedError := "Failed to refresh token and update profile."
  const UpdateFailedError := "Failed to update profile."
  const UnexpectedError := "An unexpected error occurred during update."
  const UpdatedMessage := "Profile updated successfully!"

  datatype UpdateOutcome = Failed(error: string) | Updated(profile: User)

  datatype UpdateFlow = UpdateFlow(requests: seq<Request>, outcome: UpdateOutcome)

  /** The error shown for a non-401 failure: the body's `message`, else a generic text. */
  function ServerError(body: Body): (e: string)
    ensures e != ""
  {
    match body
    case NotJson => UnexpectedError
    case Json(_, m) => if m != "" then m else UpdateFailedError
  }

  /**
   * The request part of `handleUpdateName` once the guards have passed: PUT the name
   * with the token, and on a 401 refresh once and retry once.
   */
  function PutFlow(name: string, token: string, first: Reply, refresh: RefreshCall, retry: Reply): (f: UpdateFlow)
    ensures |f.requests| >= 1 && f.requests[0] == PutMe(token, name)
    ensures PutsCarry(f.requests, name)
    ensures CountPuts(f.requests) <= 2 && CountRefreshes(f.requests) <= 1 && CountGets(f.requests) == 0
    ensures CountPuts(f.requests) == 2 <==> RetriesAfter(first, refresh)
    ensures CountPuts(f.requests) == 2 ==>
      f.requests == [PutMe(token, name), RefreshRequest, PutMe(refresh.token.value, name)]
    ensures f.outcome.Updated? <==>
      (first.Answer? && first.status != 401 && IsOkJson(first)) || (RetriesAfter(first, refresh) && IsOkJson(retry))
    ensures f.outcome.Failed? ==> f.outcome.error != ""
  {
    var sent := [PutMe(token, name)];
    match first
    case NetworkError => UpdateFlow(sent, Failed(UnexpectedError))
    case Answer(status, body) =>
      if status == 401 then
        match refresh
        case NotAFunction => UpdateFlow(sent, Failed(UnexpectedError))
        case RefreshThrew =>
          CountsOfTwo(PutMe(token, name), RefreshRequest);
          UpdateFlow([PutMe(token, name), RefreshRequest], Failed(UnexpectedError))
        case Refreshed(newToken) =>
          CountsOfTwo(PutMe(token, name), RefreshRequest);
          if !Truthy(newToken) then UpdateFlow([PutMe(token, name), RefreshRequest], Failed(RefreshFailedError))
          else
            var retried := [PutMe(token, name), RefreshRequest, PutMe(newToken.value, name)];
            CountsOfThree(PutMe(token, name), RefreshRequest, PutMe(newToken.value, name));
            match retry
            case NetworkError => UpdateFlow(retried, Failed(UnexpectedError))
            case Answer(s, b) =>
              if !IsOk(s) then UpdateFlow(retried, Failed(RetryFailedError))
              else if b.NotJson? then UpdateFlow(retried, Failed(UnexpectedError))
              else UpdateFlow(retried, Updated(b.profile))
      else if IsOk(status) then
        if body.NotJson? then UpdateFlow(sent, Failed(UnexpectedError))
        else UpdateFlow(sent, Updated(body.profile))
      else UpdateFlow(sent, Failed(ServerError(body)))
  }

  /** The decision tree of `handleUpdateName` for the typed name, the session's token and the replies. */
  function UpdateNameFlow(newName: string, token: Option<string>, first: Reply, refresh: RefreshCall, retry: Reply): (f: UpdateFlow)
    ensures Trim(newName) == "" ==> f == UpdateFlow([], Failed(EmptyNameError))
    ensures Trim(newName) != "" && !Truthy(token) ==> f == UpdateFlow([], Failed(NotAuthenticatedError))
    ensures Trim(newName) != "" && Truthy(token) ==> |f.requests| >= 1 && f.requests[0] == PutMe(token.value, newName)
    ensures PutsCarry(f.requests, newName)
    ensures CountPuts(f.requests) <= 2 && CountRefreshes(f.requests) <= 1 && CountGets(f.requests) == 0
    ensures CountPuts(f.requests) == 2 <==> Trim(newName) != "" && Truthy(token) && RetriesAfter(first, refresh)
    ensures f.outcome.Updated? <==>
      Trim(newName) != "" && Truthy(token)
      && ((first.Answer? && first.status != 401 && IsOkJson(first)) || (RetriesAfter(first, refresh) && IsOkJson(retry)))
    ensures f.outcome.Failed? ==> f.outcome.error != ""
  {
    if Trim(newName) == "" then UpdateFlow([], Failed(EmptyNameError))
    else if !Truthy(token) then UpdateFlow([], Failed(NotAuthenticatedError))
    else PutFlow(newName, token.value, first, refresh, retry)
  }

  /** A name of white space only is refused before the token is looked at, and nothing is sent. */
  lemma BlankNameRefusedFirst(newName: string, token: Option<string>, first: Reply, refresh: RefreshCall, retry: Reply)
    requires forall i :: 0 <= i < |newName| ==> IsJsWhitespace(newName[i])
    ensures UpdateNameFlow(newName, token, first, refresh, retry) == UpdateFlow([], Failed(EmptyNameError))
  {
    TrimEmptyIffBlank(newName);
  }

  /** On a 401 the update refreshes once; a failed retry or refresh is an error message, never more requests. */
  lemma UpdateAfter401(newName: string, token: string, b: Body, refresh: RefreshCall, retry: Reply)
    requires Trim(newName) != "" && token != ""
    ensures var f := UpdateNameFlow(newName, Some(token), Answer(401, b), refresh, retry);
      && (refresh == Refreshed(None) || refresh == Refreshed(Some("")) ==>
            f == UpdateFlow([PutMe(token, newName), RefreshRequest], Failed(RefreshFailedError)))
      && (RetriesAfter(Answer(401, b), refresh) && retry.Answer? && !IsOk(retry.status) ==>
            f.outcome == Failed(RetryFailedError) && |f.requests| == 3)
  {
    var f := UpdateNameFlow(newName, Some(token), Answer(401, b), refresh, retry);
    assert f == PutFlow(newName, token, Answer(401, b), refresh, retry);
    if RetriesAfter(Answer(401, b), refresh) && retry.Answer? && !IsOk(retry.status) {
      var retried := [PutMe(token, newName), RefreshRequest, PutMe(refresh.token.value, newName)];
      assert f == UpdateFlow(retried, Failed(RetryFailedError));
    }
  }

  /** With the provider as written, an unauthorized update is reported as an unexpected error. */
  lemma AsWrittenUpdateNeverRetries(newName: string, token: string, b: Body, retry: Reply)
    requires Trim(newName) != "" && token != ""
    ensures UpdateNameFlow(newName, Some(token), Answer(401, b), NotAFunction, retry)
         == UpdateFlow([PutMe(token, newName)], Failed(UnexpectedError))
  {
  }

  // ---------------------------------------------------------------------------
  // The page

  /** `!loading && !isAuthenticated`: the condition of the redirect effect. */
  predicate MustRedirect(loading: bool, authenticated: bool) {
    !loading && !authenticated
  }

  class Page {
    const session: AuthContext.AuthProvider
    var userProfile: Option<User>
    var newName: string
    var editMode: bool
    var message: string
    var error: string
    /** Every request the page has sent, in order. */
    var requests: seq<Request>

    constructor (session: AuthContext.AuthProvider)
      ensures this.session == session
      ensures userProfile == None && newName == "" && !editMode && message == "" && error == ""
      ensures requests == []
    {
      this.session := session;
      userProfile := None;
      newName := "";
      editMode := false;
      message := "";
      error := "";
      requests := [];
    }

    /** The effect on `[isAuthenticated, loading]`: a settled, signed-out session goes to `/login`. */
    method RedirectEffect()
      modifies session.router
      ensures MustRedirect(session.loading, session.IsAuthenticated()) ==> session.router.target == Some("/login")
      ensures !MustRedirect(session.loading, session.IsAuthenticated()) ==> session.router.target == old(session.router.target)
    {
      if !session.loading && !session.IsAuthenticated() {
        session.router.Push("/login");
      }
    }

    /** `fetchProfile`, step by step; its effect is the one `FetchProfileFlow` decides. */
    method FetchProfile(first: Reply, refresh: RefreshCall, retry: Reply)
      modifies this, session, session.router
      ensures editMode == old(editMode) && message == old(message) && error == old(error)
      ensures var f := FetchProfileFlow(old(session.accessToken), first, refresh, retry);
        && requests == old(requests) + f.requests
        && (f.outcome.Loaded? ==> userProfile == Some(f.outcome.profile) && newName == f.outcome.profile.name)
        && (!f.outcome.Loaded? ==> userProfile == old(userProfile) && newName == old(newName))
        && (f.outcome != LoggedOut ==>
              session.State() == old(session.State()) && session.router.target == old(session.router.target))
        && (f.outcome == LoggedOut ==>
              session.user == None && session.accessToken == None && session.loading == old(session.loading)
              && session.cookies == old(session.cookies) - {AuthContext.AccessCookie, AuthContext.RefreshCookie}
              && session.router.target == Some("/login"))
    {
      var token := session.accessToken;
      if !Truthy(token) {
        return;
      }
      requests := requests + [GetMe(token.value)];
      match first {
        case NetworkError =>
          session.Logout();
        case Answer(status, body) =>
          if status == 401 {
            match refresh {
              case NotAFunction =>
                session.Logout();
              case RefreshThrew =>
                requests := requests + [RefreshRequest];
                session.Logout();
              case Refreshed(newToken) =>
                requests := requests + [RefreshRequest];
                if Truthy(newToken) {
                  requests := requests + [GetMe(newToken.value)];
                  if IsOkJson(retry) {
                    userProfile := Some(retry.body.profile);
                    newName := retry.body.profile.name;
                  } else {
                    session.Logout();
                  }
                } else {
                  session.Logout();
                }
            }
          } else if IsOk(status) && body.Json? {
            userProfile := Some(body.profile);
            newName := body.profile.name;
          } else {
            session.Logout();
          }
      }
    }

    /** The effect on `[isAuthenticated, userProfile]`: fetch the profile once signed in and not yet loaded. */
    method FetchEffect(first: Reply, refresh: RefreshCall, retry: Reply)
      modifies this, session, session.router
      ensures !(old(session.IsAuthenticated()) && old(userProfile).None?) ==>
        && requests == old(requests) && userProfile == old(userProfile) && newName == old(newName)
        && editMode == old(editMode) && message == old(message) && error == old(error)
        && session.State() == old(session.State()) && session.router.target == old(session.router.target)
      ensures old(session.IsAuthenticated()) && old(userProfile).None? ==>
        && editMode == old(editMode) && message == old(message) && error == old(error)
        && var f := FetchProfileFlow(old(session.accessToken), first, refresh, retry);
        && requests == old(requests) + f.requests
        && (f.outcome.Loaded? ==> userProfile == Some(f.outcome.profile) && newName == f.outcome.profile.name)
        && (!f.outcome.Loaded? ==> userProfile == old(userProfile) && newName == old(newName))
        && (f.outcome != LoggedOut ==>
              session.State() == old(session.State()) && session.router.target == old(session.router.target))
        && (f.outcome == LoggedOut ==>
              session.user == None && session.accessToken == None && session.loading == old(session.loading)
              && session.cookies == old(session.cookies) - {AuthContext.AccessCookie, AuthContext.RefreshCookie}
              && session.router.target == Some("/login"))
    {
      if session.IsAuthenticated() && userProfile.None? {
        FetchProfile(first, refresh, retry);
      }
    }

    /** `handleUpdateName`, step by step; it never logs out, whatever the replies. */
    method HandleUpdateName(first: Reply, refresh: RefreshCall, retry: Reply)
      modifies this
      ensures newName == old(newName)
      ensures var f := UpdateNameFlow(old(newName), session.accessToken, first, refresh, retry);
        && requests == old(requests) + f.requests
        && (f.outcome.Failed? ==>
              error == f.outcome.error && message == "" && userProfile == old(userProfile) && editMode == old(editMode))
        && (f.outcome.Updated? ==>
              error == "" && message == UpdatedMessage && userProfile == Some(f.outcome.profile) && !editMode)
    {
      error := "";
      message := "";
      var outcome := GuardAndSend(session.accessToken, first, refresh, retry);
      Show(outcome);
    }

    /** The guards of `handleUpdateName` for the session's `token`, then its requests; the outcome is not shown yet. */
    method GuardAndSend(token: Option<string>, first: Reply, refresh: RefreshCall, retry: Reply) returns (outcome: UpdateOutcome)
      modifies this
      ensures var f := UpdateNameFlow(newName, token, first, refresh, retry);
        requests == old(requests) + f.requests && outcome == f.outcome
      ensures newName == old(newName) && userProfile == old(userProfile) && editMode == old(editMode)
      ensures message == old(message) && error == old(error)
    {
      if Trim(newName) == "" {
        outcome := Failed(EmptyNameError);
      } else if !Truthy(token) {
        outcome := Failed(NotAuthenticatedError);
      } else {
        outcome := SendChecked(token.value, first, refresh, retry);
      }
    }

    /** Past both guards, the requests and outcome of `handleUpdateName` are those of `PutFlow`. */
    method SendChecked(token: string, first: Reply, refresh: RefreshCall, retry: Reply) returns (outcome: UpdateOutcome)
      requires Trim(newName) != "" && token != ""
      modifies this
      ensures var f := UpdateNameFlow(newName, Some(token), first, refresh, retry);
        requests == old(requests) + f.requests && outcome == f.outcome
      ensures newName == old(newName) && userProfile == old(userProfile) && editMode == old(editMode)
      ensures message == old(message) && error == old(error)
    {
      assert UpdateNameFlow(newName, Some(token), first, refresh, retry) == PutFlow(newName, token, first, refresh, retry);
      outcome := SendUpdate(token, first, refresh, retry);
    }

    /** The requests of `handleUpdateName` after its guards; the outcome is not shown yet. */
    method SendUpdate(token: string, first: Reply, refresh: RefreshCall, retry: Reply) returns (outcome: UpdateOutcome)
      modifies this
      ensures var f := PutFlow(newName, token, first, refresh, retry);
        requests == old(requests) + f.requests && outcome == f.outcome
      ensures newName == old(newName) && userProfile == old(userProfile) && editMode == old(editMode)
      ensures message == old(message) && error == old(error)
    {
      requests := requests + [PutMe(token, newName)];
      match first {
        case NetworkError =>
          outcome := Failed(UnexpectedError);
        case Answer(status, body) =>
          if status == 401 {
            match refresh {
              case NotAFunction =>
                outcome := Failed(UnexpectedError);
              case RefreshThrew =>
                requests := requests + [RefreshRequest];
                outcome := Failed(UnexpectedError);
              case Refreshed(newToken) =>
                requests := requests + [RefreshRequest];
                if Truthy(newToken) {
                  requests := requests + [PutMe(newToken.value, newName)];
                  match retry {
                    case NetworkError =>
                      outcome := Failed(UnexpectedError);
                    case Answer(s, b) =>
                      if !IsOk(s) {
                        outcome := Failed(RetryFailedError);
                      } else if b.NotJson? {
                        outcome := Failed(UnexpectedError);
                      } else {
                        outcome := Updated(b.profile);
                      }
                  }
                } else {
                  outcome := Failed(RefreshFailedError);
                }
            }
          } else if IsOk(status) {
            outcome := if body.NotJson? then Failed(UnexpectedError) else Updated(body.profile);
          } else {
            outcome := Failed(ServerError(body));
          }
      }
    }

    /** What the page shows once an update has settled. */
    method Show(outcome: UpdateOutcome)
      modifies this
      ensures requests == old(requests) && newName == old(newName)
      ensures outcome.Failed? ==>
        error == outcome.error && message == old(message) && userProfile == old(userProfile) && editMode == old(editMode)
      ensures outcome.Updated? ==>
        error == old(error) && message == UpdatedMessage && userProfile == Some(outcome.profile) && !editMode
    {
      match outcome {
        case Failed(e) =>
          error := e;
        case Updated(p) =>
          userProfile := Some(p);
          message := UpdatedMessage;
          editMode := false;
      }
    }
  }
}
