/**
 * The decisions of the streaming-service client (src/server/api/utils/spotify.ts):
 * which granted scopes are missing, when the stored access token must be
 * refreshed, what a refresh stores, and which error an HTTP status maps to.
 * The HTTP calls themselves become parameters; times are seconds.
 */
module SpotifyAuth {
  import opened Wrappers
  import opened Trpc
  import opened Seqs

  // Scopes

  const RequiredScopes: seq<string> := [
    "user-read-email",
    "user-top-read",
    "playlist-modify-public",
    "playlist-modify-private",
    "playlist-read-private"
  ]

  /** String.prototype.split(" "): the pieces between single spaces, empty pieces included. */
  function Split(s: string): (r: seq<string>)
    ensures |r| >= 1
    ensures forall i :: 0 <= i < |r| ==> ' ' !in r[i]
  {
    if s == [] then [[]]
    else
      var r := Split(s[..|s| - 1]);
      var c := s[|s| - 1];
      if c == ' ' then r + [[]]
      else r[..|r| - 1] + [r[|r| - 1] + [c]]
  }

  /** Array.prototype.join(" "). */
  function JoinWithSpace(parts: seq<string>): string
    requires |parts| >= 1
  {
    if |parts| == 1 then parts[0]
    else JoinWithSpace(parts[..|parts| - 1]) + " " + parts[|parts| - 1]
  }

  /** Text added to the last piece ends up at the end of the joined text. */
  lemma JoinWithSpaceAppend(init: seq<string>, last: string, x: string)
    ensures JoinWithSpace(init + [last + x]) == JoinWithSpace(init + [last]) + x
  {
    var a, b := init + [last + x], init + [last];
    assert a[..|init|] == init && b[..|init|] == init;
    assert a[|init|] == last + x && b[|init|] == last;
    if init != [] {
      var front := JoinWithSpace(init);
      assert JoinWithSpace(a) == front + " " + (last + x);
      assert JoinWithSpace(b) == front + " " + last;
      assert front + " " + (last + x) == (front + " " + last) + x;
    }
  }

  /** Joining the pieces of a split restores the text. */
  lemma {:induction false} SplitJoin(s: string)
    ensures JoinWithSpace(Split(s)) == s
  {
    if s != [] {
      var init, c := s[..|s| - 1], s[|s| - 1];
      SplitJoin(init);
      var r := Split(init);
      assert s == init + [c];
      if c == ' ' {
        assert (r + [[]])[..|r|] == r;
      } else {
        var k := |r| - 1;
        assert r == r[..k] + [r[k]];
        JoinWithSpaceAppend(r[..k], r[k], [c]);
      }
    }
  }

  lemma {:induction false} SplitNoSpace(y: string)
    requires ' ' !in y
    ensures Split(y) == [y]
  {
    if y != [] {
      SplitNoSpace(y[..|y| - 1]);
      assert y == y[..|y| - 1] + [y[|y| - 1]];
    }
  }

  lemma {:induction false} SplitAfterSpace(x: string, y: string)
    requires ' ' !in y
    ensures Split(x + " " + y) == Split(x) + [y]
  {
    if y == [] {
      assert x + " " + y == x + " ";
      assert (x + " ")[..|x|] == x;
    } else {
      var y', c := y[..|y| - 1], y[|y| - 1];
      SplitAfterSpace(x, y');
      assert (x + " " + y)[..|x + " " + y| - 1] == x + " " + y';
      assert y == y' + [c];
    }
  }

  /** Splitting a join of space-free pieces gives the pieces back. */
  lemma {:induction false} JoinSplit(parts: seq<string>)
    requires |parts| >= 1
    requires forall i :: 0 <= i < |parts| ==> ' ' !in parts[i]
    ensures Split(JoinWithSpace(parts)) == parts
  {
    if |parts| == 1 {
      SplitNoSpace(parts[0]);
    } else {
      var init := parts[..|parts| - 1];
      JoinSplit(init);
      SplitAfterSpace(JoinWithSpace(init), parts[|parts| - 1]);
    }
  }

  function NotGranted(granted: seq<string>): string -> bool {
    (scope: string) => scope !in granted
  }

  /** REQUIRED_SCOPES.filter(scope => !storedScopes.includes(scope)). */
  function MissingScopes(stored: string): seq<string> {
    Filter(RequiredScopes, NotGranted(Split(stored)))
  }

  /** A required scope is reported missing exactly when the stored scope string lacks it, in the required order. */
  lemma MissingScopesExact(stored: string)
    ensures forall scope :: scope in MissingScopes(stored) <==> scope in RequiredScopes && scope !in Split(stored)
    ensures IsSubsequence(MissingScopes(stored), RequiredScopes)
  {
    FilterMembers(RequiredScopes, NotGranted(Split(stored)));
    FilterIsSubsequence(RequiredScopes, NotGranted(Split(stored)));
  }

  /** Granting exactly the required scopes leaves none missing. */
  lemma AllScopesGranted()
    ensures MissingScopes(JoinWithSpace(RequiredScopes)) == []
  {
    assert forall i :: 0 <= i < |RequiredScopes| ==> ' ' !in RequiredScopes[i];
    JoinSplit(RequiredScopes);
    FilterNone(RequiredScopes, NotGranted(RequiredScopes));
  }

  // Accounts and tokens

  /** The stored provider account; absent columns are None. */
  datatype Account = Account(
    id: string,
    accessToken: Option<string>,
    refreshToken: Option<string>,
    expiresAt: Option<int>,
    scope: Option<string>)

  /** A value JavaScript treats as true: present and not the empty string. */
  predicate Truthy(x: Option<string>) {
    x.Some? && x.value != ""
  }

  /** The missing scopes worth a warning; only a truthy scope string is examined. */
  function ScopeWarning(a: Account): seq<string> {
    if Truthy(a.scope) then MissingScopes(a.scope.value) else []
  }

  const RefreshBuffer: int := 300

  /** `expiresAt && now >= expiresAt - 300`, with a missing expiry read as 0. */
  predicate NeedsRefresh(a: Account, now: int) {
    var e := a.expiresAt.GetOr(0);
    e != 0 && now >= e - RefreshBuffer
  }

  /** A refresh is due exactly within five minutes of a recorded, non-zero expiry, or after it. */
  lemma NeedsRefreshExact(a: Account, now: int)
    ensures NeedsRefresh(a, now) <==> a.expiresAt.Some? && a.expiresAt.value != 0 && now + 300 >= a.expiresAt.value
    ensures a.expiresAt.None? || a.expiresAt == Some(0) ==> !NeedsRefresh(a, now)
  {
  }

  datatype TokenResponse = TokenResponse(accessToken: string, expiresIn: int, refreshToken: Option<string>)

  /** The record after a refresh answered at time `at`: a new token, a new expiry, the old refresh token unless a new one came. */
  function Refreshed(a: Account, resp: TokenResponse, at: int): (b: Account)
    ensures b.accessToken == Some(resp.accessToken)
    ensures b.expiresAt == Some(at + resp.expiresIn)
    ensures b.refreshToken == if resp.refreshToken.Some? then resp.refreshToken else a.refreshToken
    ensures b.id == a.id && b.scope == a.scope
  {
    a.(accessToken := Some(resp.accessToken), expiresAt := Some(at + resp.expiresIn),
       refreshToken := if resp.refreshToken.Some? then resp.refreshToken else a.refreshToken)
  }

  const NoAccountMessage := "Spotify account not found. Please sign in again."
  const NoRefreshTokenMessage := "Refresh token not available. Please sign in again."
  const RefreshFailedMessage := "Failed to refresh Spotify token. Please sign in again."
  const NoAccessTokenMessage := "Access token not available. Please sign in again."

  /** What getSpotifyAccessToken decides to do before any call. */
  datatype TokenPlan = UseStored(token: string) | RefreshWith(refreshToken: string) | Refuse(error: Error)

  function Plan(account: Option<Account>, now: int): TokenPlan {
    if account.None? then Refuse(Error(Unauthorized, NoAccountMessage))
    else
      var a := account.value;
      if NeedsRefresh(a, now) then
        if !Truthy(a.refreshToken) then Refuse(Error(Unauthorized, NoRefreshTokenMessage))
        else RefreshWith(a.refreshToken.value)
      else if !Truthy(a.accessToken) then Refuse(Error(Unauthorized, NoAccessTokenMessage))
      else UseStored(a.accessToken.value)
  }

  /**
   * The stored token is used exactly when no refresh is due and one is
   * stored; a refresh is attempted exactly when one is due and a refresh
   * token is stored; every other case is UNAUTHORIZED. The scope never
   * changes the decision: missing scopes only warn.
   */
  lemma PlanCases(account: Option<Account>, now: int)
    ensures Plan(account, now).UseStored? <==>
      account.Some? && !NeedsRefresh(account.value, now) && Truthy(account.value.accessToken)
    ensures Plan(account, now).RefreshWith? <==>
      account.Some? && NeedsRefresh(account.value, now) && Truthy(account.value.refreshToken)
    ensures Plan(account, now).Refuse? ==> Plan(account, now).error.code == Unauthorized
    ensures account.Some? ==> forall scope :: Plan(Some(account.value.(scope := scope)), now) == Plan(account, now)
  {
  }

  /** The provider accounts, by user id. */
  class AccountStore {
    var accounts: map<string, Account>

    constructor (initial: map<string, Account>)
      ensures accounts == initial
    {
      accounts := initial;
    }

    /**
     * getSpotifyAccessToken: returns the token to call the service with and
     * the scope warning. `refresh` is the token endpoint's answer and `at`
     * the clock when it arrived; only a successful refresh is stored.
     */
    method GetAccessToken(userId: string, now: int, refresh: Result<TokenResponse, string>, at: int)
      returns (r: Result<string, Error>, warning: seq<string>)
      modifies this
      ensures var account := if userId in old(accounts) then Some(old(accounts)[userId]) else None;
        match Plan(account, now)
        case UseStored(token) => r == Success(token) && accounts == old(accounts)
        case Refuse(e) => r == Failure(e) && accounts == old(accounts)
        case RefreshWith(_) =>
          if refresh.Failure? then
            r == Failure(Error(InternalServerError, RefreshFailedMessage)) && accounts == old(accounts)
          else
            && r == Success(refresh.value.accessToken)
            && accounts == old(accounts)[userId := Refreshed(old(accounts)[userId], refresh.value, at)]
      ensures warning == if userId in old(accounts) then ScopeWarning(old(accounts)[userId]) else []
    {
      if userId !in accounts {
        return Failure(Error(Unauthorized, NoAccountMessage)), [];
      }
      var a := accounts[userId];
      warning := ScopeWarning(a);
      if NeedsRefresh(a, now) {
        if !Truthy(a.refreshToken) {
          return Failure(Error(Unauthorized, NoRefreshTokenMessage)), warning;
        }
        if refresh.Failure? {
          return Failure(Error(InternalServerError, RefreshFailedMessage)), warning;
        }
        accounts := accounts[userId := Refreshed(a, refresh.value, at)];
        return Success(refresh.value.accessToken), warning;
      }
      if !Truthy(a.accessToken) {
        return Failure(Error(Unauthorized, NoAccessTokenMessage)), warning;
      }
      r := Success(a.accessToken.value);
    }
  }

  /** After a successful refresh the token is fresh for the whole answered lifetime, minus the buffer. */
  lemma RefreshedIsFresh(a: Account, resp: TokenResponse, at: int, now: int)
    requires at + resp.expiresIn != 0
    ensures NeedsRefresh(Refreshed(a, resp, at), now) <==> now + 300 >= at + resp.expiresIn
  {
  }

  // Response status

  /** What spotifyApiRequest reads of a response. */
  datatype Response = Response(
    status: int,
    errorMessage: Option<string>,
    retryAfter: Option<string>,
    body: string)

  /** response.ok. */
  predicate IsOk(status: int) {
    200 <= status <= 299
  }

  const AuthExpiredMessage := "Spotify authentication expired. Please sign in again."
  const ForbiddenMessage := "Spotify API access forbidden. This usually means the required permissions (scopes) are missing."

  /** The 403 message: the service's own explanation when it gave a truthy one. */
  function ForbiddenText(errorMessage: Option<string>): string {
    if Truthy(errorMessage) then
      "Spotify API error: " + errorMessage.value + ". Please sign in again to grant the required permissions."
    else ForbiddenMessage
  }

  /** The 429 message, defaulting the retry hint to 60 seconds when the header is absent. */
  function RateLimitText(retryAfter: Option<string>): string {
    "Rate limited. Please try again in " + retryAfter.GetOr("60") + " seconds."
  }

  /** The error a response raises, or its body when it is ok. */
  function Classify(resp: Response): Result<string, Error> {
    if resp.status == 401 then Failure(Error(Unauthorized, AuthExpiredMessage))
    else if resp.status == 403 then Failure(Error(Forbidden, ForbiddenText(resp.errorMessage)))
    else if resp.status == 429 then Failure(Error(TooManyRequests, RateLimitText(resp.retryAfter)))
    else if !IsOk(resp.status) then Failure(Error(InternalServerError, "Spotify API error: " + resp.body))
    else Success(resp.body)
  }

  /** Each error code belongs to exactly one kind of status. */
  lemma ClassifyExact(resp: Response)
    ensures Classify(resp).Success? <==> IsOk(resp.status)
    ensures Classify(resp).Failure? ==>
      && (Classify(resp).error.code == Unauthorized <==> resp.status == 401)
      && (Classify(resp).error.code == Forbidden <==> resp.status == 403)
      && (Classify(resp).error.code == TooManyRequests <==> resp.status == 429)
      && (Classify(resp).error.code == InternalServerError <==>
            resp.status != 401 && resp.status != 403 && resp.status != 429)
    ensures Classify(resp).Success? ==> Classify(resp).value == resp.body
  {
  }

  /** Without a Retry-After header the hint is 60 seconds. */
  lemma RateLimitDefault(resp: Response)
    requires resp.status == 429 && resp.retryAfter.None?
    ensures Classify(resp) == Failure(Error(TooManyRequests, "Rate limited. Please try again in 60 seconds."))
  {
    assert "Rate limited. Please try again in " + "60" + " seconds." == "Rate limited. Please try again in 60 seconds.";
  }

  /** spotifyApiRequest: obtain the token, call the service with it, classify the answer. */
  method ApiRequest(store: AccountStore, userId: string, now: int, refresh: Result<TokenResponse, string>, at: int,
                    call: string -> Response)
    returns (r: Result<string, Error>)
    modifies store
    ensures var account := if userId in old(store.accounts) then Some(old(store.accounts)[userId]) else None;
      match Plan(account, now)
      case UseStored(token) => r == Classify(call(token)) && store.accounts == old(store.accounts)
      case Refuse(e) => r == Failure(e) && store.accounts == old(store.accounts)
      case RefreshWith(_) =>
        if refresh.Failure? then
          r == Failure(Error(InternalServerError, RefreshFailedMessage)) && store.accounts == old(store.accounts)
        else
          && r == Classify(call(refresh.value.accessToken))
          && store.accounts == old(store.accounts)[userId := Refreshed(old(store.accounts)[userId], refresh.value, at)]
    ensures userId !in old(store.accounts) ==> r == Failure(Error(Unauthorized, NoAccountMessage))
    ensures r.Success? ==> exists token :: Classify(call(token)) == r
  {
    var token, _ := store.GetAccessToken(userId, now, refresh, at);
    if token.Failure? {
      return Failure(token.error);
    }
    r := Classify(call(token.value));
  }
}
