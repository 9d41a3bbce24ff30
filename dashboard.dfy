/**
 * The dashboard: the listing state the browser keeps for one token and
 * business account, the request it sends to `/api/accounts`, and how each
 * reply moves the page counter, the cursors and the error banner.
 */
module DashboardView {
  import opened Wrappers
  import opened Text
  import opened Types
  import opened Http
  import FormEncoding

  /** The `pageDirection` argument of a fetch. */
  datatype Direction = Next | Previous | Initial

  /** `fetch(apiUrl, { headers: { Authorization } })`: the reply to a URL and
      an authorization header. */
  type Endpoint = (string, string) -> HttpOutcome<AccountsPage>

  const API_PATH: string := "/api/accounts"
  const BEARER: string := "Bearer "
  const EXPIRED_ERROR: string := "Token has " + "expired" + ". Please enter a new token."
  const FETCH_ERROR: string := "Failed to fetch ad accounts." + " Please check your connection and try again."

  // ---- The request ------------------------------------------------------------------

  /** The query parameters: `url` when a cursor is given, then
      `businessAccountId` when it is non-empty. */
  function RequestParams(cursor: Option<string>, businessAccountId: string): (p: seq<(string, string)>)
    ensures |p| == (if Truthy(cursor) then 1 else 0) + (if businessAccountId != "" then 1 else 0)
    ensures Truthy(cursor) ==> p[0] == ("url", cursor.value)
    ensures businessAccountId != "" ==> p[|p| - 1] == ("businessAccountId", businessAccountId)
  {
    (if Truthy(cursor) then [("url", cursor.value)] else [])
    + (if businessAccountId != "" then [("businessAccountId", businessAccountId)] else [])
  }

  /** The URL the dashboard fetches for a parameter list: the query part is
      present exactly when some parameter was appended. */
  function RequestUrl(params: seq<(string, string)>): (r: string)
    ensures StartsWith(r, API_PATH)
    ensures params == [] ==> r == API_PATH
    ensures params != [] ==> r == API_PATH + "?" + FormEncoding.Serialize(params)
  {
    var query := FormEncoding.Serialize(params);
    if query == "" then
      PrefixStartsWith(API_PATH, "");
      API_PATH
    else
      PrefixStartsWith(API_PATH, "?" + query);
      assert API_PATH + "?" + query == API_PATH + ("?" + query);
      API_PATH + "?" + query
  }

  lemma PrefixStartsWith(p: string, t: string)
    ensures StartsWith(p + t, p)
  {
    assert (p + t)[..|p|] == p;
  }

  // ---- The listing state and its transitions --------------------------------------

  /** The part of the dashboard a fetch can change. */
  datatype Listing = Listing(
    accounts: seq<AdAccount>,
    error: string,
    nextUrl: Option<string>,
    previousUrl: Option<string>,
    currentPage: int)
  {
    /** Cursors are stored only when non-empty (`|| null`), the page counter
        starts at 1, and the banner holds one of the two messages or nothing. */
    predicate Wellformed()
    {
      && currentPage >= 1
      && (nextUrl.Some? ==> Truthy(nextUrl))
      && (previousUrl.Some? ==> Truthy(previousUrl))
      && error in {"", EXPIRED_ERROR, FETCH_ERROR}
    }
  }

  /** The page counter after a successful fetch. */
  function PageAfter(page: int, direction: Direction): (q: int)
    requires page >= 1
    ensures q >= 1
  {
    match direction
    case Next => page + 1
    case Previous => if page - 1 > 1 then page - 1 else 1
    case Initial => 1
  }

  /** What one reply does to the listing. */
  function ApplyReply(s: Listing, reply: HttpOutcome<AccountsPage>, direction: Direction): (r: Listing)
    requires s.Wellformed()
    ensures r.Wellformed()
    ensures r.error == EXPIRED_ERROR <==> reply.Response? && reply.status == 401
    ensures r.error == "" <==> reply.Response? && IsOk(reply.status) && reply.body.Some?
    ensures r.error != "" ==> r == s.(error := r.error)
    ensures r.error == "" ==>
              var page := reply.body.value;
              && r.accounts == page.data.GetOr([])
              && r.nextUrl == (if page.paging.Some? then OrNull(page.paging.value.next) else None)
              && r.previousUrl == (if page.paging.Some? then OrNull(page.paging.value.previous) else None)
              && r.currentPage == PageAfter(s.currentPage, direction)
  {
    match reply
    case NetworkFailure => s.(error := FETCH_ERROR)
    case Response(status, body) =>
      if !IsOk(status) then
        if status == 401 then s.(error := EXPIRED_ERROR) else s.(error := FETCH_ERROR)
      else if body.None? then
        s.(error := FETCH_ERROR)
      else
        var page := body.value;
        Listing(
          page.data.GetOr([]),
          "",
          if page.paging.Some? then OrNull(page.paging.value.next) else None,
          if page.paging.Some? then OrNull(page.paging.value.previous) else None,
          PageAfter(s.currentPage, direction))
  }

  // ---- Display conditions -----------------------------------------------------------

  /** The "Enter new token" action: shown once loaded when the banner
      mentions `expired`. */
  predicate ShowsEnterNewToken(loading: bool, s: Listing)
  {
    !loading && s.error != "" && Contains(s.error, "expired")
  }

  /** The pagination controls: shown once loaded, beside a non-empty grid,
      when some cursor is set. */
  predicate ShowsPagination(loading: bool, s: Listing)
  {
    !loading && |s.accounts| > 0 && (Truthy(s.nextUrl) || Truthy(s.previousUrl))
  }

  /** The dashboard component. The `loading` and `refreshing` flags are
      raised around a fetch and lowered after it. */
  class Dashboard {
    const token: string
    const businessAccountId: string
    var accounts: seq<AdAccount>
    var loading: bool
    var error: string
    var refreshing: bool
    var nextUrl: Option<string>
    var previousUrl: Option<string>
    var currentPage: int

    function State(): Listing
      reads this
    {
      Listing(accounts, error, nextUrl, previousUrl, currentPage)
    }

    ghost predicate Valid()
      reads this
    {
      State().Wellformed()
    }

    /** The initial state of the component. */
    constructor(token: string, businessAccountId: string)
      ensures Valid()
      ensures this.token == token && this.businessAccountId == businessAccountId
      ensures State() == Listing([], "", None, None, 1)
      ensures loading && !refreshing
    {
      this.token := token;
      this.businessAccountId := businessAccountId;
      accounts := [];
      loading := true;
      error := "";
      refreshing := false;
      nextUrl := None;
      previousUrl := None;
      currentPage := 1;
    }

    /** The request URL, built by appending parameters. */
    method BuildApiUrl(cursor: Option<string>) returns (apiUrl: string)
      ensures apiUrl == RequestUrl(RequestParams(cursor, businessAccountId))
    {
      var params: seq<(string, string)> := [];
      if Truthy(cursor) {
        params := params + [("url", cursor.value)];
      }
      if businessAccountId != "" {
        params := params + [("businessAccountId", businessAccountId)];
      }
      apiUrl := API_PATH;
      var query := FormEncoding.Serialize(params);
      if query != "" {
        apiUrl := apiUrl + "?" + query;
      }
    }

    /** The banner update of a failed fetch; nothing else changes. */
    method ShowError(message: string)
      requires Valid() && (message == EXPIRED_ERROR || message == FETCH_ERROR)
      modifies this
      ensures Valid()
      ensures loading == old(loading) && refreshing == old(refreshing)
      ensures State() == old(State()).(error := message)
    {
      error := message;
    }

    /** The updates of a successful fetch. */
    method ShowPage(data: AccountsPage, direction: Direction)
      requires Valid()
      modifies this
      ensures Valid()
      ensures loading == old(loading) && refreshing == old(refreshing)
      ensures State() == Listing(
                data.data.GetOr([]),
                "",
                if data.paging.Some? then OrNull(data.paging.value.next) else None,
                if data.paging.Some? then OrNull(data.paging.value.previous) else None,
                PageAfter(old(currentPage), direction))
    {
      accounts := data.data.GetOr([]);
      nextUrl := if data.paging.Some? then OrNull(data.paging.value.next) else None;
      previousUrl := if data.paging.Some? then OrNull(data.paging.value.previous) else None;
      match direction {
        case Next => currentPage := currentPage + 1;
        case Previous => currentPage := if currentPage - 1 > 1 then currentPage - 1 else 1;
        case Initial => currentPage := 1;
      }
      error := "";
    }

    /** `fetchAccounts(url, pageDirection)`. */
    method FetchAccounts(cursor: Option<string>, direction: Direction, endpoint: Endpoint)
      requires Valid()
      modifies this
      ensures Valid()
      ensures loading == old(loading) && refreshing == old(refreshing)
      ensures State() == ApplyReply(old(State()), endpoint(RequestUrl(RequestParams(cursor, businessAccountId)), BEARER + token), direction)
    {
      var apiUrl := BuildApiUrl(cursor);
      var reply := endpoint(apiUrl, BEARER + token);
      if reply.NetworkFailure? {
        ShowError(FETCH_ERROR);
        return;
      }
      if !IsOk(reply.status) {
        if reply.status == 401 {
          ShowError(EXPIRED_ERROR);
          return;
        }
        ShowError(FETCH_ERROR);
        return;
      }
      if reply.body.None? {
        ShowError(FETCH_ERROR);
        return;
      }
      ShowPage(reply.body.value, direction);
    }

    /** `handleRefresh`: the first page again, under the `refreshing` flag. */
    method HandleRefresh(endpoint: Endpoint)
      requires Valid()
      modifies this
      ensures Valid()
      ensures !refreshing && loading == old(loading)
      ensures State() == ApplyReply(old(State()), endpoint(RequestUrl(RequestParams(None, businessAccountId)), BEARER + token), Initial)
    {
      refreshing := true;
      FetchAccounts(None, Initial, endpoint);
      refreshing := false;
    }

    /** `handleNextPage`: follows the stored `next` cursor, if any. */
    method HandleNextPage(endpoint: Endpoint)
      requires Valid()
      modifies this
      ensures Valid()
      ensures refreshing == old(refreshing)
      ensures old(nextUrl).None? ==> State() == old(State()) && loading == old(loading)
      ensures old(nextUrl).Some? ==>
                && !loading
                && State() == ApplyReply(old(State()), endpoint(RequestUrl(RequestParams(old(nextUrl), businessAccountId)), BEARER + token), Next)
    {
      if Truthy(nextUrl) {
        loading := true;
        FetchAccounts(nextUrl, Next, endpoint);
        loading := false;
      }
    }

    /** `handlePreviousPage`: follows the stored `previous` cursor, if any. */
    method HandlePreviousPage(endpoint: Endpoint)
      requires Valid()
      modifies this
      ensures Valid()
      ensures refreshing == old(refreshing)
      ensures old(previousUrl).None? ==> State() == old(State()) && loading == old(loading)
      ensures old(previousUrl).Some? ==>
                && !loading
                && State() == ApplyReply(old(State()), endpoint(RequestUrl(RequestParams(old(previousUrl), businessAccountId)), BEARER + token), Previous)
    {
      if Truthy(previousUrl) {
        loading := true;
        FetchAccounts(previousUrl, Previous, endpoint);
        loading := false;
      }
    }

    /** The mount effect: the first page under the `loading` flag. */
    method Mount(endpoint: Endpoint)
      requires Valid()
      modifies this
      ensures Valid()
      ensures !loading && refreshing == old(refreshing)
      ensures State() == ApplyReply(old(State()), endpoint(RequestUrl(RequestParams(None, businessAccountId)), BEARER + token), Initial)
    {
      loading := true;
      FetchAccounts(None, Initial, endpoint);
      loading := false;
    }
  }

  // ---- Properties ------------------------------------------------------------------

  /** Previous undoes Next, and never leaves page 1. */
  lemma PreviousUndoesNext(page: int)
    requires page >= 1
    ensures PageAfter(PageAfter(page, Next), Previous) == page
    ensures PageAfter(1, Previous) == 1
  {
  }

  /** Of the texts the banner can hold, only the expiry message mentions
      `expired`, so the "Enter new token" action follows a 401 and nothing else. */
  lemma EnterNewTokenOnlyAfterExpiry(loading: bool, s: Listing)
    requires s.Wellformed()
    ensures ShowsEnterNewToken(loading, s) <==> !loading && s.error == EXPIRED_ERROR
  {
    ExpiryMentionsExpired();
    FetchErrorLacksX();
    NotContainedForLackOf(FETCH_ERROR, "expired", 1);
  }

  lemma ExpiryMentionsExpired()
    ensures Contains(EXPIRED_ERROR, "expired")
  {
    ContainsInfix("Token has ", "expired", ". Please enter a new token.");
  }

  lemma FetchErrorLacksX()
    ensures 'x' !in FETCH_ERROR
  {
    assert 'x' !in "Failed to fetch ad accounts.";
    assert 'x' !in " Please check your connection and try again.";
  }

  /** After a reply, the action is offered exactly when the reply was a 401. */
  lemma EnterNewTokenFollowsUnauthorized(s: Listing, reply: HttpOutcome<AccountsPage>, direction: Direction)
    requires s.Wellformed()
    ensures ShowsEnterNewToken(false, ApplyReply(s, reply, direction)) <==> reply.Response? && reply.status == 401
  {
    EnterNewTokenOnlyAfterExpiry(false, ApplyReply(s, reply, direction));
  }

  /** After a successful reply, pagination is shown exactly when the page has
      accounts and a non-empty `next` or `previous` link. */
  lemma PaginationFollowsLinks(s: Listing, page: AccountsPage, status: int, direction: Direction)
    requires s.Wellformed() && IsOk(status)
    ensures var r := ApplyReply(s, Response(status, Some(page)), direction);
            ShowsPagination(false, r) <==>
              && |page.data.GetOr([])| > 0
              && page.paging.Some?
              && (Truthy(page.paging.value.next) || Truthy(page.paging.value.previous))
  {
  }

  /** A failed fetch never changes what the grid and the pagination show. */
  lemma FailureKeepsGrid(s: Listing, reply: HttpOutcome<AccountsPage>, direction: Direction)
    requires s.Wellformed()
    requires !(reply.Response? && IsOk(reply.status) && reply.body.Some?)
    ensures var r := ApplyReply(s, reply, direction);
            && r.accounts == s.accounts && r.nextUrl == s.nextUrl
            && r.previousUrl == s.previousUrl && r.currentPage == s.currentPage
            && ShowsPagination(false, r) == ShowsPagination(false, s)
  {
  }

  /** The request carries the token as a bearer header, which the accounts
      route reads back as the token itself. */
  lemma AuthorizationCarriesToken(token: string)
    ensures RemoveFirst(BEARER + token, BEARER) == token
  {
    RemoveFirstOfPrefixed(BEARER, token);
  }
}
