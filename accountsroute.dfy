/**
 * `GET /api/accounts`: checks the bearer token and the business account id,
 * asks the client for a page (following a pagination link when one is given)
 * and maps the client's error text to 401, 403 or 500.
 */
module AccountsRoute {
  import opened Wrappers
  import opened Text
  import opened Types
  import opened Http
  import opened MetaApi

  /** The request as the handler reads it: the `Authorization` header and the
      query parameters of the request URL, in order. */
  datatype AccountsRequest = AccountsRequest(authorization: Option<string>, query: seq<(string, string)>)

  /** A response body: a message, or the upstream page passed through. */
  datatype AccountsBody = MessageBody(message: string) | PageBody(page: AccountsPage)

  const BEARER_PREFIX: string := "Bearer "
  const TOKEN_REQUIRED: string := "Token required"
  const BUSINESS_ID_REQUIRED: string := "Business Account ID is required"

  /** `searchParams.get(key)`: the value of the first parameter named `key`. */
  function QueryParam(query: seq<(string, string)>, key: string): (r: Option<string>)
    ensures r.Some? <==> exists i :: 0 <= i < |query| && query[i].0 == key
    ensures r.Some? ==> exists i :: 0 <= i < |query| && query[i] == (key, r.value)
                                    && forall j :: 0 <= j < i ==> query[j].0 != key
  {
    if query == [] then None
    else if query[0].0 == key then Some(query[0].1)
    else
      var r := QueryParam(query[1..], key);
      assert forall i :: 1 <= i < |query| ==> query[i] == query[1..][i - 1];
      r
  }

  /** The token: the header with its first `Bearer ` removed. */
  function BearerToken(authorization: Option<string>): (r: Option<string>)
    ensures r.Some? <==> authorization.Some?
    ensures forall x :: authorization == Some(BEARER_PREFIX + x) ==> r == Some(x)
    ensures authorization.Some? && !Contains(authorization.value, BEARER_PREFIX) ==> r == authorization
  {
    if authorization.None? then None
    else
      assert forall x :: RemoveFirst(BEARER_PREFIX + x, BEARER_PREFIX) == x by {
        forall x { RemoveFirstOfPrefixed(BEARER_PREFIX, x); }
      }
      Some(RemoveFirst(authorization.value, BEARER_PREFIX))
  }

  /** The pagination link handed to the client: `paginationUrl || undefined`. */
  function PaginationArg(query: seq<(string, string)>): (r: Option<string>)
    ensures r == OrNull(QueryParam(query, "url"))
  {
    OrNull(QueryParam(query, "url"))
  }

  /** The status for a client error: `Token expired` or `invalid` first, then
      `Insufficient permissions`, and 500 for anything else. */
  function ErrorStatus(error: string): (status: int)
    ensures status == 401 <==> Contains(error, "Token expired") || Contains(error, "invalid")
    ensures status == 403 <==> !Contains(error, "Token expired") && !Contains(error, "invalid")
                               && Contains(error, "Insufficient permissions")
    ensures status in {401, 403, 500}
  {
    if Contains(error, "Token expired") || Contains(error, "invalid") then 401
    else if Contains(error, "Insufficient permissions") then 403
    else 500
  }

  /** `GET`: a `RouteResponse` for every request; the guards run in order, so
      a missing token wins over a missing business id, and neither reaches the
      upstream. */
  function Get(request: AccountsRequest, upstream: Upstream<AccountsPage>): (r: RouteResponse<AccountsBody>)
    ensures !Truthy(BearerToken(request.authorization)) ==>
              r == RouteResponse(401, MessageBody(TOKEN_REQUIRED))
    ensures Truthy(BearerToken(request.authorization)) && !Truthy(QueryParam(request.query, "businessAccountId")) ==>
              r == RouteResponse(400, MessageBody(BUSINESS_ID_REQUIRED))
    ensures Truthy(BearerToken(request.authorization)) && Truthy(QueryParam(request.query, "businessAccountId")) ==>
              var result := MetaApiClient(BearerToken(request.authorization).value)
                              .GetAdAccounts(PaginationArg(request.query), upstream);
              if Truthy(result.error) then
                r == RouteResponse(ErrorStatus(result.error.value), MessageBody(result.error.value))
              else
                r == RouteResponse(200, PageBody(result.data))
  {
    var token := BearerToken(request.authorization);
    if !Truthy(token) then
      RouteResponse(401, MessageBody(TOKEN_REQUIRED))
    else
      var businessAccountId := QueryParam(request.query, "businessAccountId");
      if !Truthy(businessAccountId) then
        RouteResponse(400, MessageBody(BUSINESS_ID_REQUIRED))
      else
        // the business id is passed to the client's constructor too, which ignores it
        var client := MetaApiClient(token.value);
        var result := client.GetAdAccounts(PaginationArg(request.query), upstream);
        if Truthy(result.error) then
          RouteResponse(ErrorStatus(result.error.value), MessageBody(result.error.value))
        else
          RouteResponse(200, PageBody(result.data))
  }

  // ---- Properties ------------------------------------------------------------------

  /** A request refused for a missing field does not depend on the upstream at all. */
  lemma GuardsNeverReachUpstream(request: AccountsRequest, u1: Upstream<AccountsPage>, u2: Upstream<AccountsPage>)
    requires !Truthy(BearerToken(request.authorization)) || !Truthy(QueryParam(request.query, "businessAccountId"))
    ensures Get(request, u1) == Get(request, u2)
    ensures Get(request, u1).status in {400, 401}
  {
  }

  /** `Bearer X` is read as the token `X`. */
  lemma BearerHeaderGivesToken(x: string)
    ensures BearerToken(Some(BEARER_PREFIX + x)) == Some(x)
  {
  }

  /** A character that is neither a digit, `-`, nor in `API Error: ` is absent
      from every `API Error: <status>` text. */
  lemma ApiErrorLacks(status: int, c: char)
    requires !IsDigit(c) && c != '-' && c !in "API Error: "
    ensures c !in ApiError(status)
  {
    var digits := IntToString(status);
    assert ApiError(status) == "API Error: " + digits;
  }

  /** `API Error: <status>` mentions neither expiry, invalidity nor permissions. */
  lemma ApiErrorIsServerError(status: int)
    ensures ErrorStatus(ApiError(status)) == 500
  {
    ApiErrorLacksPattern(status, "Token expired", 2);
    ApiErrorLacksPattern(status, "invalid", 2);
    ApiErrorLacksPattern(status, "Insufficient permissions", 4);
  }

  lemma ApiErrorLacksPattern(status: int, p: string, k: nat)
    requires k < |p| && !IsDigit(p[k]) && p[k] != '-' && p[k] !in "API Error: "
    ensures !Contains(ApiError(status), p)
  {
    ApiErrorLacks(status, p[k]);
    NotContainedForLackOf(ApiError(status), p, k);
  }

  /** `Failed to fetch ad accounts` is a server error too. */
  lemma FetchFailureIsServerError()
    ensures ErrorStatus(FETCH_FAILED_ERROR) == 500
  {
    NotContainedForLackOf(FETCH_FAILED_ERROR, "Token expired", 0);
    NotContainedForLackOf(FETCH_FAILED_ERROR, "invalid", 2);
    NotContainedForLackOf(FETCH_FAILED_ERROR, "Insufficient permissions", 0);
  }

  /** The client's expiry text is the one error read as 401. */
  lemma ExpiryIsUnauthorized()
    ensures ErrorStatus(TOKEN_EXPIRED_ERROR) == 401
  {
    ContainsInfix("", "Token expired", " or invalid");
    assert "" + "Token expired" + " or invalid" == TOKEN_EXPIRED_ERROR;
  }

  /** Every error this client produces is non-empty, and its status is 401
      exactly for an upstream 401; none is 403. */
  lemma ClientErrorStatus(client: MetaApiClient, customUrl: Option<string>, upstream: Upstream<AccountsPage>)
    ensures var result := client.GetAdAccounts(customUrl, upstream);
            var o := upstream(client.AdAccountsUrl(customUrl));
            && (Truthy(result.error) <==> result.error.Some?)
            && (result.error.Some? ==>
                  (ErrorStatus(result.error.value) == 401 <==> o.Response? && o.status == 401)
                  && ErrorStatus(result.error.value) != 403)
  {
    var o := upstream(client.AdAccountsUrl(customUrl));
    ExpiryIsUnauthorized();
    FetchFailureIsServerError();
    if o.Response? {
      ApiErrorIsServerError(o.status);
    }
  }

  /** End to end, the status follows the upstream outcome at the listing URL:
      200 with the page for a parsed 2xx reply, 401 for an upstream 401, 500
      for every other failure; this client never leads to 403. */
  lemma StatusFollowsUpstream(token: string, query: seq<(string, string)>, upstream: Upstream<AccountsPage>)
    requires token != "" && Truthy(QueryParam(query, "businessAccountId"))
    ensures var r := Get(AccountsRequest(Some(BEARER_PREFIX + token), query), upstream);
            var o := upstream(MetaApiClient(token).AdAccountsUrl(PaginationArg(query)));
            && (r.status == 200 <==> o.Response? && IsOk(o.status) && o.body.Some?)
            && (r.status == 200 ==> r.body == PageBody(o.body.value))
            && (r.status == 401 <==> o.Response? && o.status == 401)
            && r.status in {200, 401, 500}
  {
    BearerHeaderGivesToken(token);
    ClientErrorStatus(MetaApiClient(token), PaginationArg(query), upstream);
  }

  /** A non-empty `url` parameter is fetched exactly as given, with any token. */
  lemma PaginationLinkFetchedVerbatim(token: string, query: seq<(string, string)>, link: string)
    requires QueryParam(query, "url") == Some(link) && link != ""
    ensures MetaApiClient(token).AdAccountsUrl(PaginationArg(query)) == link
  {
  }
}
