/**
 * `POST /api/validate-token`: reads the token from the JSON body, asks the
 * client to validate it, and answers 400 for a missing or rejected token,
 * 200 with the user's id and name, or 500 when anything throws.
 */
module ValidateTokenRoute {
  import opened Wrappers
  import opened Text
  import opened Types
  import opened Http
  import opened MetaApi

  /** The request body: malformed JSON (so `request.json()` throws), or an
      object whose `token` field may be absent. */
  datatype ValidateRequest = MalformedBody | JsonBody(token: Option<string>)

  /** `{ message?, valid?, user? }`. */
  datatype ValidateBody = ValidateBody(message: Option<string>, valid: Option<bool>, user: Option<UserInfo>)

  const TOKEN_IS_REQUIRED: string := "Token is required"

  /** `POST`, with the upstream as a parameter. */
  function Post(request: ValidateRequest, upstream: Upstream<UserJson>): (r: RouteResponse<ValidateBody>)
    ensures request.MalformedBody? ==>
              r == RouteResponse(500, ValidateBody(Some(VALIDATE_FAILED_ERROR), Some(false), None))
    ensures request.JsonBody? && !Truthy(request.token) ==>
              r == RouteResponse(400, ValidateBody(Some(TOKEN_IS_REQUIRED), None, None))
    ensures request.JsonBody? && Truthy(request.token) ==>
              var result := MetaApiClient(request.token.value).ValidateToken(upstream);
              && (!result.valid ==>
                    r == RouteResponse(400, ValidateBody(Some(OrNull(result.error).GetOr(INVALID_TOKEN_ERROR)), Some(false), None)))
              && (result.valid && result.user.value.UserRecord? ==>
                    r == RouteResponse(200, ValidateBody(None, Some(true),
                                         Some(UserInfo(result.user.value.id, result.user.value.name)))))
              && (result.valid && result.user.value.NullUser? ==>
                    r == RouteResponse(500, ValidateBody(Some(VALIDATE_FAILED_ERROR), Some(false), None)))
  {
    match request
    case MalformedBody =>
      RouteResponse(500, ValidateBody(Some(VALIDATE_FAILED_ERROR), Some(false), None))
    case JsonBody(token) =>
      if !Truthy(token) then
        RouteResponse(400, ValidateBody(Some(TOKEN_IS_REQUIRED), None, None))
      else
        var result := MetaApiClient(token.value).ValidateToken(upstream);
        if !result.valid then
          RouteResponse(400, ValidateBody(Some(OrNull(result.error).GetOr(INVALID_TOKEN_ERROR)), Some(false), None))
        else
          match result.user
          case Some(UserRecord(id, name)) =>
            RouteResponse(200, ValidateBody(None, Some(true), Some(UserInfo(id, name))))
          case _ =>
            // reading `id` of a null user throws inside the `try`
            RouteResponse(500, ValidateBody(Some(VALIDATE_FAILED_ERROR), Some(false), None))
  }

  // ---- Properties ------------------------------------------------------------------

  /** A missing token is refused before any upstream call. */
  lemma MissingTokenNeverReachesUpstream(request: ValidateRequest, u1: Upstream<UserJson>, u2: Upstream<UserJson>)
    requires request.JsonBody? && !Truthy(request.token)
    ensures Post(request, u1) == Post(request, u2) && Post(request, u1).status == 400
  {
  }

  /** End to end: the status follows the upstream identity lookup for the
      token exactly as received, with no trimming. */
  lemma StatusFollowsIdentityLookup(token: string, upstream: Upstream<UserJson>)
    requires token != ""
    ensures var r := Post(JsonBody(Some(token)), upstream);
            var o := upstream(BASE_URL + "/me?access_token=" + token);
            && (r.status == 200 <==> o.Response? && IsOk(o.status) && o.body.Some? && o.body.value.UserRecord?)
            && (r.status == 200 ==> r.body.user == Some(UserInfo(o.body.value.id, o.body.value.name)))
            && (o.Response? && !IsOk(o.status) ==> r == RouteResponse(400, ValidateBody(Some(INVALID_TOKEN_ERROR), Some(false), None)))
            && (o.NetworkFailure? ==> r == RouteResponse(400, ValidateBody(Some(VALIDATE_FAILED_ERROR), Some(false), None)))
            && r.status in {200, 400, 500}
  {
  }
}
