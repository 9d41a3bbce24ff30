/**
 * The token entry form: a text field, a validating flag and an error line.
 * Submitting posts the trimmed token to `/api/validate-token` and hands the
 * trimmed token on only when the endpoint accepts it.
 */
module TokenEntry {
  import opened Wrappers
  import opened Text
  import opened Http
  import opened MetaApi
  import opened ValidateTokenRoute

  /** `fetch('/api/validate-token', { body: { token } })`: the reply to the
      token sent in the request body. */
  type ValidateEndpoint = string -> HttpOutcome<ValidateBody>

  const DEFAULT_REJECTION: string := "Invalid token"
  const CONNECTION_ERROR: string := "Failed to validate token. Please check your connection."

  /** `response.ok && result.valid`. */
  predicate Accepted(reply: HttpOutcome<ValidateBody>)
  {
    reply.Response? && IsOk(reply.status) && reply.body.Some? && reply.body.value.valid == Some(true)
  }

  /** The error line after a rejected submission: the endpoint's message, the
      default rejection, or the connection message when no JSON arrived. */
  function RejectionMessage(reply: HttpOutcome<ValidateBody>): (m: string)
    requires !Accepted(reply)
    ensures m != ""
    ensures reply.NetworkFailure? || reply.body.None? ==> m == CONNECTION_ERROR
    ensures reply.Response? && reply.body.Some? ==>
              (Truthy(reply.body.value.message) ==> m == reply.body.value.message.value)
              && (!Truthy(reply.body.value.message) ==> m == DEFAULT_REJECTION)
  {
    match reply
    case NetworkFailure => CONNECTION_ERROR
    case Response(_, body) =>
      if body.None? then CONNECTION_ERROR
      else OrNull(body.value.message).GetOr(DEFAULT_REJECTION)
  }

  class TokenInput {
    var token: string
    var isValidating: bool
    var error: string

    constructor()
      ensures token == "" && !isValidating && error == ""
    {
      token := "";
      isValidating := false;
      error := "";
    }

    /** The text area's `onChange`. */
    method SetToken(text: string)
      modifies this
      ensures token == text && isValidating == old(isValidating) && error == old(error)
    {
      token := text;
    }

    /** The submit button is enabled for a token that is not all whitespace,
        while no validation is running. */
    predicate SubmitEnabled()
      reads this
    {
      !(Trim(token) == "" || isValidating)
    }

    /** `handleSubmit`. `submitted` is the argument `onTokenSubmit` receives,
        when it is called. */
    method HandleSubmit(endpoint: ValidateEndpoint) returns (submitted: Option<string>)
      modifies this
      ensures token == old(token) && !isValidating
      ensures submitted.Some? <==> Accepted(endpoint(Trim(token)))
      ensures submitted.Some? ==> submitted.value == Trim(token) && error == ""
      ensures submitted.None? ==> error == RejectionMessage(endpoint(Trim(token)))
    {
      isValidating := true;
      error := "";
      var body := Trim(token);
      var reply := endpoint(body);
      if Accepted(reply) {
        submitted := Some(body);
      } else {
        error := RejectionMessage(reply);
        submitted := None;
      }
      isValidating := false;
    }
  }

  // ---- Properties ------------------------------------------------------------------

  /** The validation route itself, as the form's endpoint. */
  function RouteReply(token: string, upstream: Upstream<Types.UserJson>): (reply: HttpOutcome<ValidateBody>)
    ensures reply.Response? && reply.body.Some?
  {
    var r := Post(JsonBody(Some(token)), upstream);
    Response(r.status, Some(r.body))
  }

  /** The button is enabled exactly when the field holds a character other
      than whitespace and no validation is running. */
  lemma SubmitEnabledIff(form: TokenInput)
    ensures form.SubmitEnabled() <==> !AllTrimmable(form.token) && !form.isValidating
  {
    TrimEmptyIff(form.token);
  }

  /** An enabled button sends a token the route's "Token is required" guard
      lets through. */
  lemma EnabledSubmitPassesRouteGuard(form: TokenInput, upstream: Upstream<Types.UserJson>)
    requires form.SubmitEnabled()
    ensures Post(JsonBody(Some(Trim(form.token))), upstream).body.message != Some(TOKEN_IS_REQUIRED)
  {
    var t := Trim(form.token);
    ValidityOfTokenIsRequired();
    StatusFollowsIdentityLookup(t, upstream);
  }

  lemma ValidityOfTokenIsRequired()
    ensures TOKEN_IS_REQUIRED != INVALID_TOKEN_ERROR && TOKEN_IS_REQUIRED != VALIDATE_FAILED_ERROR
  {
    assert TOKEN_IS_REQUIRED[0] != INVALID_TOKEN_ERROR[0];
    assert TOKEN_IS_REQUIRED[0] != VALIDATE_FAILED_ERROR[0];
  }

  /** End to end: against the route, the form accepts a non-empty token
      exactly when the upstream identity lookup for it succeeds with a user
      record; an upstream rejection shows the client's message. */
  lemma FormAcceptsIdentifiedTokens(token: string, upstream: Upstream<Types.UserJson>)
    requires token != ""
    ensures var o := upstream(MetaApiClient(token).MeUrl());
            && (Accepted(RouteReply(token, upstream)) <==>
                  o.Response? && IsOk(o.status) && o.body.Some? && o.body.value.UserRecord?)
            && (o.Response? && !IsOk(o.status) ==> RejectionMessage(RouteReply(token, upstream)) == INVALID_TOKEN_ERROR)
  {
    StatusFollowsIdentityLookup(token, upstream);
  }
}
