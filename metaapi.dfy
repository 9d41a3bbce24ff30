/**
 * The upstream Graph API client: the account-status badge classifier and the
 * two calls, each turning the HTTP outcome into a tagged result without ever
 * throwing.
 */
module MetaApi {
  import opened Wrappers
  import opened Text
  import opened Types
  import opened Http

  const API_VERSION: string := "v24.0"
  const BASE_URL: string := "https://graph.facebook.com/" + API_VERSION

  /** The fields requested for every account of the initial listing. */
  const ACCOUNT_FIELDS: string := "name,currency,balance,account_status,timezone_name,amount_spent,spend_cap"

  // ---- Account status badges ---------------------------------------------------

  /** The upstream status codes that have a label of their own. */
  const KNOWN_STATUS_CODES: set<int> := {1, 2, 3, 7, 8, 9, 100, 101, 201, 202}

  /** The upstream's names for those codes, as the client documents them. */
  function DocumentedName(status: int): string
    requires status in KNOWN_STATUS_CODES
  {
    match status
    case 1 => "ACTIVE"
    case 2 => "DISABLED"
    case 3 => "UNSETTLED"
    case 7 => "PENDING_RISK_REVIEW"
    case 8 => "PENDING_SETTLEMENT"
    case 9 => "IN_GRACE_PERIOD"
    case 100 => "PENDING_CLOSURE"
    case 101 => "CLOSED"
    case 201 => "ANY_ACTIVE"
    case 202 => "ANY_CLOSED"
  }

  function ToLower(c: char): char
  {
    if 'A' <= c <= 'Z' then (c as int - 'A' as int + 'a' as int) as char else c
  }

  /** An upper-case `SNAKE_CASE` name read as words: `_` becomes a space and
      every letter but the first of a word is lower-cased. */
  function Humanize(name: string): (r: string)
    ensures |r| == |name|
  {
    seq(|name|, i requires 0 <= i < |name| =>
      if name[i] == '_' then ' '
      else if i == 0 || name[i - 1] == '_' then name[i]
      else ToLower(name[i]))
  }

  /** Names joined by `_` read as their words joined by a space. */
  lemma JoinWords(a: string, b: string)
    requires a != [] && a[|a| - 1] != '_'
    ensures Humanize(a + "_" + b) == Humanize(a) + " " + Humanize(b)
  {
    var n := a + "_" + b;
    forall i | 0 <= i < |n| ensures Humanize(n)[i] == (Humanize(a) + " " + Humanize(b))[i] {
      if i > |a| {
        assert n[i] == b[i - |a| - 1];
        if i > |a| + 1 { assert n[i - 1] == b[i - |a| - 2]; }
      }
    }
  }

  /** A single word keeps its first letter and lower-cases the rest. */
  lemma OneWord(w: string, text: string)
    requires |w| == |text|
    requires forall i :: 0 <= i < |w| ==> w[i] != '_' && text[i] == (if i == 0 then w[i] else ToLower(w[i]))
    ensures Humanize(w) == text
  {
  }

  /** The colour families of the badges. */
  datatype Hue = Green | Red | Yellow | Blue | Gray

  function HueName(h: Hue): string
  {
    match h
    case Green => "green"
    case Red => "red"
    case Yellow => "yellow"
    case Blue => "blue"
    case Gray => "gray"
  }

  /** The colour family of each group of statuses: active is green, disabled
      or closing is red, awaiting settlement or review is yellow, the two
      aggregate codes are blue, and anything else is gray. */
  function StatusHue(status: int): Hue
  {
    if status == 1 then Green
    else if status == 2 || status == 100 || status == 101 then Red
    else if status == 3 || status == 7 || status == 8 || status == 9 then Yellow
    else if status == 201 || status == 202 then Blue
    else Gray
  }

  /** The Tailwind text class of a hue. */
  function TextClass(h: Hue): string
  {
    match h
    case Green => "text-green-600"
    case Red => "text-red-600"
    case Yellow => "text-yellow-600"
    case Blue => "text-blue-600"
    case Gray => "text-gray-600"
  }

  /** The Tailwind background class of a hue. */
  function BackgroundClass(h: Hue): string
  {
    match h
    case Green => "bg-green-100"
    case Red => "bg-red-100"
    case Yellow => "bg-yellow-100"
    case Blue => "bg-blue-100"
    case Gray => "bg-gray-100"
  }

  /** Both classes of a hue name that hue, at shades 600 and 100. */
  lemma ClassesNameHue(h: Hue)
    ensures TextClass(h) == "text-" + HueName(h) + "-600"
    ensures BackgroundClass(h) == "bg-" + HueName(h) + "-100"
  {
    match h
    case Green =>
      assert "text-" + "green" + "-600" == "text-green-600";
      assert "bg-" + "green" + "-100" == "bg-green-100";
    case Red =>
      assert "text-" + "red" + "-600" == "text-red-600";
      assert "bg-" + "red" + "-100" == "bg-red-100";
    case Yellow =>
      assert "text-" + "yellow" + "-600" == "text-yellow-600";
      assert "bg-" + "yellow" + "-100" == "bg-yellow-100";
    case Blue =>
      assert "text-" + "blue" + "-600" == "text-blue-600";
      assert "bg-" + "blue" + "-100" == "bg-blue-100";
    case Gray =>
      assert "text-" + "gray" + "-600" == "text-gray-600";
      assert "bg-" + "gray" + "-100" == "bg-gray-100";
  }

  datatype StatusBadge = StatusBadge(text: string, color: string, bgColor: string)

  /** `MetaApiClient.getAccountStatusText`: a label and two style classes for
      any integer; the text and background classes share one hue. */
  function AccountStatusText(status: int): (r: StatusBadge)
    ensures r.text == "Other" <==> status !in KNOWN_STATUS_CODES
    ensures r.color == TextClass(StatusHue(status)) && r.bgColor == BackgroundClass(StatusHue(status))
  {
    match status
    case 1 => StatusBadge("Active", "text-green-600", "bg-green-100")
    case 2 => StatusBadge("Disabled", "text-red-600", "bg-red-100")
    case 3 => StatusBadge("Unsettled", "text-yellow-600", "bg-yellow-100")
    case 7 => StatusBadge("Pending Risk Review", "text-yellow-600", "bg-yellow-100")
    case 8 => StatusBadge("Pending Settlement", "text-yellow-600", "bg-yellow-100")
    case 9 => StatusBadge("In Grace Period", "text-yellow-600", "bg-yellow-100")
    case 100 => StatusBadge("Pending Closure", "text-red-600", "bg-red-100")
    case 101 => StatusBadge("Closed", "text-red-600", "bg-red-100")
    case 201 => StatusBadge("Any Active", "text-blue-600", "bg-blue-100")
    case 202 => StatusBadge("Any Closed", "text-blue-600", "bg-blue-100")
    case _ => StatusBadge("Other", "text-gray-600", "bg-gray-100")
  }

  /** Each known code is labelled with its documented name, read as words. */
  lemma DocumentedLabels(status: int)
    requires status in KNOWN_STATUS_CODES
    ensures AccountStatusText(status).text == Humanize(DocumentedName(status))
  {
    if status == 7 {
      RiskReviewLabel();
    } else if status == 8 {
      PendingSettlementLabel();
    } else if status == 100 {
      PendingClosureLabel();
    } else if status == 9 {
      GracePeriodLabel();
    } else if status == 201 || status == 202 {
      AggregateLabels(status);
    } else {
      SingleWordLabels(status);
    }
  }

  lemma SingleWordLabels(status: int)
    requires status == 1 || status == 2 || status == 3 || status == 101
    ensures AccountStatusText(status).text == Humanize(DocumentedName(status))
  {
    match status
    case 1 => OneWord("ACTIVE", "Active");
    case 2 => OneWord("DISABLED", "Disabled");
    case 3 => OneWord("UNSETTLED", "Unsettled");
    case 101 => OneWord("CLOSED", "Closed");
  }

  lemma RiskReviewLabel()
    ensures AccountStatusText(7).text == Humanize(DocumentedName(7))
  {
    assert DocumentedName(7) == "PENDING" + "_" + "RISK" + "_" + "REVIEW";
    assert AccountStatusText(7).text == "Pending" + " " + "Risk" + " " + "Review";
    HumanizeWords2("PENDING", "RISK", "REVIEW", "Pending", "Risk", "Review");
  }

  lemma PendingSettlementLabel()
    ensures AccountStatusText(8).text == Humanize(DocumentedName(8))
  {
    assert DocumentedName(8) == "PENDING" + "_" + "SETTLEMENT";
    assert AccountStatusText(8).text == "Pending" + " " + "Settlement";
    HumanizeWords1("PENDING", "SETTLEMENT", "Pending", "Settlement");
  }

  lemma PendingClosureLabel()
    ensures AccountStatusText(100).text == Humanize(DocumentedName(100))
  {
    assert DocumentedName(100) == "PENDING" + "_" + "CLOSURE";
    assert AccountStatusText(100).text == "Pending" + " " + "Closure";
    HumanizeWords1("PENDING", "CLOSURE", "Pending", "Closure");
  }

  lemma GracePeriodLabel()
    ensures AccountStatusText(9).text == Humanize(DocumentedName(9))
  {
    assert DocumentedName(9) == "IN" + "_" + "GRACE" + "_" + "PERIOD";
    assert AccountStatusText(9).text == "In" + " " + "Grace" + " " + "Period";
    HumanizeWords2("IN", "GRACE", "PERIOD", "In", "Grace", "Period");
  }

  /** Two words, each humanized on its own, joined. */
  lemma HumanizeWords1(a: string, b: string, ta: string, tb: string)
    requires a != [] && |a| == |ta| && |b| == |tb|
    requires forall i :: 0 <= i < |a| ==> a[i] != '_' && ta[i] == (if i == 0 then a[i] else ToLower(a[i]))
    requires forall i :: 0 <= i < |b| ==> b[i] != '_' && tb[i] == (if i == 0 then b[i] else ToLower(b[i]))
    ensures Humanize(a + "_" + b) == ta + " " + tb
  {
    OneWord(a, ta);
    OneWord(b, tb);
    JoinWords(a, b);
  }

  /** Three words, each humanized on its own, joined. */
  lemma HumanizeWords2(a: string, b: string, c: string, ta: string, tb: string, tc: string)
    requires a != [] && b != [] && |a| == |ta| && |b| == |tb| && |c| == |tc|
    requires forall i :: 0 <= i < |a| ==> a[i] != '_' && ta[i] == (if i == 0 then a[i] else ToLower(a[i]))
    requires forall i :: 0 <= i < |b| ==> b[i] != '_' && tb[i] == (if i == 0 then b[i] else ToLower(b[i]))
    requires forall i :: 0 <= i < |c| ==> c[i] != '_' && tc[i] == (if i == 0 then c[i] else ToLower(c[i]))
    ensures Humanize(a + "_" + b + "_" + c) == ta + " " + tb + " " + tc
  {
    HumanizeWords1(b, c, tb, tc);
    OneWord(a, ta);
    JoinWords(a, b + "_" + c);
    assert a + "_" + b + "_" + c == a + "_" + (b + "_" + c);
    assert ta + " " + tb + " " + tc == ta + " " + (tb + " " + tc);
  }

  lemma AggregateLabels(status: int)
    requires status == 201 || status == 202
    ensures AccountStatusText(status).text == Humanize(DocumentedName(status))
  {
    if status == 201 {
      assert DocumentedName(201) == "ANY" + "_" + "ACTIVE";
      assert AccountStatusText(201).text == "Any" + " " + "Active";
      HumanizeWords1("ANY", "ACTIVE", "Any", "Active");
    } else {
      assert DocumentedName(202) == "ANY" + "_" + "CLOSED";
      assert AccountStatusText(202).text == "Any" + " " + "Closed";
      HumanizeWords1("ANY", "CLOSED", "Any", "Closed");
    }
  }

  // ---- The client ----------------------------------------------------------------

  /** What `validateToken` resolves to. */
  datatype ValidateResult = ValidateResult(valid: bool, user: Option<UserJson>, error: Option<string>)

  /** What `getAdAccounts` resolves to: a page, and an error next to an empty page. */
  datatype AccountsResult = AccountsResult(data: AccountsPage, error: Option<string>)

  const INVALID_TOKEN_ERROR: string := "Invalid or expired token"
  const VALIDATE_FAILED_ERROR: string := "Failed to validate token"
  const TOKEN_EXPIRED_ERROR: string := "Token expired or invalid"
  const FETCH_FAILED_ERROR: string := "Failed to fetch ad accounts"

  /** `API Error: <status>`, the error for any other unsuccessful status. */
  function ApiError(status: int): string
  {
    "API Error: " + IntToString(status)
  }

  /** `MetaApiClient`: the access token is fixed when the client is built. */
  datatype MetaApiClient = MetaApiClient(accessToken: string) {

    /** The identity lookup for the token. */
    function MeUrl(): string
    {
      BASE_URL + "/me?access_token=" + accessToken
    }

    /** `validateToken`: one identity lookup; the outcome is never thrown. */
    function ValidateToken(upstream: Upstream<UserJson>): (r: ValidateResult)
      ensures var o := upstream(MeUrl());
        && (r.valid <==> o.Response? && IsOk(o.status) && o.body.Some?)
        && (r.valid ==> r.user == o.body && r.error.None?)
        && (!r.valid ==> r.user.None?)
        && (o.Response? && !IsOk(o.status) ==> r.error == Some(INVALID_TOKEN_ERROR))
        && (o.NetworkFailure? || (IsOk(o.status) && o.body.None?) ==> r.error == Some(VALIDATE_FAILED_ERROR))
    {
      match upstream(MeUrl())
      case NetworkFailure =>
        ValidateResult(false, None, Some(VALIDATE_FAILED_ERROR))
      case Response(status, body) =>
        if !IsOk(status) then
          ValidateResult(false, None, Some(INVALID_TOKEN_ERROR))
        else if body.None? then
          // the body is not JSON: `response.json()` throws inside the `try`
          ValidateResult(false, None, Some(VALIDATE_FAILED_ERROR))
        else
          ValidateResult(true, body, None)
    }

    /** The listing URL: a non-empty pagination link verbatim, or else the
        initial listing of the token owner's accounts with the fixed field set. */
    function AdAccountsUrl(customUrl: Option<string>): (url: string)
      ensures Truthy(customUrl) ==> url == customUrl.value
      ensures !Truthy(customUrl) ==>
        url == BASE_URL + "/me/adaccounts?fields=" + ACCOUNT_FIELDS + "&access_token=" + accessToken
    {
      if Truthy(customUrl) then customUrl.value
      else BASE_URL + "/me/adaccounts?fields=" + ACCOUNT_FIELDS + "&access_token=" + accessToken
    }

    /** `getAdAccounts`: fetches the listing URL; an unsuccessful outcome
        becomes an error next to an empty page, and nothing is thrown. */
    function GetAdAccounts(customUrl: Option<string>, upstream: Upstream<AccountsPage>): (r: AccountsResult)
      ensures var o := upstream(AdAccountsUrl(customUrl));
        && (r.error.None? <==> o.Response? && IsOk(o.status) && o.body.Some?)
        && (r.error.None? ==> r.data == o.body.value)
        && (r.error.Some? ==> r.data == EMPTY_PAGE)
        && (o.Response? && o.status == 401 ==> r.error == Some(TOKEN_EXPIRED_ERROR))
        && (o.Response? && !IsOk(o.status) && o.status != 401 ==> r.error == Some(ApiError(o.status)))
        && (o.NetworkFailure? || (IsOk(o.status) && o.body.None?) ==> r.error == Some(FETCH_FAILED_ERROR))
    {
      match upstream(AdAccountsUrl(customUrl))
      case NetworkFailure =>
        AccountsResult(EMPTY_PAGE, Some(FETCH_FAILED_ERROR))
      case Response(status, body) =>
        if !IsOk(status) then
          if status == 401 then AccountsResult(EMPTY_PAGE, Some(TOKEN_EXPIRED_ERROR))
          else AccountsResult(EMPTY_PAGE, Some(ApiError(status)))
        else if body.None? then
          AccountsResult(EMPTY_PAGE, Some(FETCH_FAILED_ERROR))
        else
          AccountsResult(body.value, None)
    }
  }
}
