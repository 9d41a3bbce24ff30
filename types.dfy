/** The JSON shapes exchanged with the upstream Graph API and between the
 *  browser and the two route handlers. Numbers are modelled as integers. */
module Types {
  import opened Wrappers

  /** One ad account, as the upstream listing returns it. */
  datatype AdAccount = AdAccount(
    id: string,
    name: string,
    currency: string,
    balance: int,
    accountStatus: int,
    timezoneName: string,
    amountSpent: int,
    spendCap: Option<int>)

  datatype Cursors = Cursors(before: string, after: string)

  datatype Paging = Paging(cursors: Option<Cursors>, next: Option<string>, previous: Option<string>)

  /** A page of the listing. `data` is optional because readers of the payload
      guard against its absence (`data.data || []`). */
  datatype AccountsPage = AccountsPage(data: Option<seq<AdAccount>>, paging: Option<Paging>)

  /** `{ data: [] }`, the page the client returns next to an error. */
  const EMPTY_PAGE: AccountsPage := AccountsPage(Some([]), None)

  /** The identity object the upstream `/me` call returns; `NullUser` is a JSON
      `null`, whose fields cannot be read. */
  datatype UserJson = UserRecord(id: Option<string>, name: Option<string>) | NullUser

  /** The `{ id, name }` projection the validation endpoint returns. */
  datatype UserInfo = UserInfo(id: Option<string>, name: Option<string>)
}

/** HTTP exchanges, abstracted: a reply is a status and a body that may fail to
 *  parse as JSON, or a transport failure. */
module Http {
  import opened Wrappers

  datatype HttpOutcome<T> = Response(status: int, body: Option<T>) | NetworkFailure

  /** The world's answer to a request for a URL. */
  type Upstream<T> = string -> HttpOutcome<T>

  /** `response.ok`: a status in the 2xx range. */
  predicate IsOk(status: int)
  {
    200 <= status <= 299
  }

  /** What a route handler returns: a status and a JSON body. */
  datatype RouteResponse<B> = RouteResponse(status: int, body: B)
}
