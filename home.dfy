/**
 * The home page: restores credentials from the token store on mount, saves
 * them on submit, clears them on logout, and shows the loading placeholder,
 * the dashboard or the token entry form.
 */
module HomePage {
  import opened Wrappers
  import opened Text
  import opened TokenStorage
  import Base64

  /** The two properties the page reads from what the store returns. */
  datatype Credentials = Credentials(token: Option<string>, businessAccountId: Option<string>)

  datatype Screen = LoadingScreen | DashboardScreen | TokenEntryScreen

  /** `existingCredentials.token` and `.businessAccountId` when the store's
      answer is truthy: the store returns a string, which has neither
      property, so both read as `undefined`. */
  function CredentialsOf(stored: Option<string>): (c: Option<Credentials>)
    ensures c.Some? <==> Truthy(stored)
    ensures c.Some? ==> !Truthy(c.value.token) && !Truthy(c.value.businessAccountId)
  {
    if Truthy(stored) then Some(Credentials(None, None)) else None
  }

  /** Which screen the page renders. */
  function SelectScreen(isLoading: bool, token: Option<string>, businessAccountId: Option<string>): (s: Screen)
    ensures s == LoadingScreen <==> isLoading
    ensures s == DashboardScreen <==> !isLoading && Truthy(token) && Truthy(businessAccountId)
  {
    if isLoading then LoadingScreen
    else if Truthy(token) && Truthy(businessAccountId) then DashboardScreen
    else TokenEntryScreen
  }

  class Home {
    var token: Option<string>
    var businessAccountId: Option<string>
    var isLoading: bool
    const store: TokenStore

    constructor(store: TokenStore)
      ensures this.store == store
      ensures token.None? && businessAccountId.None? && isLoading
    {
      this.store := store;
      token := None;
      businessAccountId := None;
      isLoading := true;
    }

    function Screen(): Screen
      reads this
    {
      SelectScreen(isLoading, token, businessAccountId)
    }

    /** The mount effect. */
    method Mount()
      modifies this
      ensures !isLoading
      ensures var c := CredentialsOf(StoredToken(store.hasWindow, store.items));
              && (c.Some? ==> token == c.value.token && businessAccountId == c.value.businessAccountId)
              && (c.None? ==> token == old(token) && businessAccountId == old(businessAccountId))
    {
      var existing := store.Get();
      var credentials := CredentialsOf(existing);
      if credentials.Some? {
        token := credentials.value.token;
        businessAccountId := credentials.value.businessAccountId;
      }
      isLoading := false;
    }

    /** `handleTokenSubmit`: persists the token, then shows the submitted
        values; when `save` throws, nothing changes. */
    method HandleTokenSubmit(newToken: string, newBusinessAccountId: Option<string>, now: nat)
      modifies this, store
      ensures isLoading == old(isLoading)
      ensures store.items == if store.hasWindow && Base64.IsLatin1(newToken)
                             then old(store.items)[TOKEN_KEY := EncryptToken(newToken, now).value]
                             else old(store.items)
      ensures store.hasWindow && Base64.IsLatin1(newToken) ==>
                token == Some(newToken) && businessAccountId == newBusinessAccountId
      ensures !(store.hasWindow && Base64.IsLatin1(newToken)) ==>
                token == old(token) && businessAccountId == old(businessAccountId)
    {
      var ok := store.Save(newToken, now);
      if ok {
        token := Some(newToken);
        businessAccountId := newBusinessAccountId;
      }
    }

    /** `handleLogout`. */
    method HandleLogout()
      modifies this, store
      ensures isLoading == old(isLoading)
      ensures token.None? && businessAccountId.None?
      ensures store.items == if store.hasWindow then old(store.items) - {TOKEN_KEY} else old(store.items)
      ensures StoredToken(store.hasWindow, store.items).None? && !StoredPresent(store.hasWindow, store.items)
    {
      store.Remove();
      token := None;
      businessAccountId := None;
    }
  }

  // ---- Properties ------------------------------------------------------------------

  /** Whatever the store holds, mounting a fresh page ends on the token entry
      form: a stored session is never restored. */
  lemma MountNeverRestoresSession(stored: Option<string>)
    ensures var c := CredentialsOf(stored);
            var token := if c.Some? then c.value.token else None;
            var businessAccountId := if c.Some? then c.value.businessAccountId else None;
            SelectScreen(false, token, businessAccountId) == TokenEntryScreen
  {
  }

  /** The form hands over only the token, so the submitted business account id
      is undefined and the dashboard never appears after a submission. */
  lemma FormSubmitNeverShowsDashboard(newToken: string)
    ensures SelectScreen(false, Some(newToken), None) == TokenEntryScreen
  {
  }

  /** After logout the page shows the form once loaded, and a later mount
      finds nothing stored. */
  lemma LogoutShowsForm(hasWindow: bool, items: map<string, string>)
    ensures SelectScreen(false, None, None) == TokenEntryScreen
    ensures var after := if hasWindow then items - {TOKEN_KEY} else items;
            CredentialsOf(StoredToken(hasWindow, after)).None?
  {
  }
}
