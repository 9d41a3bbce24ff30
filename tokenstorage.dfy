/**
 * The credential store: the token is kept under one `localStorage` key as
 * `btoa(token + "::" + Date.now())`, which obfuscates but does not protect it.
 * Reading it back decodes the value and keeps the text before the first `::`;
 * a value that does not decode reads as `null`.
 */
module TokenStorage {
  import opened Wrappers
  import opened Text
  import opened Base64

  const TOKEN_KEY: string := "meta_access_token"
  const SEPARATOR: string := "::"

  /** `encryptToken`, with `Date.now()` as the parameter `now`; `None` is the
      exception `btoa` throws for a token with a code unit above 0xFF. */
  function EncryptToken(token: string, now: nat): (r: Option<string>)
    ensures r.Some? <==> IsLatin1(token)
  {
    var plain := token + SEPARATOR + NatToString(now);
    assert forall i :: |token| <= i < |plain| ==> plain[i] == ':' || IsDigit(plain[i]);
    assert forall i :: 0 <= i < |token| ==> plain[i] == token[i];
    Btoa(plain)
  }

  /** `decryptToken`: `None` when `atob` throws. */
  function DecryptToken(encrypted: string): (r: Option<string>)
    ensures r.None? <==> Atob(encrypted).None?
    ensures r.Some? ==> r.value == SplitHead(Atob(encrypted).value, SEPARATOR)
  {
    match Atob(encrypted)
    case None => None
    case Some(decoded) => Some(SplitHead(decoded, SEPARATOR))
  }

  /** The token `get` gives back after storing `token`: the text before the
      first `::` of `token + "::"`, whatever the timestamp was. */
  function RecoveredToken(token: string): (r: string)
    ensures |r| <= |token| && r == token[..|r|]
  {
    var s := token + SEPARATOR;
    assert StartsWith(s[|token|..], SEPARATOR);
    SplitHead(s, SEPARATOR)
  }

  /** `tokenStorage.get` over the storage contents, `typeof window` given as
      `hasWindow`: `null` without a window, for a missing or empty value, or
      for a value that does not decode. */
  function StoredToken(hasWindow: bool, items: map<string, string>): (r: Option<string>)
    ensures r.Some? ==> StoredPresent(hasWindow, items)
    ensures !hasWindow ==> r.None?
    ensures StoredPresent(hasWindow, items) ==> r == DecryptToken(items[TOKEN_KEY])
  {
    if !hasWindow then None
    else if TOKEN_KEY in items && items[TOKEN_KEY] != "" then DecryptToken(items[TOKEN_KEY])
    else None
  }

  /** `tokenStorage.exists`: a non-empty value is present; it is not decoded. */
  predicate StoredPresent(hasWindow: bool, items: map<string, string>)
  {
    hasWindow && TOKEN_KEY in items && items[TOKEN_KEY] != ""
  }

  /** The browser's storage as the store sees it. */
  class TokenStore {
    const hasWindow: bool
    var items: map<string, string>

    constructor(hasWindow: bool, items: map<string, string>)
      ensures this.hasWindow == hasWindow && this.items == items
    {
      this.hasWindow := hasWindow;
      this.items := items;
    }

    /** `save`: overwrites the one key. It throws, and stores nothing, when the
        token is not Latin-1 or there is no `localStorage`; `ok` is false then. */
    method Save(token: string, now: nat) returns (ok: bool)
      modifies this
      ensures ok <==> hasWindow && IsLatin1(token)
      ensures ok ==> items == old(items)[TOKEN_KEY := EncryptToken(token, now).value]
      ensures !ok ==> items == old(items)
      ensures ok ==> StoredPresent(hasWindow, items)
      ensures ok ==> StoredToken(hasWindow, items) == Some(RecoveredToken(token))
    {
      var encrypted := EncryptToken(token, now);
      if encrypted.None? || !hasWindow {
        return false;
      }
      items := items[TOKEN_KEY := encrypted.value];
      ok := true;
      SaveThenGet(items, token, now);
    }

    /** `get`. */
    method Get() returns (r: Option<string>)
      ensures r == StoredToken(hasWindow, items)
    {
      if !hasWindow {
        return None;
      }
      if TOKEN_KEY in items && items[TOKEN_KEY] != "" {
        r := DecryptToken(items[TOKEN_KEY]);
      } else {
        r := None;
      }
    }

    /** `remove`: deletes the key; without a window it does nothing. */
    method Remove()
      modifies this
      ensures items == if hasWindow then old(items) - {TOKEN_KEY} else old(items)
      ensures StoredToken(hasWindow, items).None? && !StoredPresent(hasWindow, items)
    {
      if hasWindow {
        items := items - {TOKEN_KEY};
      }
    }

    /** `exists`. */
    method Exists() returns (b: bool)
      ensures b == StoredPresent(hasWindow, items)
    {
      if !hasWindow {
        return false;
      }
      b := TOKEN_KEY in items && items[TOKEN_KEY] != "";
    }
  }

  // ---- Properties ------------------------------------------------------------------

  /** The timestamp never reaches the recovered token: the first `::` of
      `token + "::" + digits` lies no later than the appended one. */
  lemma SplitIgnoresTimestamp(token: string, stamp: string)
    ensures SplitHead(token + SEPARATOR + stamp, SEPARATOR) == RecoveredToken(token)
  {
    var a := token + SEPARATOR;
    assert token + SEPARATOR + stamp == a + stamp;
    assert StartsWith(a[|token|..], SEPARATOR);
    FirstIndexOfExtension(a, stamp, SEPARATOR);
  }

  /** A first occurrence that lies wholly inside `a` is also the first one in `a + b`. */
  lemma FirstIndexOfExtension(a: string, b: string, p: string)
    requires |p| > 0 && Contains(a, p)
    ensures FirstIndex(a + b, p) == FirstIndex(a, p)
  {
    var i := FirstIndex(a, p);
    var c := a + b;
    forall j | 0 <= j <= i ensures StartsWith(c[j..], p) == StartsWith(a[j..], p) {
      if j + |p| <= |a| {
        assert c[j..][..|p|] == a[j..][..|p|];
      }
    }
    FirstIndexIs(c, p, i);
  }

  /** Decoding what was stored gives the recovered token back, whatever the timestamp. */
  lemma DecryptEncrypt(token: string, now: nat)
    requires IsLatin1(token)
    ensures DecryptToken(EncryptToken(token, now).value) == Some(RecoveredToken(token))
  {
    var plain := token + SEPARATOR + NatToString(now);
    AtobBtoa(plain);
    SplitIgnoresTimestamp(token, NatToString(now));
  }

  /** The token comes back exactly unless it contains `::` or ends with `:`
      (then `:` + `::` splits one character early). */
  lemma RecoveredExactly(token: string)
    ensures RecoveredToken(token) == token <==>
            !Contains(token, SEPARATOR) && (token == [] || token[|token| - 1] != ':')
  {
    if Contains(token, SEPARATOR) {
      SeparatorInTokenIsLossy(token);
    } else if token != [] && token[|token| - 1] == ':' {
      TrailingColonIsLost(token);
    } else {
      CleanTokenRecovered(token);
    }
  }

  lemma TrailingColonIsLost(token: string)
    requires token != [] && token[|token| - 1] == ':'
    ensures |RecoveredToken(token)| < |token|
  {
    var s := token + SEPARATOR;
    assert StartsWith(s[|token| - 1..], SEPARATOR) by {
      assert s[|token| - 1..][..2] == SEPARATOR;
    }
  }

  lemma CleanTokenRecovered(token: string)
    requires !Contains(token, SEPARATOR) && (token == [] || token[|token| - 1] != ':')
    ensures RecoveredToken(token) == token
  {
    var s := token + SEPARATOR;
    assert StartsWith(s[|token|..], SEPARATOR);
    forall j | 0 <= j < |token| ensures !StartsWith(s[j..], SEPARATOR) {
      if j + 2 <= |token| {
        assert token[j..][..2] == s[j..][..2];
      }
    }
    FirstIndexIs(s, SEPARATOR, |token|);
  }

  /** A stored token is Latin-1 text with neither `::` nor a trailing `:`
      exactly when `get` after `save` returns it unchanged. */
  lemma SaveGetRoundTrip(items: map<string, string>, token: string, now: nat)
    requires IsLatin1(token)
    ensures StoredToken(true, items[TOKEN_KEY := EncryptToken(token, now).value]) == Some(token) <==>
            !Contains(token, SEPARATOR) && (token == [] || token[|token| - 1] != ':')
  {
    SaveThenGet(items, token, now);
    RecoveredExactly(token);
  }

  /** `get` after `save` returns the recovered token. */
  lemma SaveThenGet(items: map<string, string>, token: string, now: nat)
    requires IsLatin1(token)
    ensures StoredPresent(true, items[TOKEN_KEY := EncryptToken(token, now).value])
    ensures StoredToken(true, items[TOKEN_KEY := EncryptToken(token, now).value]) == Some(RecoveredToken(token))
  {
    var plain := token + SEPARATOR + NatToString(now);
    assert |plain| >= 2;
    DecryptEncrypt(token, now);
  }

  /** With `::` inside, only the text before its first occurrence comes back. */
  lemma SeparatorInTokenIsLossy(token: string)
    requires Contains(token, SEPARATOR)
    ensures RecoveredToken(token) == token[..FirstIndex(token, SEPARATOR)]
    ensures |RecoveredToken(token)| < |token|
  {
    FirstIndexOfExtension(token, SEPARATOR, SEPARATOR);
  }

  /** A value that is present but not Base64 makes `exists` true while `get`
      is `null`. */
  lemma CorruptValueExistsButReadsNull(items: map<string, string>, i: nat)
    requires TOKEN_KEY in items && i < |items[TOKEN_KEY]|
    requires var c := items[TOKEN_KEY][i]; !IsAlphabetChar(c) && c != '=' && !IsAsciiWhitespace(c)
    ensures StoredPresent(true, items) && StoredToken(true, items).None?
  {
    AtobRejectsForeignChar(items[TOKEN_KEY], i);
  }
}
