/**
 * The process-wide store of the four Kaspi portal tokens (src/globalCookies.js).
 * A setter may store `undefined` (here `None`): that is what a token becomes when
 * the cookie it is read from is missing.
 */
module GlobalCookies {
  import opened Wrappers

  /** A snapshot of the four tokens. */
  datatype Tokens = Tokens(session: Option<string>, security: Option<string>, auth: Option<string>, csrf: Option<string>)

  const InitialTokens := Tokens(Some(""), Some(""), Some(""), Some(""))

  /** A token counts as present when it is truthy: defined and not "". */
  predicate Present(t: Option<string>) {
    t.Some? && t.value != ""
  }

  class CookieStore {
    var sessionToken: Option<string>
    var securityToken: Option<string>
    var authToken: Option<string>
    var csrfToken: Option<string>

    function Value(): Tokens
      reads this
    {
      Tokens(sessionToken, securityToken, authToken, csrfToken)
    }

    /** All four tokens start as "". */
    constructor ()
      ensures Value() == InitialTokens
    {
      sessionToken := Some("");
      securityToken := Some("");
      authToken := Some("");
      csrfToken := Some("");
    }

    /** `getGlobalCookes()`: the live store itself, not a copy. */
    method GetGlobalCookies() returns (live: CookieStore)
      ensures live == this
    {
      live := this;
    }

    method SetSessionToken(v: Option<string>)
      modifies this
      ensures Value() == old(Value()).(session := v)
    {
      sessionToken := v;
    }

    method SetSecurityToken(v: Option<string>)
      modifies this
      ensures Value() == old(Value()).(security := v)
    {
      securityToken := v;
    }

    method SetAuthToken(v: Option<string>)
      modifies this
      ensures Value() == old(Value()).(auth := v)
    {
      authToken := v;
    }

    method SetCsrfToken(v: Option<string>)
      modifies this
      ensures Value() == old(Value()).(csrf := v)
    {
      csrfToken := v;
    }
  }

  /** A store obtained before a setter call shows the value that call stored. */
  method LaterSetVisibleThroughEarlierView(store: CookieStore, v: Option<string>) returns (seen: Option<string>)
    modifies store
    ensures seen == v
  {
    var view := store.GetGlobalCookies();
    store.SetAuthToken(v);
    seen := view.authToken;
  }

  /** Setting the same token twice keeps the second value; the other three are untouched. */
  method SetTwiceKeepsLast(store: CookieStore, first: Option<string>, second: Option<string>)
    modifies store
    ensures store.Value() == old(store.Value()).(session := second)
  {
    store.SetSessionToken(first);
    store.SetSessionToken(second);
  }
}
