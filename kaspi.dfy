/**
 * The payment lookup on the Kaspi merchant portal (src/kaspi.js): it loads
 * the saved cookies into the token store, asks the portal for today's
 * operations with the stored tokens, logs in through the browser when that
 * gives nothing, and looks for the operation paid from the given phone.  The
 * portal, the browser login, the cookie file and the clock are inputs; the
 * requests sent to the portal are returned so that contracts can speak of them.
 */
module Kaspi {
  import opened Wrappers
  import opened Text
  import opened JsValue
  import opened GlobalCookies

  /** A browser cookie `{ name, value }`. */
  datatype Cookie = Cookie(name: string, value: string)

  /** `cookies.find(cookie => cookie.name === name)?.value`. */
  function FindCookie(cs: seq<Cookie>, name: string): (r: Option<string>)
    ensures r.None? <==> forall i :: 0 <= i < |cs| ==> cs[i].name != name
    ensures r.Some? ==> exists i :: 0 <= i < |cs| && cs[i].name == name && cs[i].value == r.value
                          && forall j :: 0 <= j < i ==> cs[j].name != name
  {
    if cs == [] then None
    else if cs[0].name == name then Some(cs[0].value)
    else
      var r := FindCookie(cs[1..], name);
      assert forall j :: 1 <= j < |cs| ==> cs[j] == cs[1..][j - 1];
      r
  }

  /** The four tokens taken from a cookie list by name. */
  function TokensFromCookies(cs: seq<Cookie>): Tokens {
    Tokens(FindCookie(cs, "Session_Token"), FindCookie(cs, "Security_Token"),
           FindCookie(cs, "Auth_Token"), FindCookie(cs, "CSRF_Token"))
  }

  /** `saveCookiesInGlobalCookies()` once the file is parsed: one setter call per token. */
  method SaveCookiesInGlobalCookies(store: CookieStore, cs: seq<Cookie>)
    modifies store
    ensures store.Value() == TokensFromCookies(cs)
  {
    store.SetSessionToken(FindCookie(cs, "Session_Token"));
    store.SetSecurityToken(FindCookie(cs, "Security_Token"));
    store.SetAuthToken(FindCookie(cs, "Auth_Token"));
    store.SetCsrfToken(FindCookie(cs, "CSRF_Token"));
  }

  // --- the operations request ---

  /** The entries of the `cookies` object, in the order its literal lists them. */
  function CookieEntries(t: Tokens): seq<(string, Option<string>)> {
    [("CSRF_Token", t.csrf), ("Auth_Token", t.auth), ("Security_Token", t.security), ("Session_Token", t.session)]
  }

  /** `${key}=${value}`; an undefined value is written "undefined". */
  function CookiePair(e: (string, Option<string>)): string {
    e.0 + "=" + (if e.1.Some? then e.1.value else "undefined")
  }

  function CookiePairs(entries: seq<(string, Option<string>)>): (ps: seq<string>)
    ensures |ps| == |entries|
    ensures forall i :: 0 <= i < |entries| ==> ps[i] == CookiePair(entries[i])
  {
    if entries == [] then [] else [CookiePair(entries[0])] + CookiePairs(entries[1..])
  }

  /** The `Cookie` header: `Object.entries(cookies).map(([k, v]) => `${k}=${v}`).join('; ')`. */
  function CookieHeader(entries: seq<(string, Option<string>)>): string {
    Join(CookiePairs(entries), "; ")
  }

  /** The header for the four tokens lists them as CSRF, Auth, Security, Session, separated by "; ". */
  lemma TokenHeaderShape(t: Tokens)
    ensures CookieHeader(CookieEntries(t))
            == CookiePair(("CSRF_Token", t.csrf)) + "; " + CookiePair(("Auth_Token", t.auth)) + "; "
               + CookiePair(("Security_Token", t.security)) + "; " + CookiePair(("Session_Token", t.session))
  {
    var ps := CookiePairs(CookieEntries(t));
    assert ps == [ps[0]] + [ps[1], ps[2], ps[3]];
    JoinCons(ps[0], [ps[1], ps[2], ps[3]], "; ");
    assert [ps[1], ps[2], ps[3]] == [ps[1]] + [ps[2], ps[3]];
    JoinCons(ps[1], [ps[2], ps[3]], "; ");
    assert [ps[2], ps[3]] == [ps[2]] + [ps[3]];
    JoinCons(ps[2], [ps[3]], "; ");
  }

  datatype OperationsQuery = OperationsQuery(searchText: string, searchType: string, startDate: string,
                                             endDate: string, services: seq<string>)

  /** `today.toISOString().split('T')[0]`. */
  function DatePart(iso: string): string {
    Split(iso, 'T')[0]
  }

  /** The body of the request: today's operations of service 7267. */
  function QueryFor(nowIso: string): OperationsQuery {
    var d := DatePart(nowIso);
    OperationsQuery("", "0", d + "T00:00:00", d + "T23:59:59", ["7267"])
  }

  /** The window starts at the first second and ends at the last second of the current (UTC) day. */
  lemma QueryCoversToday(nowIso: string)
    ensures var q := QueryFor(nowIso);
            DatePart(q.startDate) == DatePart(nowIso) && DatePart(q.endDate) == DatePart(nowIso)
            && q.startDate[|DatePart(nowIso)|..] == "T00:00:00" && q.endDate[|DatePart(nowIso)|..] == "T23:59:59"
            && q.searchText == "" && q.searchType == "0" && q.services == ["7267"]
  {
    var d := DatePart(nowIso);
    assert 'T' !in d;
    assert d + "T00:00:00" == d + ['T'] + "00:00:00";
    assert d + "T23:59:59" == d + ['T'] + "23:59:59";
    SplitFirstPart(d, 'T', "00:00:00");
    SplitFirstPart(d, 'T', "23:59:59");
  }

  datatype PortalRequest = PortalRequest(cookie: string, body: OperationsQuery)

  /** `response.data.data` when it is a list of operations, or another value with its truthiness. */
  datatype OperationsData = OperationList(ops: seq<Operation>) | OtherData(truthy: bool)

  /** One operation; `parameters` holds the payer's details as text. */
  datatype Operation = Operation(parameters: Json, amount: int)

  /** What the portal does with a request: answers, fails with an HTTP status, or fails without a response. */
  datatype PortalReply = Answered(data: OperationsData) | HttpFailure(status: int) | NoResponse

  /** `responseSendKaspiRequest`: `null` before any request, the data, `false` on 401, or a thrown error. */
  datatype SendResult = NotSent | Data(data: OperationsData) | Unauthorized | SendThrew

  function RequestFor(t: Tokens, nowIso: string): PortalRequest {
    PortalRequest(CookieHeader(CookieEntries(t)), QueryFor(nowIso))
  }

  /** `sendKaspiRequest(cookies)`: a 401 is reported as `false`; every other failure is thrown on. */
  function SendKaspiRequest(rq: PortalRequest, portal: PortalRequest -> PortalReply): (r: SendResult)
    ensures r == Unauthorized <==> portal(rq) == HttpFailure(401)
    ensures r == SendThrew <==> portal(rq).NoResponse? || (portal(rq).HttpFailure? && portal(rq).status != 401)
    ensures portal(rq).Answered? ==> r == Data(portal(rq).data)
  {
    match portal(rq)
    case Answered(d) => Data(d)
    case HttpFailure(status) => if status == 401 then Unauthorized else SendThrew
    case NoResponse => SendThrew
  }

  predicate SendTruthy(r: SendResult) {
    r.Data? && (r.data.OperationList? || r.data.truthy)
  }

  // --- matching an operation to the phone ---

  /** `!item.parameters` skips the item; a truthy non-string has no `match` and throws. */
  predicate Skipped(op: Operation) {
    !Truthy(op.parameters)
  }

  predicate Throws(op: Operation) {
    Truthy(op.parameters) && !op.parameters.JStr?
  }

  /** `item.parameters.match(/\d+/g)?.join('') === phone`. */
  predicate Matches(op: Operation, phone: Option<string>) {
    Truthy(op.parameters) && op.parameters.JStr? && MatchDigits(op.parameters.s) == phone
  }

  datatype Scan = Match(amount: int) | NoMatch | ScanThrew

  /** `operations.find(...)`: the first operation that matches, unless an earlier one throws. */
  function FindPayment(ops: seq<Operation>, phone: Option<string>): (r: Scan)
    ensures r.Match? ==> exists i :: (0 <= i < |ops| && Matches(ops[i], phone) && r.amount == ops[i].amount
                            && forall j :: 0 <= j < i ==> !Matches(ops[j], phone) && !Throws(ops[j]))
    ensures r.ScanThrew? ==> exists i :: (0 <= i < |ops| && Throws(ops[i])
                            && forall j :: 0 <= j < i ==> !Matches(ops[j], phone) && !Throws(ops[j]))
    ensures r.NoMatch? <==> forall i :: 0 <= i < |ops| ==> !Matches(ops[i], phone) && !Throws(ops[i])
  {
    if ops == [] then NoMatch
    else if Throws(ops[0]) then ScanThrew
    else if Matches(ops[0], phone) then Match(ops[0].amount)
    else
      var r := FindPayment(ops[1..], phone);
      assert forall j :: 1 <= j < |ops| ==> ops[j] == ops[1..][j - 1];
      r
  }

  /** A phone matches exactly when the parameters' digits, all of them and in order, are the phone. */
  lemma MatchIsExactDigits(op: Operation, phone: string)
    requires op.parameters.JStr?
    ensures Matches(op, Some(phone)) <==> op.parameters.s != "" && Digits(op.parameters.s) == phone && phone != ""
  {
    MatchDigitsIsDigits(op.parameters.s);
  }

  /** With no phone at all, an operation whose parameters hold no digit matches (`undefined === undefined`). */
  lemma MissingPhoneMatchesDigitless(op: Operation)
    requires op.parameters.JStr? && op.parameters.s != "" && Digits(op.parameters.s) == ""
    ensures Matches(op, None)
  {
    MatchDigitsIsDigits(op.parameters.s);
  }

  // --- kaspiParser ---

  datatype CookieFile = Unreadable | FileText(text: string)

  /** The outcome of the browser login (`authenticateAndGetCookies`). */
  datatype Login = LoginFailed | LoggedIn(cookies: seq<Cookie>)

  datatype KaspiEnv = KaspiEnv(
    cookieFile: CookieFile,
    parseCookies: string -> Option<seq<Cookie>>,  // `JSON.parse` of the file; `None` when it throws
    browserStarts: bool,                          // `getBrowser()` succeeds
    login: Login,
    portal: PortalRequest -> PortalReply,
    nowIso: string)                               // `new Date().toISOString()`

  /** `kaspiParser(phone)`: the amount found, `null`, or a thrown error. */
  datatype ParserResult = Amount(value: int) | NoResult | Threw

  datatype ParserOutcome = ParserOutcome(result: ParserResult, requests: seq<PortalRequest>, tokens: Tokens)

  /** The file holds cookies unless it is empty, blank or "[]". */
  predicate FileHasCookies(text: string) {
    !(text == "" || Trim(text) == "" || text == "[]")
  }

  /** The tokens after the cookie file is read; `None` when reading or parsing throws. */
  function LoadCookieFile(t: Tokens, env: KaspiEnv): Option<Tokens> {
    match env.cookieFile
    case Unreadable => None
    case FileText(text) =>
      if !FileHasCookies(text) then Some(t)
      else
        match env.parseCookies(text)
        case None => None
        case Some(cs) => Some(TokensFromCookies(cs))
  }

  predicate AllPresent(t: Tokens) {
    Present(t.csrf) && Present(t.auth) && Present(t.security) && Present(t.session)
  }

  /** What a truthy response yields: `null` unless it is an array, then the matching operation's amount. */
  function ReadOperations(d: OperationsData, phone: Option<string>): ParserResult {
    match d
    case OtherData(_) => NoResult
    case OperationList(ops) =>
      match FindPayment(ops, phone)
      case Match(a) => Amount(a)
      case NoMatch => NoResult
      case ScanThrew => Threw
  }

  /** The specification of `kaspiParser`, step by step as the code takes them. */
  function ParserSpec(t: Tokens, phone: Option<string>, env: KaspiEnv): ParserOutcome {
    match LoadCookieFile(t, env)
    case None => ParserOutcome(Threw, [], t)
    case Some(t1) => AfterLoad(t1, phone, env)
  }

  /** From the request with the stored tokens on. */
  function AfterLoad(t1: Tokens, phone: Option<string>, env: KaspiEnv): ParserOutcome {
    var fastRequest := RequestFor(t1, env.nowIso);
    var fast := if AllPresent(t1) then SendKaspiRequest(fastRequest, env.portal) else NotSent;
    var sent := if AllPresent(t1) then [fastRequest] else [];
    if fast == SendThrew then ParserOutcome(Threw, sent, t1)
    else if SendTruthy(fast) then ParserOutcome(ReadOperations(fast.data, phone), sent, t1)
    else SlowPath(t1, sent, phone, env)
  }

  /** The browser login and the second request; an error inside it is `null`, a failing browser launch is thrown. */
  function SlowPath(t1: Tokens, sent: seq<PortalRequest>, phone: Option<string>, env: KaspiEnv): ParserOutcome {
    if !env.browserStarts then ParserOutcome(Threw, sent, t1)
    else
      match env.login
      case LoginFailed => ParserOutcome(NoResult, sent, t1)
      case LoggedIn(cs) =>
        var t2 := TokensFromCookies(cs);
        var slowRequest := RequestFor(t2, env.nowIso);
        var slow := SendKaspiRequest(slowRequest, env.portal);
        var result :=
          if slow == SendThrew then NoResult
          else if SendTruthy(slow) then ReadOperations(slow.data, phone)
          else NoResult;
        ParserOutcome(result, sent + [slowRequest], t2)
  }

  /** The cookie file step; `loaded` is false when it threw, and then nothing was changed. */
  method LoadCookies(store: CookieStore, env: KaspiEnv) returns (loaded: bool)
    modifies store
    ensures loaded <==> LoadCookieFile(old(store.Value()), env).Some?
    ensures loaded ==> store.Value() == LoadCookieFile(old(store.Value()), env).value
    ensures !loaded ==> store.Value() == old(store.Value())
  {
    match env.cookieFile {
      case Unreadable =>
        return false;
      case FileText(text) =>
        if FileHasCookies(text) {
          match env.parseCookies(text) {
            case None =>
              return false;
            case Some(cs) =>
              SaveCookiesInGlobalCookies(store, cs);
          }
        }
        return true;
    }
  }

  method RunSlowPath(store: CookieStore, sent: seq<PortalRequest>, phone: Option<string>, env: KaspiEnv)
    returns (result: ParserResult, requests: seq<PortalRequest>)
    modifies store
    ensures ParserOutcome(result, requests, store.Value()) == SlowPath(old(store.Value()), sent, phone, env)
  {
    requests := sent;
    if !env.browserStarts {
      return Threw, requests;
    }
    match env.login {
      case LoginFailed =>
        return NoResult, requests;
      case LoggedIn(cs) =>
        var cookies := TokensFromCookies(cs);
        store.SetSessionToken(cookies.session);
        store.SetSecurityToken(cookies.security);
        store.SetAuthToken(cookies.auth);
        store.SetCsrfToken(cookies.csrf);
        var rq := RequestFor(cookies, env.nowIso);
        requests := requests + [rq];
        var response := SendKaspiRequest(rq, env.portal);
        if response == SendThrew {
          result := NoResult;
        } else if SendTruthy(response) {
          result := ReadOperations(response.data, phone);
        } else {
          result := NoResult;
        }
    }
  }

  /** `kaspiParser(phone)` on the live token store. */
  method KaspiParser(store: CookieStore, phone: Option<string>, env: KaspiEnv)
    returns (result: ParserResult, requests: seq<PortalRequest>)
    modifies store
    ensures ParserOutcome(result, requests, store.Value()) == ParserSpec(old(store.Value()), phone, env)
  {
    var loaded := LoadCookies(store, env);
    if !loaded {
      return Threw, [];
    }
    var cookieTokens := store.GetGlobalCookies();
    var response := NotSent;
    requests := [];
    if Present(cookieTokens.csrfToken) && Present(cookieTokens.authToken)
       && Present(cookieTokens.securityToken) && Present(cookieTokens.sessionToken) {
      var rq := RequestFor(cookieTokens.Value(), env.nowIso);
      requests := [rq];
      response := SendKaspiRequest(rq, env.portal);
      if response == SendThrew {
        return Threw, requests;
      }
    }
    if SendTruthy(response) {
      result := ReadOperations(response.data, phone);
    } else {
      result, requests := RunSlowPath(store, requests, phone, env);
    }
  }

  // --- what the parser promises ---

  /** The stored tokens are used for a request only when all four are truthy, and then first. */
  lemma FastPathOnlyWithAllTokens(t: Tokens, phone: Option<string>, env: KaspiEnv)
    requires LoadCookieFile(t, env).Some?
    ensures var t1 := LoadCookieFile(t, env).value;
            var out := ParserSpec(t, phone, env);
            (AllPresent(t1) ==> |out.requests| >= 1 && out.requests[0] == RequestFor(t1, env.nowIso))
            && (!AllPresent(t1) ==>
                  (|out.requests| <= 1
                   && forall i :: 0 <= i < |out.requests| ==> out.requests[i] == RequestFor(out.tokens, env.nowIso)))
  {
  }

  /** The browser login is tried exactly when the stored tokens gave a falsy answer, and a failure inside it is `null`. */
  lemma SlowPathOnFalsyAnswer(t: Tokens, phone: Option<string>, env: KaspiEnv)
    requires LoadCookieFile(t, env).Some?
    ensures var t1 := LoadCookieFile(t, env).value;
            var fast := if AllPresent(t1) then SendKaspiRequest(RequestFor(t1, env.nowIso), env.portal) else NotSent;
            var out := ParserSpec(t, phone, env);
            (SendTruthy(fast) ==> out.result == ReadOperations(fast.data, phone) && out.tokens == t1)
            && (!SendTruthy(fast) && fast != SendThrew && env.browserStarts && env.login.LoggedIn? ==>
                  out.tokens == TokensFromCookies(env.login.cookies)
                  && out.requests[|out.requests| - 1] == RequestFor(out.tokens, env.nowIso))
            && (!SendTruthy(fast) && fast != SendThrew && env.browserStarts ==>
                  (env.login.LoginFailed? ==> out.result == NoResult)
                  && (env.login.LoggedIn?
                      && SendKaspiRequest(RequestFor(TokensFromCookies(env.login.cookies), env.nowIso), env.portal) == SendThrew
                      ==> out.result == NoResult))
  {
  }

  /** An answer that is not a list gives `null`; a list gives the first matching operation's amount. */
  lemma ResultFromOperations(d: OperationsData, phone: Option<string>)
    ensures d.OtherData? ==> ReadOperations(d, phone) == NoResult
    ensures d.OperationList? ==>
              (ReadOperations(d, phone).Amount? <==> FindPayment(d.ops, phone).Match?)
              && (ReadOperations(d, phone).Amount? ==> ReadOperations(d, phone).value == FindPayment(d.ops, phone).amount)
  {
  }
}
