/**
 * The calendar glue (src/services/bookingService.js): the search for free
 * apartments, the nightly price of one apartment, and the booking link built
 * from the candidates.  Every call first fills the cached calendar token when
 * it is empty.  The calendar's sign-in, search, price and link endpoints are
 * inputs; the token cell is the `TokenCell` of src/utils/globalVar.js.
 */
module BookingService {
  import opened Wrappers
  import opened JsValue
  import opened GlobalVar
  import opened MessageUtils

  /** What the sign-in endpoint does: gives a token, answers without `success`, or fails. */
  datatype SignInReply = Accepted(authToken: string) | Refused | SignInThrew(message: string)

  datatype VacantQuery = VacantQuery(token: string, humans: string, beginDate: string, endDate: string)
  datatype VacantReply = Vacant(apartments: Json) | VacantError(message: string)

  datatype PriceQuery = PriceQuery(token: string, id: string, beginDate: string, endDate: string)
  datatype PriceReply = Priced(price: Json) | PriceError

  /** `getLink(startDate, endDate, dataToLink)`, src/scripts/getLink.js, as its callers see it. */
  datatype LinkQuery = LinkQuery(beginDate: Json, endDate: Json, items: seq<Json>)
  datatype LinkReply = LinkSuccess(url: Json, items: Json) | LinkFailure(error: Json)

  datatype CalendarEnv = CalendarEnv(
    signIn: SignInReply,
    vacant: VacantQuery -> VacantReply,
    price: PriceQuery -> PriceReply,
    link: LinkQuery -> LinkReply,
    parseDate: Json -> Date)   // `new Date(x)`

  // --- the token ---

  /** The token after `if (globalVar.getVar() === "") await getToken()`; `None` when the sign-in throws. */
  function FetchToken(token: string, signIn: SignInReply): Option<string> {
    if token != "" then Some(token)
    else
      match signIn
      case Accepted(t) => Some(t)
      case Refused => Some(token)
      case SignInThrew(_) => None
  }

  /** `getToken()`: the cell takes the token only when the sign-in reports success. */
  method GetToken(cell: TokenCell, signIn: SignInReply) returns (threw: bool)
    modifies cell
    ensures threw <==> signIn.SignInThrew?
    ensures signIn.Accepted? ==> cell.value == signIn.authToken
    ensures !signIn.Accepted? ==> cell.value == old(cell.value)
  {
    match signIn {
      case Accepted(t) =>
        cell.SetVar(t);
        threw := false;
      case Refused =>
        threw := false;
      case SignInThrew(_) =>
        threw := true;
    }
  }

  /** The token check every calendar call starts with: the sign-in is asked exactly when the cell is "". */
  method EnsureToken(cell: TokenCell, signIn: SignInReply) returns (fetched: bool, ok: bool)
    modifies cell
    ensures fetched <==> old(cell.value) == ""
    ensures ok <==> FetchToken(old(cell.value), signIn).Some?
    ensures ok ==> cell.value == FetchToken(old(cell.value), signIn).value
    ensures !ok ==> cell.value == old(cell.value)
    ensures !fetched ==> ok && cell.value == old(cell.value)
  {
    var current := cell.GetVar();
    fetched := current == "";
    ok := true;
    if fetched {
      var threw := GetToken(cell, signIn);
      ok := !threw;
    }
  }

  // --- free apartments ---

  datatype VacantResult = VacantSuccess(apartments: Json) | VacantFailure(error: string)

  /** `humans=${guests}` with the default `guests = 1` for an undefined argument. */
  function Humans(guests: Json): string {
    if guests == JUndefined then "1" else ToStr(guests)
  }

  function VacantSpec(token: string, startDate: string, endDate: string, guests: Json, env: CalendarEnv): (VacantResult, string) {
    match FetchToken(token, env.signIn)
    case None => (VacantFailure(env.signIn.message), token)
    case Some(t) =>
      match env.vacant(VacantQuery(t, Humans(guests), startDate, endDate))
      case Vacant(apartments) => (VacantSuccess(apartments), t)
      case VacantError(message) => (VacantFailure(message), t)
  }

  /** `getAvailableApartments(startDate, endDate, guests)`. */
  method GetAvailableApartments(cell: TokenCell, startDate: string, endDate: string, guests: Json, env: CalendarEnv)
    returns (r: VacantResult, fetched: bool)
    modifies cell
    ensures fetched <==> old(cell.value) == ""
    ensures (r, cell.value) == VacantSpec(old(cell.value), startDate, endDate, guests, env)
  {
    ghost var before := cell.value;
    var ok;
    fetched, ok := EnsureToken(cell, env.signIn);
    if !ok {
      return VacantFailure(env.signIn.message), fetched;
    }
    var token := cell.GetVar();
    match env.vacant(VacantQuery(token, Humans(guests), startDate, endDate)) {
      case Vacant(apartments) =>
        r := VacantSuccess(apartments);
      case VacantError(message) =>
        r := VacantFailure(message);
    }
  }

  /** The apartments found are the search reply's, unchanged; a failure carries the error message. */
  lemma VacantPassesApartmentsThrough(token: string, startDate: string, endDate: string, guests: Json, env: CalendarEnv)
    requires FetchToken(token, env.signIn).Some?
    ensures var q := VacantQuery(FetchToken(token, env.signIn).value, Humans(guests), startDate, endDate);
            var r := VacantSpec(token, startDate, endDate, guests, env).0;
            (r.VacantSuccess? <==> env.vacant(q).Vacant?)
            && (r.VacantSuccess? ==> r.apartments == env.vacant(q).apartments)
            && (r.VacantFailure? ==> r.error == env.vacant(q).message)
  {
  }

  // --- the nightly price ---

  /** `Math.ceil(p / d)` for integers, `d != 0`. */
  function CeilDiv(p: int, d: int): (q: int)
    requires d != 0
    ensures d > 0 ==> q * d >= p && (q - 1) * d < p
    ensures d < 0 ==> q * d <= p && (q - 1) * d > p
  {
    if d > 0 then -((-p) / d) else -(p / (-d))
  }

  /** `Math.ceil(a / b)` on JavaScript numbers; there is no guard against a zero divisor. */
  function CeilDivNum(a: Num, b: Num): (r: Num)
    ensures a.Finite? && b.Finite? && b.v != 0 ==> r == Finite(CeilDiv(a.v, b.v))
    ensures a.Finite? && b == Finite(0) ==> (r.Infinity? <==> a.v != 0) && (r.NaN? <==> a.v == 0)
    ensures a.NaN? || b.NaN? ==> r.NaN?
  {
    match (a, b)
    case (NaN, _) => NaN
    case (_, NaN) => NaN
    case (Finite(x), Finite(y)) =>
      if y != 0 then Finite(CeilDiv(x, y))
      else if x == 0 then NaN
      else Infinity(x > 0)
    case (Finite(_), Infinity(_)) => Finite(0)
    case (Infinity(p), Finite(y)) => Infinity(if y < 0 then !p else p)
    case (Infinity(_), Infinity(_)) => NaN
  }

  function Sub(a: Num, b: Num): Num {
    match (a, b)
    case (Finite(x), Finite(y)) => Finite(x - y)
    case _ => NaN
  }

  /** `Math.ceil((new Date(endDate) - new Date(startDate)) / (1000 * 60 * 60 * 24))`. */
  function Nights(start: Date, end: Date): Num {
    CeilDivNum(Sub(Millis(end), Millis(start)), Finite(1000 * 60 * 60 * 24))
  }

  /** The night count is the day difference of `calculateDaysBetweenDates`: whole days, signed, possibly zero. */
  lemma NightsAreDayDifference(start: Date, end: Date)
    ensures Nights(start, end) == CalculateDaysBetweenDates(start, end)
  {
    if start.Day? && end.Day? {
      var diff := end.n * MsPerDay - start.n * MsPerDay;
      assert diff == (end.n - start.n) * MsPerDay;
      var q := CeilDiv(diff, MsPerDay);
      assert q * MsPerDay >= diff && (q - 1) * MsPerDay < diff;
      assert (q - (end.n - start.n)) * MsPerDay >= 0;
      assert (q - 1 - (end.n - start.n)) * MsPerDay < 0;
    }
  }

  function PriceSpec(token: string, id: Json, startDate: Json, endDate: Json, env: CalendarEnv): (Option<Num>, string) {
    match FetchToken(token, env.signIn)
    case None => (None, token)
    case Some(t) =>
      match env.price(PriceQuery(t, ToStr(id), ToStr(startDate), ToStr(endDate)))
      case PriceError => (None, t)
      case Priced(p) => (Some(CeilDivNum(ToNumber(p), Nights(env.parseDate(startDate), env.parseDate(endDate)))), t)
  }

  /** `getPrice(id, startDate, endDate)`: the price per night, or `null` (`None`) on any error. */
  method GetPrice(cell: TokenCell, id: Json, startDate: Json, endDate: Json, env: CalendarEnv)
    returns (pricePerDay: Option<Num>, fetched: bool)
    modifies cell
    ensures fetched <==> old(cell.value) == ""
    ensures (pricePerDay, cell.value) == PriceSpec(old(cell.value), id, startDate, endDate, env)
  {
    var ok;
    fetched, ok := EnsureToken(cell, env.signIn);
    if !ok {
      return None, fetched;
    }
    var token := cell.GetVar();
    match env.price(PriceQuery(token, ToStr(id), ToStr(startDate), ToStr(endDate))) {
      case PriceError =>
        pricePerDay := None;
      case Priced(p) =>
        var daysBetween := Nights(env.parseDate(startDate), env.parseDate(endDate));
        pricePerDay := Some(CeilDivNum(ToNumber(p), daysBetween));
    }
  }

  /** The per-night price is the least whole number that covers the total over the nights. */
  lemma PricePerNightCoversTotal(token: string, id: Json, startDate: Json, endDate: Json, env: CalendarEnv, total: int, nights: int)
    requires FetchToken(token, env.signIn).Some?
    requires env.price(PriceQuery(FetchToken(token, env.signIn).value, ToStr(id), ToStr(startDate), ToStr(endDate))) == Priced(JNum(total))
    requires env.parseDate(startDate).Day? && env.parseDate(endDate).Day?
    requires nights == env.parseDate(endDate).n - env.parseDate(startDate).n && nights > 0
    ensures var r := PriceSpec(token, id, startDate, endDate, env).0;
            r.Some? && r.value.Finite? && r.value.v * nights >= total && (r.value.v - 1) * nights < total
  {
    NightsAreDayDifference(env.parseDate(startDate), env.parseDate(endDate));
  }

  /** A stay of zero nights is not guarded: a non-zero total gives an infinite price per night. */
  lemma ZeroNightsUnguarded(token: string, id: Json, startDate: Json, endDate: Json, env: CalendarEnv, total: int)
    requires FetchToken(token, env.signIn).Some?
    requires env.price(PriceQuery(FetchToken(token, env.signIn).value, ToStr(id), ToStr(startDate), ToStr(endDate))) == Priced(JNum(total))
    requires env.parseDate(startDate).Day? && env.parseDate(startDate) == env.parseDate(endDate)
    requires total != 0
    ensures PriceSpec(token, id, startDate, endDate, env).0 == Some(Infinity(total > 0))
  {
    NightsAreDayDifference(env.parseDate(startDate), env.parseDate(endDate));
  }

  /** A sign-in failure or a failed price request gives `null`. */
  lemma PriceErrorsAreNull(token: string, id: Json, startDate: Json, endDate: Json, env: CalendarEnv)
    requires FetchToken(token, env.signIn).None?
             || env.price(PriceQuery(FetchToken(token, env.signIn).value, ToStr(id), ToStr(startDate), ToStr(endDate))).PriceError?
    ensures PriceSpec(token, id, startDate, endDate, env).0.None?
  {
  }

  // --- the booking link ---

  /** A price as it goes out in the JSON body: `null` when missing, NaN or infinite. */
  function AmountJson(p: Option<Num>): Json {
    if p.Some? && p.value.Finite? then JNum(p.value.v) else JNull
  }

  /** `{ apartment_id: item.id, apartment_title: item.title, amount, is_special_amount: false }`. */
  function LinkEntry(item: Json, amount: Option<Num>): Json {
    JObj([Field("apartment_id", Get(item, "id")), Field("apartment_title", Get(item, "title")),
          Field("amount", AmountJson(amount)), Field("is_special_amount", JBool(false))])
  }

  lemma LinkEntryFields(item: Json, amount: Option<Num>)
    ensures Get(LinkEntry(item, amount), "apartment_id") == Get(item, "id")
    ensures Get(LinkEntry(item, amount), "apartment_title") == Get(item, "title")
    ensures Get(LinkEntry(item, amount), "is_special_amount") == JBool(false)
    ensures Get(LinkEntry(item, amount), "amount") == AmountJson(amount)
    ensures KeysOf(LinkEntry(item, amount).fields) == ["apartment_id", "apartment_title", "amount", "is_special_amount"]
  {
    LinkEntryNames(item, amount);
    LinkEntryRegular(item, amount);
    LinkEntryAmount(item, amount);
  }

  lemma LinkEntryAmount(item: Json, amount: Option<Num>)
    ensures Get(LinkEntry(item, amount), "amount") == AmountJson(amount)
  {
    var fs := LinkEntry(item, amount).fields;
    assert "apartment_id"[1] != "amount"[1] && "apartment_title"[1] != "amount"[1];
    assert fs[1..] == [fs[1], fs[2], fs[3]] && fs[2..] == [fs[2], fs[3]];
    assert Lookup(fs, "amount") == Lookup(fs[1..], "amount") == Lookup(fs[2..], "amount");
  }

  lemma LinkEntryNames(item: Json, amount: Option<Num>)
    ensures Get(LinkEntry(item, amount), "apartment_id") == Get(item, "id")
    ensures Get(LinkEntry(item, amount), "apartment_title") == Get(item, "title")
  {
    var fs := LinkEntry(item, amount).fields;
    assert "apartment_id"[10] != "apartment_title"[10];
    assert Lookup(fs, "apartment_title") == Lookup(fs[1..], "apartment_title");
  }

  lemma LinkEntryRegular(item: Json, amount: Option<Num>)
    ensures Get(LinkEntry(item, amount), "is_special_amount") == JBool(false)
  {
    var fs := LinkEntry(item, amount).fields;
    assert "apartment_id"[0] != "is_special_amount"[0] && "apartment_title"[0] != "is_special_amount"[0];
    assert "amount"[1] != "is_special_amount"[1];
    assert fs[1..] == [fs[1], fs[2], fs[3]] && fs[2..] == [fs[2], fs[3]];
    assert Lookup(fs, "is_special_amount") == Lookup(fs[1..], "is_special_amount") == Lookup(fs[2..], "is_special_amount");
    assert Lookup(fs[2..], "is_special_amount") == Lookup(fs[3..], "is_special_amount");
  }

  predicate EntryFollows(entry: Json, item: Json) {
    Get(entry, "apartment_id") == Get(item, "id")
    && Get(entry, "apartment_title") == Get(item, "title")
    && Get(entry, "is_special_amount") == JBool(false)
    && (Get(entry, "amount").JNum? || Get(entry, "amount") == JNull)
  }

  /**
   * The entries of the first `n` candidates and the token afterwards.  A `null`
   * or `undefined` candidate throws before its price is asked; its place holds
   * `undefined`.
   */
  function EntriesUpTo(token: string, items: seq<Json>, n: nat, startDate: Json, endDate: Json, env: CalendarEnv): (seq<Json>, string)
    requires n <= |items|
  {
    if n == 0 then ([], token)
    else
      var (d, t) := EntriesUpTo(token, items, n - 1, startDate, endDate, env);
      var (e, t') := NextEntry(t, items[n - 1], startDate, endDate, env);
      (d + [e], t')
  }

  lemma EntriesUpToNext(token: string, items: seq<Json>, n: nat, startDate: Json, endDate: Json, env: CalendarEnv)
    requires n < |items|
    ensures var before := EntriesUpTo(token, items, n, startDate, endDate, env);
            var next := NextEntry(before.1, items[n], startDate, endDate, env);
            EntriesUpTo(token, items, n + 1, startDate, endDate, env) == (before.0 + [next.0], next.1)
  {
  }

  /** One candidate's entry and the token after its price was asked; `undefined` for a `null` candidate. */
  function NextEntry(token: string, item: Json, startDate: Json, endDate: Json, env: CalendarEnv): (Json, string) {
    if Nullish(item) then (JUndefined, token)
    else
      var (p, t) := PriceSpec(token, Get(item, "id"), startDate, endDate, env);
      (LinkEntry(item, p), t)
  }

  lemma NextEntryFollows(token: string, item: Json, startDate: Json, endDate: Json, env: CalendarEnv)
    requires !Nullish(item)
    ensures EntryFollows(NextEntry(token, item, startDate, endDate, env).0, item)
  {
    LinkEntryFields(item, PriceSpec(token, Get(item, "id"), startDate, endDate, env).0);
  }

  /** `createBookingLink`'s result: the link, the link's error, or a thrown TypeError. */
  datatype BookingLink = LinkCreated(url: Json, items: Json) | LinkError(error: Json) | LinkCrashed

  predicate HasNullish(items: seq<Json>) {
    exists i :: 0 <= i < |items| && Nullish(items[i])
  }

  function LinkSpec(token: string, startDate: Json, endDate: Json, apartments: Json, env: CalendarEnv): (BookingLink, string) {
    if !apartments.JArr? then (LinkCrashed, token)
    else
      var items := apartments.items;
      var (dataToLink, t) := EntriesUpTo(token, items, |items|, startDate, endDate, env);
      if HasNullish(items) then (LinkCrashed, t)
      else
        match env.link(LinkQuery(startDate, endDate, dataToLink))
        case LinkSuccess(url, linked) => (LinkCreated(url, linked), t)
        case LinkFailure(error) => (LinkError(error), t)
  }

  /** One candidate's entry, its price asked through the token cell; `undefined` where the source throws. */
  method PriceEntry(cell: TokenCell, item: Json, startDate: Json, endDate: Json, env: CalendarEnv) returns (entry: Json)
    modifies cell
    ensures (entry, cell.value) == NextEntry(old(cell.value), item, startDate, endDate, env)
  {
    if Nullish(item) {
      return JUndefined;
    }
    var amount, _ := GetPrice(cell, Get(item, "id"), startDate, endDate, env);
    entry := LinkEntry(item, amount);
  }

  /** `createBookingLink(startDate, endDate, apartments)`, the prices asked one after the other. */
  method CreateBookingLink(cell: TokenCell, startDate: Json, endDate: Json, apartments: Json, env: CalendarEnv)
    returns (r: BookingLink, dataToLink: seq<Json>)
    modifies cell
    ensures (r, cell.value) == LinkSpec(old(cell.value), startDate, endDate, apartments, env)
    ensures apartments.JArr? ==> dataToLink == EntriesUpTo(old(cell.value), apartments.items, |apartments.items|, startDate, endDate, env).0
  {
    dataToLink := [];
    if !apartments.JArr? {
      return LinkCrashed, [];
    }
    var items := apartments.items;
    ghost var token0 := cell.value;
    var crashed := false;
    var i := 0;
    while i < |items|
      invariant 0 <= i <= |items|
      invariant (dataToLink, cell.value) == EntriesUpTo(token0, items, i, startDate, endDate, env)
      invariant crashed <==> exists j :: 0 <= j < i && Nullish(items[j])
    {
      var item := items[i];
      if Nullish(item) {
        crashed := true;
      }
      assert crashed <==> exists j :: 0 <= j < i + 1 && Nullish(items[j]);
      ghost var next := NextEntry(cell.value, item, startDate, endDate, env);
      EntriesUpToNext(token0, items, i, startDate, endDate, env);
      var entry := PriceEntry(cell, item, startDate, endDate, env);
      assert entry == next.0 && cell.value == next.1;
      dataToLink := dataToLink + [entry];
      i := i + 1;
    }
    if crashed {
      return LinkCrashed, dataToLink;
    }
    match env.link(LinkQuery(startDate, endDate, dataToLink)) {
      case LinkSuccess(url, linked) =>
        r := LinkCreated(url, linked);
      case LinkFailure(error) =>
        r := LinkError(error);
    }
  }

  /** The entries follow the candidates one for one and in order: the id, the title, and no special amount. */
  lemma {:induction false} EntriesFollowCandidates(token: string, items: seq<Json>, n: nat, startDate: Json, endDate: Json, env: CalendarEnv)
    requires n <= |items|
    ensures var d := EntriesUpTo(token, items, n, startDate, endDate, env).0;
            |d| == n && forall i :: 0 <= i < n && !Nullish(items[i]) ==> EntryFollows(d[i], items[i])
  {
    if n > 0 {
      EntriesFollowCandidates(token, items, n - 1, startDate, endDate, env);
      var (d0, t) := EntriesUpTo(token, items, n - 1, startDate, endDate, env);
      var d := EntriesUpTo(token, items, n, startDate, endDate, env).0;
      assert d == d0 + [NextEntry(t, items[n - 1], startDate, endDate, env).0];
      forall i | 0 <= i < n && !Nullish(items[i]) ensures EntryFollows(d[i], items[i]) {
        if i < n - 1 {
          assert d[i] == d0[i];
        } else {
          NextEntryFollows(t, items[n - 1], startDate, endDate, env);
        }
      }
    }
  }

  /** A link failure is passed on as the error; a success gives the link's url and items. */
  lemma LinkResultFollowsLink(token: string, startDate: Json, endDate: Json, items: seq<Json>, env: CalendarEnv)
    requires !HasNullish(items)
    ensures var d := EntriesUpTo(token, items, |items|, startDate, endDate, env).0;
            var reply := env.link(LinkQuery(startDate, endDate, d));
            var r := LinkSpec(token, startDate, endDate, JArr(items), env).0;
            (reply.LinkFailure? ==> r == LinkError(reply.error))
            && (reply.LinkSuccess? ==> r == LinkCreated(reply.url, reply.items))
  {
  }
}
