/**
 * The dispatcher's own booking lookup (`fetchBookings` in
 * src/controllers/messageController.js): it signs in to the calendar, loads
 * the booked events, and looks for the first event whose client phone, with
 * blanks, dashes, brackets and plus signs removed, is the customer's.  The two
 * calendar endpoints are inputs.
 */
module BookingSearch {
  import opened Wrappers
  import opened Text
  import opened JsValue

  /** The characters of `/[\s\-\(\)\+]/`. */
  predicate IsStripped(c: char) {
    IsJsSpace(c) || c == '-' || c == '(' || c == ')' || c == '+'
  }

  /** `s.replace(/[\s\-\(\)\+]/g, '')`. */
  function Strip(s: string): string {
    if s == [] then [] else (if IsStripped(s[0]) then [] else [s[0]]) + Strip(s[1..])
  }

  /** None of the listed characters is left. */
  lemma {:induction false} StripRemovesAll(s: string)
    ensures forall i :: 0 <= i < |Strip(s)| ==> !IsStripped(Strip(s)[i])
  {
    if s != [] {
      StripRemovesAll(s[1..]);
      var head := if IsStripped(s[0]) then [] else [s[0]];
      assert forall i :: |head| <= i < |Strip(s)| ==> Strip(s)[i] == Strip(s[1..])[i - |head|];
    }
  }

  /** Only the listed characters go: a string without any of them is left as it is. */
  lemma {:induction false} StripKeepsOthers(s: string)
    requires forall i :: 0 <= i < |s| ==> !IsStripped(s[i])
    ensures Strip(s) == s
  {
    if s != [] {
      StripKeepsOthers(s[1..]);
      assert s == [s[0]] + s[1..];
    }
  }

  /** The order of the remaining characters is kept: stripping distributes over concatenation. */
  lemma {:induction false} StripAppend(a: string, b: string)
    ensures Strip(a + b) == Strip(a) + Strip(b)
  {
    if a != [] {
      assert (a + b)[1..] == a[1..] + b;
      StripAppend(a[1..], b);
    } else {
      assert a + b == b;
    }
  }

  /** Stripping removes no digit. */
  lemma {:induction false} StripKeepsDigits(s: string)
    ensures Digits(Strip(s)) == Digits(s)
  {
    if s != [] {
      StripKeepsDigits(s[1..]);
      var head := if IsStripped(s[0]) then [] else [s[0]];
      DigitsAppend(head, Strip(s[1..]));
      assert Digits([s[0]]) == (if IsDigit(s[0]) then [s[0]] else []);
    }
  }

  /** `normalizePhone(p)`: '' for a falsy value, the stripped text for a string; `None` for a truthy non-string, whose missing `replace` throws. */
  function NormalizePhone(p: Json): (r: Option<string>)
    ensures !Truthy(p) ==> r == Some("")
    ensures p.JStr? ==> r == Some(Strip(p.s))
    ensures Truthy(p) && !p.JStr? ==> r.None?
    ensures p.JStr? ==> (forall i :: 0 <= i < |r.value| ==> !IsStripped(r.value[i])) && Digits(r.value) == Digits(p.s)
  {
    if !Truthy(p) then Some("")
    else if p.JStr? then StripRemovesAll(p.s); StripKeepsDigits(p.s); Some(Strip(p.s))
    else None
  }

  /** `event.client.phone`, when `event.client` is truthy. */
  function EventPhone(event: Json): Json {
    var client := Get(event, "client");
    if Truthy(client) then Get(client, "phone") else JUndefined
  }

  /** `{...event, apartment_id: item.apartment_id, room_id: item.room_id}`. */
  function Tagged(event: Json, item: Json): (b: Json)
    ensures Get(b, "apartment_id") == Get(item, "apartment_id") && Get(b, "room_id") == Get(item, "room_id")
    ensures forall k :: k != "apartment_id" && k != "room_id" ==> Get(b, k) == Get(event, k)
  {
    With(With(event, "apartment_id", Get(item, "apartment_id")), "room_id", Get(item, "room_id"))
  }

  /** An event that throws: `null` or `undefined` (reading `event.client`), or a phone that is a truthy non-string. */
  predicate EventThrows(event: Json) {
    Nullish(event) || (Truthy(EventPhone(event)) && NormalizePhone(EventPhone(event)).None?)
  }

  predicate EventMatches(event: Json, target: string) {
    !Nullish(event) && Truthy(EventPhone(event)) && NormalizePhone(EventPhone(event)) == Some(target)
  }

  /** An event the scan passes over: neither the one sought nor one that throws. */
  predicate Passed(event: Json, target: string) {
    !EventMatches(event, target) && !EventThrows(event)
  }

  /** `events[j]` is the first event that matches, and none before it throws. */
  predicate FirstHit(item: Json, events: seq<Json>, j: int, target: string) {
    0 <= j < |events| && EventMatches(events[j], target) && forall k :: 0 <= k < j ==> Passed(events[k], target)
  }

  datatype Search = Booking(booking: Json) | NoBooking | SearchThrew

  /** Where the inner loop stops: the first event that matches or throws, `|events|` when it passes over all of them. */
  function StopIndex(events: seq<Json>, target: string): (j: nat)
    ensures j <= |events|
    ensures forall k :: 0 <= k < j ==> Passed(events[k], target)
    ensures j < |events| ==> !Passed(events[j], target)
  {
    if events == [] || !Passed(events[0], target) then 0
    else
      var j := StopIndex(events[1..], target);
      assert forall k :: 1 <= k < 1 + j ==> events[k] == events[1..][k - 1];
      1 + j
  }

  /** The first event that is not passed over is where the loop stops. */
  lemma StopsAt(events: seq<Json>, target: string, j: nat)
    requires j <= |events| && forall k :: 0 <= k < j ==> Passed(events[k], target)
    requires j < |events| ==> !Passed(events[j], target)
    ensures StopIndex(events, target) == j
  {
  }

  /** The inner loop over one item's events: the event where it stops decides. */
  function SearchEvents(item: Json, events: seq<Json>, target: string): Search {
    var j := StopIndex(events, target);
    if j == |events| then NoBooking
    else if EventThrows(events[j]) then SearchThrew
    else Booking(Tagged(events[j], item))
  }

  /** A booking is the first matching event, with none before it throwing, tagged with the item's ids; nothing is found exactly when every event is passed over. */
  lemma SearchEventsFinds(item: Json, events: seq<Json>, target: string)
    ensures var r := SearchEvents(item, events, target);
            r.Booking? ==> exists j :: FirstHit(item, events, j, target) && r.booking == Tagged(events[j], item)
    ensures SearchEvents(item, events, target).NoBooking? <==> forall j :: 0 <= j < |events| ==> Passed(events[j], target)
  {
    var j := StopIndex(events, target);
    if j < |events| && !EventThrows(events[j]) {
      assert FirstHit(item, events, j, target);
    }
  }

  /** `item.events && Array.isArray(item.events)`: the events scanned for one item; reading `events` of `null` throws. */
  function ItemResult(item: Json, target: string): Search {
    if Nullish(item) then SearchThrew
    else
      var events := Get(item, "events");
      if events.JArr? then SearchEvents(item, events.items, target) else NoBooking
  }

  /** Where the outer loop stops: the first item whose events give a booking or throw, `|items|` when none does. */
  function ItemStopIndex(items: seq<Json>, target: string): (i: nat)
    ensures i <= |items|
    ensures forall k :: 0 <= k < i ==> ItemResult(items[k], target) == NoBooking
    ensures i < |items| ==> ItemResult(items[i], target) != NoBooking
  {
    if items == [] || ItemResult(items[0], target) != NoBooking then 0
    else
      var i := ItemStopIndex(items[1..], target);
      assert forall k :: 1 <= k < 1 + i ==> items[k] == items[1..][k - 1];
      1 + i
  }

  /**
   * The outer loop over the items: the result of the first item whose events give a booking or throw,
   * with every item before it giving nothing; `NoBooking` exactly when every item gives nothing.
   */
  function SearchItems(items: seq<Json>, target: string): (r: Search)
    ensures r != NoBooking ==> exists i :: 0 <= i < |items| && ItemResult(items[i], target) == r
                                 && forall k :: 0 <= k < i ==> ItemResult(items[k], target) == NoBooking
    ensures r == NoBooking <==> forall i :: 0 <= i < |items| ==> ItemResult(items[i], target) == NoBooking
  {
    var i := ItemStopIndex(items, target);
    if i == |items| then NoBooking else ItemResult(items[i], target)
  }

  /** A booking found is an event of some item whose stripped phone is the target, tagged with that item's ids. */
  lemma FoundBookingMatches(items: seq<Json>, target: string)
    requires SearchItems(items, target).Booking?
    ensures var b := SearchItems(items, target).booking;
            exists i, j :: 0 <= i < |items| && !Nullish(items[i]) && Get(items[i], "events").JArr?
              && 0 <= j < |Get(items[i], "events").items|
              && EventMatches(Get(items[i], "events").items[j], target)
              && b == Tagged(Get(items[i], "events").items[j], items[i])
              && Get(b, "apartment_id") == Get(items[i], "apartment_id") && Get(b, "room_id") == Get(items[i], "room_id")
  {
    var r := SearchItems(items, target);
    var i :| 0 <= i < |items| && ItemResult(items[i], target) == r
             && forall k :: 0 <= k < i ==> ItemResult(items[k], target) == NoBooking;
    var events := Get(items[i], "events").items;
    SearchEventsFinds(items[i], events, target);
    var j :| FirstHit(items[i], events, j, target) && r.booking == Tagged(events[j], items[i]);
  }

  // --- fetchBookings ---

  /** An HTTP call's outcome: the reply's `data`, or a thrown error with its message. */
  datatype Fetched = Got(data: Json) | FetchThrew(message: string)

  datatype BookingsEnv = BookingsEnv(signIn: Fetched, events: Json -> Fetched)

  /** `{ success: true, booking }`, `{ success: false, error }`, or a failure after the guards whose message is a TypeError's. */
  datatype BookingsResult = Found(booking: Json) | NotFound(error: string) | Failed

  function NotFoundFor(phone: string): BookingsResult {
    NotFound("Бронирование с номером телефона " + phone + " не найдено")
  }

  /** `items.length === 0` on a truthy value: an empty array, or an object whose own `length` is the number 0 (a non-empty string is never empty). */
  predicate LengthZero(items: Json) {
    items == JArr([]) || (items.JObj? && Get(items, "length") == JNum(0))
  }

  /** The scan over `bookingsResponse.data.items` once the guards have passed. */
  function ScanResult(items: Json, phone: string): BookingsResult {
    match items
    case JArr(xs) =>
      (match SearchItems(xs, Strip(phone))
       case Booking(b) => Found(b)
       case NoBooking => NotFoundFor(phone)
       case SearchThrew => Failed)
    case JStr(_) => NotFoundFor(phone)   // `for...of` over a string visits characters, none with `events`
    case _ => Failed                     // a number, boolean or object is not iterable
  }

  /** What `fetchBookings(phone)` resolves to. */
  function FetchBookingsSpec(phone: Option<string>, env: BookingsEnv): BookingsResult {
    if phone.None? || phone.value == "" then NotFound("Номер телефона не указан")
    else
      match env.signIn
      case FetchThrew(m) => NotFound(m)
      case Got(auth) =>
        var token := Get(auth, "auth_token");
        if !Truthy(token) then NotFound("Не удалось получить токен авторизации")
        else
          match env.events(token)
          case FetchThrew(m) => NotFound(m)
          case Got(data) =>
            var items := Get(data, "items");
            if !Truthy(items) || LengthZero(items) then NotFound("Бронирования не найдены")
            else ScanResult(items, phone.value)
  }

  /** The inner `for (const event of item.events)` loop, stopping at the match (`break`) or at an event that throws. */
  method ScanEvents(item: Json, evs: seq<Json>, searchPhone: string) returns (r: Search)
    ensures r == SearchEvents(item, evs, searchPhone)
  {
    var j := 0;
    while j < |evs|
      invariant 0 <= j <= |evs|
      invariant forall k :: 0 <= k < j ==> Passed(evs[k], searchPhone)
    {
      var event := evs[j];
      if Nullish(event) {
        assert EventThrows(event);
        StopsAt(evs, searchPhone, j);
        return SearchThrew;
      }
      var clientPhone := EventPhone(event);
      if Truthy(clientPhone) {
        if !clientPhone.JStr? {
          assert EventThrows(event);
          StopsAt(evs, searchPhone, j);
          return SearchThrew;
        }
        if Strip(clientPhone.s) == searchPhone {
          assert !EventThrows(event) && EventMatches(event, searchPhone);
          StopsAt(evs, searchPhone, j);
          return Booking(Tagged(event, item));
        }
      }
      assert Passed(event, searchPhone);
      j := j + 1;
    }
    StopsAt(evs, searchPhone, j);
    r := NoBooking;
  }

  /** The outer `for (const item of items)` loop, leaving it at the first booking (`break`) or at a throw. */
  method ScanItems(items: seq<Json>, searchPhone: string) returns (r: Search)
    ensures r == SearchItems(items, searchPhone)
  {
    var i := 0;
    while i < |items|
      invariant 0 <= i <= |items|
      invariant forall k :: 0 <= k < i ==> ItemResult(items[k], searchPhone) == NoBooking
    {
      var item := items[i];
      var found: Search := NoBooking;
      if Nullish(item) {
        found := SearchThrew;
      } else {
        var events := Get(item, "events");
        if events.JArr? {
          found := ScanEvents(item, events.items, searchPhone);
        }
      }
      assert found == ItemResult(item, searchPhone);
      if found != NoBooking {
        assert ItemStopIndex(items, searchPhone) == i;
        return found;
      }
      i := i + 1;
    }
    r := NoBooking;
  }

  /** `fetchBookings(phone)`. */
  method FetchBookings(phone: Option<string>, env: BookingsEnv) returns (r: BookingsResult)
    ensures r == FetchBookingsSpec(phone, env)
  {
    if phone.None? || phone.value == "" {
      return NotFound("Номер телефона не указан");
    }
    if env.signIn.FetchThrew? {
      return NotFound(env.signIn.message);
    }
    var token := Get(env.signIn.data, "auth_token");
    if !Truthy(token) {
      return NotFound("Не удалось получить токен авторизации");
    }
    var bookingsResponse := env.events(token);
    if bookingsResponse.FetchThrew? {
      return NotFound(bookingsResponse.message);
    }
    var items := Get(bookingsResponse.data, "items");
    if !Truthy(items) || LengthZero(items) {
      return NotFound("Бронирования не найдены");
    }
    if items.JStr? {
      return NotFoundFor(phone.value);
    }
    if !items.JArr? {
      return Failed;
    }
    var found := ScanItems(items.items, Strip(phone.value));
    match found {
      case Booking(b) => r := Found(b);
      case NoBooking => r := NotFoundFor(phone.value);
      case SearchThrew => r := Failed;
    }
  }
}
