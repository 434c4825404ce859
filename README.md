# moonApartments booking bot — a Dafny model

moonApartments is a WhatsApp bot that rents out apartments. Each chat has a
conversation record in the `User` collection. The record holds:

- the last 20 messages;
- the dates asked for, the candidate apartments and the one chosen;
- the booking made and the apartments paid for;
- a handful of flags that say what the bot waits for next: an agreement to a
  choice, a consent to pay by Kaspi, a phone to look a payment up by, or a phone
  to look a booking up by;
- the sum paid so far;
- a block flag.

Every incoming message is treated as follows:

1. It is filtered.
2. It is either greeted (a new chat, or a known customer's first message of
   the day) or recorded and handed to the first handler whose flag is set.
3. When no flag is set, it goes to a language model. The model's answer is
   relayed, or acted on as a JSON command:
   - type 1 searches free apartments and creates a booking link;
   - type 3 picks a candidate;
   - type 4 checks a Kaspi payment;
   - type 5 sends the apartment's instruction;
   - type 7 looks a booking up by the chat's number.

Around the dispatcher sit the services it calls:

- the booking calendar: the sign-in token, free apartments, prices, booking
  links, creating a booking and its request signature;
- the booking search by phone;
- the Kaspi merchant portal's payment lookup and its cookie tokens;
- the payment validation;
- the chat-completion call;
- the history and date helpers.

The model has one Dafny module per source file:

| module | models |
|---|---|
| `GlobalVar` | the calendar token cell |
| `GlobalCookies` | the Kaspi cookie store |
| `UserModel` | the record and its schema defaults |
| `MessageUtils` | the history and date helpers |
| `GptService` | the chat-completion call |
| `Kaspi` | the portal parser |
| `PaymentService` | the payment check |
| `BookingService` | the calendar calls |
| `AddBooking` | creating a booking |
| `GenerateSign` and `GenerateSign2` | the two request signatures |
| `BookingSearch` | `fetchBookings` of the controller |
| `ControllerLogic` | every branch of the controller as a function on a `Step`: the record and the messages sent |
| `MessageController` | the controller as a class `Bot` |

The `Bot` class holds:

- the `User` collection, as a map from chat id to `User` objects;
- `activeTimers`;
- the pending timers;
- the outbox;
- the deletion requests;
- the two token stores.

Its methods update this state in place. Each is proved against the
`ControllerLogic` function of its branch. The lemmas in `ControllerLogic` and
`MessageController` state what the conversation promises, for example:

- a blocked customer only gets the refusal;
- a set flag keeps the language model out;
- the reminder is scheduled only on a consent to pay by Kaspi;
- a choice by number accepts exactly 1..n;
- a payment is settled exactly when the running sum reaches the amount asked;
- the type-4 cancellation misses a reminder whose handle was overwritten.

Four shared modules support the rest:

- `Wrappers`: `Option` and `Result`;
- `Text`: the JavaScript string operations used;
- `JsValue`: loosely typed JavaScript values, numbers with NaN and infinities,
  and property access;
- `KeyOrder`: `Array.prototype.sort` on strings, in code point order (see "## Left out").

These inputs are parameters of the model:

- the network (OpenAI, the calendar, the Kaspi portal, WhatsApp);
- the browser login;
- the cookie file;
- the database calls that fail;
- MD5;
- the clock: days are plain day numbers.

## Model

| member | source | states |
|---|---|---|
| GlobalVar.TokenCell.constructor | src/utils/globalVar.js:6 | the cell starts as the empty string |
| GlobalVar.TokenCell.SetVar | src/utils/globalVar.js:12-14 | after `setVar(v)` the cell holds `v` |
| GlobalVar.TokenCell.GetVar | src/utils/globalVar.js:20-22 | `getVar()` returns what the cell holds |
| GlobalVar.LastSetWins | src/utils/globalVar.js:12-22 | after two `setVar` calls, `getVar` sees the second value |
| GlobalCookies.CookieStore.constructor | src/globalCookies.js:1-6 | all four tokens start as the empty string |
| GlobalCookies.CookieStore.GetGlobalCookies | src/globalCookies.js:9 | returns the live store itself, not a copy |
| GlobalCookies.CookieStore.SetSessionToken | src/globalCookies.js:10-12 | changes the session token and no other |
| GlobalCookies.CookieStore.SetSecurityToken | src/globalCookies.js:13-15 | changes the security token and no other |
| GlobalCookies.CookieStore.SetAuthToken | src/globalCookies.js:16-18 | changes the auth token and no other |
| GlobalCookies.CookieStore.SetCsrfToken | src/globalCookies.js:19-21 | changes the CSRF token and no other |
| GlobalCookies.LaterSetVisibleThroughEarlierView | src/globalCookies.js:9-12 | a view taken with `getGlobalCookes()` sees a later setter call |
| GlobalCookies.SetTwiceKeepsLast | src/globalCookies.js:10-12 | setting a token twice leaves the second value and the other tokens unchanged |
| UserModel.User.constructor | src/models/User.js:3-84 | a new record holds the schema defaults, except for its phone, last message date and block flag |
| MessageUtils.UpdateLastMessages | src/utils/messageUtils.js:7-12 | the record's history becomes `PushBounded(old history, {role, content})`; nothing else in the record changes |
| MessageUtils.PushBoundedShape | src/utils/messageUtils.js:7-12 | the new entry is last; the oldest entry is dropped once 20 are held; a history of at most 20 stays within 20 |
| MessageUtils.PushAllKeepsNewest | src/utils/messageUtils.js:7-12 | any run of calls on a history of at most 20 leaves exactly the newest 20 messages, oldest first |
| MessageUtils.Newest | src/utils/messageUtils.js:9-11 | the window kept never exceeds 20 entries |
| MessageUtils.CalculateDaysBetweenDates | src/utils/messageUtils.js:20-28 | two valid dates give their signed day difference; an invalid date gives NaN |
| MessageUtils.DaysCanBeZeroOrNegative | src/utils/messageUtils.js:24-27 | no guard: the same day gives 0 and a reversed pair gives -1 |
| MessageUtils.ConvertDateFormatTwice | src/utils/messageUtils.js:35-38 | on a string with exactly two dots, converting twice restores the input |
| MessageUtils.ConvertDateFormatOnDashedDate | src/utils/messageUtils.js:30-38 | a date without dots, such as YYYY-MM-DD, becomes `undefined.undefined.` followed by the input (see Findings) |
| MessageUtils.ConvertIsoDateReorders | src/utils/messageUtils.js:30-34 | the conversion the description promises takes YYYY-MM-DD to DD.MM.YYYY |
| GptService.BuildMessages | src/utils/gptService.js:4-17 | the system prompt comes first, then the history unchanged and in order, then the user's text |
| GptService.GptResponse | src/utils/gptService.js:19-38 | the answer is the apology or the service's first choice: a failed request always gives the apology, a reply with choices always gives its first, and `None` only comes from a `null` content the service itself sent; the service is asked with the whole conversation (see ServiceSeesWholeConversation) |
| GptService.ServiceSeesWholeConversation | src/utils/gptService.js:4-17 | the message list sent determines the prompt, the history and the text: nothing of the conversation is dropped or merged |
| Kaspi.FindCookie | src/kaspi.js:136-139 | `None` exactly when no cookie has the name; otherwise the value of the first cookie with that name |
| Kaspi.SaveCookiesInGlobalCookies | src/kaspi.js:134-140 | the store ends as the four tokens found by name in the cookie list |
| Kaspi.CookiePairs | src/kaspi.js:20-22 | one `key=value` entry per cookie, in order |
| Kaspi.TokenHeaderShape | src/kaspi.js:19-22 | the Cookie header lists CSRF, Auth, Security and Session tokens, joined by "; ", and writes a missing token as "undefined" |
| Kaspi.QueryCoversToday | src/kaspi.js:23-36 | the request asks for service 7267 from 00:00:00 to 23:59:59 of today's (UTC) date |
| Kaspi.SendKaspiRequest | src/kaspi.js:41-69 | a 401 becomes `false`; any other failure is thrown on; an answer passes its data through |
| Kaspi.FindPayment | src/kaspi.js:215-219 | either the first operation whose parameters' digits are the phone, with none before it throwing, or a throw at the first truthy non-string parameters; nothing found exactly when every operation neither matches nor throws |
| Kaspi.MatchIsExactDigits | src/kaspi.js:217-218 | an operation matches a phone exactly when all the digits of its parameters, in order, are that phone |
| Kaspi.MissingPhoneMatchesDigitless | src/kaspi.js:217-218 | with no phone, parameters without a digit match, since `undefined === undefined` |
| Kaspi.LoadCookies | src/kaspi.js:144-154 | the store takes the file's tokens when the file holds cookies; a failed read or parse reports a throw and changes nothing |
| Kaspi.RunSlowPath | src/kaspi.js:174-206 | the result, the requests sent and the store follow `SlowPath`: browser login, store refill, second request; an error inside is `null` |
| Kaspi.KaspiParser | src/kaspi.js:142-231 | the result, the requests sent and the final tokens are those of `ParserSpec` over the old store |
| Kaspi.FastPathOnlyWithAllTokens | src/kaspi.js:160-170 | the stored tokens are sent, as the first request, exactly when all four are truthy |
| Kaspi.SlowPathOnFalsyAnswer | src/kaspi.js:174-206 | a truthy first answer decides the result; otherwise the login's tokens replace the store and make the last request; a failed login or request gives `null` |
| Kaspi.ResultFromOperations | src/kaspi.js:208-228 | an answer that is not an array gives `null`; an array gives the amount of the first matching operation |
| PaymentService.NormalizedPhoneIsDigits | src/services/paymentService.js:10-23 | the guards: no phone; fewer than ten digits; otherwise exactly the phone's digits (the `+` strip can never apply) |
| PaymentService.Classify | src/services/paymentService.js:28-39 | found exactly when the parser gave a non-zero amount, and then with that amount; a thrown parser is the lookup failure |
| PaymentService.CheckUsesDigits | src/services/paymentService.js:8-47 | each guard gives its error; once past the guards the parser is asked with the phone's digits |
| PaymentService.SuccessNeedsLookupAmount | src/services/paymentService.js:28-39 | a success always carries an amount the parser found for the phone's digits |
| PaymentService.ValidatePaymentAmount | src/services/paymentService.js:56-74 | paid exactly when existing plus payment reaches the requirement; otherwise the paid and remaining sums add up to the requirement, and the remainder is positive |
| PaymentService.ExistingDefaultsToZero | src/services/paymentService.js:56 | without an existing sum the payment alone is compared |
| PaymentService.PayingRemainderSuffices | src/services/paymentService.js:67-73 | paying the reported remainder completes the payment |
| BookingService.GetToken | src/scripts/getLink.js:4-17 | the cell takes the sign-in's token only on success; a failed sign-in throws and changes nothing |
| BookingService.EnsureToken | src/services/bookingService.js:18-20 | the sign-in is asked exactly when the cell is empty; a non-empty token is kept as it is |
| BookingService.GetAvailableApartments | src/services/bookingService.js:16-59 | the result and the token cell follow `VacantSpec`: `humans=${guests}` (1 without `guests`), the search with the cell's token, success or the error message |
| BookingService.VacantPassesApartmentsThrough | src/services/bookingService.js:48-57 | the apartments found are the search reply's, unchanged; a failure carries its message |
| BookingService.CeilDiv | src/services/bookingService.js:84 | the least integer whose product with the divisor covers the dividend |
| BookingService.CeilDivNum | src/services/bookingService.js:84 | `Math.ceil` of a division of JavaScript numbers, including NaN and infinities |
| BookingService.NightsAreDayDifference | src/services/bookingService.js:83 | the night count is the signed day difference of the two dates |
| BookingService.GetPrice | src/services/bookingService.js:61-91 | the result and the token cell follow `PriceSpec`; every error gives `null` |
| BookingService.PricePerNightCoversTotal | src/services/bookingService.js:84 | the price per night is the least whole number that covers the total over the nights |
| BookingService.ZeroNightsUnguarded | src/services/bookingService.js:83-84 | no guard: a stay of zero nights with a non-zero total gives an infinite price |
| BookingService.PriceErrorsAreNull | src/services/bookingService.js:86-90 | a sign-in failure or a failed price request gives `null` |
| BookingService.LinkEntryFields | src/services/bookingService.js:103-108 | an entry reads the item's id and title, the price as a number (`null` when it is missing or not finite) and `is_special_amount: false`, and its keys are exactly these four, in that order |
| BookingService.PriceEntry | src/services/bookingService.js:103-108 | one candidate's entry and the token cell after its price was asked; `undefined` where the source throws |
| BookingService.CreateBookingLink | src/services/bookingService.js:100-137 | the link result and the token cell follow `LinkSpec`: prices asked one after the other, then the link |
| BookingService.EntriesFollowCandidates | src/services/bookingService.js:103-111 | the entries follow the candidates one for one and in order: each carries its candidate's id and title, `is_special_amount: false` and a numeric or `null` amount |
| BookingService.LinkResultFollowsLink | src/services/bookingService.js:116-129 | a link failure passes on its error; a success gives the link's url and items |
| AddBooking.Fio | src/scripts/addBooking.js:31 | the client's name when truthy, else 'Клиент'; the booking's name is never empty or falsy |
| AddBooking.AddBooking | src/scripts/addBooking.js:15-69 | missing data gives `null` without calling the service; otherwise one signed request, and only a 201 answer is returned |
| AddBooking.EventCalendarFields | src/scripts/addBooking.js:24-36 | the booking's dates, status 5, the apartment's amount and empty notes |
| AddBooking.PayloadFromInputs | src/scripts/addBooking.js:24-41 | the payload sent carries the booking dates, the amount, status 5 and empty notes from the inputs |
| AddBooking.SignCoversEventOnly | src/scripts/addBooking.js:38-41 | the signature is computed over `event_calendar` alone |
| AddBooking.ClientAttributes | src/scripts/addBooking.js:30-35 | the client block holds the name or 'Клиент', the user's phone and the fixed extra phone and e-mail |
| GenerateSign.SortedParams | src/scripts/generateSign.js:5 | the string before the key is appended; `None`, the TypeError, exactly for `null` and `undefined` |
| GenerateSign.Sign | src/scripts/generateSign.js:4-11 | `generateSign` throws exactly for `null` or `undefined` |
| GenerateSign.FlatAgreesWithNested | src/scripts/generateSign.js:4-11 | on an object with only primitive values, the flat and the nested signatures coincide |
| GenerateSign.NestedObjectNotFlattened | src/scripts/generateSign.js:5 | a nested object is written "[object Object]" by the flat form, and recursively by the nested one |
| GenerateSign.FlatKeyOrderIrrelevant | src/scripts/generateSign.js:5 | the flat string does not depend on key insertion order |
| GenerateSign.StringKeys | src/scripts/generateSign.js:5 | a string's own keys are its positions "0", "1", …, each naming the one-character string at that position |
| GenerateSign2.IndexFields | src/scripts/generateSign2.js:9 | an array's keys are the index strings "0", "1", …, each paired with its item |
| GenerateSign2.KeyOrderIrrelevant | src/scripts/generateSign2.js:4-19 | `paramsToString` does not depend on key insertion order at any depth |
| GenerateSign2.Sign | src/scripts/generateSign2.js:21-27 | any reordering of the parameters' keys, at any depth, gives the same signature; `paramsToString` itself is stated by KeyOrderIrrelevant, NullFieldRendered, ArrayIndicesSortAsStrings and IndexFields |
| GenerateSign2.NullFieldRendered | src/scripts/generateSign2.js:13-16 | a `null` field is written `key=null`, not skipped |
| GenerateSign2.ArrayIndicesSortAsStrings | src/scripts/generateSign2.js:9 | array indices sort as strings: in an array of more than ten items, "10" comes before "2" |
| KeyOrder.SortStrings | src/scripts/generateSign2.js:9 | the result is sorted in code point order and is a permutation of the keys |
| KeyOrder.SortIgnoresOrder | src/scripts/generateSign.js:5 | two key lists with the same elements sort to the same sequence |
| KeyOrder.SortedUnique | src/scripts/generateSign.js:5 | there is only one sorted permutation of a key list |
| KeyOrder.BelowTotal | src/scripts/generateSign.js:5 | string order is total |
| Text.MatchDigitsIsDigits | src/controllers/messageController.js:336 | `s.match(/\d+/g)?.join('')` is `undefined` without a digit, and otherwise all the digits of `s` in order |
| Text.DigitsAppend | src/controllers/messageController.js:123-126 | the digits of a concatenation are the concatenation of the digits |
| Text.TrimEmptyIffBlank | src/controllers/messageController.js:743 | `trim()` gives "" exactly when the text is all JavaScript white space |
| Text.IndexOf | src/controllers/messageController.js:749 | `includes`: the first position of an occurrence, and `None` exactly when there is none |
| Text.ReplaceFirst | src/controllers/messageController.js:1225 | `replace` with a string pattern: only the first occurrence is replaced |
| Text.Lower | src/controllers/messageController.js:120 | `toLocaleLowerCase` for the capitals A–Z and U+0400–U+042F only: none of them remains, every other character is kept, and the length is unchanged |
| Text.LowerIdempotent | src/controllers/messageController.js:120 | lower-casing twice changes nothing |
| Text.JoinSplit | src/utils/messageUtils.js:36 | joining the parts of `split` with the separator restores the string |
| Text.SplitJoin | src/utils/messageUtils.js:36 | splitting a join restores parts that do not contain the separator |
| Text.ParseIntOfInt | src/services/paymentService.js:37 | `parseInt` of a rendered integer gives the integer |
| JsValue.Lookup | src/controllers/messageController.js:184-185 | property access: `undefined` for a missing key |
| JsValue.LookupFirst | src/controllers/messageController.js:184-185 | a present key reads its first field |
| JsValue.With | src/controllers/messageController.js:80-84 | an object spread with an override: the new key reads the new value and every other key is unchanged |
| JsValue.SetFieldKeys | src/controllers/messageController.js:80-84 | an override keeps the key order, and a new key goes last |
| JsValue.NumberOfRenderedInt | src/controllers/messageController.js:476 | `Number` of a rendered integer gives the integer |
| JsValue.Mul | src/controllers/messageController.js:195 | multiplication of finite numbers is exact; NaN is absorbing |
| BookingSearch.NormalizePhone | src/controllers/messageController.js:60-63 | '' for a falsy value and a throw for a truthy non-string; for a string, none of the noise characters remains and every digit is kept, in order |
| BookingSearch.StripRemovesAll | src/controllers/messageController.js:62 | no white space, '-', '(', ')' or '+' remains |
| BookingSearch.StripKeepsOthers | src/controllers/messageController.js:62 | a string without those characters is left as it is |
| BookingSearch.StripAppend | src/controllers/messageController.js:62 | stripping distributes over concatenation, so the order of what remains is kept |
| BookingSearch.Tagged | src/controllers/messageController.js:80-84 | `apartment_id` and `room_id` read the item's values, and every other key reads what the event holds |
| BookingSearch.StopIndex | src/controllers/messageController.js:74-89 | the inner loop stops at the first event that matches or throws |
| BookingSearch.SearchEventsFinds | src/controllers/messageController.js:74-89 | a booking is the first matching event, tagged, with none before it throwing; nothing is found exactly when every event is passed over |
| BookingSearch.ItemStopIndex | src/controllers/messageController.js:72-92 | the outer loop stops at the first item whose events give a booking or throw |
| BookingSearch.SearchItems | src/controllers/messageController.js:72-92 | the first item's result that is not "nothing", with every item before it giving nothing |
| BookingSearch.FoundBookingMatches | src/controllers/messageController.js:72-92 | a booking found is an event of some item whose stripped phone is the target, tagged with that item's ids |
| BookingSearch.ScanEvents | src/controllers/messageController.js:74-89 | the inner loop, with `break`, computes `SearchEvents` |
| BookingSearch.ScanItems | src/controllers/messageController.js:72-92 | the outer loop, with `break`, computes `SearchItems` |
| BookingSearch.FetchBookings | src/controllers/messageController.js:24-111 | the guards and the scan computed by the loops equal `FetchBookingsSpec` |
| ControllerLogic.AdmittedHasText | src/controllers/messageController.js:737-746 | an admitted body has a character that is not white space |
| ControllerLogic.CutChatId | src/controllers/messageController.js:222 | `slice(0, -5)` drops the last five characters and keeps the rest |
| ControllerLogic.Prefix | src/controllers/messageController.js:180 | `slice(0, n)` is the first `n` characters, or the whole string when it is shorter |
| ControllerLogic.Or | src/controllers/messageController.js:459 | `a \|\| b` is one of its operands, `a` when truthy, and it is truthy exactly when one of them is |
| ControllerLogic.FirstIndexOf | src/controllers/messageController.js:1232 | the first occurrence of a character |
| ControllerLogic.LastIndexOf | src/controllers/messageController.js:1232 | the last occurrence of a character |
| ControllerLogic.ExtractJsonGreedy | src/controllers/messageController.js:1232 | `/\{.*\}/s` matches exactly when some `{` precedes some `}`, and the match is the widest such span |
| ControllerLogic.FindByAmount | src/controllers/messageController.js:475-477 | the first candidate whose amount strictly equals the price, and none exactly when no candidate does |
| ControllerLogic.ChoiceIndex | src/controllers/messageController.js:507-509 | the index is kept only when it lies within the candidates |
| ControllerLogic.ChoiceAcceptsListedNumbers | src/controllers/messageController.js:507-514 | a choice `k` is accepted exactly when 1 <= k <= n, and picks the k-th candidate |
| ControllerLogic.RecordInbound | src/controllers/messageController.js:1018-1024 | the text is appended unless it already is the last user entry |
| ControllerLogic.Recorded | src/controllers/messageController.js:1018-1024 | recording touches the history only and leaves the message as its last entry; recording it again changes nothing (RecordInboundIdempotent) |
| ControllerLogic.RecordInboundIdempotent | src/controllers/messageController.js:1018-1024 | a redelivered text is not appended twice |
| ControllerLogic.OracleOnlyWithoutFlags | src/controllers/messageController.js:1027-1213 | the language model is reached only when no flag is set |
| ControllerLogic.KnownRoute | src/controllers/messageController.js:758-1213 | a known record is refused, greeted or dispatched; it is never skipped, restarted or created |
| ControllerLogic.BlockedNeverServed | src/controllers/messageController.js:758-763 | a blocked record gets only the refusal: it is never greeted and never reaches a handler |
| ControllerLogic.BookedAwaitsKaspi | src/controllers/messageController.js:1160-1187 | a found booking is attached and leaves the record waiting for the Kaspi consent, which the next message goes to |
| ControllerLogic.SelectionFallsThroughWithoutAgreement | src/controllers/messageController.js:170-232 | when the booking cannot be created, no agreement is left pending |
| ControllerLogic.CreditSettlesOrAccumulates | src/controllers/messageController.js:346-374 | paid in full exactly when the running sum reaches the requirement; otherwise the sum grows by the payment and the reply names the remainder |
| ControllerLogic.PaymentPathsDifferOnlyInRequirement | src/controllers/messageController.js:555-587 | the typed-phone path and the type-4 path differ only in the sum asked for: 10000 against 20 |
| ControllerLogic.PhoneBranchesClearTheirFlag | src/controllers/messageController.js:1084-1208 | both phone branches clear their flag once a phone was given, and keep it when none was |
| ControllerLogic.SearchTouchesOnlyChoices | src/controllers/messageController.js:410-463 | the search changes only the history, the candidates and the stored dates |
| ControllerLogic.VacantTouchesOnlyChoices | src/controllers/messageController.js:433-463 | the same for what the apartment search leads to |
| ControllerLogic.LinkTouchesOnlyChoices | src/controllers/messageController.js:443-463 | the same for what the booking link leads to |
| ControllerLogic.ChoicesOnlyFromLink | src/controllers/messageController.js:452-460 | new candidates and dates are stored only with a created link: its items, and the guests or 1 |
| ControllerLogic.ChoiceByNumber | src/controllers/messageController.js:507-534 | choosing number k of n stores the k-th candidate and sends the next message to the agreement handler |
| ControllerLogic.ChoiceOutOfRange | src/controllers/messageController.js:509-512 | a number outside 1..n changes nothing in the record |
| ControllerLogic.AirbnbOverflowsHistory | src/controllers/messageController.js:682-686 | with a link and a text, the type-7 path grows a full history past 20 entries |
| ControllerLogic.KaspiConsentRecordsApartment | src/controllers/messageController.js:243-325 | a consent records the current apartment as paid for and ends the wait; a refusal keeps the apartment lists and marks the record |
| ControllerLogic.WelcomeIsGreeting | src/controllers/messageController.js:766-1015 | a new record is greeted exactly as a known customer on a new day |
| ControllerLogic.GreetingMarksToday | src/controllers/messageController.js:936-1013 | after the greeting the record carries today's date, so it is not greeted again that day |
| ControllerLogic.LookupKeepsDate | src/controllers/messageController.js:944-989 | the booking lookup leaves the last message date alone |
| ControllerLogic.TimerKeysDiffer | src/controllers/messageController.js:301-308 | a chat's notification and deletion keys are different |
| ControllerLogic.DeletionTargetsPaidApartment | src/controllers/messageController.js:254-290 | the deletion removes the booking whose apartment id the consent stored as paid for |
| ControllerLogic.TimerStepsSay | src/controllers/messageController.js:267-298 | the warning and the deletion each add one message, in this order; the deletion forgets exactly the booking and the payment |
| ControllerLogic.CommandsAndTheirStores | src/controllers/messageController.js:405-716 | a command is handled exactly when its type has a case; only type 1 may change the calendar token, and only type 4 the Kaspi tokens and the timers |
| ControllerLogic.UntaggedAnswerRelayed | src/controllers/messageController.js:1318-1324 | an answer that is neither tagged nor blank is relayed verbatim and recorded |
| ControllerLogic.FlagStepFollowsFirstHandler | src/controllers/messageController.js:1027-1209 | the first handler whose flag is set is the one that runs |
| ControllerLogic.OracleNeverReminds | src/controllers/messageController.js:1213-1335 | the language model's answer never schedules the reminder |
| ControllerLogic.AdminNeverReminds | src/controllers/messageController.js:1228-1317 | an `admin` answer never schedules the reminder |
| ControllerLogic.FlagRemindsOnlyOnConsent | src/controllers/messageController.js:1071-1209 | among the flag handlers only the Kaspi consent schedules the reminder, and only on a yes |
| ControllerLogic.FailedSelectionFallsThrough | src/controllers/messageController.js:1029-1031 | a selection that could not create its booking passes the message on, never to the Kaspi consent |
| ControllerLogic.RemindOnlyOnKaspiConsent | src/controllers/messageController.js:1027-1335 | the reminder is scheduled only by a consent to pay by Kaspi |
| MessageController.ApplyKeepsTimersIssued | src/controllers/messageController.js:267-308 | every handle in `activeTimers` was issued; a new reminder never replaces a timer already pending |
| MessageController.CancelledClearsChat | src/controllers/messageController.js:546-549 | after the cancellation neither key of the chat is stored, neither timer they named is pending, and other keys are kept |
| MessageController.SecondReminderEscapesCancel | src/controllers/messageController.js:308 | a second reminder takes the key without `clearTimeout`, so the first one stays pending out of reach of the type-4 cancellation |
| MessageController.Bot.constructor | src/controllers/messageController.js:15 | an empty collection, no timers, an empty outbox, the initial token stores |
| MessageController.Bot.HandleAdminCommands | src/controllers/messageController.js:119-156 | handled exactly when a command word and a digit are present; "отключить бота" blocks the chat, creating its record if need be; "включить бота" unblocks an existing one; no other record changes |
| MessageController.Bot.HandleApartmentSelection | src/controllers/messageController.js:167-233 | the record, the outbox and the handled flag are those of `SelectionStep` |
| MessageController.Bot.CreateBooking | src/controllers/messageController.js:192-214 | the outcome of `SelectionCreated` |
| MessageController.Bot.Creating | src/controllers/messageController.js:170-173 | the reply is recorded and the agreement cleared |
| MessageController.Bot.OfferCreated | src/controllers/messageController.js:194-213 | the Kaspi question, with the booking kept on the record |
| MessageController.Bot.RequestBooking | src/controllers/messageController.js:175-192 | `addBooking` is asked with the record's dates, phone and chosen apartment |
| MessageController.Bot.AskForKaspi | src/controllers/messageController.js:200-209 | the cost, the deposit and the Kaspi question; the record waits on the answer |
| MessageController.Bot.AttachBooking | src/controllers/messageController.js:1175-1187 | the `$set` of a found booking |
| MessageController.Bot.LookUpBooking | src/controllers/messageController.js:1252-1307 | the outcome of `LookupStep` |
| MessageController.Bot.Schedule | src/controllers/messageController.js:267-308 | the timer is pending under a fresh handle, and the key names that handle |
| MessageController.Bot.HandleKaspiPayment | src/controllers/messageController.js:243-325 | the outcome of `KaspiConsentStep`; the reminder is scheduled exactly on consent; the tokens are unchanged |
| MessageController.Bot.AcceptKaspi | src/controllers/messageController.js:246-264 | the outcome of `KaspiAccepted` |
| MessageController.Bot.Credit | src/controllers/messageController.js:349-374 | the outcome of `CreditStep` |
| MessageController.Bot.Settle | src/controllers/messageController.js:351-358 | the reply is recorded, the sum reset and the record marked paid |
| MessageController.Bot.NotFoundPayment | src/controllers/messageController.js:378-393 | the outcome of `PaymentNotFoundStep` |
| MessageController.Bot.HandlePaymentCheck | src/controllers/messageController.js:335-394 | the outcome of `PaymentCheckStep` on `checkKaspiPayment`'s report; only the parser may change the Kaspi tokens |
| MessageController.Bot.SendInstruction | src/controllers/messageController.js:614-635 | the outcome of `InstructionStep` |
| MessageController.Bot.SendBookingInstruction | src/controllers/messageController.js:1096-1131 | the outcome of `BookingInstruction` |
| MessageController.Bot.HandleInstructionPhone | src/controllers/messageController.js:1084-1145 | the outcome of `InstructionPhoneStep` |
| MessageController.Bot.FindInstruction | src/controllers/messageController.js:1093-1140 | the outcome of `InstructionLookup` |
| MessageController.Bot.HandleBookingPhone | src/controllers/messageController.js:1148-1209 | the outcome of `BookingPhoneStep` |
| MessageController.Bot.CommandSearch | src/controllers/messageController.js:410-468 | the outcome and the token cell of `SearchStep` |
| MessageController.Bot.OfferVacant | src/controllers/messageController.js:433-463 | the outcome and the token cell of `VacantStep` |
| MessageController.Bot.ReportLink | src/controllers/messageController.js:443-463 | the outcome of `LinkStep` |
| MessageController.Bot.List | src/controllers/messageController.js:452-462 | the outcome of `Listed` |
| MessageController.Bot.Refer | src/controllers/messageController.js:494-504 | the outcome of `ReferredStep` |
| MessageController.Bot.CommandChoose | src/controllers/messageController.js:471-541 | the outcome of `ChooseStep` |
| MessageController.Bot.Offer | src/controllers/messageController.js:479-493 | the outcome of `Chosen` |
| MessageController.Bot.CancelTimers | src/controllers/messageController.js:546-549 | the state becomes `Cancelled` |
| MessageController.Bot.CommandPayment | src/controllers/messageController.js:543-610 | the timers cancelled; `kaspiParser` on the chat's digits without the leading 7; the outcome of `CommandPaymentStep` |
| MessageController.Bot.CommandAirbnb | src/controllers/messageController.js:646-707 | the outcome of `AirbnbStep` |
| MessageController.Bot.AttachDocument | src/controllers/messageController.js:665-692 | the outcome of `DocumentAttached` |
| MessageController.Bot.AskAirbnbPhone | src/controllers/messageController.js:694-701 | the outcome of `AirbnbMissed` |
| MessageController.Bot.SendDocument | src/controllers/messageController.js:666-672 | the link and the text are sent without being recorded |
| MessageController.Bot.HandleGptCommand | src/controllers/messageController.js:405-716 | handled exactly when `CommandStep` has an effect, which the state then shows; otherwise nothing changes |
| MessageController.Bot.PlainCommand | src/controllers/messageController.js:471-707 | the outcome of `PlainCommandStep` |
| MessageController.Bot.AdminAnswer | src/controllers/messageController.js:1228-1317 | the effect of `AdminStep` |
| MessageController.Bot.Uncommanded | src/controllers/messageController.js:1251-1312 | the outcome of `UncommandedStep` |
| MessageController.Bot.AnswerWithOracle | src/controllers/messageController.js:1213-1335 | the effect of `OracleStep` |
| MessageController.Bot.Relay | src/controllers/messageController.js:1222-1329 | the outcome of `RelayStep` |
| MessageController.Bot.HandleFlags | src/controllers/messageController.js:1071-1209 | the effect of `FlagStep` |
| MessageController.Bot.Dispatch | src/controllers/messageController.js:1027-1209 | the effect of `DispatchStep` |
| MessageController.Bot.Select | src/controllers/messageController.js:1029-1031 | the selection, then the flag handlers when it does not take the message; the effect of `DispatchStep` |
| MessageController.Bot.Welcome | src/controllers/messageController.js:809-899 | the outcome of `WelcomeStep` |
| MessageController.Bot.Greet | src/controllers/messageController.js:917-1014 | the outcome of `GreetStep`; the tokens are unchanged |
| MessageController.Bot.Answer | src/controllers/messageController.js:935-1005 | the outcome of `Greeting` |
| MessageController.Bot.FireTimer | src/controllers/messageController.js:267-305 | the reminder warns and schedules the deletion under the deletion key; the deletion asks to remove the booking and clears it; the timer is no longer pending; the handles stay issued |
| MessageController.Bot.HandleIncomingMessage | src/controllers/messageController.js:724-1338 | the route is `RouteOf`; a skipped message changes nothing, the sender's record included; a restart deletes only the chat's record; a new chat is welcomed with today's date; a known chat is served on its route; only the dispatch may change the tokens |
| MessageController.Bot.Forget | src/controllers/messageController.js:749-752 | only the chat's record is removed |
| MessageController.Bot.Serve | src/controllers/messageController.js:755-1335 | a new chat is welcomed; a known one is served on its route |
| MessageController.Bot.Register | src/controllers/messageController.js:766-899 | a fresh record with today's date is added under the chat and welcomed |
| MessageController.Bot.Refuse | src/controllers/messageController.js:758-763 | the refusal is sent and recorded; nothing else changes |
| MessageController.Bot.HandleKnown | src/controllers/messageController.js:758-1335 | the route is `KnownRoute`; the state is that of the refusal, the greeting or the handlers |
| MessageController.Bot.Converse | src/controllers/messageController.js:1018-1335 | the message recorded unless it is already last, then the effect of `DispatchStep` |

## Left out

- Persistence is one shared copy per record. `user.save()`, `findOneAndUpdate` and in-memory edits all act on the same `User` object, so a failed or skipped save is not modelled. The stale copy a timer's closure holds is that same object.
- Transport and database failures are not modelled: a failed `sendMessage`, a failed `save`, a failed upsert. The `catch` branches that only react to them are left out as well.
- Any concurrency of two messages, or of a message and a timer, is left out: each handler runs to completion.
- BookingService.CreateBookingLink: prices the candidates one after the other, whereas the source starts all the `getPrice` calls together with `Promise.all`. Each of those calls then finds the empty token and signs in on its own. The model signs in once, for the first call. The entries are the same, since the sign-in's answer is a fixed input.
- Floating point is left out: amounts and prices are integers, with NaN and the infinities where division or `Number` can produce them.
- Time is left out. Dates are day numbers; `toDateString` comparison is day equality; the two 5-minute delays are not measured.
- A timer fired after its record was restarted is not modelled.
- Cookies are taken as a parsed list. The cookie file, `fs` and the browser login (`authenticateAndGetCookies`) are oracles.
- OpenAI, the realtycalendar API, the Kaspi portal, WhatsApp and MD5 are oracles.
- `console` output is left out.
- Strings are sequences of Unicode code points, not UTF-16 code units. `Array.prototype.sort` compares code units, so KeyOrder.SortStrings orders a character beyond U+FFFF (such as U+10000, surrogate 0xD800) before U+FF61, the reverse of the model. `.length`, `slice` and character positions count code points in the model, where JavaScript counts a character beyond U+FFFF as two units. The keys and phone numbers the bot handles are ASCII, so the two orders agree on them.
- BookingSearch.FetchBookingsSpec: an `items` value that is an object with a `length` of 0 is treated as empty, as the source does, but any other `length` property of an object, or a getter, is not modelled.
- The `chooseApartment2` branch (messageController.js:1035-1068) is left out. Nothing in the source ever sets that agreement name.
- `handleAdminCommands` is modelled, but nothing in the dispatcher calls it.
- `parseInt` is modelled for decimal integers only: no hexadecimal prefixes and no fractions.
- JsValue.StrToNumber: reads only blank, "Infinity" and an optionally signed run of decimal digits. JavaScript's `Number` also reads a decimal point, an exponent and a 0x/0o/0b prefix. So "5000.0", "5e3" and "0x1388" are 5000 in the source but NaN in the model. A price string in one of these forms matches an item of amount 5000 in `FindByAmount`'s source (messageController.js:475-477) but matches no item in the model.
- Text.Lower: lowers only the ASCII capitals A–Z and the basic Cyrillic capitals U+0400–U+042F. Other cased letters (À, Ā, Σ, Ѣ, …) are kept, and the length never changes, whereas JavaScript lowers them too and turns U+0130 into two characters. The phrases matched after lowering are ASCII or basic Cyrillic, and no other letter lowers into them.
- A `null` or `undefined` stored choice, read by `handleApartmentSelection`, is not modelled. The model stores every choice as a value.
- Mongoose schema casting is simplified to `AsList`: an array field takes an array as it is, and any other value as one item.
- getLink's own token refill and error texts come from a script that is not part of this model. Its outcome is an input.
- The `TypeError` a crashing `gptAnswer.includes` raises on a `null` answer is modelled as the "no" answer. Its message is not.
- A fired timer's key is left in `activeTimers`, as in the source. No lemma states this.
- BookingSearch.StripKeepsOthers: states only that a string without the listed characters is unchanged. It does not state that every character kept comes from the input; StripAppend gives the order.
- GptService.GptResponse: the content passed through is an `Option`. Its type inside the reply is not modelled.
- Objects are field lists that may repeat a key, and property access reads the first field with the name. `JSON.parse` keeps the last of repeated keys. The replies of the calendar, the Kaspi portal and the chat-completion service are inputs, so no well-formedness (unique keys) is required of them.

## Findings

| source | as written | input that shows it | evidently intended | confidence | as-written member | corrected member |
|---|---|---|---|---|---|---|
| src/utils/messageUtils.js:30-38 | `convertDateFormat` splits on "." although its description converts YYYY-MM-DD to DD.MM.YYYY | "2025-06-08" gives "undefined.undefined.2025-06-08" | split on "-", giving "08.06.2025" | not executed | MessageUtils.ConvertDateFormatOnDashedDate | MessageUtils.ConvertIsoDateReorders |
