/**
 * What the dispatcher of src/controllers/messageController.js decides, as
 * values: the fixed replies, the small parsers it applies to the language
 * model's answer and to the customer's text, and one `Step` function per
 * handler giving the record and the messages sent once that handler has run.
 * The class in message_controller.dfy does the same work step by step and is
 * proved to end in these states.
 */
module ControllerLogic {
  import opened Wrappers
  import opened Text
  import opened JsValue
  import opened UserModel
  import opened MessageUtils
  import opened GptService
  import opened GlobalCookies
  import opened Kaspi
  import opened PaymentService
  import opened BookingService
  import opened AddBooking
  import opened BookingSearch

  // --- the world outside the dispatcher ---

  /** The texts of src/const (not part of this model) and the administrators' chat. */
  datatype Texts = Texts(depo: string, kaspiText: string, startMessage: string, prompt: string,
                         agreementPrompt: string, adminGroup: string)

  /** `Apartment.findOne({apartment_id})`: the instruction links and text of an apartment. */
  datatype ApartmentDoc = ApartmentDoc(links: seq<string>, text: string)

  /** Everything one incoming message may consult. */
  datatype Services = Services(
    texts: Texts,
    gpt: seq<ChatMessage> -> OracleReply,   // the chat-completions endpoint
    parseJson: string -> Option<Json>,      // `JSON.parse`; `None` when it throws
    calendar: CalendarEnv,                  // the calendar endpoints behind src/services/bookingService.js
    bookings: BookingsEnv,                  // the two endpoints `fetchBookings` calls
    apartmentsDb: Json -> Option<ApartmentDoc>,
    kaspi: KaspiEnv,
    signer: SignerKey,
    create: CreateRequest -> CreateReply,   // the booking-creation endpoint of src/scripts/addBooking.js
    crashMessage: string,                   // the message of the TypeError `apartments.map` throws
    today: int,                             // the day number of `new Date()`
    todayIso: string,                       // `new Date().toISOString()`
    describe: UserState -> string)          // `${user}`

  // --- the fields the dispatcher reads ---

  function ApartmentIdOf(j: Json): Json { Get(j, "apartment_id") }
  function AmountOf(j: Json): Json { Get(j, "amount") }
  function CheckinOf(data: Json): Json { Get(data, "checkin") }
  function CheckoutOf(data: Json): Json { Get(data, "checkout") }
  function GuestsOf(data: Json): Json { Get(data, "guests") }
  function TypeOf(data: Json): Json { Get(data, "type") }

  // --- fixed replies ---

  /** The fixed replies, and the fixed parts of the texts built around a value. */
  datatype Phrase =
    | BlockedReply
    | AskPhoneReply
    | ManagerSoonReply
    | CreatingReply
    | KaspiQuestion
    | AfterPaymentReply
    | PaidReply
    | PaymentNotFoundReply
    | PaymentErrorReply
    | SearchErrorReply
    | WrongNumberReply
    | NoSuchApartmentReply
    | NoInstructionReply
    | AirbnbNotFoundReply
    | BookingNotFoundReply
    | PhoneBookingNotFoundReply
    | PhoneInstructionNotFoundReply
    | TroubleReply
    | ProcessingReply
    | NotUnderstoodReply
    | NotificationReply
    | DeletedReply
    | CostHead
    | CostTail
    | PartialHead
    | PartialTail
    | OfferHead
    | OfferTail
    | FromWord
    | ToWord
    | NoFreeTail
    | LinkErrorHead
    | FoundMiddle
    | FoundTail
    | ClientWord
    | CantPayHead
    | CantPayTail
    | NumberWord
    | UnclearTail
    | ContactTail
    | PromptTail

  /** The wording of each fixed text. */
  function Words(p: Phrase): string {
    match p
    case BlockedReply => "Здравствуйте, к сожалению в данный момент нет свободных квартир."
    case AskPhoneReply => "Пожалуйста, укажите корректный номер телефона"
    case ManagerSoonReply => "В скором времени с вами свяжется менеджер"
    case CreatingReply => "Отлично, сейчас создам бронь"
    case KaspiQuestion => "Можете ли провести оплату по каспи?"
    case AfterPaymentReply => "И после оплаты прошу уведомите нас об оплате 😊"
    case PaidReply => "Вы успешно забронировали, в день заселения мы отправим вам инструкцию"
    case PaymentNotFoundReply => "Мы не смогли найти вашу оплату, напишите номер телефона в формате '+7 777 777 77 77' по которому провели оплату"
    case PaymentErrorReply => "Произошла ошибка при проверке оплаты"
    case SearchErrorReply => "Произошла ошибка при обработке запроса на бронирование"
    case WrongNumberReply => "Неверный номер квартиры"
    case NoSuchApartmentReply => "Не удалось найти выбранную квартиру"
    case NoInstructionReply => "К сожалению мы не смогли найти инструкцию по этой квартире, с вами свяжется менеджер"
    case AirbnbNotFoundReply => "К сожалению мы не смогли найти ваш бронь, отправьте номер в формате '+7 777 777 77 77' по которому забронировали квартиру что бы мы могли проверить"
    case BookingNotFoundReply => "К сожалению мы не смогли найти вашу бронь. Отправьте номер в формате '+7 777 777 77 77' по которому забронировали квартиру, чтобы мы могли проверить"
    case PhoneBookingNotFoundReply => "К сожалению мы не смогли найти вашу бронь, пожалуйста, проверьте номер телефона или свяжитесь с менеджером"
    case PhoneInstructionNotFoundReply => "К сожалению мы не смогли найти вашу бронь по указанному номеру. Пожалуйста, проверьте номер или свяжитесь с менеджером"
    case TroubleReply => "Извините, у меня возникли проблемы с обработкой вашего запроса. Попробуйте еще раз позже."
    case ProcessingReply => "Я понял ваш запрос. Обрабатываю..."
    case NotUnderstoodReply => "Извините, я не понял ваш запрос. Уточните, пожалуйста!"
    case NotificationReply => "Ваша бронь будет удалена через 5 минут, если вы не подтвердите оплату."
    case DeletedReply => "Ваша бронь была удалена из-за отсутствия ответа."
    case CostHead => "Стоимость проживания "
    case CostTail => " + депозит"
    case PartialHead => "К сожалению вы отправили не полную сумму, вы можете еще раз пройти по ссылке и оплатить оставшуюся сумму ("
    case PartialTail => "). После оплаты напишите слово 'Оплатил'"
    case OfferHead => "Вам номер  за "
    case OfferTail => ", да?"
    case FromWord => "С "
    case ToWord => " по "
    case NoFreeTail => " нет свободных квартир"
    case LinkErrorHead => "Ошибка при получении ссылки: "
    case FoundMiddle => " подобрано вариантов: "
    case FoundTail => ". Для просмотра перейдите по ссылке: "
    case ClientWord => "Клиенту "
    case CantPayHead => "Клиенту Неизвестный с номером '"
    case CantPayTail => "' нужно написать, не может оплатить по каспи"
    case NumberWord => " с номером '"
    case UnclearTail => "' нужно написать, не можем понять какая квартира нужна wa.me//+"
    case ContactTail => "' нужно написать wa.me//+"
    case PromptTail => " \nдаты хранятся в bookingDate если даты меньше сегодняшнего дня то узнай на какие даты хочет заселиться клиент, сегодня "
  }

  /** The sum `handlePaymentCheck` asks for. */
  const KaspiRequired := 10000
  /** The sum the type-4 command asks for. */
  const CommandRequired := 20

  function Assistant(text: string): ChatMessage {
    ChatMessage("assistant", text)
  }


  function CostText(sum: Num): string {
    Words(CostHead) + NumToString(sum) + Words(CostTail)
  }

  function PartialText(remaining: int): string {
    Words(PartialHead) + IntToString(remaining) + Words(PartialTail)
  }

  function OfferText(amount: Json): string {
    Words(OfferHead) + ToStr(amount) + Words(OfferTail)
  }

  function NoFreeText(checkin: Json, checkout: Json): string {
    Words(FromWord) + ToStr(checkin) + Words(ToWord) + ToStr(checkout) + Words(NoFreeTail)
  }

  function LinkErrorText(error: string): string {
    Words(LinkErrorHead) + error
  }

  function FoundText(checkin: Json, checkout: Json, items: Json, url: Json): string {
    Words(FromWord) + ToStr(checkin) + Words(ToWord) + ToStr(checkout) + Words(FoundMiddle) + ToStr(JsLength(items)) + Words(FoundTail) + ToStr(url)
  }

  // --- small parsers ---

  /** The filter at the top of `handleIncomingMessage`: a chat, image or document message with a non-blank body. */
  predicate Admitted(kind: string, body: string) {
    (kind == "chat" || kind == "image" || kind == "document") && Trim(body) != ""
  }

  /** An admitted body has a character that is not white space. */
  lemma AdmittedHasText(kind: string, body: string)
    requires Admitted(kind, body)
    ensures exists i :: 0 <= i < |body| && !IsJsSpace(body[i])
  {
    TrimEmptyIffBlank(body);
  }

  /** `chatId.slice(0, -5)`: the chat id without its "@c.us" suffix. */
  function CutChatId(chatId: string): (r: string)
    ensures |chatId| >= 5 ==> r + chatId[|chatId| - 5..] == chatId
    ensures |chatId| < 5 ==> r == ""
  {
    if |chatId| < 5 then "" else chatId[..|chatId| - 5]
  }

  function CantPayText(chatId: string): string {
    Words(CantPayHead) + CutChatId(chatId) + Words(CantPayTail)
  }

  function UnclearApartmentText(clientName: Json, chatId: string): string {
    Words(ClientWord) + ToStr(clientName) + Words(NumberWord) + CutChatId(chatId) + Words(UnclearTail) + CutChatId(chatId)
  }

  function ContactText(clientName: Json, chatId: string): string {
    Words(ClientWord) + ToStr(clientName) + Words(NumberWord) + CutChatId(chatId) + Words(ContactTail) + CutChatId(chatId)
  }

  /** `s.slice(0, n)`. */
  function Prefix(s: string, n: nat): (r: string)
    ensures |r| == if |s| <= n then |s| else n
    ensures r <= s
  {
    if |s| <= n then s else s[..n]
  }

  /** `x.length` as a JavaScript value. */
  function JsLength(j: Json): Json {
    match j
    case JArr(xs) => JNum(|xs|)
    case JStr(s) => JNum(|s|)
    case JObj(_) => Get(j, "length")
    case _ => JUndefined
  }

  /** `a || b`. */
  function Or(a: Json, b: Json): (r: Json)
    ensures Truthy(a) ==> r == a
    ensures !Truthy(a) ==> r == b
    ensures r == a || r == b
    ensures Truthy(r) <==> Truthy(a) || Truthy(b)
  {
    if Truthy(a) then a else b
  }

  /** A value stored into an array field of the record: an array as it is, `null`/`undefined` as empty, anything else as one item. */
  function AsList(j: Json): seq<Json> {
    match j
    case JArr(xs) => xs
    case JUndefined => []
    case JNull => []
    case _ => [j]
  }

  /** The index of the first occurrence of `c`. */
  function FirstIndexOf(s: string, c: char): (r: Option<nat>)
    ensures r.None? <==> c !in s
    ensures r.Some? ==> r.value < |s| && s[r.value] == c && c !in s[..r.value]
  {
    if s == [] then None
    else if s[0] == c then Some(0)
    else
      match FirstIndexOf(s[1..], c)
      case None => None
      case Some(i) =>
        assert s[..i + 1] == [s[0]] + s[1..][..i];
        Some(i + 1)
  }

  /** The index of the last occurrence of `c`. */
  function LastIndexOf(s: string, c: char): (r: Option<nat>)
    ensures r.None? <==> c !in s
    ensures r.Some? ==> r.value < |s| && s[r.value] == c && c !in s[r.value + 1..]
  {
    if s == [] then None
    else if s[|s| - 1] == c then Some(|s| - 1)
    else
      match LastIndexOf(s[..|s| - 1], c)
      case None => None
      case Some(i) =>
        assert s[i + 1..] == s[..|s| - 1][i + 1..] + [s[|s| - 1]];
        Some(i)
  }

  /** `answer.match(/\{.*\}/s)?.[0]`: the greedy match runs from the first `{` to the last `}`. */
  function ExtractJson(s: string): Option<string> {
    match (FirstIndexOf(s, '{'), LastIndexOf(s, '}'))
    case (Some(i), Some(j)) => if i < j then Some(s[i..j + 1]) else None
    case _ => None
  }

  /** There is a match exactly when some `{` comes before some `}`; the match is the widest such span. */
  lemma ExtractJsonGreedy(s: string)
    ensures ExtractJson(s).None? <==> !exists i, j :: 0 <= i < j < |s| && s[i] == '{' && s[j] == '}'
    ensures ExtractJson(s).Some? ==>
              exists i, j :: 0 <= i < j < |s| && s[i] == '{' && s[j] == '}' && ExtractJson(s).value == s[i..j + 1]
                && '{' !in s[..i] && '}' !in s[j + 1..]
  {
    if exists i, j :: 0 <= i < j < |s| && s[i] == '{' && s[j] == '}' {
      var i, j :| 0 <= i < j < |s| && s[i] == '{' && s[j] == '}';
      FirstIndexAtMost(s, '{', i);
      LastIndexAtLeast(s, '}', j);
    }
  }

  /** The first occurrence is at or before any occurrence. */
  lemma {:induction false} FirstIndexAtMost(s: string, c: char, i: nat)
    requires i < |s| && s[i] == c
    ensures FirstIndexOf(s, c).Some? && FirstIndexOf(s, c).value <= i
  {
    if s[0] != c {
      assert s[1..][i - 1] == c;
      FirstIndexAtMost(s[1..], c, i - 1);
    }
  }

  /** The last occurrence is at or after any occurrence. */
  lemma {:induction false} LastIndexAtLeast(s: string, c: char, j: nat)
    requires j < |s| && s[j] == c
    ensures LastIndexOf(s, c).Some? && LastIndexOf(s, c).value >= j
  {
    if s[|s| - 1] != c {
      assert s[..|s| - 1][j] == c;
      LastIndexAtLeast(s[..|s| - 1], c, j);
    }
  }

  /** The first candidate whose `amount` is strictly equal to `n` (`chooseApartments.find(...)`). */
  function FindByAmount(xs: seq<Json>, n: Num): (r: Option<nat>)
    ensures r.Some? ==> r.value < |xs| && StrictEqualsNum(AmountOf(xs[r.value]), n)
                        && forall k :: 0 <= k < r.value ==> !StrictEqualsNum(AmountOf(xs[k]), n)
    ensures r.None? <==> forall k :: 0 <= k < |xs| ==> !StrictEqualsNum(AmountOf(xs[k]), n)
  {
    if xs == [] then None
    else if StrictEqualsNum(AmountOf(xs[0]), n) then Some(0)
    else
      match FindByAmount(xs[1..], n)
      case None =>
        assert forall k :: 1 <= k < |xs| ==> xs[k] == xs[1..][k - 1];
        None
      case Some(i) =>
        assert forall k :: 1 <= k < |xs| ==> xs[k] == xs[1..][k - 1];
        Some(i + 1)
  }

  /** `parseInt(data?.choice) - 1`, kept only when it indexes the `n` candidates. */
  function ChoiceIndex(choice: Json, n: nat): (r: Option<nat>)
    ensures r.Some? ==> r.value < n
  {
    match ParseInt(ToStr(choice))
    case None => None
    case Some(k) => if 0 <= k - 1 < n then Some(k - 1) else None
  }

  /** A numeric choice `k` is accepted exactly when 1 <= k <= n, and then picks the k-th candidate. */
  lemma ChoiceAcceptsListedNumbers(k: int, n: nat)
    ensures ChoiceIndex(JNum(k), n).Some? <==> 1 <= k <= n
    ensures ChoiceIndex(JNum(k), n).Some? ==> ChoiceIndex(JNum(k), n).value == k - 1
  {
    ParseIntOfInt(k);
  }

  /** `lastUserMessage?.role === "user" && lastUserMessage?.content === message`. */
  predicate AlreadyAdded(h: seq<ChatMessage>, message: string) {
    |h| > 0 && h[|h| - 1] == ChatMessage("user", message)
  }

  /** The history after the guarded append: the inbound text is added unless it is already the last user entry. */
  function RecordInbound(h: seq<ChatMessage>, message: string): (r: seq<ChatMessage>)
    ensures |r| > 0 && r[|r| - 1] == ChatMessage("user", message)
  {
    if AlreadyAdded(h, message) then h else PushBounded(h, ChatMessage("user", message))
  }

  /** The step with the inbound message recorded in the history. */
  function Recorded(s: Step, message: string): (r: Step)
    ensures r.sent == s.sent && r.user == s.user.(lastMessages := r.user.lastMessages)
    ensures r.user.lastMessages == RecordInbound(s.user.lastMessages, message)
    ensures var h := r.user.lastMessages; |h| > 0 && h[|h| - 1] == ChatMessage("user", message)
  {
    s.(user := s.user.(lastMessages := RecordInbound(s.user.lastMessages, message)))
  }

  /** A redelivered text is not appended twice. */
  lemma RecordInboundIdempotent(h: seq<ChatMessage>, message: string)
    ensures RecordInbound(RecordInbound(h, message), message) == RecordInbound(h, message)
    ensures AlreadyAdded(h, message) ==> RecordInbound(h, message) == h
    ensures |h| < HistoryLimit && !AlreadyAdded(h, message) ==> RecordInbound(h, message) == h + [ChatMessage("user", message)]
  {
  }

  /** The prompt every GPT call of `handleIncomingMessage` uses. */
  function MainPrompt(st: UserState, sv: Services): string {
    sv.texts.prompt + "\n" + sv.describe(st) + Words(PromptTail) + DatePart(sv.todayIso)
  }

  /** `gptResponse(...) === "1"`: the agreement prompt's yes. */
  predicate Consents(answer: Option<string>) {
    answer == Some("1")
  }

  // --- the branch that handles a message ---

  datatype Route =
    | Skipped | Restarted | Blocked | NewUser | NewDay
    | ApartmentSelection | KaspiConsent | PaymentCheck | InstructionPhone | BookingPhone | Oracle

  /** The routes on which a known customer's message reaches the handlers. */
  const Handlers := {ApartmentSelection, KaspiConsent, PaymentCheck, InstructionPhone, BookingPhone, Oracle}

  /** The first of the deterministic branches whose flag is set, in the order the dispatcher tries them. */
  function FirstHandler(st: UserState): Route {
    if st.waitAgreement.status && st.waitAgreement.what.ChooseApartmentRequest? then ApartmentSelection
    else if st.waitAgreement.status && st.waitAgreement.what.MayToKaspiRequest? then KaspiConsent
    else if st.waitFIO then PaymentCheck
    else if st.specialPhoneForInstruction then InstructionPhone
    else if st.specialPhone then BookingPhone
    else Oracle
  }

  /** The language model is asked only when no flag is set. */
  lemma OracleOnlyWithoutFlags(st: UserState)
    ensures FirstHandler(st) == Oracle <==>
            !(st.waitAgreement.status && (st.waitAgreement.what.ChooseApartmentRequest? || st.waitAgreement.what.MayToKaspiRequest?))
            && !st.waitFIO && !st.specialPhoneForInstruction && !st.specialPhone
  {
  }

  /**
   * The branch `handleIncomingMessage` takes for a message of type `kind` with text `body`,
   * given the record stored under its chat (`None` when there is none): the filter, the
   * "restart" command, the block, a new record, a new day, and otherwise the first handler
   * whose flag is set once the message is recorded.
   */
  function RouteOf(kind: string, body: string, stored: Option<UserState>, sv: Services): Route {
    if !Admitted(kind, body) then Skipped
    else if Contains(Lower(body), "restart") then Restarted
    else if stored.None? then NewUser
    else KnownRoute(stored.value, body, sv)
  }

  /** The route of an admitted message from a known record: the block, a new day, or the first handler whose flag is set. */
  function KnownRoute(st: UserState, body: string, sv: Services): (r: Route)
    ensures r !in {Skipped, Restarted, NewUser}
  {
    if st.isGandon then Blocked
    else if IsNewDay(st, body, sv) then NewDay
    else FirstHandler(st)
  }

  /** A blocked record gets nothing but the refusal: it is never greeted and never reaches a handler. */
  lemma BlockedNeverServed(kind: string, body: string, st: UserState, sv: Services)
    requires st.isGandon
    ensures RouteOf(kind, body, Some(st), sv) in {Skipped, Restarted, Blocked}
    ensures Admitted(kind, body) && !Contains(Lower(body), "restart") ==> RouteOf(kind, body, Some(st), sv) == Blocked
  {
  }

  // --- effects as values ---

  /** The record and the messages sent so far, as `(chat, text)` pairs. */
  datatype Step = Step(user: UserState, sent: seq<(string, string)>)

  /** `client.sendMessage(chatId, text); updateLastMessages(user, text, "assistant")`. */
  function Say(s: Step, chatId: string, text: string): Step {
    Step(s.user.(lastMessages := PushBounded(s.user.lastMessages, Assistant(text))), s.sent + [(chatId, text)])
  }

  /** `client.sendMessage(to, text)` alone. */
  function Tell(s: Step, to: string, text: string): Step {
    s.(sent := s.sent + [(to, text)])
  }

  /** `calculateDaysBetweenDates(b.begin_date, b.end_date)` times `b.amount`. */
  function StayCost(b: Json, sv: Services): Num {
    Mul(ToNumber(AmountOf(b)),
        CalculateDaysBetweenDates(sv.calendar.parseDate(Get(b, "begin_date")), sv.calendar.parseDate(Get(b, "end_date"))))
  }

  /** The fields the `$set` of a found booking writes. */
  function Attach(st: UserState, b: Json): UserState {
    st.(paid := st.paid.(apartmentId := ApartmentIdOf(b)), chooseApartment := b,
        apartments := st.apartments + [b], apartment := b)
  }

  /** The cost, the deposit text and the Kaspi question; the record then waits on the Kaspi answer. */
  function AskKaspi(s: Step, chatId: string, sum: Num, sv: Services): Step {
    var s3 := Say(Say(Say(s, chatId, CostText(sum)), chatId, sv.texts.depo), chatId, Words(KaspiQuestion));
    s3.(user := s3.user.(waitAgreement := Agreement(true, MayToKaspiRequest(sum))))
  }

  /** A booking found by phone: its cost, the deposit and the Kaspi question, and the booking attached to the record. */
  function BookedStep(s: Step, chatId: string, b: Json, sv: Services): Step {
    var s3 := AskKaspi(s, chatId, StayCost(b, sv), sv);
    s3.(user := Attach(s3.user, b))
  }

  /** A found booking leaves the record waiting for the Kaspi consent, which the next message goes to. */
  lemma BookedAwaitsKaspi(s: Step, chatId: string, b: Json, sv: Services)
    ensures var r := BookedStep(s, chatId, b, sv);
            r.user.waitAgreement == Agreement(true, MayToKaspiRequest(StayCost(b, sv)))
            && FirstHandler(r.user) == KaspiConsent
            && r.user.apartment == b && r.user.apartments == s.user.apartments + [b]
            && r.user.paid.apartmentId == ApartmentIdOf(b)
            && r.sent == s.sent + [(chatId, CostText(StayCost(b, sv))), (chatId, sv.texts.depo), (chatId, Words(KaspiQuestion))]
  {
  }

  /** The "забронировал" flow: the booking looked up by phone, or `failText` (and `specialPhone` set when `mark`). */
  function LookupStep(s: Step, chatId: string, phone: Option<string>, failText: string, mark: bool, sv: Services): Step {
    match FetchBookingsSpec(phone, sv.bookings)
    case Found(b) => BookedStep(s, chatId, b, sv)
    case _ =>
      var s1 := Say(s, chatId, failText);
      if mark then s1.(user := s1.user.(specialPhone := true)) else s1
  }

  // handleApartmentSelection

  function SelectionUserData(st: UserState): Json {
    JObj([Field("bookingDate", JObj([Field("startDate", st.bookingDate.startDate), Field("endDate", st.bookingDate.endDate)])),
          Field("phone", JStr("+" + Prefix(st.phone, 11)))])
  }

  function SelectionApartmentData(st: UserState): Json {
    JObj([Field("amount", AmountOf(st.chooseApartment)), Field("apartment_id", ApartmentIdOf(st.chooseApartment))])
  }

  /** The booking `handleApartmentSelection` asks `addBooking` for. */
  function SelectionBooking(st: UserState, clientName: Json, sv: Services): Json {
    AddBooking.AddBooking(SelectionUserData(st), SelectionApartmentData(st), clientName, sv.signer, sv.create).result
  }

  function SelectionSum(st: UserState, sv: Services): Num {
    Mul(ToNumber(AmountOf(st.chooseApartment)),
        CalculateDaysBetweenDates(sv.calendar.parseDate(st.bookingDate.startDate), sv.calendar.parseDate(st.bookingDate.endDate)))
  }

  /** `handleApartmentSelection`: the record and messages after it, and whether it handled the message. */
  function SelectionStep(s: Step, message: string, chatId: string, clientName: Json, sv: Services): (Step, bool) {
    if Consents(GptResponse(message, s.user.lastMessages, sv.texts.agreementPrompt, sv.gpt)) then
      SelectionAgreed(s, chatId, clientName, sv)
    else
      (Say(Tell(s, sv.texts.adminGroup, CantPayText(chatId)), chatId, Words(ManagerSoonReply)), true)
  }

  /** The customer agreed: the booking is created, its cost stated and the Kaspi question asked; false when creation failed. */
  function SelectionAgreed(s: Step, chatId: string, clientName: Json, sv: Services): (Step, bool) {
    SelectionCreated(s, chatId, SelectionBooking(s.user, clientName, sv), SelectionSum(s.user, sv), sv)
  }

  /** The steps after `addBooking` answered with `booking`: the record leaves the agreement, and a truthy booking is attached and its cost asked for. */
  function SelectionCreated(s: Step, chatId: string, booking: Json, sum: Num, sv: Services): (Step, bool) {
    var s1 := Say(s, chatId, Words(CreatingReply));
    var s2 := s1.(user := s1.user.(waitAgreement := NoAgreement));
    if Truthy(booking) then
      var s3 := AskKaspi(s2, chatId, sum, sv);
      (s3.(user := s3.user.(apartment := booking)), true)
    else (s2, false)
  }

  /** When the booking cannot be created the selection leaves no agreement pending, so no Kaspi question is waited on. */
  lemma SelectionFallsThroughWithoutAgreement(s: Step, message: string, chatId: string, clientName: Json, sv: Services)
    ensures var (r, handled) := SelectionStep(s, message, chatId, clientName, sv);
            !handled ==> r.user == s.user.(lastMessages := PushBounded(s.user.lastMessages, Assistant(Words(CreatingReply))), waitAgreement := NoAgreement)
                         && FirstHandler(r.user) != KaspiConsent && FirstHandler(r.user) != ApartmentSelection
  {
  }

  // payments

  /** A found payment of `amount` credited against `required`, as `validatePaymentAmount` decides. */
  function CreditStep(s: Step, chatId: string, amount: int, required: int): Step {
    match ValidatePaymentAmount(amount, required, s.user.temporarySum)
    case Sufficient =>
      var s1 := Say(s, chatId, Words(PaidReply));
      s1.(user := s1.user.(temporarySum := 0, paid := s1.user.paid.(status := true), waitFIO := false, additionalPrompt := true))
    case Insufficient(_, remaining) =>
      var s1 := Say(s, chatId, PartialText(remaining));
      s1.(user := s1.user.(temporarySum := s.user.temporarySum + amount, waitFIO := false))
  }

  /** Paid in full exactly when the running sum reaches the requirement; otherwise the sum grows and the reply names what is left. */
  lemma CreditSettlesOrAccumulates(s: Step, chatId: string, amount: int, required: int)
    ensures var r := CreditStep(s, chatId, amount, required);
            (s.user.temporarySum + amount >= required ==>
               r.user.paid.status && r.user.temporarySum == 0 && r.sent == s.sent + [(chatId, Words(PaidReply))])
            && (s.user.temporarySum + amount < required ==>
                  r.user.temporarySum == s.user.temporarySum + amount
                  && r.user.paid == s.user.paid
                  && r.sent == s.sent + [(chatId, PartialText(required - r.user.temporarySum))]
                  && required - r.user.temporarySum > 0)
            && !r.user.waitFIO
  {
  }

  function PaymentNotFoundStep(s: Step, chatId: string): Step {
    var s1 := Say(s, chatId, Words(PaymentNotFoundReply));
    s1.(user := s1.user.(waitFIO := true))
  }

  /** `handlePaymentCheck`, given what `checkKaspiPayment` reports. */
  function PaymentCheckStep(s: Step, message: string, chatId: string, check: PaymentCheck): Step {
    if MatchDigits(message).None? then Say(s, chatId, Words(AskPhoneReply))
    else if check.Found? then CreditStep(s, chatId, check.amount, KaspiRequired)
    else PaymentNotFoundStep(s, chatId)
  }

  /** The type-4 command, given what `kaspiParser` gives; a throw is caught with a reply that is not recorded. */
  function CommandPaymentStep(s: Step, chatId: string, r: ParserResult): Step {
    match r
    case Threw => Tell(s, chatId, Words(PaymentErrorReply))
    case Amount(a) => if a != 0 then CreditStep(s, chatId, a, CommandRequired) else PaymentNotFoundStep(s, chatId)
    case NoResult => PaymentNotFoundStep(s, chatId)
  }

  /** The two paths differ only in the sum asked for: 10000 after a phone is typed, 20 for the type-4 command. */
  lemma PaymentPathsDifferOnlyInRequirement(s: Step, message: string, chatId: string, a: int)
    requires MatchDigits(message).Some? && a != 0
    ensures PaymentCheckStep(s, message, chatId, PaymentCheck.Found(a)) == CreditStep(s, chatId, a, 10000)
    ensures CommandPaymentStep(s, chatId, Amount(a)) == CreditStep(s, chatId, a, 20)
  {
  }

  // instructions

  /** The links and text of an apartment document, in the order they are sent. */
  function DocTexts(d: ApartmentDoc): seq<string> {
    (if |d.links| > 0 then [d.links[0]] else []) + (if d.text != "" then [d.text] else [])
  }

  /** The instruction of an apartment, or the apology and a message to the administrators when there is none. */
  function InstructionStep(s: Step, chatId: string, clientName: Json, doc: Option<ApartmentDoc>, sv: Services): Step {
    match doc
    case None => Tell(Say(s, chatId, Words(NoInstructionReply)), sv.texts.adminGroup, ContactText(clientName, chatId))
    case Some(d) =>
      var s1 := if |d.links| > 0 then Say(s, chatId, d.links[0]) else s;
      if d.text != "" then Say(s1, chatId, d.text) else s1
  }

  /** The instruction of the apartment booked as `b`; the booking is kept on the record only when the apartment has one. */
  function BookingInstruction(s: Step, chatId: string, clientName: Json, b: Json, sv: Services): Step {
    match sv.apartmentsDb(ApartmentIdOf(b))
    case None => InstructionStep(s, chatId, clientName, None, sv)
    case Some(d) =>
      var s2 := InstructionStep(s, chatId, clientName, Some(d), sv);
      s2.(user := Attach(s2.user, b))
  }

  /** The `specialPhoneForInstruction` branch. */
  function InstructionPhoneStep(s: Step, message: string, chatId: string, clientName: Json, sv: Services): Step {
    match MatchDigits(message)
    case None => Say(s, chatId, Words(AskPhoneReply))
    case Some(phone) =>
      var s1 := InstructionLookup(s, chatId, clientName, phone, sv);
      s1.(user := s1.user.(specialPhoneForInstruction := false))
  }

  /** The bookings under `phone`, and the instruction of the one found. */
  function InstructionLookup(s: Step, chatId: string, clientName: Json, phone: string, sv: Services): Step {
    match FetchBookingsSpec(Some(phone), sv.bookings)
    case Found(b) => BookingInstruction(s, chatId, clientName, b, sv)
    case _ => Say(s, chatId, Words(PhoneInstructionNotFoundReply))
  }

  /** The `specialPhone` branch. */
  function BookingPhoneStep(s: Step, message: string, chatId: string, sv: Services): Step {
    match MatchDigits(message)
    case None => Say(s, chatId, Words(AskPhoneReply))
    case Some(phone) =>
      var s1 := LookupStep(s, chatId, Some(phone), Words(PhoneBookingNotFoundReply), false, sv);
      s1.(user := s1.user.(specialPhone := false))
  }

  /** Both phone branches clear their flag once a phone was given, and keep it when none was. */
  lemma PhoneBranchesClearTheirFlag(s: Step, message: string, chatId: string, clientName: Json, sv: Services)
    ensures MatchDigits(message).Some? ==> !InstructionPhoneStep(s, message, chatId, clientName, sv).user.specialPhoneForInstruction
    ensures MatchDigits(message).Some? ==> !BookingPhoneStep(s, message, chatId, sv).user.specialPhone
    ensures MatchDigits(message).None? ==>
              InstructionPhoneStep(s, message, chatId, clientName, sv) == Say(s, chatId, Words(AskPhoneReply))
              && BookingPhoneStep(s, message, chatId, sv) == Say(s, chatId, Words(AskPhoneReply))
  {
  }

  // the commands of the language model

  /** `const [year, month, day] = x.split("-")` for a stored date, else for the command's own date; `None` where `split` is missing. */
  function DateArg(stored: Json, given: Json): Option<string> {
    if Truthy(stored) then (if stored.JStr? then Some(ConvertIsoDate(stored.s)) else None)
    else if given.JStr? then Some(ConvertIsoDate(given.s)) else None
  }

  /** Type 1: free apartments for the dates, then a booking link over them; the second value is the calendar token cell. */
  function SearchStep(s: Step, token: string, data: Json, chatId: string, sv: Services): (Step, string) {
    var begin := DateArg(s.user.bookingDate.startDate, CheckinOf(data));
    var end := DateArg(s.user.bookingDate.endDate, CheckoutOf(data));
    if begin.None? || end.None? then (Tell(s, chatId, Words(SearchErrorReply)), token)
    else
      var (vacant, t1) := VacantSpec(token, begin.value, end.value, GuestsOf(data), sv.calendar);
      VacantStep(s, vacant, t1, data, chatId, sv)
  }

  /** What the free apartments found lead to. */
  function VacantStep(s: Step, vacant: VacantResult, token: string, data: Json, chatId: string, sv: Services): (Step, string) {
    var checkin := CheckinOf(data);
    var checkout := CheckoutOf(data);
    match vacant
    case VacantFailure(_) => (Say(s, chatId, NoFreeText(checkin, checkout)), token)
    case VacantSuccess(aps) =>
      if Nullish(aps) then (Tell(s, chatId, Words(SearchErrorReply)), token)   // reading `.length` of it throws
      else if !Truthy(JsLength(aps)) then (Say(s, chatId, NoFreeText(checkin, checkout)), token)
      else
        var (link, t) := LinkSpec(token, checkin, checkout, aps, sv.calendar);
        (LinkStep(s, link, data, chatId, sv), t)
  }

  /** What the booking link leads to. */
  function LinkStep(s: Step, link: BookingLink, data: Json, chatId: string, sv: Services): Step {
    var checkin := CheckinOf(data);
    var checkout := CheckoutOf(data);
    match link
    case LinkError(e) => Say(s, chatId, LinkErrorText(ToStr(e)))
    case LinkCrashed => Say(s, chatId, LinkErrorText(sv.crashMessage))
    case LinkCreated(url, items) =>
      if Nullish(items) then Tell(s, chatId, Words(SearchErrorReply))
      else Listed(s, url, items, data, chatId)
  }

  /** The link and the number of candidates sent; the candidates and the dates, with the guests or 1, kept on the record. */
  function Listed(s: Step, url: Json, items: Json, data: Json, chatId: string): Step {
    var checkin := CheckinOf(data);
    var checkout := CheckoutOf(data);
    var s1 := Say(s, chatId, FoundText(checkin, checkout, items, url));
    s1.(user := s1.user.(chooseApartments := AsList(items),
                         bookingDate := BookingDate(checkin, checkout, Or(GuestsOf(data), JNum(1)))))
  }

  /** `u` differs from `v` at most in the history, the candidates and the stored dates. */
  predicate OnlyChoicesDiffer(u: UserState, v: UserState) {
    u.(lastMessages := v.lastMessages, chooseApartments := v.chooseApartments, bookingDate := v.bookingDate) == v
  }

  /** The search changes nothing in the record but the history, the candidates and the stored dates. */
  lemma SearchTouchesOnlyChoices(s: Step, token: string, data: Json, chatId: string, sv: Services)
    ensures OnlyChoicesDiffer(SearchStep(s, token, data, chatId, sv).0.user, s.user)
  {
    var begin := DateArg(s.user.bookingDate.startDate, CheckinOf(data));
    var end := DateArg(s.user.bookingDate.endDate, CheckoutOf(data));
    if begin.Some? && end.Some? {
      var vt := VacantSpec(token, begin.value, end.value, GuestsOf(data), sv.calendar);
      assert SearchStep(s, token, data, chatId, sv) == VacantStep(s, vt.0, vt.1, data, chatId, sv);
      VacantTouchesOnlyChoices(s, vt.0, vt.1, data, chatId, sv);
    }
  }

  lemma VacantTouchesOnlyChoices(s: Step, vacant: VacantResult, token: string, data: Json, chatId: string, sv: Services)
    ensures OnlyChoicesDiffer(VacantStep(s, vacant, token, data, chatId, sv).0.user, s.user)
  {
    if vacant.VacantSuccess? && !Nullish(vacant.apartments) && Truthy(JsLength(vacant.apartments)) {
      var lt := LinkSpec(token, CheckinOf(data), CheckoutOf(data), vacant.apartments, sv.calendar);
      assert VacantStep(s, vacant, token, data, chatId, sv).0 == LinkStep(s, lt.0, data, chatId, sv);
      LinkTouchesOnlyChoices(s, lt.0, data, chatId, sv);
    }
  }

  lemma LinkTouchesOnlyChoices(s: Step, link: BookingLink, data: Json, chatId: string, sv: Services)
    ensures OnlyChoicesDiffer(LinkStep(s, link, data, chatId, sv).user, s.user)
  {
    match link
    case LinkCreated(url, items) =>
      if !Nullish(items) {
        var u := Listed(s, url, items, data, chatId).user;
        assert u.(lastMessages := s.user.lastMessages, chooseApartments := s.user.chooseApartments, bookingDate := s.user.bookingDate) == s.user;
      }
    case _ =>
  }

  /** New candidates and dates are stored only with a created link: its items, and the guests or 1. */
  lemma ChoicesOnlyFromLink(s: Step, link: BookingLink, data: Json, chatId: string, sv: Services)
    ensures var u := LinkStep(s, link, data, chatId, sv).user;
            if link.LinkCreated? && !Nullish(link.items) then
              u.chooseApartments == AsList(link.items)
              && u.bookingDate == BookingDate(CheckinOf(data), CheckoutOf(data), Or(GuestsOf(data), JNum(1)))
            else u.chooseApartments == s.user.chooseApartments && u.bookingDate == s.user.bookingDate
  {
  }

  /** Offering a candidate: the record remembers it and waits for the customer's agreement. */
  function Chosen(s: Step, chatId: string, item: Json, number: Json): Step {
    var s1 := Say(s, chatId, OfferText(AmountOf(item)));
    s1.(user := s1.user.(chooseApartment := item, waitAgreement := Agreement(true, ChooseApartmentRequest(number))))
  }

  /** Type 3: a candidate chosen by price, or by its number in the list. */
  function ChooseStep(s: Step, data: Json, chatId: string, clientName: Json, sv: Services): Step {
    var xs := s.user.chooseApartments;
    var price := Get(data, "price");
    if Truthy(price) then
      match FindByAmount(xs, ToNumber(price))
      case Some(i) => Chosen(s, chatId, xs[i], Get(data, "address"))
      case None => ReferredStep(s, chatId, clientName, sv)
    else
      match ChoiceIndex(Get(data, "choice"), |xs|)
      case None => Tell(s, chatId, Words(WrongNumberReply))
      case Some(i) =>
        if !Truthy(xs[i]) then Tell(s, chatId, Words(NoSuchApartmentReply))
        else Chosen(s, chatId, xs[i], AmountOf(xs[i]))
  }

  /** No candidate at the named price: the administrators told, the customer promised a manager. */
  function ReferredStep(s: Step, chatId: string, clientName: Json, sv: Services): Step {
    Say(Tell(s, sv.texts.adminGroup, UnclearApartmentText(clientName, chatId)), chatId, Words(ManagerSoonReply))
  }

  /** Choosing number k of n candidates, 1 <= k <= n, stores the k-th and sends the next message to the agreement handler. */
  lemma ChoiceByNumber(s: Step, data: Json, chatId: string, clientName: Json, sv: Services, k: int)
    requires !Truthy(Get(data, "price")) && Get(data, "choice") == JNum(k)
    requires 1 <= k <= |s.user.chooseApartments| && Truthy(s.user.chooseApartments[k - 1])
    ensures var u := ChooseStep(s, data, chatId, clientName, sv).user;
            u.chooseApartment == s.user.chooseApartments[k - 1]
            && u.waitAgreement == Agreement(true, ChooseApartmentRequest(AmountOf(s.user.chooseApartments[k - 1])))
            && FirstHandler(u) == ApartmentSelection
  {
    ChoiceAcceptsListedNumbers(k, |s.user.chooseApartments|);
  }

  /** A number outside 1..n changes nothing in the record. */
  lemma ChoiceOutOfRange(s: Step, data: Json, chatId: string, clientName: Json, sv: Services, k: int)
    requires !Truthy(Get(data, "price")) && Get(data, "choice") == JNum(k)
    requires !(1 <= k <= |s.user.chooseApartments|)
    ensures ChooseStep(s, data, chatId, clientName, sv) == Tell(s, chatId, Words(WrongNumberReply))
  {
    ChoiceAcceptsListedNumbers(k, |s.user.chooseApartments|);
  }

  /** The history entries of messages sent without `updateLastMessages`. */
  function Entries(texts: seq<string>): (ms: seq<ChatMessage>)
    ensures |ms| == |texts|
    ensures forall i :: 0 <= i < |texts| ==> ms[i] == Assistant(texts[i])
  {
    seq(|texts|, i requires 0 <= i < |texts| => Assistant(texts[i]))
  }

  function Outgoing(chatId: string, texts: seq<string>): (out: seq<(string, string)>)
    ensures |out| == |texts|
    ensures forall i :: 0 <= i < |texts| ==> out[i] == (chatId, texts[i])
  {
    seq(|texts|, i requires 0 <= i < |texts| => (chatId, texts[i]))
  }

  /** Type 7: the booking found by the chat's phone and its instruction; the history is extended directly, without the bound. */
  function AirbnbStep(s: Step, chatId: string, clientName: Json, sv: Services): Step {
    match FetchBookingsSpec(MatchDigits(chatId), sv.bookings)
    case Found(b) =>
      (match sv.apartmentsDb(ApartmentIdOf(b))
       case None => InstructionStep(s, chatId, clientName, None, sv)
       case Some(d) => DocumentAttached(s, chatId, b, d))
    case _ => AirbnbMissed(s, chatId)
  }

  /** The instruction sent unrecorded, the booking attached, and the history extended by the instruction's texts. */
  function DocumentAttached(s: Step, chatId: string, b: Json, d: ApartmentDoc): Step {
    Step(Attach(s.user, b).(lastMessages := s.user.lastMessages + Entries(DocTexts(d))), s.sent + Outgoing(chatId, DocTexts(d)))
  }

  /** No booking under the chat's number: asked for the number, which the next message is then read as. */
  function AirbnbMissed(s: Step, chatId: string): Step {
    var s1 := Say(s, chatId, Words(AirbnbNotFoundReply));
    s1.(user := s1.user.(specialPhoneForInstruction := true))
  }

  /** With both a link and a text, the type-7 path grows a full history past the 20 entries `updateLastMessages` keeps. */
  lemma AirbnbOverflowsHistory(s: Step, chatId: string, clientName: Json, sv: Services, b: Json, d: ApartmentDoc)
    requires FetchBookingsSpec(MatchDigits(chatId), sv.bookings) == BookingsResult.Found(b)
    requires sv.apartmentsDb(ApartmentIdOf(b)) == Some(d)
    requires |d.links| > 0 && d.text != "" && |s.user.lastMessages| == HistoryLimit
    ensures |AirbnbStep(s, chatId, clientName, sv).user.lastMessages| == HistoryLimit + 2
  {
  }
  // the Kaspi consent, the greeting, the oracle's answer

  /** `handleKaspiPayment` without its timer: the payment details on consent, the administrators told otherwise. */
  function KaspiConsentStep(s: Step, message: string, chatId: string, sv: Services): Step {
    if Consents(GptResponse(message, s.user.lastMessages, sv.texts.agreementPrompt, sv.gpt)) then KaspiAccepted(s, chatId, sv)
    else KaspiDeclined(s, chatId, sv)
  }

  /** The Kaspi details and the reminder to report the payment; the current apartment joins the list and is the one paid for. */
  function KaspiAccepted(s: Step, chatId: string, sv: Services): Step {
    var s2 := Say(Say(s, chatId, sv.texts.kaspiText), chatId, Words(AfterPaymentReply));
    s2.(user := s2.user.(paid := s2.user.paid.(apartmentId := ApartmentIdOf(s.user.apartment)),
                         apartments := s.user.apartments + [s.user.apartment],
                         waitAgreement := NoAgreement))
  }

  /** The administrators are told the customer cannot pay by Kaspi, and the record is marked for a manager. */
  function KaspiDeclined(s: Step, chatId: string, sv: Services): Step {
    var s1 := Say(Tell(s, sv.texts.adminGroup, CantPayText(chatId)), chatId, Words(ManagerSoonReply));
    s1.(user := s1.user.(status := true))
  }

  /** Consent records the current apartment as paid for and ends the wait; refusal keeps the apartment lists. */
  lemma KaspiConsentRecordsApartment(s: Step, message: string, chatId: string, sv: Services)
    ensures var u := KaspiConsentStep(s, message, chatId, sv).user;
            if Consents(GptResponse(message, s.user.lastMessages, sv.texts.agreementPrompt, sv.gpt)) then
              u.paid.apartmentId == ApartmentIdOf(s.user.apartment) && u.apartments == s.user.apartments + [s.user.apartment]
              && u.waitAgreement == NoAgreement && FirstHandler(u) != KaspiConsent
            else u.apartments == s.user.apartments && u.waitAgreement == s.user.waitAgreement && u.status
  {
  }

  /** The `includes("забронировал admin")` test of the two greeting paths; a `null` answer throws and counts as no. */
  predicate SaysBooked(answer: Option<string>) {
    answer.Some? && Contains(answer.value, "забронировал admin")
  }

  /** A new record: the message recorded, then the booking flow if the model says so, else the start message. */
  function WelcomeStep(s: Step, message: string, chatId: string, sv: Services): Step {
    var s1 := s.(user := s.user.(lastMessages := PushBounded(s.user.lastMessages, ChatMessage("user", message))));
    Greeting(s1, GptResponse(message, s1.user.lastMessages, MainPrompt(s1.user, sv), sv.gpt), chatId, sv)
  }

  /** What the greeting's answer leads to: the booking looked up under the chat's number, or the start message. */
  function Greeting(s: Step, answer: Option<string>, chatId: string, sv: Services): Step {
    if SaysBooked(answer) then LookupStep(s, chatId, MatchDigits(chatId), Words(BookingNotFoundReply), true, sv)
    else Say(s, chatId, sv.texts.startMessage)
  }

  /** A known customer on a new day (or writing from 2GIS): as for a new record, and today becomes the last message date. */
  function GreetStep(s: Step, message: string, chatId: string, sv: Services): Step {
    var s1 := s.(user := s.user.(lastMessages := PushBounded(s.user.lastMessages, ChatMessage("user", message))));
    var answer := GptResponse(message, s1.user.lastMessages, MainPrompt(s1.user, sv), sv.gpt);
    Greeting(s1.(user := s1.user.(lastMessageDate := Some(sv.today))), answer, chatId, sv)
  }

  /** A new record is greeted exactly as a known customer on a new day, since it is created with today's date. */
  lemma WelcomeIsGreeting(s: Step, message: string, chatId: string, sv: Services)
    requires s.user.lastMessageDate == Some(sv.today)
    ensures WelcomeStep(s, message, chatId, sv) == GreetStep(s, message, chatId, sv)
  {
    var s1 := s.(user := s.user.(lastMessages := PushBounded(s.user.lastMessages, ChatMessage("user", message))));
    assert s1.(user := s1.user.(lastMessageDate := Some(sv.today))) == s1;
  }

  /** After the greeting the record carries today's date, so the next message today is not greeted again. */
  lemma GreetingMarksToday(s: Step, message: string, chatId: string, sv: Services)
    ensures GreetStep(s, message, chatId, sv).user.lastMessageDate == Some(sv.today)
  {
    var s1 := s.(user := s.user.(lastMessages := PushBounded(s.user.lastMessages, ChatMessage("user", message))));
    var s2 := s1.(user := s1.user.(lastMessageDate := Some(sv.today)));
    var answer := GptResponse(message, s1.user.lastMessages, MainPrompt(s1.user, sv), sv.gpt);
    assert GreetStep(s, message, chatId, sv) == Greeting(s2, answer, chatId, sv);
    if SaysBooked(answer) {
      LookupKeepsDate(s2, chatId, MatchDigits(chatId), Words(BookingNotFoundReply), true, sv);
    }
  }

  /** The booking lookup does not touch the last message date. */
  lemma LookupKeepsDate(s: Step, chatId: string, phone: Option<string>, failText: string, mark: bool, sv: Services)
    ensures LookupStep(s, chatId, phone, failText, mark, sv).user.lastMessageDate == s.user.lastMessageDate
  {
    match FetchBookingsSpec(phone, sv.bookings)
    case Found(b) =>
      assert LookupStep(s, chatId, phone, failText, mark, sv) == BookedStep(s, chatId, b, sv);
    case _ =>
  }

  /** The greeting test of a known customer: the last message was on another day, or the text says it comes from 2GIS. */
  predicate IsNewDay(st: UserState, message: string, sv: Services) {
    (st.lastMessageDate.Some? && st.lastMessageDate.value != sv.today)
    || Contains(Lower(message), "пишу из приложения 2гис.")
  }

  /** The JSON command in an `admin` answer: the greedy `{...}` span, parsed. */
  function CommandOf(answer: string, sv: Services): Option<Json> {
    match ExtractJson(answer)
    case None => None
    case Some(text) => sv.parseJson(text)
  }

  /** The types `handleGptCommand` has a case for. */
  predicate KnownCommand(data: Json) {
    var t := TypeOf(data);
    t == JNum(1) || t == JNum(3) || t == JNum(4) || t == JNum(5) || t == JNum(7)
  }

  // the Kaspi lookups the dispatcher makes

  /** `kaspiParser(p)`'s result for each phone, from the cookie tokens `t`. */
  function KaspiLookup(t: Tokens, env: KaspiEnv): string -> ParserResult {
    p => ParserSpec(t, Some(p), env).result
  }

  /** The cookie tokens after `checkKaspiPayment(phone)`: changed only when the guards let the parser run. */
  function CheckedTokens(t: Tokens, phone: Option<string>, env: KaspiEnv): Tokens {
    match NormalizedPhone(phone)
    case Err(_) => t
    case Ok(p) => ParserSpec(t, Some(p), env).tokens
  }

  /** `phone?.slice(1)`, the chat's digits without the leading 7. */
  function DropFirst(phone: Option<string>): Option<string> {
    match phone
    case None => None
    case Some(p) => Some(if p == "" then "" else p[1..])
  }

  // timers

  function NotificationKey(chatId: string): string {
    chatId + "_notification"
  }

  function DeletionKey(chatId: string): string {
    chatId + "_deletion"
  }

  /** The two keys of one chat never collide, so the deletion timer does not overwrite the notification's handle. */
  lemma TimerKeysDiffer(chatId: string)
    ensures NotificationKey(chatId) != DeletionKey(chatId)
  {
    var n := NotificationKey(chatId);
    var d := DeletionKey(chatId);
    assert n[|chatId| + 1] == 'n' && d[|chatId| + 1] == 'd';
  }

  /** The handles stored under a chat's two keys. */
  function ChatHandles(timers: map<string, nat>, chatId: string): set<nat> {
    (if NotificationKey(chatId) in timers then {timers[NotificationKey(chatId)]} else {})
    + (if DeletionKey(chatId) in timers then {timers[DeletionKey(chatId)]} else {})
  }

  /** The reminder's callback: the warning that the booking will be deleted, sent and recorded. */
  function NotifiedStep(s: Step, chatId: string): Step {
    Say(s, chatId, Words(NotificationReply))
  }

  /** The deletion's callback: the record forgets the booking and its payment, and the customer is told. */
  function DeletedStep(s: Step, chatId: string): Step {
    var s1 := s.(user := s.user.(specialPhone := false, apartment := JObj([]), paid := Paid(JStr(""), false)));
    Say(s1, chatId, Words(DeletedReply))
  }

  /** `{ apartment_id: user.apartment.apartment_id, id: user.apartment.id }`, what `deleteBooking` is asked to remove. */
  function DeleteRequest(apartment: Json): Json {
    JObj([Field("apartment_id", ApartmentIdOf(apartment)), Field("id", Get(apartment, "id"))])
  }

  /** The deletion removes the booking whose apartment id the Kaspi consent stored as the one being paid for. */
  lemma DeletionTargetsPaidApartment(s: Step, chatId: string, sv: Services)
    ensures var u := KaspiAccepted(s, chatId, sv).user;
            ApartmentIdOf(DeleteRequest(u.apartment)) == u.paid.apartmentId
            && Get(DeleteRequest(u.apartment), "id") == Get(s.user.apartment, "id")
  {
    var a := s.user.apartment;
    assert KaspiAccepted(s, chatId, sv).user.apartment == a;
    var fs := [Field("apartment_id", ApartmentIdOf(a)), Field("id", Get(a, "id"))];
    assert fs[1..] == [Field("id", Get(a, "id"))];
    assert Lookup(fs, "id") == Get(a, "id");
  }

  /** The warning and the deletion each add one message to the customer, in this order, and the deletion forgets exactly the booking and its payment. */
  lemma TimerStepsSay(s: Step, chatId: string)
    ensures NotifiedStep(s, chatId).sent == s.sent + [(chatId, Words(NotificationReply))]
    ensures var d := DeletedStep(NotifiedStep(s, chatId), chatId);
            d.sent == s.sent + [(chatId, Words(NotificationReply)), (chatId, Words(DeletedReply))]
            && d.user.paid == Paid(JStr(""), false) && !d.user.specialPhone && d.user.apartment == JObj([])
            && d.user.apartments == s.user.apartments && d.user.temporarySum == s.user.temporarySum
            && d.user.waitFIO == s.user.waitFIO && d.user.waitAgreement == s.user.waitAgreement
  {
  }

  // --- one message, as a value ---

  /** What a handler does to the chat's timers: nothing, the type-4 `clearTimeout`s, or the Kaspi reminder scheduled. */
  datatype TimerChange = KeepTimers | CancelTimers | Remind

  /** A handler's whole effect: the record and the messages, the calendar token, the Kaspi tokens and the timers. */
  datatype Effect = Effect(step: Step, token: string, tokens: Tokens, timers: TimerChange)

  /** A handler that touches neither token store nor timers. */
  function Plain(s: Step, token: string, tokens: Tokens): Effect {
    Effect(s, token, tokens, KeepTimers)
  }

  /** `handleGptCommand(data, ...)`: the effect of a known command type; `None` is the `default: return false`. */
  function CommandStep(s: Step, data: Json, chatId: string, clientName: Json, token: string, tokens: Tokens, sv: Services)
    : (r: Option<Effect>)
  {
    var t := TypeOf(data);
    if t == JNum(1) then
      var (s1, t1) := SearchStep(s, token, data, chatId, sv);
      Some(Effect(s1, t1, tokens, KeepTimers))
    else if t == JNum(4) then
      var o := ParserSpec(tokens, DropFirst(MatchDigits(chatId)), sv.kaspi);
      Some(Effect(CommandPaymentStep(s, chatId, o.result), token, o.tokens, CancelTimers))
    else if t in {JNum(3), JNum(5), JNum(7)} then Some(Plain(PlainCommandStep(s, data, chatId, clientName, sv), token, tokens))
    else None
  }

  /** Types 3, 5 and 7, which touch neither store: the choice, the instruction, the booking under the chat's number. */
  function PlainCommandStep(s: Step, data: Json, chatId: string, clientName: Json, sv: Services): Step {
    var t := TypeOf(data);
    if t == JNum(3) then ChooseStep(s, data, chatId, clientName, sv)
    else if t == JNum(5) then InstructionStep(s, chatId, clientName, sv.apartmentsDb(ApartmentIdOf(s.user.apartment)), sv)
    else AirbnbStep(s, chatId, clientName, sv)
  }

  /** A command is handled exactly when its type has a case; only type 1 may change the calendar token, only type 4 the Kaspi tokens and the timers. */
  lemma CommandsAndTheirStores(s: Step, data: Json, chatId: string, clientName: Json, token: string, tokens: Tokens, sv: Services)
    ensures var r := CommandStep(s, data, chatId, clientName, token, tokens, sv);
            (r.Some? <==> KnownCommand(data))
            && (r.Some? && r.value.token != token ==> TypeOf(data) == JNum(1))
            && (r.Some? && (r.value.tokens != tokens || r.value.timers != KeepTimers) ==> TypeOf(data) == JNum(4))
            && (r.Some? && TypeOf(data) == JNum(4) ==> r.value.timers == CancelTimers)
  {
  }

  /** The `admin` answer: its JSON command if it has a known one, else the "забронировал" lookup, else the holding reply. */
  function AdminStep(s: Step, answer: string, chatId: string, clientName: Json, token: string, tokens: Tokens, sv: Services): Effect {
    var command := match CommandOf(answer, sv)
                   case None => None
                   case Some(data) => CommandStep(s, data, chatId, clientName, token, tokens, sv);
    if command.Some? then command.value
    else Plain(UncommandedStep(s, answer, chatId, sv), token, tokens)
  }

  /** An `admin` answer without a known command: the "забронировал" lookup under the chat's number, else the holding reply. */
  function UncommandedStep(s: Step, answer: string, chatId: string, sv: Services): Step {
    if Contains(answer, "забронировал") then LookupStep(s, chatId, MatchDigits(chatId), Words(BookingNotFoundReply), true, sv)
    else Tell(s, chatId, Words(ProcessingReply))
  }

  /** The main prompt's answer: a `client` text is relayed without its tag, an `admin` one is acted on, any other text is relayed. */
  function OracleStep(s: Step, message: string, chatId: string, clientName: Json, token: string, tokens: Tokens, sv: Services): Effect {
    match GptResponse(message, s.user.lastMessages, MainPrompt(s.user, sv), sv.gpt)
    case None => Plain(Tell(s, chatId, Words(TroubleReply)), token, tokens)   // `null.includes` throws
    case Some(a) =>
      if !Contains(a, "client") && Contains(a, "admin") then AdminStep(s, a, chatId, clientName, token, tokens, sv)
      else Plain(RelayStep(s, a, chatId), token, tokens)
  }

  /** An answer not acted on: a `client` text relayed without its tag, any other non-blank text verbatim, a blank one replaced. */
  function RelayStep(s: Step, a: string, chatId: string): Step {
    if Contains(a, "client") then Say(s, chatId, ReplaceFirst(a, " client", ""))
    else if Trim(a) != "" then Say(s, chatId, a)
    else Say(s, chatId, Words(NotUnderstoodReply))
  }

  /** An answer that is neither tagged nor blank is relayed to the customer verbatim and recorded. */
  lemma UntaggedAnswerRelayed(s: Step, message: string, chatId: string, clientName: Json, token: string, tokens: Tokens, sv: Services, a: string)
    requires GptResponse(message, s.user.lastMessages, MainPrompt(s.user, sv), sv.gpt) == Some(a)
    requires !Contains(a, "client") && !Contains(a, "admin") && Trim(a) != ""
    ensures var e := OracleStep(s, message, chatId, clientName, token, tokens, sv);
            e.step.sent == s.sent + [(chatId, a)] && e.step.user.lastMessages[|e.step.user.lastMessages| - 1] == Assistant(a)
            && e.token == token && e.tokens == tokens && e.timers == KeepTimers
  {
    PushBoundedShape(s.user.lastMessages, Assistant(a));
  }

  /** The flag handlers after the apartment-selection test, in the dispatcher's order; the language model when none applies. */
  function FlagStep(s: Step, message: string, chatId: string, clientName: Json, token: string, tokens: Tokens, sv: Services): Effect {
    var st := s.user;
    if st.waitAgreement.status && st.waitAgreement.what.MayToKaspiRequest? then
      var consent := Consents(GptResponse(message, st.lastMessages, sv.texts.agreementPrompt, sv.gpt));
      Effect(KaspiConsentStep(s, message, chatId, sv), token, tokens, if consent then Remind else KeepTimers)
    else if st.waitFIO then
      var phone := MatchDigits(message);
      Effect(PaymentCheckStep(s, message, chatId, CheckKaspiPayment(phone, KaspiLookup(tokens, sv.kaspi))),
             token, CheckedTokens(tokens, phone, sv.kaspi), KeepTimers)
    else if st.specialPhoneForInstruction then Plain(InstructionPhoneStep(s, message, chatId, clientName, sv), token, tokens)
    else if st.specialPhone then Plain(BookingPhoneStep(s, message, chatId, sv), token, tokens)
    else OracleStep(s, message, chatId, clientName, token, tokens, sv)
  }

  /** The handlers of a known customer's message once it is recorded: the apartment selection first, and the rest when it is not handled. */
  function DispatchStep(s: Step, message: string, chatId: string, clientName: Json, token: string, tokens: Tokens, sv: Services): Effect {
    var st := s.user;
    if st.waitAgreement.status && st.waitAgreement.what.ChooseApartmentRequest? then
      var (r, handled) := SelectionStep(s, message, chatId, clientName, sv);
      if handled then Plain(r, token, tokens)
      else FlagStep(r, message, chatId, clientName, token, tokens, sv)
    else FlagStep(s, message, chatId, clientName, token, tokens, sv)
  }

  /** The first handler whose flag is set is the one that runs: a set flag keeps the language model out of the dispatch. */
  lemma FlagStepFollowsFirstHandler(s: Step, message: string, chatId: string, clientName: Json, token: string, tokens: Tokens, sv: Services)
    requires FirstHandler(s.user) != ApartmentSelection
    ensures var e := FlagStep(s, message, chatId, clientName, token, tokens, sv);
            match FirstHandler(s.user)
            case KaspiConsent => e.step == KaspiConsentStep(s, message, chatId, sv) && e.token == token && e.tokens == tokens
            case PaymentCheck => e.token == token && e.timers == KeepTimers
                                 && e.step == PaymentCheckStep(s, message, chatId, CheckKaspiPayment(MatchDigits(message), KaspiLookup(tokens, sv.kaspi)))
            case InstructionPhone => e == Plain(InstructionPhoneStep(s, message, chatId, clientName, sv), token, tokens)
            case BookingPhone => e == Plain(BookingPhoneStep(s, message, chatId, sv), token, tokens)
            case Oracle => e == OracleStep(s, message, chatId, clientName, token, tokens, sv)
            case _ => false
  {
  }

  /** The language model's answer never schedules the Kaspi reminder. */
  lemma OracleNeverReminds(s: Step, message: string, chatId: string, clientName: Json, token: string, tokens: Tokens, sv: Services)
    ensures OracleStep(s, message, chatId, clientName, token, tokens, sv).timers != Remind
  {
    match GptResponse(message, s.user.lastMessages, MainPrompt(s.user, sv), sv.gpt)
    case None =>
    case Some(a) =>
      if !Contains(a, "client") && Contains(a, "admin") {
        AdminNeverReminds(s, a, chatId, clientName, token, tokens, sv);
      }
  }

  lemma AdminNeverReminds(s: Step, answer: string, chatId: string, clientName: Json, token: string, tokens: Tokens, sv: Services)
    ensures AdminStep(s, answer, chatId, clientName, token, tokens, sv).timers != Remind
  {
    match CommandOf(answer, sv)
    case None =>
    case Some(data) => CommandsAndTheirStores(s, data, chatId, clientName, token, tokens, sv);
  }

  /** Among the flag handlers only the Kaspi consent schedules the reminder, and only on a yes. */
  lemma FlagRemindsOnlyOnConsent(s: Step, message: string, chatId: string, clientName: Json, token: string, tokens: Tokens, sv: Services)
    ensures FlagStep(s, message, chatId, clientName, token, tokens, sv).timers == Remind ==>
            s.user.waitAgreement.status && s.user.waitAgreement.what.MayToKaspiRequest?
            && Consents(GptResponse(message, s.user.lastMessages, sv.texts.agreementPrompt, sv.gpt))
  {
    OracleNeverReminds(s, message, chatId, clientName, token, tokens, sv);
  }

  /** A selection that could not create its booking hands the message on, and never to the Kaspi consent. */
  lemma FailedSelectionFallsThrough(s: Step, message: string, chatId: string, clientName: Json, token: string, tokens: Tokens, sv: Services)
    requires FirstHandler(s.user) == ApartmentSelection
    requires !SelectionStep(s, message, chatId, clientName, sv).1
    ensures var r := SelectionStep(s, message, chatId, clientName, sv).0;
            var e := DispatchStep(s, message, chatId, clientName, token, tokens, sv);
            e.timers != Remind
            && e == FlagStep(r, message, chatId, clientName, token, tokens, sv)
            && FirstHandler(r.user) != KaspiConsent
  {
    SelectionFallsThroughWithoutAgreement(s, message, chatId, clientName, sv);
    var r := SelectionStep(s, message, chatId, clientName, sv).0;
    FlagRemindsOnlyOnConsent(r, message, chatId, clientName, token, tokens, sv);
  }

  /** The reminder is scheduled only by a consent to pay by Kaspi. */
  lemma RemindOnlyOnKaspiConsent(s: Step, message: string, chatId: string, clientName: Json, token: string, tokens: Tokens, sv: Services)
    ensures DispatchStep(s, message, chatId, clientName, token, tokens, sv).timers == Remind ==>
            FirstHandler(s.user) == KaspiConsent && Consents(GptResponse(message, s.user.lastMessages, sv.texts.agreementPrompt, sv.gpt))
  {
    if FirstHandler(s.user) == ApartmentSelection {
      if !SelectionStep(s, message, chatId, clientName, sv).1 {
        FailedSelectionFallsThrough(s, message, chatId, clientName, token, tokens, sv);
      }
    } else {
      FlagRemindsOnlyOnConsent(s, message, chatId, clientName, token, tokens, sv);
    }
  }
}
