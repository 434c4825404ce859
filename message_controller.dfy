/**
 * The message dispatcher (src/controllers/messageController.js) as a class:
 * the conversation records by chat id, the timer table of `activeTimers`, the
 * timers scheduled but not yet fired, the messages sent and the bookings the
 * deletion timer removes.  Each handler edits a record field by field, as the
 * source does, and is proved to end in the state the matching `Step` function
 * of ControllerLogic gives.
 */
module MessageController {
  import opened Wrappers
  import opened Text
  import opened JsValue
  import opened UserModel
  import opened MessageUtils
  import opened GptService
  import opened GlobalCookies
  import opened GlobalVar
  import opened Kaspi
  import opened PaymentService
  import opened BookingService
  import opened BookingSearch
  import opened ControllerLogic

  /** A `setTimeout` callback waiting to run, with the chat and the record it closes over. */
  datatype Timer = Notification(chatId: string, user: User) | Deletion(chatId: string, user: User)

  /** What the dispatcher reads of a WhatsApp message: `from`, `_data.notifyName`, `body`, `type`. */
  datatype Incoming = Incoming(from: string, notifyName: Json, body: string, kind: string)

  datatype BotState = BotState(
    users: map<string, User>,
    activeTimers: map<string, nat>,
    pending: map<nat, Timer>,
    nextTimer: nat,
    outbox: seq<(string, string)>,
    deletions: seq<Json>)

  /** The Bot state after a handler's `Effect` for `chatId`: the messages it ends with, and its change to the chat's timers made. */
  function Apply(b: BotState, chatId: string, u: User, e: Effect): BotState {
    var b1 := b.(outbox := e.step.sent);
    match e.timers
    case KeepTimers => b1
    case CancelTimers => Cancelled(b1, chatId)
    case Remind => Reminded(b1, chatId, u)
  }

  /** A handler's effect overwrites the outbox it starts from. */
  lemma ApplyIgnoresOutbox(b: BotState, outbox: seq<(string, string)>, chatId: string, u: User, e: Effect)
    ensures Apply(b.(outbox := outbox), chatId, u, e) == Apply(b, chatId, u, e)
  {
  }

  /** The type-4 `clearTimeout`s and `activeTimers.delete`s of a chat's two keys. */
  function Cancelled(b: BotState, chatId: string): BotState {
    b.(pending := b.pending - ChatHandles(b.activeTimers, chatId),
       activeTimers := b.activeTimers - {NotificationKey(chatId), DeletionKey(chatId)})
  }

  /** The reminder `setTimeout` of `handleKaspiPayment`, stored under the chat's notification key. */
  function Reminded(b: BotState, chatId: string, u: User): BotState {
    b.(pending := b.pending[b.nextTimer := Notification(chatId, u)],
       activeTimers := b.activeTimers[NotificationKey(chatId) := b.nextTimer],
       nextTimer := b.nextTimer + 1)
  }

  /** Every handle in the timer table and every pending handle was issued by an earlier `setTimeout`. */
  predicate TimersIssued(b: BotState) {
    (forall k | k in b.activeTimers :: b.activeTimers[k] < b.nextTimer)
    && (forall h | h in b.pending :: h < b.nextTimer)
  }

  /** A handler's effect keeps the handles issued, and a new reminder never replaces a timer already pending. */
  lemma ApplyKeepsTimersIssued(b: BotState, chatId: string, u: User, e: Effect)
    requires TimersIssued(b)
    ensures TimersIssued(Apply(b, chatId, u, e))
    ensures forall h | h in b.pending && h !in ChatHandles(b.activeTimers, chatId) ::
              h in Apply(b, chatId, u, e).pending && Apply(b, chatId, u, e).pending[h] == b.pending[h]
  {
    var b1 := b.(outbox := e.step.sent);
    assert ChatHandles(b1.activeTimers, chatId) == ChatHandles(b.activeTimers, chatId);
    match e.timers
    case KeepTimers =>
    case CancelTimers =>
    case Remind =>
      assert b.nextTimer !in b.pending;
  }

  /** After the cancellation neither key of the chat is in the table and none of the timers they named is pending. */
  lemma CancelledClearsChat(b: BotState, chatId: string)
    ensures var c := Cancelled(b, chatId);
            NotificationKey(chatId) !in c.activeTimers && DeletionKey(chatId) !in c.activeTimers
            && (forall h | h in ChatHandles(b.activeTimers, chatId) :: h !in c.pending)
            && (forall k | k in b.activeTimers && k != NotificationKey(chatId) && k != DeletionKey(chatId) ::
                  k in c.activeTimers && c.activeTimers[k] == b.activeTimers[k])
  {
  }

  /**
   * `activeTimers.set` replaces the handle without `clearTimeout`: a second reminder for the chat takes the
   * key, and the first one, still pending, is out of reach of the type-4 cancellation.
   */
  lemma {:induction false} SecondReminderEscapesCancel(b: BotState, chatId: string, u: User, u': User)
    requires TimersIssued(b) && ChatHandles(b.activeTimers, chatId) == {}
    ensures var c := Cancelled(Reminded(Reminded(b, chatId, u), chatId, u'), chatId);
            b.nextTimer in c.pending && c.pending[b.nextTimer] == Notification(chatId, u)
            && b.nextTimer + 1 !in c.pending
  {
    var b1 := Reminded(b, chatId, u);
    var b2 := Reminded(b1, chatId, u');
    TimerKeysDiffer(chatId);
    assert DeletionKey(chatId) !in b.activeTimers;
    assert DeletionKey(chatId) !in b2.activeTimers;
    assert ChatHandles(b2.activeTimers, chatId) == {b.nextTimer + 1};
  }

  class Bot {
    var users: map<string, User>          // the `User` collection, keyed by `phone` (the chat id)
    var activeTimers: map<string, nat>    // `activeTimers`: "<chat>_notification" / "<chat>_deletion" to a timer handle
    var pending: map<nat, Timer>          // timers scheduled and not yet fired, by handle
    var nextTimer: nat                    // the handle the next `setTimeout` returns
    var outbox: seq<(string, string)>     // every `client.sendMessage(to, text)`, in order
    var deletions: seq<Json>              // every `deleteBooking(...)` request, in order
    const cookies: CookieStore            // the Kaspi portal tokens
    const token: TokenCell                // the booking calendar token

    function Snapshot(): BotState
      reads this
    {
      BotState(users, activeTimers, pending, nextTimer, outbox, deletions)
    }

    constructor ()
      ensures Snapshot() == BotState(map[], map[], map[], 0, [], [])
      ensures fresh(cookies) && fresh(token) && cookies.Value() == InitialTokens && token.value == ""
    {
      users := map[];
      activeTimers := map[];
      pending := map[];
      nextTimer := 0;
      outbox := [];
      deletions := [];
      cookies := new CookieStore();
      token := new TokenCell();
    }

    /** The handler ended as `e` says: the record, the two token stores, the messages and the chat's timers. */
    twostate predicate Effected(user: User, chatId: string, e: Effect)
      reads this, user, token, cookies
    {
      user.State() == e.step.user && token.value == e.token && cookies.Value() == e.tokens
      && Snapshot() == Apply(old(Snapshot()), chatId, user, e)
    }

    /** `client.sendMessage(to, text)`. */
    method Send(to: string, text: string)
      modifies this
      ensures Snapshot() == old(Snapshot()).(outbox := old(outbox) + [(to, text)])
    {
      outbox := outbox + [(to, text)];
    }

    /** `client.sendMessage(chatId, text); updateLastMessages(user, text, "assistant")`. */
    method Reply(user: User, chatId: string, text: string)
      modifies this, user
      ensures user.State() == Say(Step(old(user.State()), old(outbox)), chatId, text).user
      ensures Snapshot() == old(Snapshot()).(outbox := old(outbox) + [(chatId, text)])
    {
      Send(chatId, text);
      UpdateLastMessages(user, text, "assistant");
    }

    /**
     * `handleAdminCommands`: "отключить бота <number>" blocks that chat, creating its
     * record if need be; "включить бота <number>" unblocks an existing one.  A
     * command without digits is not handled.
     */
    method HandleAdminCommands(message: string) returns (handled: bool)
      modifies this, users.Values
      ensures var off := Contains(Lower(message), "отключить бота");
              var on := Contains(Lower(message), "включить бота");
              handled <==> (off || on) && Digits(message) != ""
      ensures var key := Digits(message) + "@c.us";
              handled && Contains(Lower(message), "отключить бота") ==>
                key in users && users[key].isGandon
                && (key in old(users) ==> users == old(users)
                                          && users[key].State() == old(users[key].State()).(isGandon := true))
                && (key !in old(users) ==> fresh(users[key]) && users == old(users)[key := users[key]]
                                           && users[key].State() == Defaults(key).(isGandon := true))
      ensures var key := Digits(message) + "@c.us";
              handled && !Contains(Lower(message), "отключить бота") ==>
                users == old(users)
                && (key in users ==> users[key].State() == old(users[key].State()).(isGandon := false))
      ensures var key := Digits(message) + "@c.us";
              forall u | u in old(users).Values && !(key in old(users) && u == old(users)[key]) :: unchanged(u)
      ensures Snapshot() == old(Snapshot()).(users := users)
    {
      var lower := Lower(message);
      var key := Digits(message) + "@c.us";
      if Contains(lower, "отключить бота") {
        if Digits(message) == "" {
          return false;
        }
        if key in users {
          users[key].isGandon := true;
        } else {
          var u := new User(key, None, true);
          users := users[key := u];
        }
        return true;
      }
      if Contains(lower, "включить бота") {
        if Digits(message) == "" {
          return false;
        }
        if key in users {
          users[key].isGandon := false;
        }
        return true;
      }
      return false;
    }

    /** `handleApartmentSelection`: create the booking on consent and ask about Kaspi; false when it could not be created. */
    method HandleApartmentSelection(user: User, message: string, chatId: string, clientName: Json, sv: Services)
      returns (handled: bool)
      modifies this, user
      ensures var r := SelectionStep(Step(old(user.State()), old(outbox)), message, chatId, clientName, sv);
              handled == r.1 && user.State() == r.0.user
              && Snapshot() == old(Snapshot()).(outbox := r.0.sent)
    {
      var answer := GptResponse(message, user.lastMessages, sv.texts.agreementPrompt, sv.gpt);
      if !Consents(answer) {
        Send(sv.texts.adminGroup, CantPayText(chatId));
        Reply(user, chatId, Words(ManagerSoonReply));
        return true;
      }
      var booking := RequestBooking(user.State(), clientName, sv);
      handled := CreateBooking(user, chatId, booking, SelectionSum(user.State(), sv), sv);
    }

    /** The customer agreed to the apartment and `addBooking` answered `booking`: the Kaspi question follows when it is truthy. */
    method CreateBooking(user: User, chatId: string, booking: Json, sum: Num, sv: Services) returns (created: bool)
      modifies this, user
      ensures var r := SelectionCreated(Step(old(user.State()), old(outbox)), chatId, booking, sum, sv);
              created == r.1 && user.State() == r.0.user
              && Snapshot() == old(Snapshot()).(outbox := r.0.sent)
    {
      Creating(user, chatId);
      created := Truthy(booking);
      if created {
        OfferCreated(user, chatId, booking, sum, sv);
      }
    }

    /** The booking is being created: the record no longer waits on the agreement. */
    method Creating(user: User, chatId: string)
      modifies this, user
      ensures var s1 := Say(Step(old(user.State()), old(outbox)), chatId, Words(CreatingReply));
              user.State() == s1.user.(waitAgreement := NoAgreement) && Snapshot() == old(Snapshot()).(outbox := s1.sent)
    {
      Reply(user, chatId, Words(CreatingReply));
      user.waitAgreement := NoAgreement;
    }

    /** The booking was created: the Kaspi question, and the booking kept on the record. */
    method OfferCreated(user: User, chatId: string, booking: Json, sum: Num, sv: Services)
      modifies this, user
      ensures var r := AskKaspi(Step(old(user.State()), old(outbox)), chatId, sum, sv);
              user.State() == r.user.(apartment := booking)
              && Snapshot() == old(Snapshot()).(outbox := r.sent)
    {
      AskForKaspi(user, chatId, sum, sv);
      user.apartment := booking;
    }

    /** The `addBooking` call with the record's dates, phone and chosen apartment. */
    method RequestBooking(st: UserState, clientName: Json, sv: Services) returns (booking: Json)
      ensures booking == SelectionBooking(st, clientName, sv)
    {
      var outcome := AddBooking.AddBooking(SelectionUserData(st), SelectionApartmentData(st), clientName, sv.signer, sv.create);
      booking := outcome.result;
    }

    /** The cost, the deposit and the Kaspi question, and the record set to wait on the answer. */
    method AskForKaspi(user: User, chatId: string, sum: Num, sv: Services)
      modifies this, user
      ensures var r := AskKaspi(Step(old(user.State()), old(outbox)), chatId, sum, sv);
              user.State() == r.user && Snapshot() == old(Snapshot()).(outbox := r.sent)
    {
      Reply(user, chatId, CostText(sum));
      Reply(user, chatId, sv.texts.depo);
      Reply(user, chatId, Words(KaspiQuestion));
      user.waitAgreement := Agreement(true, MayToKaspiRequest(sum));
    }

    /** The `$set` that attaches a found booking to the record. */
    method AttachBooking(user: User, b: Json)
      modifies user
      ensures user.State() == Attach(old(user.State()), b)
    {
      user.paid := user.paid.(apartmentId := ApartmentIdOf(b));
      user.chooseApartment := b;
      user.apartments := user.apartments + [b];
      user.apartment := b;
    }

    /** The "забронировал" flow: `fetchBookings(phone)`, then the Kaspi question, or `failText`. */
    method LookUpBooking(user: User, chatId: string, phone: Option<string>, failText: string, mark: bool, sv: Services)
      modifies this, user
      ensures var r := LookupStep(Step(old(user.State()), old(outbox)), chatId, phone, failText, mark, sv);
              user.State() == r.user && Snapshot() == old(Snapshot()).(outbox := r.sent)
    {
      var isBooked := FetchBookings(phone, sv.bookings);
      match isBooked
      case Found(b) =>
        AskForKaspi(user, chatId, StayCost(b, sv), sv);
        AttachBooking(user, b);
      case _ =>
        Reply(user, chatId, failText);
        if mark {
          user.specialPhone := true;
        }
    }

    /** `setTimeout(callback)` stored in `activeTimers` under `key`. */
    method Schedule(key: string, t: Timer)
      modifies this
      ensures Snapshot() == old(Snapshot()).(pending := old(pending)[old(nextTimer) := t],
                                             activeTimers := old(activeTimers)[key := old(nextTimer)],
                                             nextTimer := old(nextTimer) + 1)
    {
      pending := pending[nextTimer := t];
      activeTimers := activeTimers[key := nextTimer];
      nextTimer := nextTimer + 1;
    }

    /**
     * `handleKaspiPayment`: on consent the Kaspi details are sent, the apartment is
     * recorded as the one paid for and the reminder timer is scheduled; otherwise the
     * administrators are told.  It always handles the message.
     */
    method HandleKaspiPayment(user: User, message: string, chatId: string, sv: Services)
      modifies this, user
      ensures var consent := Consents(GptResponse(message, old(user.lastMessages), sv.texts.agreementPrompt, sv.gpt));
              Effected(user, chatId, Effect(KaspiConsentStep(Step(old(user.State()), old(outbox)), message, chatId, sv),
                                            old(token.value), old(cookies.Value()), if consent then Remind else KeepTimers))
    {
      var answer := GptResponse(message, user.lastMessages, sv.texts.agreementPrompt, sv.gpt);
      if Consents(answer) {
        AcceptKaspi(user, chatId, sv);
        Schedule(NotificationKey(chatId), Notification(chatId, user));
      } else {
        Send(sv.texts.adminGroup, CantPayText(chatId));
        Reply(user, chatId, Words(ManagerSoonReply));
        user.status := true;
      }
    }

    method AcceptKaspi(user: User, chatId: string, sv: Services)
      modifies this, user
      ensures var r := KaspiAccepted(Step(old(user.State()), old(outbox)), chatId, sv);
              user.State() == r.user && Snapshot() == old(Snapshot()).(outbox := r.sent)
    {
      var apartment := user.apartment;
      Reply(user, chatId, sv.texts.kaspiText);
      Reply(user, chatId, Words(AfterPaymentReply));
      user.paid := user.paid.(apartmentId := ApartmentIdOf(apartment));
      user.apartments := user.apartments + [apartment];
      user.waitAgreement := NoAgreement;
    }

    /** Credits a payment of `amount` against `required`, as `validatePaymentAmount` decides. */
    method Credit(user: User, chatId: string, amount: int, required: int)
      modifies this, user
      ensures user.State() == CreditStep(Step(old(user.State()), old(outbox)), chatId, amount, required).user
      ensures Snapshot() == old(Snapshot()).(outbox := CreditStep(Step(old(user.State()), old(outbox)), chatId, amount, required).sent)
    {
      var validation := ValidatePaymentAmount(amount, required, user.temporarySum);
      match validation
      case Sufficient =>
        Settle(user, chatId);
      case Insufficient(_, remaining) =>
        user.temporarySum := user.temporarySum + amount;
        Reply(user, chatId, PartialText(remaining));
        user.waitFIO := false;
    }

    /** The payment covers what is owed: the sum is reset and the record marked paid. */
    method Settle(user: User, chatId: string)
      modifies this, user
      ensures user.State() == Say(Step(old(user.State()), old(outbox)), chatId, Words(PaidReply)).user.(
                temporarySum := 0, paid := old(user.paid).(status := true), waitFIO := false, additionalPrompt := true)
      ensures Snapshot() == old(Snapshot()).(outbox := old(outbox) + [(chatId, Words(PaidReply))])
    {
      Reply(user, chatId, Words(PaidReply));
      user.temporarySum := 0;
      user.paid := user.paid.(status := true);
      user.waitFIO := false;
      user.additionalPrompt := true;
    }

    /** No payment found: ask for the phone it was made from and wait for it. */
    method NotFoundPayment(user: User, chatId: string)
      modifies this, user
      ensures var r := PaymentNotFoundStep(Step(old(user.State()), old(outbox)), chatId);
              user.State() == r.user && Snapshot() == old(Snapshot()).(outbox := r.sent)
    {
      Reply(user, chatId, Words(PaymentNotFoundReply));
      user.waitFIO := true;
    }

    /** `handlePaymentCheck`: the phone in the message is looked up on the Kaspi portal and the payment credited. */
    method HandlePaymentCheck(user: User, message: string, chatId: string, sv: Services)
      modifies this, user, cookies
      ensures var check := CheckKaspiPayment(MatchDigits(message), KaspiLookup(old(cookies.Value()), sv.kaspi));
              Effected(user, chatId, Effect(PaymentCheckStep(Step(old(user.State()), old(outbox)), message, chatId, check),
                                            old(token.value), CheckedTokens(old(cookies.Value()), MatchDigits(message), sv.kaspi), KeepTimers))
    {
      var phone := MatchDigits(message);
      if phone.None? {
        Reply(user, chatId, Words(AskPhoneReply));
        return;
      }
      var check: PaymentCheck;
      match NormalizedPhone(phone) {
        case Err(guard) =>
          check := guard;
        case Ok(p) =>
          var result, _ := KaspiParser(cookies, Some(p), sv.kaspi);
          check := Classify(result);
      }
      assert check == CheckKaspiPayment(phone, KaspiLookup(old(cookies.Value()), sv.kaspi));
      if check.Found? {
        Credit(user, chatId, check.amount, KaspiRequired);
      } else {
        NotFoundPayment(user, chatId);
      }
    }

    /** The instruction of an apartment: its first link and its text, or the apology and a message to the administrators. */
    method SendInstruction(user: User, chatId: string, clientName: Json, doc: Option<ApartmentDoc>, sv: Services)
      modifies this, user
      ensures var r := InstructionStep(Step(old(user.State()), old(outbox)), chatId, clientName, doc, sv);
              user.State() == r.user && Snapshot() == old(Snapshot()).(outbox := r.sent)
    {
      match doc
      case None =>
        Reply(user, chatId, Words(NoInstructionReply));
        Send(sv.texts.adminGroup, ContactText(clientName, chatId));
      case Some(d) =>
        if |d.links| > 0 {
          Reply(user, chatId, d.links[0]);
        }
        if d.text != "" {
          Reply(user, chatId, d.text);
        }
    }

    /** The instruction of the apartment booked as `b`, and the booking attached when the apartment is known. */
    method SendBookingInstruction(user: User, chatId: string, clientName: Json, b: Json, sv: Services)
      modifies this, user
      ensures var r := BookingInstruction(Step(old(user.State()), old(outbox)), chatId, clientName, b, sv);
              user.State() == r.user && Snapshot() == old(Snapshot()).(outbox := r.sent)
    {
      var doc := sv.apartmentsDb(ApartmentIdOf(b));
      SendInstruction(user, chatId, clientName, doc, sv);
      if doc.Some? {
        AttachBooking(user, b);
      }
    }

    /** The `specialPhoneForInstruction` branch: the booking under the phone given, and its instruction. */
    method HandleInstructionPhone(user: User, message: string, chatId: string, clientName: Json, sv: Services)
      modifies this, user
      ensures var r := InstructionPhoneStep(Step(old(user.State()), old(outbox)), message, chatId, clientName, sv);
              user.State() == r.user && Snapshot() == old(Snapshot()).(outbox := r.sent)
    {
      var phone := MatchDigits(message);
      if phone.None? {
        Reply(user, chatId, Words(AskPhoneReply));
        return;
      }
      FindInstruction(user, chatId, clientName, phone.value, sv);
      user.specialPhoneForInstruction := false;
    }

    /** `fetchBookings` under the phone, and the instruction of the booking found. */
    method FindInstruction(user: User, chatId: string, clientName: Json, phone: string, sv: Services)
      modifies this, user
      ensures var r := InstructionLookup(Step(old(user.State()), old(outbox)), chatId, clientName, phone, sv);
              user.State() == r.user && Snapshot() == old(Snapshot()).(outbox := r.sent)
    {
      var isBooked := FetchBookings(Some(phone), sv.bookings);
      match isBooked {
        case Found(b) =>
          SendBookingInstruction(user, chatId, clientName, b, sv);
        case _ =>
          Reply(user, chatId, Words(PhoneInstructionNotFoundReply));
      }
    }

    /** The `specialPhone` branch: the booking under the phone given, looked up as in the "забронировал" flow. */
    method HandleBookingPhone(user: User, message: string, chatId: string, sv: Services)
      modifies this, user
      ensures var r := BookingPhoneStep(Step(old(user.State()), old(outbox)), message, chatId, sv);
              user.State() == r.user && Snapshot() == old(Snapshot()).(outbox := r.sent)
    {
      var phone := MatchDigits(message);
      if phone.None? {
        Reply(user, chatId, Words(AskPhoneReply));
        return;
      }
      LookUpBooking(user, chatId, phone, Words(PhoneBookingNotFoundReply), false, sv);
      user.specialPhone := false;
    }
    // --- the commands of the language model ---

    /** Type 1: the dates, the free apartments and the booking link over them. */
    method CommandSearch(user: User, data: Json, chatId: string, sv: Services)
      modifies this, user, token
      ensures var r := SearchStep(Step(old(user.State()), old(outbox)), old(token.value), data, chatId, sv);
              user.State() == r.0.user && token.value == r.1
              && Snapshot() == old(Snapshot()).(outbox := r.0.sent)
    {
      var begin := DateArg(user.bookingDate.startDate, CheckinOf(data));
      var end := DateArg(user.bookingDate.endDate, CheckoutOf(data));
      if begin.None? || end.None? {
        Send(chatId, Words(SearchErrorReply));
        return;
      }
      var vacant, _ := GetAvailableApartments(token, begin.value, end.value, GuestsOf(data), sv.calendar);
      OfferVacant(user, vacant, data, chatId, sv);
    }

    /** What `getAvailableApartments` answered: no apartments, or the booking link over them. */
    method OfferVacant(user: User, vacant: VacantResult, data: Json, chatId: string, sv: Services)
      modifies this, user, token
      ensures var r := VacantStep(Step(old(user.State()), old(outbox)), vacant, old(token.value), data, chatId, sv);
              user.State() == r.0.user && token.value == r.1
              && Snapshot() == old(Snapshot()).(outbox := r.0.sent)
    {
      match vacant
      case VacantFailure(_) =>
        Reply(user, chatId, NoFreeText(CheckinOf(data), CheckoutOf(data)));
      case VacantSuccess(aps) =>
        if Nullish(aps) {
          Send(chatId, Words(SearchErrorReply));
        } else if !Truthy(JsLength(aps)) {
          Reply(user, chatId, NoFreeText(CheckinOf(data), CheckoutOf(data)));
        } else {
          var link, _ := CreateBookingLink(token, CheckinOf(data), CheckoutOf(data), aps, sv.calendar);
          ReportLink(user, link, data, chatId, sv);
        }
    }

    /** What `createBookingLink` answered: the error, or the link with the candidates and dates kept on the record. */
    method ReportLink(user: User, link: BookingLink, data: Json, chatId: string, sv: Services)
      modifies this, user
      ensures var r := LinkStep(Step(old(user.State()), old(outbox)), link, data, chatId, sv);
              user.State() == r.user && Snapshot() == old(Snapshot()).(outbox := r.sent)
    {
      match link
      case LinkError(e) =>
        Reply(user, chatId, LinkErrorText(ToStr(e)));
      case LinkCrashed =>
        Reply(user, chatId, LinkErrorText(sv.crashMessage));
      case LinkCreated(url, items) =>
        if Nullish(items) {
          Send(chatId, Words(SearchErrorReply));
        } else {
          List(user, url, items, data, chatId);
        }
    }

    method List(user: User, url: Json, items: Json, data: Json, chatId: string)
      modifies this, user
      ensures var r := Listed(Step(old(user.State()), old(outbox)), url, items, data, chatId);
              user.State() == r.user && Snapshot() == old(Snapshot()).(outbox := r.sent)
    {
      Reply(user, chatId, FoundText(CheckinOf(data), CheckoutOf(data), items, url));
      user.chooseApartments := AsList(items);
      user.bookingDate := BookingDate(CheckinOf(data), CheckoutOf(data), Or(GuestsOf(data), JNum(1)));
    }

    /** The unclear choice handed to the administrators. */
    method Refer(user: User, chatId: string, clientName: Json, sv: Services)
      modifies this, user
      ensures var r := ReferredStep(Step(old(user.State()), old(outbox)), chatId, clientName, sv);
              user.State() == r.user && Snapshot() == old(Snapshot()).(outbox := r.sent)
    {
      Send(sv.texts.adminGroup, UnclearApartmentText(clientName, chatId));
      Reply(user, chatId, Words(ManagerSoonReply));
    }

    /** Type 3: a candidate chosen by price, or by its number in the list. */
    method CommandChoose(user: User, data: Json, chatId: string, clientName: Json, sv: Services)
      modifies this, user
      ensures var r := ChooseStep(Step(old(user.State()), old(outbox)), data, chatId, clientName, sv);
              user.State() == r.user && Snapshot() == old(Snapshot()).(outbox := r.sent)
    {
      var xs := user.chooseApartments;
      var price := Get(data, "price");
      if Truthy(price) {
        match FindByAmount(xs, ToNumber(price)) {
          case Some(i) =>
            Offer(user, chatId, xs[i], Get(data, "address"));
          case None =>
            Refer(user, chatId, clientName, sv);
        }
      } else {
        match ChoiceIndex(Get(data, "choice"), |xs|) {
          case None =>
            Send(chatId, Words(WrongNumberReply));
          case Some(i) =>
            if !Truthy(xs[i]) {
              Send(chatId, Words(NoSuchApartmentReply));
            } else {
              Offer(user, chatId, xs[i], AmountOf(xs[i]));
            }
        }
      }
    }

    /** The candidate offered: its price asked about, the record set to wait for the agreement. */
    method Offer(user: User, chatId: string, item: Json, number: Json)
      modifies this, user
      ensures var r := Chosen(Step(old(user.State()), old(outbox)), chatId, item, number);
              user.State() == r.user && Snapshot() == old(Snapshot()).(outbox := r.sent)
    {
      Reply(user, chatId, OfferText(AmountOf(item)));
      user.chooseApartment := item;
      user.waitAgreement := Agreement(true, ChooseApartmentRequest(number));
    }
    /** The type-4 `clearTimeout`s: the chat's reminder and deletion timers are cancelled and forgotten. */
    method CancelTimers(chatId: string)
      modifies this
      ensures Snapshot() == Cancelled(old(Snapshot()), chatId)
    {
      pending := pending - ChatHandles(activeTimers, chatId);
      activeTimers := activeTimers - {NotificationKey(chatId), DeletionKey(chatId)};
    }

    /** Type 4: the timers cancelled, the payment looked up under the chat's own number and credited against 20. */
    method CommandPayment(user: User, chatId: string, sv: Services)
      modifies this, user, cookies
      ensures var o := ParserSpec(old(cookies.Value()), DropFirst(MatchDigits(chatId)), sv.kaspi);
              var r := CommandPaymentStep(Step(old(user.State()), old(outbox)), chatId, o.result);
              user.State() == r.user && cookies.Value() == o.tokens
              && Snapshot() == Cancelled(old(Snapshot()), chatId).(outbox := r.sent)
    {
      CancelTimers(chatId);
      var result, _ := KaspiParser(cookies, DropFirst(MatchDigits(chatId)), sv.kaspi);
      match result
      case Threw =>
        Send(chatId, Words(PaymentErrorReply));
      case Amount(a) =>
        if a != 0 {
          Credit(user, chatId, a, CommandRequired);
        } else {
          NotFoundPayment(user, chatId);
        }
      case NoResult =>
        NotFoundPayment(user, chatId);
    }

    /** Type 7: the booking under the chat's own number, its instruction, and the booking attached with the history extended directly. */
    method CommandAirbnb(user: User, chatId: string, clientName: Json, sv: Services)
      modifies this, user
      ensures var r := AirbnbStep(Step(old(user.State()), old(outbox)), chatId, clientName, sv);
              user.State() == r.user && Snapshot() == old(Snapshot()).(outbox := r.sent)
    {
      var isBooked := FetchBookings(MatchDigits(chatId), sv.bookings);
      match isBooked {
        case Found(b) =>
          var doc := sv.apartmentsDb(ApartmentIdOf(b));
          match doc {
            case None =>
              SendInstruction(user, chatId, clientName, None, sv);
            case Some(d) =>
              AttachDocument(user, chatId, b, d);
          }
        case _ =>
          AskAirbnbPhone(user, chatId);
      }
    }

    /** The found booking's instruction sent, the booking attached, and the instruction appended to the history. */
    method AttachDocument(user: User, chatId: string, b: Json, d: ApartmentDoc)
      modifies this, user
      ensures var r := DocumentAttached(Step(old(user.State()), old(outbox)), chatId, b, d);
              user.State() == r.user && Snapshot() == old(Snapshot()).(outbox := r.sent)
    {
      var history := user.lastMessages;
      SendDocument(chatId, d);
      AttachBooking(user, b);
      user.lastMessages := history + Entries(DocTexts(d));
    }

    /** The booking not found under the chat's number: the number asked for. */
    method AskAirbnbPhone(user: User, chatId: string)
      modifies this, user
      ensures var r := AirbnbMissed(Step(old(user.State()), old(outbox)), chatId);
              user.State() == r.user && Snapshot() == old(Snapshot()).(outbox := r.sent)
    {
      Reply(user, chatId, Words(AirbnbNotFoundReply));
      user.specialPhoneForInstruction := true;
    }

    /** The first link and the text of an instruction, sent without recording them. */
    method SendDocument(chatId: string, d: ApartmentDoc)
      modifies this
      ensures Snapshot() == old(Snapshot()).(outbox := old(outbox) + Outgoing(chatId, DocTexts(d)))
    {
      if |d.links| > 0 {
        Send(chatId, d.links[0]);
      }
      if d.text != "" {
        Send(chatId, d.text);
      }
      assert outbox == old(outbox) + Outgoing(chatId, DocTexts(d));
    }

    /** `handleGptCommand`: the command of a known type is carried out; any other is not handled and changes nothing. */
    method HandleGptCommand(user: User, data: Json, chatId: string, clientName: Json, sv: Services) returns (handled: bool)
      modifies this, user, token, cookies
      ensures var r := CommandStep(Step(old(user.State()), old(outbox)), data, chatId, clientName, old(token.value), old(cookies.Value()), sv);
              handled == r.Some?
              && Effected(user, chatId, if r.Some? then r.value else Plain(Step(old(user.State()), old(outbox)), old(token.value), old(cookies.Value())))
    {
      var t := TypeOf(data);
      handled := true;
      if t == JNum(1) {
        CommandSearch(user, data, chatId, sv);
      } else if t == JNum(4) {
        CommandPayment(user, chatId, sv);
      } else if t in {JNum(3), JNum(5), JNum(7)} {
        PlainCommand(user, data, chatId, clientName, sv);
      } else {
        handled := false;
      }
    }

    /** Commands of types 3, 5 and 7. */
    method PlainCommand(user: User, data: Json, chatId: string, clientName: Json, sv: Services)
      modifies this, user
      ensures var r := PlainCommandStep(Step(old(user.State()), old(outbox)), data, chatId, clientName, sv);
              user.State() == r.user && Snapshot() == old(Snapshot()).(outbox := r.sent)
    {
      var t := TypeOf(data);
      if t == JNum(3) {
        CommandChoose(user, data, chatId, clientName, sv);
      } else if t == JNum(5) {
        SendInstruction(user, chatId, clientName, sv.apartmentsDb(ApartmentIdOf(user.apartment)), sv);
      } else {
        CommandAirbnb(user, chatId, clientName, sv);
      }
    }
    /** An `admin` answer: its JSON command when it has a known one, else the "забронировал" lookup, else the holding reply. */
    method AdminAnswer(user: User, answer: string, chatId: string, clientName: Json, sv: Services)
      modifies this, user, token, cookies
      ensures Effected(user, chatId, AdminStep(Step(old(user.State()), old(outbox)), answer, chatId, clientName, old(token.value), old(cookies.Value()), sv))
    {
      var command := CommandOf(answer, sv);
      if command.Some? {
        var handled := HandleGptCommand(user, command.value, chatId, clientName, sv);
        if handled {
          return;
        }
      }
      Uncommanded(user, answer, chatId, sv);
    }

    /** An `admin` answer without a known command. */
    method Uncommanded(user: User, answer: string, chatId: string, sv: Services)
      modifies this, user
      ensures var r := UncommandedStep(Step(old(user.State()), old(outbox)), answer, chatId, sv);
              user.State() == r.user && Snapshot() == old(Snapshot()).(outbox := r.sent)
    {
      if Contains(answer, "забронировал") {
        LookUpBooking(user, chatId, MatchDigits(chatId), Words(BookingNotFoundReply), true, sv);
      } else {
        Send(chatId, Words(ProcessingReply));
      }
    }

    /** The main prompt's answer: relayed, acted on, or replaced by an apology. */
    method AnswerWithOracle(user: User, message: string, chatId: string, clientName: Json, sv: Services)
      modifies this, user, token, cookies
      ensures Effected(user, chatId, OracleStep(Step(old(user.State()), old(outbox)), message, chatId, clientName, old(token.value), old(cookies.Value()), sv))
    {
      var answer := GptResponse(message, user.lastMessages, MainPrompt(user.State(), sv), sv.gpt);
      match answer
      case None =>
        Send(chatId, Words(TroubleReply));
      case Some(a) =>
        if !Contains(a, "client") && Contains(a, "admin") {
          AdminAnswer(user, a, chatId, clientName, sv);
        } else {
          Relay(user, a, chatId);
        }
    }

    /** An answer that is not an `admin` command, relayed. */
    method Relay(user: User, a: string, chatId: string)
      modifies this, user
      ensures var r := RelayStep(Step(old(user.State()), old(outbox)), a, chatId);
              user.State() == r.user && Snapshot() == old(Snapshot()).(outbox := r.sent)
    {
      if Contains(a, "client") {
        Reply(user, chatId, ReplaceFirst(a, " client", ""));
      } else if Trim(a) != "" {
        Reply(user, chatId, a);
      } else {
        Reply(user, chatId, Words(NotUnderstoodReply));
      }
    }

    /** The flag handlers in the dispatcher's order, and the language model when no flag is set. */
    method HandleFlags(user: User, message: string, chatId: string, clientName: Json, sv: Services)
      modifies this, user, token, cookies
      ensures Effected(user, chatId, FlagStep(Step(old(user.State()), old(outbox)), message, chatId, clientName, old(token.value), old(cookies.Value()), sv))
    {
      ghost var s := Step(user.State(), outbox);
      ghost var e := FlagStep(s, message, chatId, clientName, token.value, cookies.Value(), sv);
      if user.waitAgreement.status && user.waitAgreement.what.MayToKaspiRequest? {
        HandleKaspiPayment(user, message, chatId, sv);
      } else if user.waitFIO {
        HandlePaymentCheck(user, message, chatId, sv);
      } else if user.specialPhoneForInstruction {
        assert e == Plain(InstructionPhoneStep(s, message, chatId, clientName, sv), old(token.value), old(cookies.Value()));
        HandleInstructionPhone(user, message, chatId, clientName, sv);
      } else if user.specialPhone {
        assert e == Plain(BookingPhoneStep(s, message, chatId, sv), old(token.value), old(cookies.Value()));
        HandleBookingPhone(user, message, chatId, sv);
      } else {
        AnswerWithOracle(user, message, chatId, clientName, sv);
      }
    }

    /** A known customer's recorded message: the apartment selection first, the other handlers when it does not handle it. */
    method Dispatch(user: User, message: string, chatId: string, clientName: Json, sv: Services)
      modifies this, user, token, cookies
      ensures Effected(user, chatId, DispatchStep(Step(old(user.State()), old(outbox)), message, chatId, clientName, old(token.value), old(cookies.Value()), sv))
    {
      if user.waitAgreement.status && user.waitAgreement.what.ChooseApartmentRequest? {
        Select(user, message, chatId, clientName, sv);
      } else {
        HandleFlags(user, message, chatId, clientName, sv);
      }
    }

    /** A pending apartment choice: the selection handler, and the flagged handlers when it does not take the message. */
    method Select(user: User, message: string, chatId: string, clientName: Json, sv: Services)
      requires user.waitAgreement.status && user.waitAgreement.what.ChooseApartmentRequest?
      modifies this, user, token, cookies
      ensures Effected(user, chatId, DispatchStep(Step(old(user.State()), old(outbox)), message, chatId, clientName, old(token.value), old(cookies.Value()), sv))
    {
      ghost var s := Step(user.State(), outbox);
      ghost var r := SelectionStep(s, message, chatId, clientName, sv);
      var handled := HandleApartmentSelection(user, message, chatId, clientName, sv);
      if handled {
        return;
      }
      assert DispatchStep(s, message, chatId, clientName, token.value, cookies.Value(), sv)
          == FlagStep(r.0, message, chatId, clientName, token.value, cookies.Value(), sv);
      assert Step(user.State(), outbox) == r.0;
      ApplyIgnoresOutbox(old(Snapshot()), outbox, chatId, user,
        FlagStep(r.0, message, chatId, clientName, token.value, cookies.Value(), sv));
      HandleFlags(user, message, chatId, clientName, sv);
    }

    /** A new record: its first message recorded, then the booking lookup or the start message. */
    method Welcome(user: User, message: string, chatId: string, sv: Services)
      modifies this, user
      ensures var r := WelcomeStep(Step(old(user.State()), old(outbox)), message, chatId, sv);
              user.State() == r.user && Snapshot() == old(Snapshot()).(outbox := r.sent)
    {
      UpdateLastMessages(user, message, "user");
      var answer := GptResponse(message, user.lastMessages, MainPrompt(user.State(), sv), sv.gpt);
      Answer(user, answer, chatId, sv);
    }

    /** A known customer on a new day: as for a new record, and today stored as the last message date. */
    method Greet(user: User, msg: Incoming, sv: Services)
      modifies this, user
      ensures Greeted(user, msg, sv)
    {
      var message, chatId := msg.body, msg.from;
      UpdateLastMessages(user, message, "user");
      var answer := GptResponse(message, user.lastMessages, MainPrompt(user.State(), sv), sv.gpt);
      user.lastMessageDate := Some(sv.today);
      Answer(user, answer, chatId, sv);
    }

    /** The greeting's answer acted on: the booking lookup, or the start message. */
    method Answer(user: User, answer: Option<string>, chatId: string, sv: Services)
      modifies this, user
      ensures var r := Greeting(Step(old(user.State()), old(outbox)), answer, chatId, sv);
              user.State() == r.user && Snapshot() == old(Snapshot()).(outbox := r.sent)
    {
      if SaysBooked(answer) {
        LookUpBooking(user, chatId, MatchDigits(chatId), Words(BookingNotFoundReply), true, sv);
      } else {
        Reply(user, chatId, sv.texts.startMessage);
      }
    }

    // --- the timers ---

    /**
     * A pending timer runs: the reminder warns the customer and schedules the deletion under
     * the chat's deletion key; the deletion asks for the booking to be removed and clears it
     * from the record.  Either way the timer is no longer pending.
     */
    method FireTimer(handle: nat)
      requires handle in pending
      modifies this, pending[handle].user
      ensures match old(pending[handle])
              case Notification(chatId, u) =>
                var r := NotifiedStep(Step(old(u.State()), old(outbox)), chatId);
                u.State() == r.user
                && Snapshot() == old(Snapshot()).(outbox := r.sent,
                                                  pending := (old(pending) - {handle})[old(nextTimer) := Deletion(chatId, u)],
                                                  activeTimers := old(activeTimers)[DeletionKey(chatId) := old(nextTimer)],
                                                  nextTimer := old(nextTimer) + 1)
              case Deletion(chatId, u) =>
                var r := DeletedStep(Step(old(u.State()), old(outbox)), chatId);
                u.State() == r.user
                && Snapshot() == old(Snapshot()).(outbox := r.sent, pending := old(pending) - {handle},
                                                  deletions := old(deletions) + [DeleteRequest(old(u.apartment))])
      ensures TimersIssued(old(Snapshot())) ==> TimersIssued(Snapshot())
    {
      var t := pending[handle];
      pending := pending - {handle};
      match t
      case Notification(chatId, u) =>
        Reply(u, chatId, Words(NotificationReply));
        Schedule(DeletionKey(chatId), Deletion(chatId, u));
      case Deletion(chatId, u) =>
        deletions := deletions + [DeleteRequest(u.apartment)];
        u.specialPhone := false;
        u.apartment := JObj([]);
        u.paid := Paid(JStr(""), false);
        Reply(u, chatId, Words(DeletedReply));
    }
    // --- one incoming message ---

    /**
     * `handleIncomingMessage`: the route the message takes, and for each route the state
     * it leaves.  A new record is created with today's date; a known customer's message is
     * recorded unless it is already the last entry, then dispatched.  Only the record of
     * the sending chat may change.
     */
    method HandleIncomingMessage(msg: Incoming, sv: Services) returns (route: Route)
      modifies this, token, cookies, if msg.from in users then {users[msg.from]} else {}
      ensures var stored := if msg.from in old(users) then Some(old(users[msg.from].State())) else None;
              route == RouteOf(msg.kind, msg.body, stored, sv)
      ensures route == Skipped ==> Snapshot() == old(Snapshot())
      ensures route == Skipped && msg.from in old(users) ==> users[msg.from].State() == old(users[msg.from].State())
      ensures route == Restarted ==> Snapshot() == old(Snapshot()).(users := old(users) - {msg.from})
      ensures route == NewUser ==> Welcomed(msg, sv)
      ensures msg.from in old(users) && route !in {Skipped, Restarted} ==> Served(old(users[msg.from]), msg, sv, route)
      ensures route in {Skipped, Restarted, NewUser} ==> token.value == old(token.value) && cookies.Value() == old(cookies.Value())
    {
      var chatId := msg.from;
      var message := msg.body;
      if !Admitted(msg.kind, message) {
        return Skipped;
      }
      if Contains(Lower(message), "restart") {
        Forget(chatId);
        return Restarted;
      }
      route := Serve(msg, sv);
    }

    /** `User.findOneAndDelete({ phone: chatId })`: the record is gone, nothing else changes. */
    method Forget(chatId: string)
      modifies this
      ensures Snapshot() == old(Snapshot()).(users := old(users) - {chatId})
    {
      users := users - {chatId};
    }

    /** An admitted message that does not restart: a new record welcomed, or a known customer served. */
    method Serve(msg: Incoming, sv: Services) returns (route: Route)
      requires Admitted(msg.kind, msg.body) && !Contains(Lower(msg.body), "restart")
      modifies this, token, cookies, if msg.from in users then {users[msg.from]} else {}
      ensures var stored := if msg.from in old(users) then Some(old(users[msg.from].State())) else None;
              route == RouteOf(msg.kind, msg.body, stored, sv)
      ensures route == NewUser ==> Welcomed(msg, sv)
      ensures msg.from in old(users) && route !in {Skipped, Restarted} ==> Served(old(users[msg.from]), msg, sv, route)
      ensures route == NewUser ==> token.value == old(token.value) && cookies.Value() == old(cookies.Value())
    {
      if msg.from !in users {
        Register(msg, sv);
        return NewUser;
      }
      route := HandleKnown(users[msg.from], msg, sv);
    }

    /** The state a known customer's message leaves on its route: the refusal, the greeting, or the handlers. */
    twostate predicate Served(user: User, msg: Incoming, sv: Services, route: Route)
      reads this, user, token, cookies
    {
      if route == Blocked then Refused(user, msg)
      else if route == NewDay then Greeted(user, msg, sv)
      else Conversed(user, msg, sv)
    }

    /** The refusal sent and remembered; nothing else changes but the outbox, the tokens included. */
    twostate predicate Refused(user: User, msg: Incoming)
      reads this, user, token, cookies
    {
      var r := Say(Step(old(user.State()), old(outbox)), msg.from, Words(BlockedReply));
      user.State() == r.user && Snapshot() == old(Snapshot()).(outbox := r.sent)
      && token.value == old(token.value) && cookies.Value() == old(cookies.Value())
    }

    /** The greeting's outcome; nothing else changes but the outbox, the tokens included. */
    twostate predicate Greeted(user: User, msg: Incoming, sv: Services)
      reads this, user, token, cookies
    {
      var r := GreetStep(Step(old(user.State()), old(outbox)), msg.body, msg.from, sv);
      user.State() == r.user && Snapshot() == old(Snapshot()).(outbox := r.sent)
      && token.value == old(token.value) && cookies.Value() == old(cookies.Value())
    }

    /** The handlers' outcome on the history with the message recorded. */
    twostate predicate Conversed(user: User, msg: Incoming, sv: Services)
      reads this, user, token, cookies
    {
      Effected(user, msg.from, DispatchStep(Recorded(Step(old(user.State()), old(outbox)), msg.body), msg.body, msg.from, msg.notifyName, old(token.value), old(cookies.Value()), sv))
    }

    /** A new record for the chat, fresh, with today's date, left as the welcome leaves it; nothing else changes but the outbox. */
    twostate predicate Welcomed(msg: Incoming, sv: Services)
      reads this, if msg.from in users then {users[msg.from]} else {}
    {
      msg.from in users && fresh(users[msg.from])
      && var r := WelcomeStep(Step(Defaults(msg.from).(lastMessageDate := Some(sv.today), isGandon := false), old(outbox)), msg.body, msg.from, sv);
         users[msg.from].State() == r.user
         && Snapshot() == old(Snapshot()).(users := old(users)[msg.from := users[msg.from]], outbox := r.sent)
    }

    /** A first message from an unknown chat: a record with today's date, welcomed. */
    method Register(msg: Incoming, sv: Services)
      requires msg.from !in users
      modifies this
      ensures Welcomed(msg, sv)
    {
      var u := new User(msg.from, Some(sv.today), false);
      users := users[msg.from := u];
      Welcome(u, msg.body, msg.from, sv);
    }

    /** The blocked customer's refusal. */
    method Refuse(user: User, msg: Incoming)
      modifies this, user
      ensures Refused(user, msg)
    {
      Reply(user, msg.from, Words(BlockedReply));
    }

    /** A known customer's message: refused when blocked, greeted on a new day, otherwise recorded and dispatched. */
    method HandleKnown(user: User, msg: Incoming, sv: Services) returns (route: Route)
      modifies this, user, token, cookies
      ensures route == KnownRoute(old(user.State()), msg.body, sv)
      ensures Served(user, msg, sv, route)
    {
      if user.isGandon {
        Refuse(user, msg);
        return Blocked;
      }
      if IsNewDay(user.State(), msg.body, sv) {
        Greet(user, msg, sv);
        return NewDay;
      }
      route := FirstHandler(user.State());
      Converse(user, msg, sv);
    }

    /** The message recorded unless it is already the last entry, then dispatched. */
    method Converse(user: User, msg: Incoming, sv: Services)
      modifies this, user, token, cookies
      ensures Conversed(user, msg, sv)
    {
      if !AlreadyAdded(user.lastMessages, msg.body) {
        UpdateLastMessages(user, msg.body, "user");
      }
      Dispatch(user, msg.body, msg.from, msg.notifyName, sv);
    }
  }
}
