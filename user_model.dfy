/**
 * The per-customer conversation record (src/models/User.js).  The handlers
 * edit its fields one at a time, so it is a class; `State()` gathers the
 * fields into one value so that contracts can say which of them a handler
 * changes.
 */
module UserModel {
  import opened Wrappers
  import opened JsValue

  /** One history entry `{ role, content }`. */
  datatype ChatMessage = ChatMessage(role: string, content: string)

  /** `waitAgreement.what`: `{}` or one of the two requests the bot waits on. */
  datatype Pending =
    | NoRequest
    | ChooseApartmentRequest(apartmentNumber: Json)
    | MayToKaspiRequest(sum: Num)

  datatype Agreement = Agreement(status: bool, what: Pending)

  const NoAgreement := Agreement(false, NoRequest)

  datatype Paid = Paid(apartmentId: Json, status: bool)

  datatype BookingDate = BookingDate(startDate: Json, endDate: Json, personsKol: Json)

  datatype UserState = UserState(
    phone: string,
    status: bool,
    lastMessageDate: Option<int>,
    lastMessages: seq<ChatMessage>,
    bookingDate: BookingDate,
    chooseApartments: seq<Json>,
    chooseApartment: Json,
    apartment: Json,
    apartments: seq<Json>,
    waitAgreement: Agreement,
    paid: Paid,
    additionalPrompt: bool,
    waitFIO: bool,
    specialPhone: bool,
    specialPhoneForInstruction: bool,
    temporarySum: int,
    isGandon: bool)

  /** The schema defaults, for a record created with only its phone (chat id). */
  function Defaults(phone: string): UserState {
    UserState(phone, false, None, [], BookingDate(JStr(""), JStr(""), JStr("")), [], JObj([]), JObj([]), [],
              NoAgreement, Paid(JStr(""), false), false, false, false, false, 0, false)
  }

  class User {
    var phone: string
    var status: bool
    var lastMessageDate: Option<int>   // day number; `null` is `None`
    var lastMessages: seq<ChatMessage>
    var bookingDate: BookingDate
    var chooseApartments: seq<Json>
    var chooseApartment: Json
    var apartment: Json
    var apartments: seq<Json>
    var waitAgreement: Agreement
    var paid: Paid
    var additionalPrompt: bool
    var waitFIO: bool
    var specialPhone: bool
    var specialPhoneForInstruction: bool
    var temporarySum: int
    var isGandon: bool

    function State(): UserState
      reads this
    {
      UserState(phone, status, lastMessageDate, lastMessages, bookingDate, chooseApartments, chooseApartment,
                apartment, apartments, waitAgreement, paid, additionalPrompt, waitFIO, specialPhone,
                specialPhoneForInstruction, temporarySum, isGandon)
    }

    /** A new record: the schema defaults except for the given phone and the two fields callers set. */
    constructor (phone: string, lastMessageDate: Option<int>, isGandon: bool)
      ensures State() == Defaults(phone).(lastMessageDate := lastMessageDate, isGandon := isGandon)
    {
      this.phone := phone;
      status := false;
      this.lastMessageDate := lastMessageDate;
      lastMessages := [];
      bookingDate := BookingDate(JStr(""), JStr(""), JStr(""));
      chooseApartments := [];
      chooseApartment := JObj([]);
      apartment := JObj([]);
      apartments := [];
      waitAgreement := NoAgreement;
      paid := Paid(JStr(""), false);
      additionalPrompt := false;
      waitFIO := false;
      specialPhone := false;
      specialPhoneForInstruction := false;
      temporarySum := 0;
      this.isGandon := isGandon;
    }
  }
}
