/**
 * Creating a booking in the calendar (src/scripts/addBooking.js): the guard on
 * the inputs, the `event_calendar` payload, its signature and the reading of
 * the reply.  The create endpoint is an input; the request it would receive is
 * returned beside the result so that contracts can say when it is sent.
 */
module AddBooking {
  import opened Wrappers
  import opened JsValue
  import opened GenerateSign2

  /** `POST .../apartments/${apartment_id}/event_calendars` with its JSON body. */
  datatype CreateRequest = CreateRequest(apartmentId: string, body: Json)

  /** The reply: a status with its data, or an exception (a non-2xx status or no response at all). */
  datatype CreateReply = Replied(status: int, data: Json) | CreateThrew

  datatype SignerKey = SignerKey(privateKey: string, md5: string -> string)

  /** The booking result (`response.data`, or `null` as `JNull`) and the request sent, if any. */
  datatype AddBookingOutcome = AddBookingOutcome(result: Json, request: Option<CreateRequest>)

  /** `!userData || !apartmentData || !userData.bookingDate || !apartmentData.apartment_id`. */
  predicate MissingData(userData: Json, apartmentData: Json) {
    !Truthy(userData) || !Truthy(apartmentData)
    || !Truthy(Get(userData, "bookingDate")) || !Truthy(Get(apartmentData, "apartment_id"))
  }

  /** The name written into the booking: `clientName || 'Клиент'`. */
  function Fio(clientName: Json): (fio: Json)
    ensures Truthy(clientName) ==> fio == clientName
    ensures !Truthy(clientName) ==> fio == JStr("Клиент")
    ensures Truthy(fio)
  {
    if Truthy(clientName) then clientName else JStr("Клиент")
  }

  /** The `event_calendar` object literal, fields in the order written. */
  function EventCalendar(userData: Json, apartmentData: Json, clientName: Json): Json {
    var bookingDate := Get(userData, "bookingDate");
    JObj([
      Field("begin_date", Get(bookingDate, "startDate")),
      Field("end_date", Get(bookingDate, "endDate")),
      Field("status", JNum(5)),
      Field("amount", Get(apartmentData, "amount")),
      Field("notes", JStr("")),
      Field("client_attributes", ClientBlock(userData, clientName))])
  }

  /** The `client_attributes` object literal. */
  function ClientBlock(userData: Json, clientName: Json): Json {
    JObj([
      Field("fio", Fio(clientName)),
      Field("phone", Get(userData, "phone")),
      Field("additional_phone", JStr("+77777777777")),
      Field("email", JStr("vatsap@test.com"))])
  }

  /** `{ event_calendar, sign: generateSign2(event_calendar) }`. */
  function RequestBody(eventCalendar: Json, key: SignerKey): Json {
    JObj([Field("event_calendar", eventCalendar), Field("sign", JStr(Sign(eventCalendar, key.privateKey, key.md5)))])
  }

  /** `addBooking(userData, apartmentData, clientName)`. */
  function AddBooking(userData: Json, apartmentData: Json, clientName: Json, key: SignerKey,
                      create: CreateRequest -> CreateReply): (out: AddBookingOutcome)
    ensures MissingData(userData, apartmentData) ==> out == AddBookingOutcome(JNull, None)
    ensures !MissingData(userData, apartmentData) ==> out.request.Some?
    ensures out.request.Some? ==>
              ((create(out.request.value).Replied? && create(out.request.value).status == 201)
                 ==> out.result == create(out.request.value).data)
              && ((create(out.request.value).CreateThrew? || create(out.request.value).status != 201)
                 ==> out.result == JNull)
  {
    if MissingData(userData, apartmentData) then AddBookingOutcome(JNull, None)
    else
      var eventCalendar := EventCalendar(userData, apartmentData, clientName);
      var request := CreateRequest(ToStr(Get(apartmentData, "apartment_id")), RequestBody(eventCalendar, key));
      var result :=
        match create(request)
        case Replied(status, data) => if status == 201 then data else JNull
        case CreateThrew => JNull;
      AddBookingOutcome(result, Some(request))
  }

  lemma EventCalendarFields(userData: Json, apartmentData: Json, clientName: Json)
    ensures var ev := EventCalendar(userData, apartmentData, clientName);
            var bookingDate := Get(userData, "bookingDate");
            Get(ev, "begin_date") == Get(bookingDate, "startDate")
            && Get(ev, "end_date") == Get(bookingDate, "endDate")
            && Get(ev, "status") == JNum(5)
            && Get(ev, "amount") == Get(apartmentData, "amount")
            && Get(ev, "notes") == JStr("")
  {
    EventDates(userData, apartmentData, clientName);
    EventTerms(userData, apartmentData, clientName);
  }

  lemma EventDates(userData: Json, apartmentData: Json, clientName: Json)
    ensures var ev := EventCalendar(userData, apartmentData, clientName);
            var bookingDate := Get(userData, "bookingDate");
            Get(ev, "begin_date") == Get(bookingDate, "startDate")
            && Get(ev, "end_date") == Get(bookingDate, "endDate")
  {
    var fs := EventCalendar(userData, apartmentData, clientName).fields;
    assert "begin_date"[0] != "end_date"[0];
    assert Lookup(fs, "end_date") == Lookup(fs[1..], "end_date");
  }

  lemma EventTerms(userData: Json, apartmentData: Json, clientName: Json)
    ensures var ev := EventCalendar(userData, apartmentData, clientName);
            Get(ev, "status") == JNum(5)
            && Get(ev, "amount") == Get(apartmentData, "amount")
            && Get(ev, "notes") == JStr("")
  {
    var fs := EventCalendar(userData, apartmentData, clientName).fields;
    assert "begin_date"[0] != "status"[0] && "begin_date"[0] != "amount"[0] && "begin_date"[0] != "notes"[0];
    assert "end_date"[0] != "status"[0] && "end_date"[0] != "amount"[0] && "end_date"[0] != "notes"[0];
    assert "status"[0] != "amount"[0] && "status"[0] != "notes"[0] && "amount"[0] != "notes"[0];
    assert fs[2..] == [fs[2], fs[3], fs[4], fs[5]];
    assert fs[3..] == [fs[3], fs[4], fs[5]];
    assert fs[4..] == [fs[4], fs[5]];
    assert Lookup(fs, "status") == Lookup(fs[1..], "status") == Lookup(fs[2..], "status");
    assert Lookup(fs, "amount") == Lookup(fs[1..], "amount") == Lookup(fs[2..], "amount") == Lookup(fs[3..], "amount");
    assert Lookup(fs, "notes") == Lookup(fs[1..], "notes") == Lookup(fs[2..], "notes") == Lookup(fs[3..], "notes") == Lookup(fs[4..], "notes");
  }

  /** The payload carries the booking dates, the apartment's amount, status 5 and empty notes. */
  lemma PayloadFromInputs(userData: Json, apartmentData: Json, clientName: Json, key: SignerKey, create: CreateRequest -> CreateReply)
    requires !MissingData(userData, apartmentData)
    ensures var rq := AddBooking(userData, apartmentData, clientName, key, create).request.value;
            var ev := Get(rq.body, "event_calendar");
            var bookingDate := Get(userData, "bookingDate");
            rq.apartmentId == ToStr(Get(apartmentData, "apartment_id"))
            && Get(ev, "begin_date") == Get(bookingDate, "startDate")
            && Get(ev, "end_date") == Get(bookingDate, "endDate")
            && Get(ev, "status") == JNum(5)
            && Get(ev, "amount") == Get(apartmentData, "amount")
            && Get(ev, "notes") == JStr("")
  {
    EventCalendarFields(userData, apartmentData, clientName);
  }

  /** The signature covers `event_calendar` alone, not the body it is put into. */
  lemma SignCoversEventOnly(userData: Json, apartmentData: Json, clientName: Json, key: SignerKey, create: CreateRequest -> CreateReply)
    requires !MissingData(userData, apartmentData)
    ensures var body := AddBooking(userData, apartmentData, clientName, key, create).request.value.body;
            Get(body, "sign") == JStr(key.md5(ParamsToString(Get(body, "event_calendar")) + key.privateKey))
  {
    var ev := EventCalendar(userData, apartmentData, clientName);
    var fs := RequestBody(ev, key).fields;
    assert "event_calendar"[0] != "sign"[0];
    assert Lookup(fs, "sign") == Lookup(fs[1..], "sign");
  }

  /** The client block: the name (or 'Клиент'), the user's phone, and the fixed extra phone and e-mail. */
  lemma ClientAttributes(userData: Json, apartmentData: Json, clientName: Json)
    ensures var ev := EventCalendar(userData, apartmentData, clientName);
            var client := Get(ev, "client_attributes");
            Get(client, "fio") == (if Truthy(clientName) then clientName else JStr("Клиент"))
            && Get(client, "phone") == Get(userData, "phone")
            && Get(client, "additional_phone") == JStr("+77777777777")
            && Get(client, "email") == JStr("vatsap@test.com")
  {
    ClientBlockPlaced(userData, apartmentData, clientName);
    ClientBlockFields(userData, clientName);
  }

  lemma ClientBlockPlaced(userData: Json, apartmentData: Json, clientName: Json)
    ensures Get(EventCalendar(userData, apartmentData, clientName), "client_attributes") == ClientBlock(userData, clientName)
  {
    var fs := EventCalendar(userData, apartmentData, clientName).fields;
    assert "client_attributes"[0] != "begin_date"[0] && "client_attributes"[0] != "end_date"[0];
    assert "client_attributes"[0] != "status"[0] && "client_attributes"[0] != "amount"[0] && "client_attributes"[0] != "notes"[0];
    assert fs[1..] == [fs[1], fs[2], fs[3], fs[4], fs[5]];
    assert fs[2..] == [fs[2], fs[3], fs[4], fs[5]];
    assert fs[3..] == [fs[3], fs[4], fs[5]];
    assert fs[4..] == [fs[4], fs[5]];
    assert fs[5..] == [fs[5]];
    assert Lookup(fs, "client_attributes") == Lookup(fs[1..], "client_attributes") == Lookup(fs[2..], "client_attributes");
    assert Lookup(fs[2..], "client_attributes") == Lookup(fs[3..], "client_attributes") == Lookup(fs[4..], "client_attributes");
    assert Lookup(fs[4..], "client_attributes") == Lookup(fs[5..], "client_attributes");
  }

  lemma ClientBlockFields(userData: Json, clientName: Json)
    ensures var client := ClientBlock(userData, clientName);
            Get(client, "fio") == Fio(clientName)
            && Get(client, "phone") == Get(userData, "phone")
            && Get(client, "additional_phone") == JStr("+77777777777")
            && Get(client, "email") == JStr("vatsap@test.com")
  {
    var cs := ClientBlock(userData, clientName).fields;
    assert "fio"[0] != "phone"[0] && "fio"[0] != "additional_phone"[0] && "fio"[0] != "email"[0];
    assert "phone"[0] != "additional_phone"[0] && "phone"[0] != "email"[0] && "additional_phone"[0] != "email"[0];
    assert cs[1..] == [cs[1], cs[2], cs[3]] && cs[2..] == [cs[2], cs[3]] && cs[3..] == [cs[3]];
    assert Lookup(cs, "phone") == Lookup(cs[1..], "phone");
    assert Lookup(cs, "additional_phone") == Lookup(cs[1..], "additional_phone") == Lookup(cs[2..], "additional_phone");
    assert Lookup(cs, "email") == Lookup(cs[1..], "email") == Lookup(cs[2..], "email") == Lookup(cs[3..], "email");
  }
}
