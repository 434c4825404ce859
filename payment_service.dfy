/**
 * Payment checks (src/services/paymentService.js): the phone is reduced to
 * its digits and guarded before the Kaspi lookup is asked, and a found sum is
 * compared with the sum still owed.  The lookup itself is a parameter: a
 * function from the normalised phone to what `kaspiParser` gives.
 */
module PaymentService {
  import opened Wrappers
  import opened Text
  import opened Kaspi

  /** The object `checkKaspiPayment` resolves to. */
  datatype PaymentCheck =
    | Found(amount: int)   // `{ success: true, amount, message: "Оплата найдена" }`
    | NotFound             // `{ success: false, message: "Оплата не найдена" }`
    | MissingPhone         // `{ success: false, error: "Номер телефона не указан" }`
    | BadPhoneFormat       // `{ success: false, error: "Неверный формат номера телефона" }`
    | LookupFailed         // `{ success: false, error: error.message }`

  predicate Success(r: PaymentCheck) {
    r.Found?
  }

  /** The phone handed to the lookup, or the guard that stops first. */
  function NormalizedPhone(phone: Option<string>): Result<string, PaymentCheck> {
    if phone.None? || phone.value == "" then Err(MissingPhone)
    else
      match MatchDigits(phone.value)
      case None => Err(BadPhoneFormat)
      case Some(clean) =>
        if |clean| < 10 then Err(BadPhoneFormat)
        else Ok(if StartsWith(clean, "+") then clean[1..] else clean)
  }

  /** The guards and the normalisation: no phone, fewer than ten digits, or exactly the phone's digits. */
  lemma NormalizedPhoneIsDigits(phone: Option<string>)
    ensures NormalizedPhone(phone) == Err(MissingPhone) <==> phone.None? || phone.value == ""
    ensures NormalizedPhone(phone) == Err(BadPhoneFormat) <==> phone.Some? && phone.value != "" && |Digits(phone.value)| < 10
    ensures NormalizedPhone(phone).Ok? ==> NormalizedPhone(phone).value == Digits(phone.value) && |Digits(phone.value)| >= 10
  {
    if phone.Some? && phone.value != "" {
      MatchDigitsIsDigits(phone.value);
      var clean := Digits(phone.value);
      if clean != [] {
        assert IsDigit(clean[0]);
        assert !StartsWith(clean, "+");
      }
    }
  }

  /** What a parser result becomes: a falsy amount (`null`, 0) is "not found"; `parseInt` of an integer is that integer. */
  function Classify(r: ParserResult): (c: PaymentCheck)
    ensures c.Found? <==> r.Amount? && r.value != 0
    ensures c.Found? ==> c.amount == r.value
    ensures c == LookupFailed <==> r.Threw?
  {
    match r
    case Amount(a) => if a == 0 then NotFound else Found(a)
    case NoResult => NotFound
    case Threw => LookupFailed
  }

  /** `checkKaspiPayment(phone)` with `kaspiParser` as `lookup`. */
  function CheckKaspiPayment(phone: Option<string>, lookup: string -> ParserResult): PaymentCheck {
    match NormalizedPhone(phone)
    case Err(guard) => guard
    case Ok(p) => Classify(lookup(p))
  }

  /** The lookup is asked only when the guards pass, and then with the phone's digits. */
  lemma CheckUsesDigits(phone: Option<string>, lookup: string -> ParserResult)
    ensures phone.None? || phone.value == "" ==> CheckKaspiPayment(phone, lookup) == MissingPhone
    ensures phone.Some? && phone.value != "" && |Digits(phone.value)| < 10 ==> CheckKaspiPayment(phone, lookup) == BadPhoneFormat
    ensures phone.Some? && |Digits(phone.value)| >= 10 ==> CheckKaspiPayment(phone, lookup) == Classify(lookup(Digits(phone.value)))
  {
    NormalizedPhoneIsDigits(phone);
    if phone.Some? && |Digits(phone.value)| >= 10 {
      assert phone.value != "";
    }
  }

  /** `checkKaspiPayment` never reports success without an amount the lookup found. */
  lemma SuccessNeedsLookupAmount(phone: Option<string>, lookup: string -> ParserResult)
    requires Success(CheckKaspiPayment(phone, lookup))
    ensures phone.Some? && lookup(Digits(phone.value)) == Amount(CheckKaspiPayment(phone, lookup).amount)
  {
    NormalizedPhoneIsDigits(phone);
  }

  /** The result of `validatePaymentAmount`: `isPaid`, and the paid and remaining sums when not paid. */
  datatype Sufficiency = Sufficient | Insufficient(paidAmount: int, remainingAmount: int)

  /** `validatePaymentAmount(paymentAmount, requiredAmount, existingAmount = 0)`. */
  function ValidatePaymentAmount(paymentAmount: int, requiredAmount: int, existingAmount: int := 0): (r: Sufficiency)
    ensures r.Sufficient? <==> existingAmount + paymentAmount >= requiredAmount
    ensures r.Insufficient? ==> r.paidAmount == existingAmount + paymentAmount
                                && r.remainingAmount == requiredAmount - r.paidAmount
                                && r.remainingAmount > 0
  {
    var totalAmount := existingAmount + paymentAmount;
    if totalAmount >= requiredAmount then Sufficient
    else Insufficient(totalAmount, requiredAmount - totalAmount)
  }

  /** Without an existing sum the payment alone is compared. */
  lemma ExistingDefaultsToZero(paymentAmount: int, requiredAmount: int)
    ensures ValidatePaymentAmount(paymentAmount, requiredAmount) == ValidatePaymentAmount(paymentAmount, requiredAmount, 0)
    ensures ValidatePaymentAmount(paymentAmount, requiredAmount).Sufficient? <==> paymentAmount >= requiredAmount
  {
  }

  /** Paying the remaining sum reported completes the payment. */
  lemma PayingRemainderSuffices(paymentAmount: int, requiredAmount: int, existingAmount: int)
    requires ValidatePaymentAmount(paymentAmount, requiredAmount, existingAmount).Insufficient?
    ensures var r := ValidatePaymentAmount(paymentAmount, requiredAmount, existingAmount);
            ValidatePaymentAmount(r.remainingAmount, requiredAmount, r.paidAmount).Sufficient?
  {
  }
}
