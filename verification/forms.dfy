/** The form-level validators: the password rule, the payment-method
    choice, the card payment and credit top-up forms, and the refund form.
    Text fields arrive already stripped of surrounding blanks, as Django's
    `CharField` does before validating; integer fields arrive as `None` when
    missing or unparseable. */
module Forms {

  import opened Options
  import opened Money
  import opened Models

  // ---------------------------------------------------------------------
  // Password rule
  // ---------------------------------------------------------------------

  predicate IsAsciiLetter(c: char) {
    'A' <= c <= 'Z' || 'a' <= c <= 'z'
  }

  predicate IsAsciiDigit(c: char) {
    '0' <= c <= '9'
  }

  predicate IsAsciiAlnum(c: char) {
    IsAsciiLetter(c) || IsAsciiDigit(c)
  }

  /** Scans the whole string against `[A-Za-z0-9]*`. */
  function AllAlnum(s: string): (b: bool)
    ensures b <==> forall i :: 0 <= i < |s| ==> IsAsciiAlnum(s[i])
  {
    s == [] || (IsAsciiAlnum(s[0]) && AllAlnum(s[1..]))
  }

  /** Searches the string for a character of a class, as `re.search` does
      for a one-character pattern. */
  function Contains(s: string, inClass: char -> bool): (b: bool)
    ensures b <==> exists i :: 0 <= i < |s| && inClass(s[i])
  {
    s != [] && (inClass(s[0]) || Contains(s[1..], inClass))
  }

  datatype PasswordVerdict = PasswordOk | NotAlphanumeric | TooShort | NeedsLetterAndDigit

  /** The registration password rule, its three checks taken in order:
      only ASCII letters and digits (one or more), then at least eight
      characters, then at least one letter and one digit. */
  function CheckPassword(s: string): (v: PasswordVerdict)
    ensures v == PasswordOk <==>
      && (forall i :: 0 <= i < |s| ==> IsAsciiAlnum(s[i]))
      && |s| >= 8
      && (exists i :: 0 <= i < |s| && IsAsciiLetter(s[i]))
      && (exists i :: 0 <= i < |s| && IsAsciiDigit(s[i]))
    ensures v == NotAlphanumeric <==> s == [] || exists i :: 0 <= i < |s| && !IsAsciiAlnum(s[i])
    ensures v == TooShort <==> 0 < |s| < 8 && forall i :: 0 <= i < |s| ==> IsAsciiAlnum(s[i])
  {
    if s == [] || !AllAlnum(s) then NotAlphanumeric
    else if |s| < 8 then TooShort
    else if !Contains(s, IsAsciiLetter) || !Contains(s, IsAsciiDigit) then NeedsLetterAndDigit
    else PasswordOk
  }

  /** The character check comes first: the empty string and a short string
      with a symbol both fail it rather than the length check. */
  lemma CharacterCheckFirst()
    ensures CheckPassword("") == NotAlphanumeric
    ensures CheckPassword("a!") == NotAlphanumeric
  {
    assert !IsAsciiAlnum("a!"[1]);
  }

  /** The length check comes before the letter-and-digit check. */
  lemma LengthCheckSecond()
    ensures CheckPassword("abc") == TooShort
  {
    assert AllAlnum("abc");
  }

  /** The pattern as written: Python's `$` also matches just before a final
      newline, so `^[A-Za-z0-9]+$` lets one trailing "\n" through. */
  function MatchesAsWritten(s: string): (b: bool)
    ensures (s != [] && AllAlnum(s)) ==> b
    ensures b <==> exists t :: t != [] && AllAlnum(t) && (s == t || s == t + "\n")
  {
    MatchShape(s);
    (s != [] && AllAlnum(s))
    || (|s| >= 2 && s[|s| - 1] == '\n' && AllAlnum(s[..|s| - 1]))
  }

  /** A string is one run of letters and digits with at most a newline
      after it exactly when it has one of the two shapes the pattern
      admits. */
  lemma MatchShape(s: string)
    ensures ((s != [] && AllAlnum(s)) || (|s| >= 2 && s[|s| - 1] == '\n' && AllAlnum(s[..|s| - 1])))
        <==> exists t :: t != [] && AllAlnum(t) && (s == t || s == t + "\n")
  {
    if |s| >= 2 && s[|s| - 1] == '\n' && AllAlnum(s[..|s| - 1]) {
      assert s == s[..|s| - 1] + "\n";
    }
    if exists t :: t != [] && AllAlnum(t) && (s == t || s == t + "\n") {
      var t :| t != [] && AllAlnum(t) && (s == t || s == t + "\n");
      if s != t {
        assert s[..|s| - 1] == t;
      }
    }
  }

  /** `validar_password` exactly as written; the length and the letter /
      digit searches then see the newline too. */
  function CheckPasswordAsWritten(s: string): (v: PasswordVerdict)
    ensures (forall i :: 0 <= i < |s| ==> s[i] != '\n') ==> v == CheckPassword(s)
  {
    if !MatchesAsWritten(s) then NotAlphanumeric
    else if |s| < 8 then TooShort
    else if !Contains(s, IsAsciiLetter) || !Contains(s, IsAsciiDigit) then NeedsLetterAndDigit
    else PasswordOk
  }

  /** Seven letters and digits plus a newline pass the rule as written,
      although the string holds a non-alphanumeric character and only seven
      alphanumeric ones; the intended rule rejects it. */
  lemma TrailingNewlineAccepted()
    ensures CheckPasswordAsWritten("abcdef1\n") == PasswordOk
    ensures CheckPassword("abcdef1\n") == NotAlphanumeric
  {
    var s := "abcdef1\n";
    assert s[..|s| - 1] == "abcdef1";
    assert AllAlnum("abcdef1");
    assert IsAsciiLetter(s[0]) && IsAsciiDigit(s[6]);
    assert !IsAsciiAlnum(s[7]);
  }

  // ---------------------------------------------------------------------
  // Payment method choice
  // ---------------------------------------------------------------------

  /** The value a payment method is submitted and stored as. */
  function MethodLabel(m: PaymentMethod): string {
    match m
    case Tarjeta => "Tarjeta"
    case Efectivo => "Efectivo"
    case Credito => "Credito"
  }

  /** The radio choice: exactly the three labels are accepted. */
  function ParseMethod(s: string): (r: Option<PaymentMethod>)
    ensures r.Some? ==> MethodLabel(r.value) == s
    ensures r.None? ==> forall m: PaymentMethod :: MethodLabel(m) != s
  {
    if s == "Tarjeta" then Some(Tarjeta)
    else if s == "Efectivo" then Some(Efectivo)
    else if s == "Credito" then Some(Credito)
    else None
  }

  lemma MethodRoundTrip(m: PaymentMethod)
    ensures ParseMethod(MethodLabel(m)) == Some(m)
  {
  }

  /** The payment-method form: a method choice, a phone of at most 15
      characters and an address of at most 200, all required. */
  datatype PaymentForm = PaymentForm(choice: string, phone: string, address: string)

  function CleanPaymentForm(f: PaymentForm): (r: Option<PaymentMethod>)
    ensures r.Some? <==>
      && (f.choice == "Tarjeta" || f.choice == "Efectivo" || f.choice == "Credito")
      && 0 < |f.phone| <= 15 && 0 < |f.address| <= 200
    ensures r.Some? ==> MethodLabel(r.value) == f.choice
  {
    if 0 < |f.phone| <= 15 && 0 < |f.address| <= 200 then ParseMethod(f.choice) else None
  }

  // ---------------------------------------------------------------------
  // Card expiry, card payment and credit top-up
  // ---------------------------------------------------------------------

  /** The current calendar month, read from the clock by the source. */
  datatype Today = Today(year: int, month: int)

  /** A card is expired when its month lies strictly before the current
      one. */
  function Expired(month: int, year: int, today: Today): (b: bool)
    ensures 1 <= month <= 12 && 1 <= today.month <= 12 ==>
      (b <==> year * 12 + month < today.year * 12 + today.month)
  {
    year < today.year || (year == today.year && month < today.month)
  }

  /** A Python truth test on an optional integer: present and non-zero. */
  predicate Truthy(v: Option<int>) {
    v.Some? && v.value != 0
  }

  /** The cleaned value of a bounded integer field: absent when missing or
      out of bounds, since a field that fails validation is left out of the
      cleaned data. */
  function Bounded(v: Option<int>, lo: int, hi: int): (r: Option<int>)
    ensures r.Some? <==> v.Some? && lo <= v.value <= hi
    ensures r.Some? ==> r == v
  {
    if v.Some? && lo <= v.value <= hi then v else None
  }

  /** The shared `clean()` of both card forms: the expiry test runs only
      when month and year both made it into the cleaned data. */
  function ExpiryAccepts(month: Option<int>, year: Option<int>, today: Today): (ok: bool)
    ensures month.None? || year.None? ==> ok
    ensures !(Truthy(month) && Truthy(year)) ==> ok
    ensures Truthy(month) && Truthy(year) ==> (ok <==> !Expired(month.value, year.value, today))
  {
    if Truthy(month) && Truthy(year) then !Expired(month.value, year.value, today) else true
  }

  /** The card payment form. */
  datatype CardForm = CardForm(holder: string, number: string, month: Option<int>, year: Option<int>, cvv: string)

  /** Field bounds (holder at most 100, number exactly 16, month 1..12,
      year 2024..2100, CVV 3..4), then the expiry test. */
  function CardFormValid(f: CardForm, today: Today): (ok: bool)
    ensures ok <==>
      && 0 < |f.holder| <= 100
      && |f.number| == 16
      && f.month.Some? && 1 <= f.month.value <= 12
      && f.year.Some? && 2024 <= f.year.value <= 2100
      && 3 <= |f.cvv| <= 4
      && !Expired(f.month.value, f.year.value, today)
  {
    var month := Bounded(f.month, 1, 12);
    var year := Bounded(f.year, 2024, 2100);
    var fieldsOk := 0 < |f.holder| <= 100 && |f.number| == 16 && 3 <= |f.cvv| <= 4
      && month.Some? && year.Some?;
    fieldsOk && ExpiryAccepts(month, year, today)
  }

  /** A card that expires this month is still accepted; one that expired
      last month is not. */
  lemma CurrentMonthAccepted(f: CardForm, today: Today)
    requires 0 < |f.holder| <= 100 && |f.number| == 16 && 3 <= |f.cvv| <= 4
    requires 1 <= today.month <= 12 && 2024 <= today.year <= 2100
    ensures CardFormValid(f.(month := Some(today.month), year := Some(today.year)), today)
    ensures today.month > 1 ==>
      !CardFormValid(f.(month := Some(today.month - 1), year := Some(today.year)), today)
  {
  }

  /** The credit top-up form: an amount of at most ten digits with two
      decimals and no declared lower bound, plus card fields with looser
      bounds (number at most 20, CVV at most 4) and the same expiry test. */
  datatype TopUpForm = TopUpForm(amount: Option<Money>, holder: string, number: string,
                                 month: Option<int>, year: Option<int>, cvv: string)

  function CleanTopUpForm(f: TopUpForm, today: Today): (r: Option<Money2>)
    ensures r.Some? <==>
      && f.amount.Some? && FitsDecimal10x2(f.amount.value)
      && 0 < |f.holder| <= 100 && 0 < |f.number| <= 20 && 0 < |f.cvv| <= 4
      && f.month.Some? && 1 <= f.month.value <= 12
      && f.year.Some? && 2024 <= f.year.value <= 2100
      && !Expired(f.month.value, f.year.value, today)
    ensures r.Some? ==> r.value == f.amount.value
  {
    var month := Bounded(f.month, 1, 12);
    var year := Bounded(f.year, 2024, 2100);
    var fieldsOk := f.amount.Some? && FitsDecimal10x2(f.amount.value)
      && 0 < |f.holder| <= 100 && 0 < |f.number| <= 20 && 0 < |f.cvv| <= 4
      && month.Some? && year.Some?;
    if fieldsOk && ExpiryAccepts(month, year, today) then Some(f.amount.value) else None
  }

  /** Nothing stops a negative top-up. */
  lemma NegativeTopUpAccepted()
    ensures CleanTopUpForm(TopUpForm(Some(-50 * Peso), "Ana", "4000", Some(1), Some(2030), "123"),
                           Today(2026, 10)) == Some(-50 * Peso)
  {
  }

  // ---------------------------------------------------------------------
  // Refund form
  // ---------------------------------------------------------------------

  /** Where a refund goes: to account credit, or to a card / bank deposit. */
  datatype RefundChoice = ToCredit | ToCard

  function ParseRefundChoice(s: string): (r: Option<RefundChoice>)
    ensures r == Some(ToCredit) <==> s == "credito"
    ensures r == Some(ToCard) <==> s == "tarjeta"
  {
    if s == "credito" then Some(ToCredit)
    else if s == "tarjeta" then Some(ToCard)
    else None
  }

  /** The refund form: a method choice and three optional bank fields. */
  datatype RefundForm = RefundForm(choice: string, holder: string, number: string, bank: string)

  /** What `is_valid()` does with the form as written. */
  datatype RefundFormVerdict = RefundAccepted(choice: RefundChoice) | RefundRejected | RaisesKeyError

  /** The refund form's `clean()` as written: it reads the method with
      `data["metodo"]`, which raises when the method failed its own field
      validation and so is missing from the cleaned data. */
  function CleanRefundFormAsWritten(f: RefundForm): (v: RefundFormVerdict)
    ensures v == RaisesKeyError <==> ParseRefundChoice(f.choice).None?
  {
    match ParseRefundChoice(f.choice)
    case None => RaisesKeyError
    case Some(ToCredit) => RefundAccepted(ToCredit)
    case Some(ToCard) =>
      if f.holder == "" || f.number == "" || f.bank == "" then RefundRejected
      else RefundAccepted(ToCard)
  }

  /** The refund form as evidently intended: a bad method is an ordinary
      validation failure. A card refund needs holder, account number and
      bank; a credit refund needs none of them. */
  function CleanRefundForm(f: RefundForm): (r: Option<RefundChoice>)
    ensures r == Some(ToCredit) <==> f.choice == "credito"
    ensures r == Some(ToCard) <==>
      f.choice == "tarjeta" && f.holder != "" && f.number != "" && f.bank != ""
    ensures r.None? <==>
      (f.choice != "credito" && f.choice != "tarjeta")
      || (f.choice == "tarjeta" && (f.holder == "" || f.number == "" || f.bank == ""))
  {
    match ParseRefundChoice(f.choice)
    case None => None
    case Some(ToCredit) => Some(ToCredit)
    case Some(ToCard) =>
      if f.holder == "" || f.number == "" || f.bank == "" then None else Some(ToCard)
  }

  /** The two agree wherever the form as written does not raise, and an
      empty method shows the difference. */
  lemma RefundFormKeyError(f: RefundForm)
    ensures CleanRefundFormAsWritten(f) != RaisesKeyError ==>
      (CleanRefundForm(f).Some? <==> CleanRefundFormAsWritten(f).RefundAccepted?)
    ensures CleanRefundFormAsWritten(RefundForm("", "", "", "")) == RaisesKeyError
    ensures CleanRefundForm(RefundForm("", "", "", "")) == None
  {
  }
}
