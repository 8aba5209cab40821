/**
 * The payment form of src/components/organisms/PaymentForm.jsx: the card
 * number and expiry formatters applied on every keystroke, the per-method
 * validation, the masked details handed on with a payment, and the form
 * state that `handleInputChange`, `validateForm` and `handleSubmit` step.
 * Amounts are integer cents; `parseFloat` of the amount field is a
 * parameter.
 */
module PaymentForm {
  import opened Outcomes
  import Domain
  import Seqs
  import Text

  function Min(a: int, b: int): int { if a < b then a else b }

  // ---------------------------------------------------------------------
  // Card number: `replace(/\D/g, '')`, then `replace(/(\d{4})(?=\d)/g, '$1 ')`,
  // then `substring(0, 19)`.

  predicate AllDigits(s: string)
  {
    forall i :: 0 <= i < |s| ==> Text.IsDigit(s[i])
  }

  /**
   * The regular-expression rewrite on a digit string: a space after every
   * complete group of four digits that another digit follows. Position `i`
   * holds a space exactly when `i % 5 == 4`, and otherwise the digit
   * `i - i / 5` of the input.
   */
  function Group(ds: string): (r: string)
    requires AllDigits(ds)
    ensures |ds| == 0 ==> r == []
    ensures |ds| > 0 ==> |r| == |ds| + (|ds| - 1) / 4
    ensures forall i :: 0 <= i < |r| ==> (r[i] == ' ' <==> i % 5 == 4)
    ensures forall i :: 0 <= i < |r| && i % 5 != 4 ==> r[i] == ds[i - i / 5]
    decreases |ds|
  {
    if |ds| <= 4 then ds
    else
      var rest := Group(ds[4..]);
      GroupCons(ds, rest);
      ds[..4] + " " + rest
  }

  /** Four digits and a space in front of the grouped tail keep the layout of `Group`. */
  lemma GroupCons(ds: string, rest: string)
    requires |ds| > 4
    requires |rest| == |ds| - 4 + (|ds| - 5) / 4
    requires forall i :: 0 <= i < |rest| ==> (rest[i] == ' ' <==> i % 5 == 4)
    requires forall i :: 0 <= i < |rest| && i % 5 != 4 ==> rest[i] == ds[4..][i - i / 5]
    requires forall i :: 0 <= i < 4 ==> ds[i] != ' '
    ensures |ds[..4] + " " + rest| == |ds| + (|ds| - 1) / 4
    ensures forall i :: 0 <= i < |ds[..4] + " " + rest| ==> ((ds[..4] + " " + rest)[i] == ' ' <==> i % 5 == 4)
    ensures forall i :: 0 <= i < |ds[..4] + " " + rest| && i % 5 != 4 ==> (ds[..4] + " " + rest)[i] == ds[i - i / 5]
  {
    var r := ds[..4] + " " + rest;
    forall i | 5 <= i < |r|
      ensures r[i] == rest[i - 5] && (i - 5) % 5 == i % 5 && (i - 5) / 5 == i / 5 - 1
    {
    }
  }

  /** Filtering the grouped string by a test that keeps digits and drops the space gives the digits back. */
  lemma {:induction false} GroupFilter(ds: string, p: char -> bool)
    requires AllDigits(ds)
    requires forall c :: Text.IsDigit(c) ==> p(c)
    requires !p(' ')
    ensures Seqs.Filter(Group(ds), p) == ds
    decreases |ds|
  {
    if |ds| <= 4 {
      Seqs.FilterKeepsAll(ds, p);
    } else {
      var head, rest := ds[..4], Group(ds[4..]);
      assert Group(ds) == (head + " ") + rest;
      calc {
        Seqs.Filter(Group(ds), p);
        { Seqs.FilterConcat(head + " ", rest, p); }
        Seqs.Filter(head + " ", p) + Seqs.Filter(rest, p);
        { GroupFilter(ds[4..], p); }
        Seqs.Filter(head + " ", p) + ds[4..];
        { Seqs.FilterSnoc(head, ' ', p); }
        Seqs.Filter(head, p) + ds[4..];
        { Seqs.FilterKeepsAll(head, p); }
        head + ds[4..];
      }
      assert head + ds[4..] == ds;
    }
  }

  /** Cutting the grouped string at 19 characters keeps exactly the first 16 digits, grouped. */
  lemma TakeGroup(ds: string)
    requires AllDigits(ds)
    ensures Seqs.Take(Group(ds), 19) == Group(ds[..Min(16, |ds|)])
  {
    var k := Min(16, |ds|);
    var a, b := Seqs.Take(Group(ds), 19), Group(ds[..k]);
    assert |a| == |b|;
    forall i | 0 <= i < |a|
      ensures a[i] == b[i]
    {
      if i % 5 != 4 {
        assert a[i] == ds[i - i / 5] && b[i] == ds[..k][i - i / 5];
      }
    }
  }

  /**
   * `formatCardNumber`: only digits and spaces, at most 19 characters, the
   * spaces exactly at every fifth position and only where another digit
   * follows (so never at the end), and with the spaces removed the first
   * (at most 16) digits of the input.
   */
  function FormatCardNumber(value: string): (r: string)
    ensures |r| <= 19
    ensures var k := Min(16, |Text.DigitsOf(value)|); |r| == if k == 0 then 0 else k + (k - 1) / 4
    ensures |r| > 0 ==> r[|r| - 1] != ' '
    ensures forall i :: 0 <= i < |r| ==> Text.IsDigit(r[i]) || r[i] == ' '
    ensures forall i :: 0 <= i < |r| ==> (r[i] == ' ' <==> i % 5 == 4)
    ensures Text.WithoutSpaces(r) == Text.DigitsOf(value)[..Min(16, |Text.DigitsOf(value)|)]
    ensures Text.DigitsOf(r) == Text.DigitsOf(value)[..Min(16, |Text.DigitsOf(value)|)]
  {
    var ds := Text.DigitsOf(value);
    var kept := ds[..Min(16, |ds|)];
    TakeGroup(ds);
    GroupFilter(kept, Text.NotSpace);
    GroupFilter(kept, Text.IsDigit);
    GroupEndsInDigit(kept);
    Seqs.Take(Group(ds), 19)
  }

  /** The grouped string never ends in a space: a space is written only before a further digit. */
  lemma GroupEndsInDigit(ds: string)
    requires AllDigits(ds)
    ensures |Group(ds)| > 0 ==> Group(ds)[|Group(ds)| - 1] != ' '
  {
    var g := Group(ds);
    if |g| > 0 {
      var n := |ds|;
      assert |g| - 1 == n - 1 + (n - 1) / 4;
      assert (|g| - 1) % 5 != 4;
    }
  }

  /** Formatting an already formatted card number changes nothing. */
  lemma FormatCardNumberIdempotent(value: string)
    ensures FormatCardNumber(FormatCardNumber(value)) == FormatCardNumber(value)
  {
    var ds := Text.DigitsOf(value);
    var kept := ds[..Min(16, |ds|)];
    TakeGroup(ds);
    TakeGroup(kept);
    assert kept[..Min(16, |kept|)] == kept;
  }

  /**
   * The validation's "at least 16 characters once spaces are removed"
   * holds of a formatted card number exactly when at least 16 digits were
   * typed.
   */
  lemma CardNumberLengthCheck(value: string)
    ensures |Text.WithoutSpaces(FormatCardNumber(value))| >= 16 <==> |Text.DigitsOf(value)| >= 16
  {
  }

  /**
   * The masked card number shows the last four characters of the formatted
   * number; for a full number these are its last four digits.
   */
  lemma MaskShowsLastFourDigits(value: string)
    requires |Text.DigitsOf(value)| >= 16
    ensures Text.LastChars(FormatCardNumber(value), 4) == Text.DigitsOf(value)[12..16]
  {
    var ds := Text.DigitsOf(value);
    TakeGroup(ds);
    LastGroup(ds[..16]);
  }

  /** Sixteen digits, grouped, end in their last four. */
  lemma LastGroup(ds: string)
    requires AllDigits(ds) && |ds| == 16
    ensures Text.LastChars(Group(ds), 4) == ds[12..]
  {
    var g := Group(ds);
    assert 15 % 5 != 4 && 16 % 5 != 4 && 17 % 5 != 4 && 18 % 5 != 4;
    assert g[15] == ds[12] && g[16] == ds[13] && g[17] == ds[14] && g[18] == ds[15];
  }

  // ---------------------------------------------------------------------
  // Expiry date.

  /**
   * `formatExpiryDate`: fewer than two digits are returned as they are;
   * otherwise the first two digits, a slash and at most two more digits.
   * The result has at most five characters, a slash only at position 2,
   * and the first (at most four) digits of the input.
   */
  function FormatExpiryDate(value: string): (r: string)
    ensures |Text.DigitsOf(value)| < 2 ==> r == Text.DigitsOf(value)
    ensures |r| <= 5
    ensures forall i :: 0 <= i < |r| ==> (r[i] == '/' <==> i == 2)
    ensures |Text.DigitsOf(value)| >= 2 ==> |r| >= 3
    ensures Text.DigitsOf(r) == Text.DigitsOf(value)[..Min(4, |Text.DigitsOf(value)|)]
  {
    var ds := Text.DigitsOf(value);
    if |ds| >= 2 then
      ExpiryDigits(ds, Min(4, |ds|));
      ds[..2] + "/" + ds[2..Min(4, |ds|)]
    else
      Text.DigitsOfDigits(ds);
      ds
  }

  lemma SlashIsNoDigit()
    ensures Text.DigitsOf("/") == []
  {
    assert !Text.IsDigit('/');
    assert "/"[1..] == [];
  }

  /** The slash between month and year carries no digit: the digits of the formatted date are the first `k`. */
  lemma ExpiryDigits(ds: string, k: int)
    requires AllDigits(ds)
    requires 2 <= k <= |ds|
    ensures Text.DigitsOf(ds[..2] + "/" + ds[2..k]) == ds[..k]
  {
    var month, year := ds[..2], ds[2..k];
    calc {
      Text.DigitsOf(month + "/" + year);
      { Seqs.FilterConcat(month + "/", year, Text.IsDigit); }
      Text.DigitsOf(month + "/") + Text.DigitsOf(year);
      { Seqs.FilterConcat(month, "/", Text.IsDigit); }
      Text.DigitsOf(month) + Text.DigitsOf("/") + Text.DigitsOf(year);
      { Text.DigitsOfDigits(month); Text.DigitsOfDigits(year); SlashIsNoDigit(); }
      month + [] + year;
      { assert month + year == ds[..k]; }
      ds[..k];
    }
  }

  /** Formatting an already formatted expiry date changes nothing. */
  lemma FormatExpiryDateIdempotent(value: string)
    ensures FormatExpiryDate(FormatExpiryDate(value)) == FormatExpiryDate(value)
  {
    var ds := Text.DigitsOf(value);
    var r := FormatExpiryDate(value);
    var ds2 := Text.DigitsOf(r);
    assert ds2 == ds[..Min(4, |ds|)];
    if |ds| >= 2 {
      assert ds2[..2] == ds[..2];
      assert ds2[2..Min(4, |ds2|)] == ds[2..Min(4, |ds|)];
    }
  }

  /** The validation's length check (at least five characters) holds exactly when four digits were typed. */
  lemma ExpiryLengthCheck(value: string)
    ensures |FormatExpiryDate(value)| >= 5 <==> |Text.DigitsOf(value)| >= 4
  {
    var ds := Text.DigitsOf(value);
    if |ds| >= 2 {
      assert |FormatExpiryDate(value)| == 3 + Min(4, |ds|) - 2;
    }
  }

  // ---------------------------------------------------------------------
  // Form fields, methods and validation.

  datatype Field =
    | Amount | CardNumber | ExpiryDate | Cvv | CardHolderName
    | AccountNumber | RoutingNumber | AccountHolderName | DigitalWalletId | Description

  datatype PayMethod = CreditCard | DebitCard | BankTransfer | DigitalWallet

  /** The `id` of each entry of `paymentMethods`. */
  function MethodId(m: PayMethod): string
  {
    match m
    case CreditCard => "credit_card"
    case DebitCard => "debit_card"
    case BankTransfer => "bank_transfer"
    case DigitalWallet => "digital_wallet"
  }

  predicate IsCard(m: PayMethod) { m == CreditCard || m == DebitCard }

  /** `formData[field]`, with an absent field read as empty. */
  function Get(form: map<Field, string>, f: Field): string
  {
    if f in form then form[f] else ""
  }

  /** The initial `formData`: the description filled in, every other field empty. */
  function InitialForm(): (form: map<Field, string>)
    ensures Get(form, Description) == "Monthly hostel fees"
    ensures Get(form, Amount) == ""
  {
    map[Amount := "", CardNumber := "", ExpiryDate := "", Cvv := "", CardHolderName := "",
        AccountNumber := "", RoutingNumber := "", AccountHolderName := "", DigitalWalletId := "",
        Description := "Monthly hostel fees"]
  }

  /** The initial form holds every field, all but the description empty. */
  lemma InitialFormFields(f: Field)
    ensures f in InitialForm()
    ensures InitialForm()[f] == "" <==> f != Description
  {
  }

  /** The card-number rule: present and at least 16 characters once the spaces are gone. */
  predicate BadCardNumber(v: string) { v == "" || |Text.WithoutSpaces(v)| < 16 }

  /** The expiry rule: present and at least 5 characters long. */
  predicate BadExpiryDate(v: string) { v == "" || |v| < 5 }

  /** The CVV rule: present and at least 3 characters long. */
  predicate BadCvv(v: string) { v == "" || |v| < 3 }

  /**
   * The rule each field breaks, if any, for the selected method: the
   * amount always (empty, or parsed to no more than zero); the four card
   * fields only for a card; the three bank fields only for a transfer;
   * the wallet id only for a wallet. The description is never checked.
   */
  predicate Violates(form: map<Field, string>, m: PayMethod, amountCents: int, f: Field)
  {
    var v := Get(form, f);
    match f
    case Amount => v == "" || amountCents <= 0
    case CardNumber => IsCard(m) && BadCardNumber(v)
    case ExpiryDate => IsCard(m) && BadExpiryDate(v)
    case Cvv => IsCard(m) && BadCvv(v)
    case CardHolderName => IsCard(m) && Text.IsBlank(v)
    case AccountNumber => m == BankTransfer && Text.IsBlank(v)
    case RoutingNumber => m == BankTransfer && Text.IsBlank(v)
    case AccountHolderName => m == BankTransfer && Text.IsBlank(v)
    case DigitalWalletId => m == DigitalWallet && Text.IsBlank(v)
    case Description => false
  }

  function Message(f: Field): string
    requires f != Description
  {
    match f
    case Amount => "Please enter a valid amount"
    case CardNumber => "Please enter a valid card number"
    case ExpiryDate => "Please enter a valid expiry date"
    case Cvv => "Please enter a valid CVV"
    case CardHolderName => "Please enter cardholder name"
    case AccountNumber => "Please enter account number"
    case RoutingNumber => "Please enter routing number"
    case AccountHolderName => "Please enter account holder name"
    case DigitalWalletId => "Please enter wallet ID"
  }

  /** A field of another method never stops the form: a bank transfer ignores the card fields and the wallet id. */
  lemma BankTransferChecksOnlyItsFields(form: map<Field, string>, amountCents: int)
    requires amountCents > 0 && Get(form, Amount) != ""
    requires !Text.IsBlank(Get(form, AccountNumber)) && !Text.IsBlank(Get(form, RoutingNumber))
    requires !Text.IsBlank(Get(form, AccountHolderName))
    ensures forall f :: !Violates(form, BankTransfer, amountCents, f)
  {
  }

  /** For a card the form is valid exactly when none of the amount and the four card rules is broken. */
  lemma CardFieldsValid(form: map<Field, string>, m: PayMethod, amountCents: int)
    requires IsCard(m)
    ensures (forall f :: !Violates(form, m, amountCents, f)) <==>
      Get(form, Amount) != "" && amountCents > 0 &&
      Get(form, CardNumber) != "" && |Text.WithoutSpaces(Get(form, CardNumber))| >= 16 &&
      |Get(form, ExpiryDate)| >= 5 && |Get(form, Cvv)| >= 3 && !Text.IsBlank(Get(form, CardHolderName))
  {
    if !Violates(form, m, amountCents, Amount) && !Violates(form, m, amountCents, CardNumber) &&
       !Violates(form, m, amountCents, ExpiryDate) && !Violates(form, m, amountCents, Cvv) &&
       !Violates(form, m, amountCents, CardHolderName) {
      forall f
        ensures !Violates(form, m, amountCents, f)
      {
      }
    }
  }

  /**
   * A card payment typed through the formatters passes exactly when the
   * amount is positive, 16 card digits and 4 expiry digits were typed, the
   * CVV has 3 characters and the holder's name is not blank.
   */
  lemma CardFormValid(form: map<Field, string>, m: PayMethod, amountCents: int, typedCard: string, typedExpiry: string)
    requires IsCard(m)
    requires Get(form, CardNumber) == FormatCardNumber(typedCard)
    requires Get(form, ExpiryDate) == FormatExpiryDate(typedExpiry)
    ensures (forall f :: !Violates(form, m, amountCents, f)) <==>
      Get(form, Amount) != "" && amountCents > 0 &&
      |Text.DigitsOf(typedCard)| >= 16 && |Text.DigitsOf(typedExpiry)| >= 4 &&
      |Get(form, Cvv)| >= 3 && !Text.IsBlank(Get(form, CardHolderName))
  {
    CardFieldsValid(form, m, amountCents);
    CardNumberLengthCheck(typedCard);
    ExpiryLengthCheck(typedExpiry);
    if |Text.DigitsOf(typedCard)| >= 16 {
      assert |Get(form, CardNumber)| >= 16;
    }
  }

  // ---------------------------------------------------------------------
  // Payment details.

  /** `prefix` followed by the last four characters of `number`. */
  function Masked(prefix: string, number: string): (shown: string)
    ensures |shown| == |prefix| + Min(4, |number|)
    ensures shown[..|prefix|] == prefix
    ensures Text.EndsWith(number, shown[|prefix|..])
  {
    var shown := prefix + Text.LastChars(number, 4);
    assert shown[|prefix|..] == Text.LastChars(number, 4);
    shown
  }

  /**
   * `d` shows a card: exactly the number, holder and method keys, the
   * holder and method as given, and the number as "**** **** **** "
   * followed by its last four characters.
   */
  predicate CardShown(d: map<string, string>, m: PayMethod, form: map<Field, string>)
  {
    d.Keys == {"cardNumber", "cardHolderName", "type"} &&
    d["cardHolderName"] == Get(form, CardHolderName) && d["type"] == MethodId(m) &&
    |d["cardNumber"]| == 15 + Min(4, |Get(form, CardNumber)|) &&
    d["cardNumber"][..15] == "**** **** **** " &&
    Text.EndsWith(Get(form, CardNumber), d["cardNumber"][15..])
  }

  /**
   * `d` shows a transfer: exactly the account, holder and routing keys, the
   * holder and routing number as given, and the account as "**** **** "
   * followed by its last four characters.
   */
  predicate BankShown(d: map<string, string>, form: map<Field, string>)
  {
    d.Keys == {"accountNumber", "accountHolderName", "routingNumber"} &&
    d["accountHolderName"] == Get(form, AccountHolderName) &&
    d["routingNumber"] == Get(form, RoutingNumber) &&
    |d["accountNumber"]| == 10 + Min(4, |Get(form, AccountNumber)|) &&
    d["accountNumber"][..10] == "**** **** " &&
    Text.EndsWith(Get(form, AccountNumber), d["accountNumber"][10..])
  }

  /** `d` shows a wallet: exactly the wallet id, as given, and the wallet method. */
  predicate WalletShown(d: map<string, string>, form: map<Field, string>)
  {
    d.Keys == {"walletId", "type"} && d["walletId"] == Get(form, DigitalWalletId) && d["type"] == "digital_wallet"
  }

  /** The wallet details: its id and the method. */
  function WalletDetails(form: map<Field, string>): (d: map<string, string>)
    ensures WalletShown(d, form)
  {
    map["walletId" := Get(form, DigitalWalletId), "type" := "digital_wallet"]
  }

  /** The card details: the masked number, the holder and the card method. */
  function CardDetails(m: PayMethod, form: map<Field, string>): (d: map<string, string>)
    ensures CardShown(d, m, form)
  {
    var shown := Masked("**** **** **** ", Get(form, CardNumber));
    map["cardNumber" := shown, "cardHolderName" := Get(form, CardHolderName), "type" := MethodId(m)]
  }

  /** The transfer details: the masked account, the holder and the routing number. */
  function BankDetails(form: map<Field, string>): (d: map<string, string>)
    ensures BankShown(d, form)
  {
    var shown := Masked("**** **** ", Get(form, AccountNumber));
    map["accountNumber" := shown, "accountHolderName" := Get(form, AccountHolderName),
        "routingNumber" := Get(form, RoutingNumber)]
  }

  /**
   * `getPaymentDetails`: for a card, the number masked to
   * "**** **** **** " and its last four characters, the holder and the
   * method; for a transfer, the account masked to "**** **** " and its
   * last four characters, the holder and the routing number; for a wallet,
   * its id and the method.
   */
  function PaymentDetails(m: PayMethod, form: map<Field, string>): (d: map<string, string>)
    ensures IsCard(m) ==> d == CardDetails(m, form)
    ensures m == BankTransfer ==> d == BankDetails(form)
    ensures m == DigitalWallet ==> d == WalletDetails(form)
  {
    if IsCard(m) then CardDetails(m, form)
    else if m == BankTransfer then BankDetails(form)
    else WalletDetails(form)
  }

  /** An error message is on screen for a field when its entry is present and not empty. */
  predicate Shows(errors: map<Field, string>, f: Field)
  {
    f in errors && errors[f] != ""
  }

  /** One rule of `validateForm`: add the field's message when the field breaks its rule. */
  function Check(errs: map<Field, string>, form: map<Field, string>, m: PayMethod, amountCents: int, f: Field)
    : map<Field, string>
  {
    if Violates(form, m, amountCents, f) then errs[f := Message(f)] else errs
  }

  /** The rules for `fs`, applied in order. */
  function CheckAll(errs: map<Field, string>, form: map<Field, string>, m: PayMethod, amountCents: int,
                    fs: seq<Field>): map<Field, string>
    decreases |fs|
  {
    if fs == [] then errs else CheckAll(Check(errs, form, m, amountCents, fs[0]), form, m, amountCents, fs[1..])
  }

  /** The fields of each method's block in `validateForm`, in the order it checks them. */
  function MethodFields(m: PayMethod): seq<Field>
  {
    match m
    case CreditCard | DebitCard => [CardNumber, ExpiryDate, Cvv, CardHolderName]
    case BankTransfer => [AccountNumber, RoutingNumber, AccountHolderName]
    case DigitalWallet => [DigitalWalletId]
  }

  /** Every field `validateForm` checks for a method: the amount, then the method's block. */
  function FieldsOf(m: PayMethod): seq<Field>
  {
    [Amount] + MethodFields(m)
  }

  /** The messages `validateForm` produces on an empty error map. */
  function Validation(form: map<Field, string>, m: PayMethod, amountCents: int): map<Field, string>
  {
    CheckAll(map[], form, m, amountCents, FieldsOf(m))
  }

  /**
   * Applying the rules for `fs` keeps the earlier messages and adds one,
   * with the field's own text, for each field of `fs` that breaks its rule.
   */
  lemma {:induction false} CheckAllMessages(errs: map<Field, string>, form: map<Field, string>, m: PayMethod,
                                            amountCents: int, fs: seq<Field>)
    requires forall f :: f in errs ==> f != Description && errs[f] == Message(f)
    ensures forall f :: f in CheckAll(errs, form, m, amountCents, fs) <==>
      f in errs || (f in fs && Violates(form, m, amountCents, f))
    ensures forall f :: f in CheckAll(errs, form, m, amountCents, fs) ==>
      f != Description && CheckAll(errs, form, m, amountCents, fs)[f] == Message(f)
    decreases |fs|
  {
    if fs != [] {
      var next := Check(errs, form, m, amountCents, fs[0]);
      CheckAllMessages(next, form, m, amountCents, fs[1..]);
      assert fs == [fs[0]] + fs[1..];
    }
  }

  /** A field outside the method's checks never breaks a rule. */
  lemma OnlyCheckedFieldsBreak(form: map<Field, string>, m: PayMethod, amountCents: int, f: Field)
    ensures Violates(form, m, amountCents, f) ==> f in FieldsOf(m)
  {
  }

  /**
   * What `validateForm` promises: a message exactly for the fields that
   * break their rule, each with its own text.
   */
  lemma ValidationMessages(form: map<Field, string>, m: PayMethod, amountCents: int)
    ensures forall f :: f in Validation(form, m, amountCents) <==> Violates(form, m, amountCents, f)
    ensures forall f :: f in Validation(form, m, amountCents) ==>
      f != Description && Validation(form, m, amountCents)[f] == Message(f)
  {
    CheckAllMessages(map[], form, m, amountCents, FieldsOf(m));
    forall f
      ensures Violates(form, m, amountCents, f) ==> f in FieldsOf(m)
    {
      OnlyCheckedFieldsBreak(form, m, amountCents, f);
    }
  }

  /** The card block of `validateForm`: one message per card field that breaks its rule. */
  method CheckCardFields(form: map<Field, string>, m: PayMethod, amountCents: int, errs: map<Field, string>)
    returns (newErrors: map<Field, string>)
    requires IsCard(m)
    ensures newErrors == CheckAll(errs, form, m, amountCents, MethodFields(m))
  {
    newErrors := errs;
    if BadCardNumber(Get(form, CardNumber)) {
      newErrors := newErrors[CardNumber := Message(CardNumber)];
    }
    assert newErrors == Check(errs, form, m, amountCents, CardNumber);
    var e1 := newErrors;
    if BadExpiryDate(Get(form, ExpiryDate)) {
      newErrors := newErrors[ExpiryDate := Message(ExpiryDate)];
    }
    assert newErrors == Check(e1, form, m, amountCents, ExpiryDate);
    var e2 := newErrors;
    if BadCvv(Get(form, Cvv)) {
      newErrors := newErrors[Cvv := Message(Cvv)];
    }
    assert newErrors == Check(e2, form, m, amountCents, Cvv);
    var e3 := newErrors;
    if Text.IsBlank(Get(form, CardHolderName)) {
      newErrors := newErrors[CardHolderName := Message(CardHolderName)];
    }
    assert newErrors == Check(e3, form, m, amountCents, CardHolderName);
    CheckAllUnfold4(errs, form, m, amountCents, MethodFields(m));
  }

  lemma CheckAllUnfold4(errs: map<Field, string>, form: map<Field, string>, m: PayMethod, amountCents: int,
                        fs: seq<Field>)
    requires |fs| == 4
    ensures CheckAll(errs, form, m, amountCents, fs) ==
      Check(Check(Check(Check(errs, form, m, amountCents, fs[0]), form, m, amountCents, fs[1]),
                  form, m, amountCents, fs[2]), form, m, amountCents, fs[3])
  {
    var e1 := Check(errs, form, m, amountCents, fs[0]);
    var e2 := Check(e1, form, m, amountCents, fs[1]);
    var e3 := Check(e2, form, m, amountCents, fs[2]);
    calc {
      CheckAll(errs, form, m, amountCents, fs);
      CheckAll(e1, form, m, amountCents, fs[1..]);
      { assert fs[1..][0] == fs[1] && fs[1..][1..] == fs[2..]; }
      CheckAll(e2, form, m, amountCents, fs[2..]);
      { assert fs[2..][0] == fs[2] && fs[2..][1..] == fs[3..]; }
      CheckAll(e3, form, m, amountCents, fs[3..]);
      { assert fs[3..][0] == fs[3] && fs[3..][1..] == []; }
      CheckAll(Check(e3, form, m, amountCents, fs[3]), form, m, amountCents, []);
    }
  }

  /** The bank-transfer block of `validateForm`. */
  method CheckBankFields(form: map<Field, string>, m: PayMethod, amountCents: int, errs: map<Field, string>)
    returns (newErrors: map<Field, string>)
    requires m == BankTransfer
    ensures newErrors == CheckAll(errs, form, m, amountCents, MethodFields(m))
  {
    newErrors := errs;
    if Text.IsBlank(Get(form, AccountNumber)) {
      newErrors := newErrors[AccountNumber := Message(AccountNumber)];
    }
    assert newErrors == Check(errs, form, m, amountCents, AccountNumber);
    var e1 := newErrors;
    if Text.IsBlank(Get(form, RoutingNumber)) {
      newErrors := newErrors[RoutingNumber := Message(RoutingNumber)];
    }
    assert newErrors == Check(e1, form, m, amountCents, RoutingNumber);
    var e2 := newErrors;
    if Text.IsBlank(Get(form, AccountHolderName)) {
      newErrors := newErrors[AccountHolderName := Message(AccountHolderName)];
    }
    assert newErrors == Check(e2, form, m, amountCents, AccountHolderName);
    var fs := MethodFields(m);
    assert fs[1..][1..][1..] == [];
    assert CheckAll(e2, form, m, amountCents, fs[1..][1..]) == newErrors;
  }

  /** The wallet block of `validateForm`. */
  method CheckWalletField(form: map<Field, string>, m: PayMethod, amountCents: int, errs: map<Field, string>)
    returns (newErrors: map<Field, string>)
    requires m == DigitalWallet
    ensures newErrors == CheckAll(errs, form, m, amountCents, MethodFields(m))
  {
    newErrors := errs;
    if Text.IsBlank(Get(form, DigitalWalletId)) {
      newErrors := newErrors[DigitalWalletId := Message(DigitalWalletId)];
    }
    assert newErrors == Check(errs, form, m, amountCents, DigitalWalletId);
    assert MethodFields(m)[1..] == [];
  }

  /** The form's state: selected method, field values, error messages and the `processing` flag. */
  class PaymentFormState {
    var selectedMethod: PayMethod
    var formData: map<Field, string>
    var errors: map<Field, string>
    var processing: bool

    constructor ()
      ensures selectedMethod == CreditCard && formData == InitialForm()
      ensures errors == map[] && !processing
    {
      selectedMethod := CreditCard;
      formData := InitialForm();
      errors := map[];
      processing := false;
    }

    /** A click on one of the method buttons. */
    method SelectMethod(m: PayMethod)
      modifies this
      ensures selectedMethod == m
      ensures formData == old(formData) && errors == old(errors) && processing == old(processing)
    {
      selectedMethod := m;
    }

    /**
     * `handleInputChange`: store the value in that field, and blank that
     * field's message if one is showing. No other field or message changes.
     */
    method HandleInputChange(field: Field, value: string)
      modifies this
      ensures formData == old(formData)[field := value]
      ensures errors == if Shows(old(errors), field) then old(errors)[field := ""] else old(errors)
      ensures !Shows(errors, field)
      ensures forall f :: f != field ==> (Shows(errors, f) <==> Shows(old(errors), f))
      ensures selectedMethod == old(selectedMethod) && processing == old(processing)
    {
      formData := formData[field := value];
      if Shows(errors, field) {
        errors := errors[field := ""];
      }
    }

    /**
     * `validateForm`: the new messages are exactly those of the fields
     * that break their rule, each with its own text, and the form is valid
     * iff there are none.
     */
    method ValidateForm(amountCents: int) returns (valid: bool)
      modifies this
      ensures errors == Validation(formData, selectedMethod, amountCents)
      ensures forall f :: f in errors <==> Violates(formData, selectedMethod, amountCents, f)
      ensures forall f :: f in errors ==> f != Description && errors[f] == Message(f)
      ensures valid <==> forall f :: !Violates(formData, selectedMethod, amountCents, f)
      ensures formData == old(formData) && selectedMethod == old(selectedMethod)
      ensures processing == old(processing)
    {
      var newErrors: map<Field, string> := map[];
      if Get(formData, Amount) == "" || amountCents <= 0 {
        newErrors := newErrors[Amount := Message(Amount)];
      }
      assert newErrors == Check(map[], formData, selectedMethod, amountCents, Amount);
      match selectedMethod {
        case CreditCard | DebitCard =>
          newErrors := CheckCardFields(formData, selectedMethod, amountCents, newErrors);
        case BankTransfer =>
          newErrors := CheckBankFields(formData, selectedMethod, amountCents, newErrors);
        case DigitalWallet =>
          newErrors := CheckWalletField(formData, selectedMethod, amountCents, newErrors);
      }
      assert FieldsOf(selectedMethod)[1..] == MethodFields(selectedMethod);
      assert newErrors == Validation(formData, selectedMethod, amountCents);
      ValidationMessages(formData, selectedMethod, amountCents);
      errors := newErrors;
      valid := |newErrors.Keys| == 0;
      assert valid <==> forall f :: f !in newErrors;
    }

    /**
     * `handleSubmit`: validate; when the form is invalid nothing is handed
     * on; otherwise the payment handed to `onPaymentSuccess` carries the
     * resident, the amount, the method, the description and the masked
     * details, and `processing` is back to false afterwards whatever the
     * handler does.
     */
    method HandleSubmit(residentId: int, amountCents: int) returns (request: Option<Domain.PaymentRequest>)
      modifies this
      ensures request.Some? <==> forall f :: !Violates(formData, selectedMethod, amountCents, f)
      ensures request.Some? ==>
        request.value == Domain.PaymentRequest(residentId, amountCents, MethodId(selectedMethod),
                                               Get(formData, Description), PaymentDetails(selectedMethod, formData))
      ensures request.Some? ==> !processing
      ensures request.None? ==> processing == old(processing)
      ensures errors == Validation(formData, selectedMethod, amountCents)
      ensures formData == old(formData) && selectedMethod == old(selectedMethod)
    {
      var valid := ValidateForm(amountCents);
      if !valid {
        return None;
      }
      processing := true;
      request := Some(Domain.PaymentRequest(residentId, amountCents, MethodId(selectedMethod),
                                            Get(formData, Description), PaymentDetails(selectedMethod, formData)));
      processing := false;
    }
  }
}
