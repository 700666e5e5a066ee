/**
 * The payment step: the card fields are re-formatted on every keystroke
 * (digits only, grouped and cut to the field's width), the pay button is
 * enabled only when `validateCard` holds, and submitting emits the payment
 * record and then moves on.
 */
module PaymentForm {
  import opened Wrappers

  // ------------------------------------------------------------ characters

  /** The regular-expression class `\d`: ASCII digits only. */
  predicate IsDigit(c: char) {
    '0' <= c <= '9'
  }

  /**
   * The regular-expression class `\s`, which is also what `trim` removes: the
   * ECMAScript white-space and line-terminator characters.
   */
  predicate IsJsSpace(c: char) {
    var n := c as int;
    n == 0x09 || n == 0x0A || n == 0x0B || n == 0x0C || n == 0x0D || n == 0x20 || n == 0xA0 ||
    n == 0x1680 || (0x2000 <= n <= 0x200A) || n == 0x2028 || n == 0x2029 || n == 0x202F ||
    n == 0x205F || n == 0x3000 || n == 0xFEFF
  }

  predicate AllDigits(s: string) {
    forall i :: 0 <= i < |s| ==> IsDigit(s[i])
  }

  /** Every character is a digit or `sep`. */
  predicate DigitsAnd(s: string, sep: char) {
    forall i :: 0 <= i < |s| ==> IsDigit(s[i]) || s[i] == sep
  }

  /** `replace(/\D/g, '')` */
  function StripNonDigits(s: string): (r: string)
    ensures AllDigits(r) && |r| <= |s|
  {
    if s == [] then []
    else (if IsDigit(s[0]) then [s[0]] else []) + StripNonDigits(s[1..])
  }

  /** Removes every occurrence of one character. */
  function RemoveChar(s: string, c: char): string {
    if s == [] then []
    else (if s[0] == c then [] else [s[0]]) + RemoveChar(s[1..], c)
  }

  /** `replace(/\s/g, '')` */
  function RemoveWs(s: string): string {
    if s == [] then []
    else (if IsJsSpace(s[0]) then [] else [s[0]]) + RemoveWs(s[1..])
  }

  function TrimStart(s: string): string {
    if s != [] && IsJsSpace(s[0]) then TrimStart(s[1..]) else s
  }

  function TrimEnd(s: string): string {
    if s != [] && IsJsSpace(s[|s| - 1]) then TrimEnd(s[..|s| - 1]) else s
  }

  /** `trim()` */
  function Trim(s: string): string {
    TrimEnd(TrimStart(s))
  }

  /**
   * `replace(/(\d{k})(?=\d)/g, '$1' + sep)` on a string of digits: a `sep` after
   * every full group of `k` digits that is followed by another digit.
   */
  function Group(d: string, k: nat, sep: char): string
    requires k >= 1
    decreases |d|
  {
    if |d| > k then d[..k] + [sep] + Group(d[k..], k, sep) else d
  }

  /** `if (value.length > n) value = value.substring(0, n)` */
  function Truncate(s: string, n: nat): (r: string)
    ensures |r| <= n && r <= s
    ensures |s| <= n ==> r == s
  {
    if |s| > n then s[..n] else s
  }

  // ------------------------------------------------------------ formatters

  /** The number field: digits grouped by 4 with spaces, at most 19 characters. */
  function FormatNumber(value: string): string {
    Truncate(Group(StripNonDigits(value), 4, ' '), 19)
  }

  /** The expiry field: digits grouped by 2 with `/`, at most 5 characters. */
  function FormatExpiry(value: string): string {
    Truncate(Group(StripNonDigits(value), 2, '/'), 5)
  }

  /** The CVV field: digits only, at most 4. */
  function FormatCvv(value: string): string {
    Truncate(StripNonDigits(value), 4)
  }

  function Min(a: int, b: int): int {
    if a < b then a else b
  }

  // -------------------------------------------------------- grouping lemmas

  lemma {:induction false} GroupChars(d: string, k: nat, sep: char)
    requires k >= 1 && AllDigits(d)
    ensures DigitsAnd(Group(d, k, sep), sep)
  {
    if |d| > k {
      GroupChars(d[k..], k, sep);
      var g := Group(d, k, sep);
      forall i | 0 <= i < |g| ensures IsDigit(g[i]) || g[i] == sep {
        if i > k {
          assert g[i] == Group(d[k..], k, sep)[i - k - 1];
        }
      }
    }
  }

  lemma {:induction false} RemoveCharAppend(a: string, b: string, c: char)
    ensures RemoveChar(a + b, c) == RemoveChar(a, c) + RemoveChar(b, c)
  {
    if a != [] {
      assert (a + b)[1..] == a[1..] + b;
      RemoveCharAppend(a[1..], b, c);
    } else {
      assert a + b == b;
    }
  }

  lemma {:induction false} RemoveAbsent(s: string, c: char)
    requires forall i :: 0 <= i < |s| ==> s[i] != c
    ensures RemoveChar(s, c) == s
  {
    if s != [] {
      RemoveAbsent(s[1..], c);
      assert s == [s[0]] + s[1..];
    }
  }

  /** Taking the separators back out of a grouping gives the digits back. */
  lemma {:induction false} Ungroup(d: string, k: nat, sep: char)
    requires k >= 1 && AllDigits(d) && !IsDigit(sep)
    ensures RemoveChar(Group(d, k, sep), sep) == d
  {
    if |d| > k {
      Ungroup(d[k..], k, sep);
      RemoveCharAppend(d[..k] + [sep], Group(d[k..], k, sep), sep);
      RemoveCharAppend(d[..k], [sep], sep);
      RemoveAbsent(d[..k], sep);
      assert d[..k] + d[k..] == d;
    } else {
      RemoveAbsent(d, sep);
    }
  }

  /** Grouping at most m·k digits gives at most m·(k+1) − 1 characters. */
  lemma {:induction false} GroupLength(d: string, k: nat, sep: char, m: nat)
    requires k >= 1 && m >= 1 && |d| <= m * k
    ensures |Group(d, k, sep)| <= m * (k + 1) - 1
  {
    if |d| > k {
      assert m > 1;
      assert |d[k..]| <= (m - 1) * k;
      GroupLength(d[k..], k, sep, m - 1);
    } else {
      assert k <= m * k;
    }
  }

  /**
   * The first m·(k+1) − 1 characters of a grouping are the grouping of the first
   * m·k digits.
   */
  lemma {:induction false} GroupPrefix(d: string, k: nat, sep: char, m: nat)
    requires k >= 1 && m >= 1 && |d| >= m * k
    ensures |Group(d, k, sep)| >= m * (k + 1) - 1
    ensures Group(d, k, sep)[..m * (k + 1) - 1] == Group(d[..m * k], k, sep)
  {
    if m == 1 {
      if |d| > k {
        assert Group(d, k, sep)[..k] == d[..k];
      }
    } else {
      assert |d[k..]| >= (m - 1) * k;
      GroupPrefix(d[k..], k, sep, m - 1);
      assert d[..m * k][k..] == d[k..][..(m - 1) * k];
      assert d[..m * k][..k] == d[..k];
      var g := Group(d, k, sep);
      var rest := Group(d[k..], k, sep);
      assert g == d[..k] + [sep] + rest;
      assert m * (k + 1) - 1 == k + 1 + ((m - 1) * (k + 1) - 1);
      assert g[..m * (k + 1) - 1] == d[..k] + [sep] + rest[..(m - 1) * (k + 1) - 1];
    }
  }

  /**
   * A grouped formatter (group size k, width m·(k+1) − 1) yields digits and
   * separators only, within its width; removing the separators gives the first
   * min(m·k, n) digits of the input, and formatting its own output changes nothing.
   */
  lemma GroupedFormat(value: string, k: nat, sep: char, m: nat)
    requires k >= 1 && m >= 1 && !IsDigit(sep)
    ensures var d := StripNonDigits(value);
      var f := Truncate(Group(d, k, sep), m * (k + 1) - 1);
      DigitsAnd(f, sep) && |f| <= m * (k + 1) - 1 &&
      RemoveChar(f, sep) == d[..Min(m * k, |d|)] &&
      StripNonDigits(f) == d[..Min(m * k, |d|)] &&
      Truncate(Group(StripNonDigits(f), k, sep), m * (k + 1) - 1) == f
  {
    var d := StripNonDigits(value);
    var f := Truncate(Group(d, k, sep), m * (k + 1) - 1);
    var e := d[..Min(m * k, |d|)];
    GroupedTruncation(d, k, sep, m);
    assert AllDigits(e) by {
      forall i | 0 <= i < |e| ensures IsDigit(e[i]) {
        assert e[i] == d[i];
      }
    }
    GroupChars(e, k, sep);
    Ungroup(e, k, sep);
    StripIsRemove(f, sep);
    assert e[..Min(m * k, |e|)] == e;
    GroupedTruncation(e, k, sep, m);
  }

  /** Cutting a grouping to width m·(k+1) − 1 is grouping the first min(m·k, n) digits. */
  lemma GroupedTruncation(d: string, k: nat, sep: char, m: nat)
    requires k >= 1 && m >= 1
    ensures Truncate(Group(d, k, sep), m * (k + 1) - 1) == Group(d[..Min(m * k, |d|)], k, sep)
  {
    if |d| <= m * k {
      GroupLength(d, k, sep, m);
      assert d[..Min(m * k, |d|)] == d;
    } else {
      GroupPrefix(d, k, sep, m);
      GroupLength(d[..m * k], k, sep, m);
    }
  }

  lemma {:induction false} StripIsRemove(s: string, sep: char)
    requires DigitsAnd(s, sep) && !IsDigit(sep)
    ensures StripNonDigits(s) == RemoveChar(s, sep)
  {
    if s != [] {
      StripIsRemove(s[1..], sep);
    }
  }

  lemma {:induction false} StripDigits(s: string)
    requires AllDigits(s)
    ensures StripNonDigits(s) == s
  {
    if s != [] {
      StripDigits(s[1..]);
      assert s == [s[0]] + s[1..];
    }
  }

  lemma {:induction false} RemoveWsIsRemoveSpace(s: string)
    requires DigitsAnd(s, ' ')
    ensures RemoveWs(s) == RemoveChar(s, ' ')
  {
    if s != [] {
      RemoveWsIsRemoveSpace(s[1..]);
    }
  }

  // ------------------------------------------------------ formatter properties

  /**
   * The number field holds only digits and spaces, at most 19 of them; without
   * its spaces it is the first min(16, n) digits typed; re-formatting it
   * changes nothing.
   */
  lemma FormatNumberRules(value: string)
    ensures var f := FormatNumber(value);
      var d := StripNonDigits(value);
      DigitsAnd(f, ' ') && |f| <= 19 &&
      RemoveChar(f, ' ') == d[..Min(16, |d|)] &&
      FormatNumber(f) == f
  {
    GroupedFormat(value, 4, ' ', 4);
  }

  /**
   * The expiry field holds only digits and `/`, at most 5 characters; without the
   * slashes it is the first min(4, n) digits; re-formatting it changes nothing.
   */
  lemma FormatExpiryRules(value: string)
    ensures var f := FormatExpiry(value);
      var d := StripNonDigits(value);
      DigitsAnd(f, '/') && |f| <= 5 &&
      RemoveChar(f, '/') == d[..Min(4, |d|)] &&
      FormatExpiry(f) == f
  {
    GroupedFormat(value, 2, '/', 2);
  }

  /** The CVV field is the first min(4, n) digits; re-formatting it changes nothing. */
  lemma FormatCvvRules(value: string)
    ensures var f := FormatCvv(value);
      var d := StripNonDigits(value);
      AllDigits(f) && f == d[..Min(4, |d|)] && FormatCvv(f) == f
  {
    var d := StripNonDigits(value);
    var f := FormatCvv(value);
    assert AllDigits(f) by {
      forall i | 0 <= i < |f| ensures IsDigit(f[i]) {
        assert f[i] == d[i];
      }
    }
    StripDigits(f);
  }

  // ------------------------------------------------------------- validation

  datatype CardDetails = CardDetails(number: string, name: string, expiry: string, cvv: string)

  /** `/^\d{2}\/\d{2}$/.test(expiry)` */
  predicate ExpiryPattern(s: string) {
    |s| == 5 && IsDigit(s[0]) && IsDigit(s[1]) && s[2] == '/' && IsDigit(s[3]) && IsDigit(s[4])
  }

  /** `validateCard`: any method but the card passes; a card needs all five checks. */
  predicate ValidateCard(paymentMethod: string, card: CardDetails, termsAccepted: bool) {
    paymentMethod != "card" ||
    (|RemoveWs(card.number)| == 16 && |Trim(card.name)| >= 3 && ExpiryPattern(card.expiry) &&
     |card.cvv| >= 3 && termsAccepted)
  }

  /**
   * On fields written by the formatters, `validateCard` for the card holds
   * exactly when at least 16 number digits, 4 expiry digits and 3 CVV digits were
   * typed, the trimmed name has at least 3 characters and the terms are accepted.
   * Any other method passes without the terms.
   */
  lemma ValidateFormattedCard(paymentMethod: string, number: string, name: string, expiry: string, cvv: string, terms: bool)
    ensures paymentMethod != "card" ==> ValidateCard(paymentMethod, CardDetails(number, name, expiry, cvv), false)
    ensures paymentMethod == "card" ==>
      (ValidateCard(paymentMethod, CardDetails(FormatNumber(number), name, FormatExpiry(expiry), FormatCvv(cvv)), terms) <==>
       |StripNonDigits(number)| >= 16 && |Trim(name)| >= 3 && |StripNonDigits(expiry)| >= 4 &&
       |StripNonDigits(cvv)| >= 3 && terms)
  {
    FormatNumberRules(number);
    RemoveWsIsRemoveSpace(FormatNumber(number));
    ExpiryShape(expiry);
    FormatCvvRules(cvv);
  }

  /** The formatted expiry matches `dd/dd` exactly when at least four digits were typed. */
  lemma ExpiryShape(value: string)
    ensures ExpiryPattern(FormatExpiry(value)) <==> |StripNonDigits(value)| >= 4
  {
    var d := StripNonDigits(value);
    if |d| >= 4 {
      GroupPrefix(d, 2, '/', 2);
      var e := d[..4];
      assert Group(e, 2, '/') == e[..2] + ['/'] + Group(e[2..], 2, '/');
      assert FormatExpiry(value) == [d[0], d[1], '/', d[2], d[3]];
    } else if |d| == 3 {
      assert Group(d, 2, '/') == d[..2] + ['/'] + Group(d[2..], 2, '/');
    }
  }

  // ------------------------------------------------------------------ state

  datatype CardField = Number | Name | Expiry | Cvv

  /** The field `handleCardChange` stores for the input named `field`. */
  function Formatted(field: CardField, value: string): string {
    match field
    case Number => FormatNumber(value)
    case Expiry => FormatExpiry(value)
    case Cvv => FormatCvv(value)
    case Name => value
  }

  function WithCardField(card: CardDetails, field: CardField, value: string): CardDetails {
    match field
    case Number => card.(number := value)
    case Name => card.(name := value)
    case Expiry => card.(expiry := value)
    case Cvv => card.(cvv := value)
  }

  /** The `initialData` fields the form reads (`method`, `cardNumber`, ...); each may be absent. */
  datatype InitialPayment = InitialPayment(
    paymentMethod: Option<string>, cardNumber: Option<string>, cardName: Option<string>,
    cardExpiry: Option<string>, cardCvv: Option<string>)

  /** The record handed to `onUpdate`, keyed `method`, `cardDetails`, `saveCard` (its ISO timestamp is not modelled). */
  datatype PaymentInfo = PaymentInfo(paymentMethod: string, cardDetails: Option<CardDetails>, saveCard: bool)

  datatype SubmitEffect = OnUpdate(info: PaymentInfo) | OnNext

  /**
   * What the form reads back from a record it submitted: only `method`; the card
   * fields sit under `cardDetails`, not under the `card…` names the form reads.
   */
  function Reread(info: PaymentInfo): InitialPayment {
    InitialPayment(Some(info.paymentMethod), None, None, None, None)
  }

  datatype PaymentState = PaymentState(paymentMethod: string, cardDetails: CardDetails, saveCard: bool, termsAccepted: bool)

  /** The `useState` initial values. */
  function Initial(data: InitialPayment): PaymentState {
    PaymentState(
      OrElse(data.paymentMethod, "card"),
      CardDetails(OrElse(data.cardNumber, ""), OrElse(data.cardName, ""), OrElse(data.cardExpiry, ""), OrElse(data.cardCvv, "")),
      false, false)
  }

  /**
   * A form mounted on its own submitted record keeps the method but starts with
   * empty card fields and unchecked boxes.
   */
  lemma RereadLosesCard(info: PaymentInfo)
    requires info.paymentMethod != ""
    ensures Initial(Reread(info)) == PaymentState(info.paymentMethod, CardDetails("", "", "", ""), false, false)
  {
  }

  class Form {
    var paymentMethod: string
    var cardDetails: CardDetails
    var saveCard: bool
    var termsAccepted: bool

    function View(): PaymentState
      reads this
    {
      PaymentState(paymentMethod, cardDetails, saveCard, termsAccepted)
    }

    constructor (initialData: InitialPayment)
      ensures View() == Initial(initialData)
    {
      paymentMethod := OrElse(initialData.paymentMethod, "card");
      cardDetails := CardDetails(OrElse(initialData.cardNumber, ""), OrElse(initialData.cardName, ""),
        OrElse(initialData.cardExpiry, ""), OrElse(initialData.cardCvv, ""));
      saveCard, termsAccepted := false, false;
    }

    /** A click on a method tile. */
    method SetPaymentMethod(id: string)
      modifies this
      ensures View() == old(View()).(paymentMethod := id)
    {
      paymentMethod := id;
    }

    /** Formats the typed value for its field and stores it there; the other fields keep theirs. */
    method HandleCardChange(field: CardField, value: string)
      modifies this
      ensures View() == old(View()).(cardDetails := WithCardField(old(cardDetails), field, Formatted(field, value)))
    {
      var formatted := value;
      if field == Number {
        formatted := FormatNumber(value);
      } else if field == Expiry {
        formatted := FormatExpiry(value);
      } else if field == Cvv {
        formatted := FormatCvv(value);
      }
      cardDetails := WithCardField(cardDetails, field, formatted);
    }

    method SetSaveCard(checked: bool)
      modifies this
      ensures View() == old(View()).(saveCard := checked)
    {
      saveCard := checked;
    }

    method SetTermsAccepted(checked: bool)
      modifies this
      ensures View() == old(View()).(termsAccepted := checked)
    {
      termsAccepted := checked;
    }

    /**
     * A click on the pay button: nothing while it is disabled, otherwise the
     * payment record (card details for the card method only), then `onNext`.
     */
    method HandleSubmit() returns (effects: seq<SubmitEffect>)
      ensures !ValidateCard(paymentMethod, cardDetails, termsAccepted) ==> effects == []
      ensures ValidateCard(paymentMethod, cardDetails, termsAccepted) ==>
        effects == [OnUpdate(PaymentInfo(paymentMethod,
          if paymentMethod == "card" then Some(cardDetails) else None, saveCard)), OnNext]
    {
      if !ValidateCard(paymentMethod, cardDetails, termsAccepted) {
        return [];
      }
      var details := if paymentMethod == "card" then Some(cardDetails) else None;
      effects := [OnUpdate(PaymentInfo(paymentMethod, details, saveCard)), OnNext];
    }
  }
}
