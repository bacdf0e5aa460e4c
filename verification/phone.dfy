/**
 * server/utils/phone.ts: normalising a US phone number before it is sent to
 * Brevo. The thrown `Error`s are the `Err` values.
 */
module Phone {
  import opened Outcomes
  import opened Text

  const RequiredMessage := "Phone number is required"
  const LengthMessage := "Phone number must be exactly 10 digits"

  /** `formatPhoneNumber`: keep the digits, insist on ten of them, prefix `+1`. */
  function FormatPhoneNumber(phone: string): (r: Result<string, string>)
    ensures phone == "" <==> r == Err(RequiredMessage)
    ensures r == Err(LengthMessage) <==> phone != "" && |Digits(phone)| != 10
    ensures r.Ok? ==> |r.value| == 12 && r.value[..2] == "+1" && r.value[2..] == Digits(phone)
  {
    if phone == "" then Err(RequiredMessage)
    else
      var digits := Digits(phone);
      if |digits| != 10 then Err(LengthMessage)
      else Ok("+1" + digits)
  }

  /** Only the digits matter: two non-empty spellings of the same digits give the same result. */
  lemma SameDigitsSameResult(a: string, b: string)
    requires a != "" && b != "" && Digits(a) == Digits(b)
    ensures FormatPhoneNumber(a) == FormatPhoneNumber(b)
  {
  }

  /** The digits of a result are a `1` followed by the input's ten digits. */
  lemma ResultDigits(phone: string)
    requires FormatPhoneNumber(phone).Ok?
    ensures Digits(FormatPhoneNumber(phone).value) == "1" + Digits(phone)
  {
    var d := Digits(phone);
    DigitsAppend("+1", d);
    DigitsOfDigits(d);
    assert Digits("+1") == "1" by {
      assert "+1"[1..] == "1";
      assert Digits("1"[1..]) == [];
    }
  }

  /** The normaliser is not idempotent: a result fed back in has eleven digits and is rejected. */
  lemma NotIdempotent(phone: string)
    requires FormatPhoneNumber(phone).Ok?
    ensures FormatPhoneNumber(FormatPhoneNumber(phone).value) == Err(LengthMessage)
  {
    ResultDigits(phone);
  }
}
