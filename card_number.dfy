/** `formatCardNumber`: show the first and last four characters of a card
    number and mask the eight between them. */
module CardNumber {

  /** A returned string, or the error the function throws. */
  datatype Result = Ok(value: string) | Error(message: string)

  const CardLength := 16
  const Mask := "********"

  /** The shape of a masked number: sixteen characters, the first and last
      four taken from `cardNumber`, eight `*` between them. */
  ghost predicate IsMaskOf(masked: string, cardNumber: string)
    requires |cardNumber| == CardLength
  {
    && |masked| == CardLength
    && masked[..4] == cardNumber[..4]
    && masked[12..] == cardNumber[12..]
    && forall i :: 4 <= i < 12 ==> masked[i] == '*'
  }

  /** Only the length is checked: any 16 characters, digits or not, are
      accepted; anything else throws. Lengths are counted in characters,
      which agrees with the source's UTF-16 code units on text inside the
      Basic Multilingual Plane. `slice(-4)` of a 16-character string
      is its last four characters. */
  function FormatCardNumber(cardNumber: string): (r: Result)
    ensures r.Error? <==> |cardNumber| != CardLength
    ensures r.Ok? ==> IsMaskOf(r.value, cardNumber)
  {
    if |cardNumber| != CardLength then
      Error("Card number must be 16 digits long")
    else
      Ok(cardNumber[..4] + Mask + cardNumber[|cardNumber| - 4..])
  }

  /** A mask is determined by its shape: two strings of the shape for the
      same number are equal. */
  lemma {:induction false} MaskShapeUnique(m1: string, m2: string, cardNumber: string)
    requires |cardNumber| == CardLength
    requires IsMaskOf(m1, cardNumber) && IsMaskOf(m2, cardNumber)
    ensures m1 == m2
  {
    forall i | 0 <= i < CardLength ensures m1[i] == m2[i] {
      if i < 4 {
        assert m1[i] == m1[..4][i] && m2[i] == m2[..4][i];
      } else if i >= 12 {
        assert m1[i] == m1[12..][i - 12] && m2[i] == m2[12..][i - 12];
      }
    }
  }

  /** The middle eight characters never reach the output: two numbers that
      agree on their first and last four mask to the same string. */
  lemma {:induction false} MiddleNeverLeaks(a: string, b: string)
    requires |a| == CardLength && |b| == CardLength
    requires a[..4] == b[..4] && a[12..] == b[12..]
    ensures FormatCardNumber(a) == FormatCardNumber(b)
  {
    var ra, rb := FormatCardNumber(a), FormatCardNumber(b);
    assert IsMaskOf(rb.value, a);
    MaskShapeUnique(ra.value, rb.value, a);
  }

  /** Masking a masked number changes nothing. */
  lemma {:induction false} FormatIdempotent(cardNumber: string)
    requires FormatCardNumber(cardNumber).Ok?
    ensures FormatCardNumber(FormatCardNumber(cardNumber).value) == FormatCardNumber(cardNumber)
  {
    var m := FormatCardNumber(cardNumber).value;
    var mm := FormatCardNumber(m).value;
    assert IsMaskOf(mm, cardNumber) by {
      forall i | 4 <= i < 12 ensures mm[i] == '*' {}
      assert mm[..4] == m[..4] == cardNumber[..4];
      assert mm[12..] == m[12..] == cardNumber[12..];
    }
    MaskShapeUnique(mm, m, cardNumber);
  }

  /** A 16-character string that is not a card number is still accepted,
      and a 15-digit one is not. */
  lemma OnlyLengthIsChecked()
    ensures FormatCardNumber("ABCDEFGHIJKLMNOP") == Ok("ABCD********MNOP")
    ensures FormatCardNumber("123456789012345").Error?
  {
  }
}
