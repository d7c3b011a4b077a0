/** The Serbian mobile-phone rule that the employee and client forms both
    attach to `phoneNumber`: the regular expression
    `^(\+3816|06)(\d{7,8}|(77|78)\d{5,6})$`, where `\d` is an ASCII digit. */
module Phone {

  predicate IsDigit(c: char) {
    '0' <= c <= '9'
  }

  predicate AllDigits(s: string) {
    forall i :: 0 <= i < |s| ==> IsDigit(s[i])
  }

  predicate HasPrefix(s: string, p: string) {
    |p| <= |s| && s[..|p|] == p
  }

  /** `\d{7,8}|(77|78)\d{5,6}`, anchored at the end: what may follow the prefix. */
  predicate MatchesSubscriber(t: string) {
    || (7 <= |t| <= 8 && AllDigits(t))
    || ((HasPrefix(t, "77") || HasPrefix(t, "78")) && 5 <= |t| - 2 <= 6 && AllDigits(t[2..]))
  }

  /** The whole anchored expression, alternative by alternative. The two
      prefixes start with different characters, so at most one applies. */
  function MatchesPhoneRegex(s: string): (m: bool)
    ensures m ==> HasPrefix(s, "+3816") != HasPrefix(s, "06")
  {
    assert HasPrefix(s, "+3816") ==> s[0] == s[..5][0] == '+';
    assert HasPrefix(s, "06") ==> s[0] == s[..2][0] == '0';
    || (HasPrefix(s, "+3816") && MatchesSubscriber(s[5..]))
    || (HasPrefix(s, "06") && MatchesSubscriber(s[2..]))
  }

  /** Reference definition: a prefix `+3816` or `06`, then 7 or 8 digits. */
  predicate IsSerbianMobile(s: string) {
    || (HasPrefix(s, "+3816") && 7 <= |s| - 5 <= 8 && AllDigits(s[5..]))
    || (HasPrefix(s, "06") && 7 <= |s| - 2 <= 8 && AllDigits(s[2..]))
  }

  /** Two leading digits followed by digits are digits. */
  lemma DigitsAfterDigitPrefix(t: string)
    requires |t| >= 2 && IsDigit(t[0]) && IsDigit(t[1]) && AllDigits(t[2..])
    ensures AllDigits(t)
  {
    forall i | 0 <= i < |t| ensures IsDigit(t[i]) {
      if i >= 2 {
        assert t[i] == t[2..][i - 2];
      }
    }
  }

  /** The `(77|78)\d{5,6}` alternative adds nothing to `\d{7,8}`. */
  lemma {:induction false} SubscriberIsSevenOrEightDigits(t: string)
    ensures MatchesSubscriber(t) <==> (7 <= |t| <= 8 && AllDigits(t))
  {
    if (HasPrefix(t, "77") || HasPrefix(t, "78")) && 5 <= |t| - 2 <= 6 && AllDigits(t[2..]) {
      assert t[0] == t[..2][0] && t[1] == t[..2][1];
      DigitsAfterDigitPrefix(t);
    }
  }

  /** The regular expression accepts exactly the reference language. */
  lemma {:induction false} PhoneRegexExact(s: string)
    ensures MatchesPhoneRegex(s) <==> IsSerbianMobile(s)
  {
    if HasPrefix(s, "+3816") {
      SubscriberIsSevenOrEightDigits(s[5..]);
    }
    if HasPrefix(s, "06") {
      SubscriberIsSevenOrEightDigits(s[2..]);
    }
  }

  /** An accepted number is 9 or 10 characters long and starts with `06`,
      or 12 or 13 characters long and starts with `+3816`. */
  lemma {:induction false} AcceptedPhoneShape(s: string)
    requires MatchesPhoneRegex(s)
    ensures || (HasPrefix(s, "06") && 9 <= |s| <= 10)
            || (HasPrefix(s, "+3816") && 12 <= |s| <= 13)
  {
    PhoneRegexExact(s);
  }

  /** The international prefix alone, or a number with a separator, is
      rejected. */
  lemma RejectedExamples()
    ensures !MatchesPhoneRegex("+381")
    ensures !MatchesPhoneRegex("064 123 4567")
    ensures MatchesPhoneRegex("0641234567")
  {
    PhoneRegexExact("+381");
    PhoneRegexExact("064 123 4567");
    assert !IsDigit("064 123 4567"[2..][1]);
    assert HasPrefix("0641234567", "06");
    assert AllDigits("0641234567"[2..]);
  }
}
