/** Card classifier: maps a card number, as typed, to a card brand
    (`DetectCardType` in ECommerceAPI/Services/BasePaymentSimulator.cs). */
module CardClassifier {
  import opened PaymentEnums

  /** The characters a card number may carry for readability only. */
  predicate IsSeparator(c: char) {
    c == ' ' || c == '-'
  }

  /** `s.Replace(x, "")`: every occurrence of `x` removed, everything else kept in order. */
  function RemoveAll(s: string, x: char): (r: string)
    ensures |r| <= |s|
    ensures x !in r
    ensures forall c :: c in r ==> c in s
  {
    if s == [] then []
    else if s[0] == x then RemoveAll(s[1..], x)
    else [s[0]] + RemoveAll(s[1..], x)
  }

  /** The number as the classifier and the outcome resolver inspect it:
      spaces removed first, then hyphens. */
  function Clean(cardNumber: string): (r: string)
    ensures |r| <= |cardNumber|
    ensures forall c :: c in r ==> !IsSeparator(c) && c in cardNumber
  {
    RemoveAll(RemoveAll(cardNumber, ' '), '-')
  }

  /** Reference definition: the significant characters of `s`, in one pass. */
  function Significant(s: string): string {
    if s == [] then [] else (if IsSeparator(s[0]) then [] else [s[0]]) + Significant(s[1..])
  }

  /** Removing spaces and then hyphens keeps exactly the significant characters. */
  lemma {:induction false} CleanIsSignificant(s: string)
    ensures Clean(s) == Significant(s)
  {
    if s != [] {
      CleanIsSignificant(s[1..]);
      var u := RemoveAll(s[1..], ' ');
      if s[0] != ' ' {
        assert RemoveAll(s, ' ') == [s[0]] + u;
        assert ([s[0]] + u)[1..] == u;
      }
    }
  }

  lemma {:induction false} SignificantAppend(a: string, b: string)
    ensures Significant(a + b) == Significant(a) + Significant(b)
  {
    if a != [] {
      assert (a + b)[0] == a[0];
      assert (a + b)[1..] == a[1..] + b;
      SignificantAppend(a[1..], b);
    } else {
      assert a + b == b;
    }
  }

  /** Cleaning distributes over concatenation, so a number may be split anywhere. */
  lemma CleanAppend(a: string, b: string)
    ensures Clean(a + b) == Clean(a) + Clean(b)
  {
    CleanIsSignificant(a + b);
    CleanIsSignificant(a);
    CleanIsSignificant(b);
    SignificantAppend(a, b);
  }

  /** A number cleans to nothing exactly when it holds nothing but separators. */
  lemma {:induction false} CleanEmptyIffAllSeparators(s: string)
    ensures Clean(s) == [] <==> forall i :: 0 <= i < |s| ==> IsSeparator(s[i])
  {
    CleanIsSignificant(s);
    SignificantEmpty(s);
  }

  lemma {:induction false} SignificantEmpty(s: string)
    ensures Significant(s) == [] <==> forall i :: 0 <= i < |s| ==> IsSeparator(s[i])
  {
    if s != [] {
      SignificantEmpty(s[1..]);
      assert forall i :: 1 <= i < |s| ==> s[i] == s[1..][i - 1];
    }
  }

  /** The brand as the source computes it: it reads `cleanNumber[0]`, so it needs a
      number with at least one significant character (see `DetectCardType`). */
  function DetectCardTypeAsWritten(cardNumber: string): (r: CardType)
    requires |Clean(cardNumber)| > 0
    ensures var c := Clean(cardNumber);
      && (r == Visa <==> c[0] == '4')
      && (r == MasterCard <==> c[0] == '5')
      && (r == AmericanExpress <==> c[0] == '3' && |c| >= 2 && (c[1] == '4' || c[1] == '7'))
  {
    var c := Clean(cardNumber);
    match c[0]
    case '4' => Visa
    case '5' => MasterCard
    case '3' => if |c| >= 2 && (c[1] == '4' || c[1] == '7') then AmericanExpress else Unknown
    case _ => Unknown
  }

  /** Thirteen hyphens: as long as the shortest number request validation admits, and
      not blank, so the required-field check lets it through as well. */
  const BlankCardNumber: string := "-------------"

  /** A number validation admits can clean to the empty string, where the source's
      `cleanNumber[0]` has nothing to read. */
  lemma BlankCardNumberHasNoDigit()
    ensures 13 <= |BlankCardNumber| <= 19
    ensures Clean(BlankCardNumber) == []
  {
  }

  /** A number typed without separators is inspected exactly as typed. */
  lemma {:induction false} CleanWithoutSeparators(s: string)
    requires forall i :: 0 <= i < |s| ==> !IsSeparator(s[i])
    ensures Clean(s) == s
  {
    CleanIsSignificant(s);
    SignificantIdentity(s);
  }

  lemma {:induction false} SignificantIdentity(s: string)
    requires forall i :: 0 <= i < |s| ==> !IsSeparator(s[i])
    ensures Significant(s) == s
  {
    if s != [] {
      assert forall i :: 0 <= i < |s[1..]| ==> s[1..][i] == s[i + 1];
      SignificantIdentity(s[1..]);
      assert s == [s[0]] + s[1..];
    }
  }

  /** The classifier as intended: total, with a number that has no significant
      character classified as Unknown. It agrees with the source everywhere else. */
  function DetectCardType(cardNumber: string): (r: CardType)
    ensures var c := Clean(cardNumber);
      && (r == Visa <==> |c| >= 1 && c[0] == '4')
      && (r == MasterCard <==> |c| >= 1 && c[0] == '5')
      && (r == AmericanExpress <==> |c| >= 2 && c[0] == '3' && (c[1] == '4' || c[1] == '7'))
    ensures Clean(cardNumber) == [] ==> r == Unknown
    ensures |Clean(cardNumber)| > 0 ==> r == DetectCardTypeAsWritten(cardNumber)
  {
    if |Clean(cardNumber)| == 0 then Unknown else DetectCardTypeAsWritten(cardNumber)
  }

  /** Only the first two significant characters decide the brand: whatever follows a
      prefix holding two of them does not matter. */
  lemma BrandDecidedByPrefix(prefix: string, rest: string)
    requires |Clean(prefix)| >= 2
    ensures DetectCardType(prefix + rest) == DetectCardType(prefix)
  {
    CleanAppend(prefix, rest);
    var c := Clean(prefix + rest);
    assert c[0] == Clean(prefix)[0] && c[1] == Clean(prefix)[1];
  }

  /** Spaces and hyphens typed anywhere in the number never change its brand. */
  lemma SeparatorsDoNotChangeBrand(a: string, sep: char, b: string)
    requires IsSeparator(sep)
    ensures DetectCardType(a + [sep] + b) == DetectCardType(a + b)
  {
    CleanAppend(a + [sep], b);
    CleanAppend(a, [sep]);
    CleanAppend(a, b);
    CleanEmptyIffAllSeparators([sep]);
    assert Clean(a + [sep]) == Clean(a);
  }

  /** The brand of a number that starts with two non-separators is read off those two,
      by the whole prefix table. */
  lemma BrandOfDigits(number: string, d0: char, d1: char)
    requires |number| >= 2 && number[0] == d0 && number[1] == d1
    requires !IsSeparator(d0) && !IsSeparator(d1)
    ensures DetectCardType(number) == DetectCardType([d0, d1])
    ensures DetectCardType(number) ==
      if d0 == '4' then Visa
      else if d0 == '5' then MasterCard
      else if d0 == '3' && (d1 == '4' || d1 == '7') then AmericanExpress
      else Unknown
  {
    var head := number[..2];
    assert Clean(head) == [d0, d1] by {
      CleanIsSignificant(head);
      assert head[1..] == [d1];
      assert [d1][1..] == [];
    }
    assert head == [d0, d1];
    assert number == head + number[2..];
    BrandDecidedByPrefix(head, number[2..]);
  }

  // The brands of the published test numbers.

  lemma VisaTestNumberBrand()
    ensures DetectCardType("4242424242424242") == Visa
  {
  }

  lemma MasterCardTestNumberBrand()
    ensures DetectCardType("5555555555554444") == MasterCard
  {
  }

  lemma AmexTestNumberBrand()
    ensures DetectCardType("378282246310005") == AmericanExpress
  {
  }

  lemma DiscoverTestNumberBrand()
    ensures DetectCardType("6011000000000004") == Unknown
  {
  }
}
