/** The payment form of the checkout page: the three input formatters, the
    validity rule and the submit guard (src/pages/Checkout.tsx). */
module Checkout {
  import opened Common
  import Subscription

  // ---------------------------------------------------------------------------
  // Card number

  /** `numbers.replace(/(\d{4})(?=\d)/g, "$1 ")` on a string of digits: the
      global match can only succeed at multiples of four, and does so while
      at least five digits remain, so a space follows every complete group of
      four that another digit follows. */
  function Grouped(d: string): string
  {
    if |d| > 4 then d[..4] + " " + Grouped(d[4..]) else d
  }

  /** `formatCardNumber`: keep the digits, group them by four, cut at 19
      characters (16 digits and 3 spaces). */
  function FormatCardNumber(value: string): string
  {
    var g := Grouped(Digits(value));
    if |g| <= 19 then g else g[..19]
  }

  function Min(a: int, b: int): int { if a < b then a else b }

  /** A grouped string has one space per four digits, except after the last group. */
  lemma {:induction false} GroupedLength(e: string)
    ensures |Grouped(e)| == if e == [] then 0 else |e| + (|e| - 1) / 4
    ensures e != [] ==> Grouped(e)[|Grouped(e)| - 1] == e[|e| - 1]
  {
    if |e| > 4 {
      GroupedLength(e[4..]);
    }
  }

  /** Layout of a grouped digit string: position `i` holds a space exactly
      when `i % 5 == 4`, and a digit otherwise. */
  lemma {:induction false} GroupedSpaces(e: string)
    requires AllDigits(e)
    ensures forall i :: 0 <= i < |Grouped(e)| ==>
              (Grouped(e)[i] == ' ' <==> i % 5 == 4) && (Grouped(e)[i] == ' ' || IsDigit(Grouped(e)[i]))
  {
    if |e| > 4 {
      var rest := e[4..];
      GroupedSpaces(rest);
      var g := Grouped(e);
      assert g == e[..4] + " " + Grouped(rest);
      forall i | 0 <= i < |g|
        ensures (g[i] == ' ' <==> i % 5 == 4) && (g[i] == ' ' || IsDigit(g[i]))
      {
        if i >= 5 {
          assert g[i] == Grouped(rest)[i - 5];
          assert i % 5 == (i - 5) % 5;
        }
      }
    }
  }

  /** Any filter that keeps digits and drops the space undoes the grouping. */
  lemma {:induction false} GroupedFilter(e: string, p: char -> bool)
    requires AllDigits(e)
    requires forall c :: IsDigit(c) ==> p(c)
    requires !p(' ')
    ensures Filter(Grouped(e), p) == e
  {
    FilterKeepsAll(e, p);
    if |e| > 4 {
      var head, rest := e[..4], e[4..];
      GroupedFilter(rest, p);
      FilterKeepsAll(head, p);
      assert Filter(" ", p) == [];
      FilterAppend(head, " ", p);
      FilterAppend(head + " ", Grouped(rest), p);
      assert Grouped(e) == (head + " ") + Grouped(rest);
      assert e == head + rest;
    }
  }

  /** Removing the spaces, or keeping only the digits, of a grouped digit
      string gives the digit string back. */
  lemma GroupedUngroups(e: string)
    requires AllDigits(e)
    ensures StripSpaces(Grouped(e)) == e
    ensures Digits(Grouped(e)) == e
  {
    GroupedFilter(e, IsNotJsSpace);
    GroupedFilter(e, IsDigit);
  }

  /** Grouping a string longer than `k` (a positive multiple of four) puts a
      space right after the grouped first `k` digits. */
  lemma {:induction false} GroupedSplit(d: string, k: nat)
    requires 0 < k < |d| && k % 4 == 0
    ensures Grouped(d) == Grouped(d[..k]) + " " + Grouped(d[k..])
    decreases k
  {
    if k > 4 {
      GroupedSplit(d[4..], k - 4);
      assert d[..k][4..] == d[4..][..k - 4];
      assert d[..k][..4] == d[..4];
      assert d[4..][k - 4..] == d[k..];
    }
  }

  /** The card field holds the grouping of the first (at most) sixteen digits
      of what was typed. */
  lemma CardNumberIsGroupedPrefix(value: string)
    ensures FormatCardNumber(value) == Grouped(Digits(value)[..Min(16, |Digits(value)|)])
  {
    var d := Digits(value);
    if |d| > 16 {
      GroupedSplit(d, 16);
      GroupedLength(d[..16]);
    } else {
      GroupedLength(d);
      assert d[..|d|] == d;
    }
  }

  /** The layout of a card field: at most 19 characters, a space exactly at
      every position `i` with `i % 5 == 4`, a digit everywhere else, and a
      digit at the end. */
  predicate CardLayout(r: string)
  {
    && |r| <= 19
    && (forall i :: 0 <= i < |r| ==> (r[i] == ' ' <==> i % 5 == 4))
    && (forall i :: 0 <= i < |r| ==> r[i] == ' ' || IsDigit(r[i]))
    && (r != [] ==> IsDigit(r[|r| - 1]))
  }

  /** Grouping at most sixteen digits gives the card layout. */
  lemma GroupedCardLayout(e: string)
    requires AllDigits(e) && |e| <= 16
    ensures CardLayout(Grouped(e))
  {
    GroupedLength(e);
    GroupedSpaces(e);
    if e != [] {
      assert (|e| - 1) / 4 <= 3;
    }
  }

  /** In the card layout a space stands only between a complete group of
      four digits and a further digit: never leading, trailing or doubled. */
  lemma CardLayoutSpaces(r: string)
    requires CardLayout(r)
    ensures forall i :: 0 <= i < |r| && r[i] == ' ' ==>
              4 <= i < |r| - 1 && AllDigits(r[i - 4..i]) && IsDigit(r[i + 1])
  {
    forall i | 0 <= i < |r| && r[i] == ' '
      ensures 4 <= i < |r| - 1 && AllDigits(r[i - 4..i]) && IsDigit(r[i + 1])
    {
      assert (i + 1) % 5 != 4;
      forall k | i - 4 <= k < i ensures IsDigit(r[k]) {
        assert k % 5 != 4;
      }
    }
  }

  /** `formatCardNumber` yields the card layout, and stripping its spaces
      gives the first min(16, n) digits of the input, in order. */
  lemma FormatCardNumberShape(value: string)
    ensures CardLayout(FormatCardNumber(value))
    ensures StripSpaces(FormatCardNumber(value)) == Digits(value)[..Min(16, |Digits(value)|)]
  {
    var d := Digits(value);
    var e := d[..Min(16, |d|)];
    CardNumberIsGroupedPrefix(value);
    GroupedCardLayout(e);
    GroupedUngroups(e);
  }

  /** Reformatting an already formatted card number changes nothing. */
  lemma FormatCardNumberIdempotent(value: string)
    ensures FormatCardNumber(FormatCardNumber(value)) == FormatCardNumber(value)
  {
    var d := Digits(value);
    var e := d[..Min(16, |d|)];
    CardNumberIsGroupedPrefix(value);
    GroupedUngroups(e);
    CardNumberIsGroupedPrefix(FormatCardNumber(value));
    assert e[..Min(16, |e|)] == e;
  }

  // ---------------------------------------------------------------------------
  // Expiry date and CVV

  /** `formatExpiryDate`: fewer than three digits are shown as typed;
      otherwise two digits, a slash and at most two more digits. */
  function FormatExpiryDate(value: string): string
  {
    var d := Digits(value);
    if |d| >= 3 then d[..2] + "/" + d[2..Min(4, |d|)] else d
  }

  /** Shape of the expiry field: at most five characters; under three digits
      it is the digits themselves, otherwise `MM/` and at most two digits;
      its digits are the first min(4, n) digits of the input. */
  lemma FormatExpiryDateShape(value: string)
    ensures var d, r := Digits(value), FormatExpiryDate(value);
      && |r| <= 5
      && (|d| < 3 ==> r == d)
      && (|d| >= 3 ==> 4 <= |r| && r[..2] == d[..2] && r[2] == '/' && r[3..] == d[2..Min(4, |d|)])
      && Digits(r) == d[..Min(4, |d|)]
  {
    var d := Digits(value);
    if |d| >= 3 {
      var r := FormatExpiryDate(value);
      DigitsAppend(d[..2] + "/", d[2..Min(4, |d|)]);
      DigitsAppend(d[..2], "/");
      assert Digits(d[..2]) == d[..2];
      assert Digits(d[2..Min(4, |d|)]) == d[2..Min(4, |d|)];
      assert Digits("/") == [];
      assert d[..Min(4, |d|)] == d[..2] + d[2..Min(4, |d|)];
    } else {
      assert Digits(d) == d;
      assert d[..|d|] == d;
    }
  }

  /** Reformatting an already formatted expiry date changes nothing. */
  lemma FormatExpiryDateIdempotent(value: string)
    ensures FormatExpiryDate(FormatExpiryDate(value)) == FormatExpiryDate(value)
  {
    var d, r := Digits(value), FormatExpiryDate(value);
    FormatExpiryDateShape(value);
    var d' := Digits(r);
    assert d' == d[..Min(4, |d|)];
    assert FormatExpiryDate(r) == if |d'| >= 3 then d'[..2] + "/" + d'[2..Min(4, |d'|)] else d';
    if |d| >= 3 {
      assert |d'| == Min(4, |d|) >= 3;
      assert d'[..2] == d[..2];
      assert d'[2..Min(4, |d'|)] == d[2..Min(4, |d|)];
    } else {
      assert d' == d && r == d;
    }
  }

  /** The CVV field's `onChange`: the first three digits typed. */
  function FilterCvv(value: string): string
  {
    var d := Digits(value);
    d[..Min(3, |d|)]
  }

  /** The CVV field holds only digits, at most three, and they are the
      first digits of the input; filtering again changes nothing. */
  lemma FilterCvvShape(value: string)
    ensures var r := FilterCvv(value);
      && AllDigits(r)
      && |r| == Min(3, |Digits(value)|)
      && r <= Digits(value)
      && FilterCvv(r) == r
  {
    var r := FilterCvv(value);
    assert Digits(r) == r;
    assert r[..|r|] == r;
  }

  // ---------------------------------------------------------------------------
  // Validity and submit

  /** `isValid`: sixteen non-space characters in the card number, a trimmed
      name of at least three characters, a five-character expiry date and a
      three-character CVV. */
  predicate IsFormValid(cardNumber: string, cardName: string, expiryDate: string, cvv: string)
  {
    && |StripSpaces(cardNumber)| == 16
    && |Trim(cardName)| >= 3
    && |expiryDate| == 5
    && |cvv| == 3
  }

  /** With the fields filled through their formatters, the form is valid
      exactly when at least sixteen card digits, four expiry digits and three
      CVV digits were typed and the trimmed name has at least three
      characters. */
  lemma FormValidFromTypedInput(card: string, name: string, expiry: string, cvv: string)
    ensures IsFormValid(FormatCardNumber(card), name, FormatExpiryDate(expiry), FilterCvv(cvv))
        <==> |Digits(card)| >= 16 && |Trim(name)| >= 3 && |Digits(expiry)| >= 4 && |Digits(cvv)| >= 3
  {
    FormatCardNumberShape(card);
    FormatExpiryDateShape(expiry);
    FilterCvvShape(cvv);
  }

  /** `handleSubmit`: when the form is valid and a plan id is set, subscribe
      to that plan; report whether the page goes on to the dashboard. An
      invalid form or a missing plan id does nothing at all. */
  method HandleSubmit(subscription: Subscription.SubscriptionProvider, formValid: bool,
                      planId: string, endDate: int) returns (toDashboard: bool)
    requires subscription.Valid()
    modifies subscription, subscription.auth
    ensures subscription.Valid()
    ensures !formValid || planId == "" ==>
      !toDashboard &&
      unchanged(subscription, subscription.auth)
    ensures formValid && planId != "" ==>
      && toDashboard == (old(subscription.auth.user).Some? && Subscription.FindPlan(planId).Some?)
      && subscription.auth.user == old(Subscription.AfterSubscribe(subscription.auth.user, planId, endDate))
      && subscription.auth.registry == old(subscription.auth.registry)
      && (!toDashboard ==> unchanged(subscription, subscription.auth))
      && (toDashboard ==> !subscription.isProcessingPayment && !subscription.auth.isLoading)
  {
    if !formValid || planId == "" {
      return false;
    }
    toDashboard := subscription.SubscribeToPlan(planId, endDate);
  }
}
