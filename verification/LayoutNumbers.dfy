// Which texts the layout compiler reads as numbers.
module LayoutNumbers {
  import opened Common
  import opened LayoutParser

  function DigitAt(s: string, k: nat): nat
    requires k < |s|
  {
    if IsDigit(s[k]) then s[k] as int - '0' as int else 0
  }

  /** The value of a run of decimal digits. */
  function Magnitude(s: string): nat {
    if |s| == 0 then 0 else Magnitude(s[..|s| - 1]) * 10 + DigitAt(s, |s| - 1)
  }

  /** From p to q stand digits only, at least one, and no digit follows. */
  predicate DigitRun(text: string, p: nat, q: nat) {
    p < q <= |text| && (forall k :: p <= k < q ==> IsDigit(text[k])) && !IsDigit(At(text, q))
  }

  /** From p to q stands a decimal number: a minus or none, then all digits that follow; its value v has 32 bits. */
  predicate Numeral(text: string, p: nat, q: nat, v: int) {
    var negative := At(text, p) == '-';
    var first := if negative then p + 1 else p;
    && DigitRun(text, first, q)
    && (if negative then v + Magnitude(text[first..q]) == 0 else v == Magnitude(text[first..q]))
    && -0x8000_0000 <= v < 0x8000_0000
  }

  lemma MagnitudeNext(text: string, first: nat, p: nat)
    requires first <= p < |text|
    ensures Magnitude(text[first..p + 1]) == Magnitude(text[first..p]) * 10 + DigitAt(text, p)
  {
    var s := text[first..p + 1];
    assert s[..|s| - 1] == text[first..p] && s[|s| - 1] == text[p];
  }

  lemma {:induction false} MagnitudeRises(text: string, first: nat, p: nat, q: nat)
    requires first <= p <= q <= |text|
    ensures Magnitude(text[first..p]) <= Magnitude(text[first..q])
    decreases q
  {
    hide Magnitude;
    if p < q {
      MagnitudeRises(text, first, p, q - 1);
      MagnitudeNext(text, first, q - 1);
    }
  }

  lemma DigitsStop(text: string, q: nat, m: nat)
    requires !IsDigit(At(text, q))
    ensures Digits(text, q, m) == Some((m, q))
  {
  }

  /** The digits up to q are accumulated exactly when their value does not exceed 2 to the 31. */
  lemma {:induction false} DigitsExactly(text: string, first: nat, p: nat, q: nat)
    requires first <= p <= q <= |text| && !IsDigit(At(text, q)) && forall k :: first <= k < q ==> IsDigit(text[k])
    requires Magnitude(text[first..p]) <= 0x8000_0000
    ensures var m := Magnitude(text[first..q]);
      Digits(text, p, Magnitude(text[first..p])) == if m <= 0x8000_0000 then Some((m, q)) else None
    decreases q - p
  {
    hide Magnitude;
    var m := Magnitude(text[first..p]);
    if p == q {
      DigitsStop(text, q, m);
    } else {
      MagnitudeNext(text, first, p);
      MagnitudeRises(text, first, p + 1, q);
      if m * 10 + DigitAt(text, p) <= 0x8000_0000 {
        DigitsExactly(text, first, p + 1, q);
      }
    }
  }

  lemma {:induction false} RunEnds(text: string, p: nat) returns (q: nat)
    requires p < |text| && IsDigit(text[p])
    ensures DigitRun(text, p, q)
    decreases |text| - p
  {
    if p + 1 < |text| && IsDigit(text[p + 1]) {
      q := RunEnds(text, p + 1);
    } else {
      q := p + 1;
    }
  }

  /** The number parser accepts exactly the decimal numbers of 32 bits, with their value and their end. */
  lemma NumberExactly(text: string, p: nat, v: int, q: nat)
    ensures Number(text, p) == Some((v, q)) <==> Numeral(text, p, q, v)
  {
    hide Digits; hide Magnitude;
    var first := if At(text, p) == '-' then p + 1 else p;
    if first < |text| && IsDigit(text[first]) {
      var end := RunEnds(text, first);
      assert Magnitude(text[first..first]) == 0 by { assert Magnitude("") == 0 by { NoMagnitude(); } assert text[first..first] == ""; }
      DigitsExactly(text, first, first, end);
      if DigitRun(text, first, q) { OneEnd(text, first, end, q); }
    }
  }

  lemma NoMagnitude()
    ensures Magnitude("") == 0
  {
  }

  lemma OneEnd(text: string, p: nat, q: nat, r: nat)
    requires DigitRun(text, p, q) && DigitRun(text, p, r)
    ensures q == r
  {
    assert forall k :: p <= k < r ==> IsDigit(At(text, k));
    assert forall k :: p <= k < q ==> IsDigit(At(text, k));
  }
}
