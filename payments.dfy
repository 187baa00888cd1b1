/** The payments page (src/components/payments/Payments.tsx): the received
    and pending totals, the success rate, and the document and client shown
    beside each payment. */
module Payments {
  import opened Wrappers
  import opened Domain
  import opened Sequences

  function Amount(p: Payment): real {
    p.amount
  }

  predicate IsCompleted(p: Payment) {
    p.status.Completed?
  }

  predicate IsPending(p: Payment) {
    p.status.Pending?
  }

  predicate IsNotFailed(p: Payment) {
    !p.status.Failed?
  }

  /** The amounts the payment form accepts are at least 0. */
  predicate NonNegativeAmounts(ps: seq<Payment>) {
    forall p :: p in ps ==> p.amount >= 0.0
  }

  /** "Total Received": the sum of the amounts of completed payments. */
  function TotalReceived(ps: seq<Payment>): (total: real)
    ensures NonNegativeAmounts(ps) ==> 0.0 <= total <= Sum(ps, Amount)
  {
    FilteredAmountsBounded(ps, IsCompleted);
    Sum(Filter(ps, IsCompleted), Amount)
  }

  /** "Pending Payments": the sum of the amounts of pending payments. */
  function TotalPending(ps: seq<Payment>): (total: real)
    ensures NonNegativeAmounts(ps) ==> 0.0 <= total <= Sum(ps, Amount)
  {
    FilteredAmountsBounded(ps, IsPending);
    Sum(Filter(ps, IsPending), Amount)
  }

  /** With non-negative amounts, a sum over a filter lies between 0 and the
      sum of all amounts. */
  lemma FilteredAmountsBounded(ps: seq<Payment>, keep: Payment -> bool)
    ensures NonNegativeAmounts(ps) ==> 0.0 <= Sum(Filter(ps, keep), Amount) <= Sum(ps, Amount)
  {
    if NonNegativeAmounts(ps) {
      SumFilterBounded(ps, keep, Amount);
      var r := Filter(ps, keep);
      forall x | x in r
        ensures Amount(x) >= 0.0
      {
        var i :| 0 <= i < |r| && r[i] == x;
      }
    }
  }

  /** Received and pending together are exactly the non-failed payments:
      a failed payment counts toward neither. With non-negative amounts they
      never exceed the sum of all amounts. */
  lemma ReceivedPlusPending(ps: seq<Payment>)
    ensures TotalReceived(ps) + TotalPending(ps) == Sum(Filter(ps, IsNotFailed), Amount)
    ensures NonNegativeAmounts(ps) ==> TotalReceived(ps) + TotalPending(ps) <= Sum(ps, Amount)
  {
    SumDisjoint(ps, IsCompleted, IsPending, Amount);
    FilterCongruent(ps, Either(IsCompleted, IsPending), IsNotFailed);
    if NonNegativeAmounts(ps) {
      SumFilterBounded(ps, IsNotFailed, Amount);
    }
  }

  /** Recording a payment adds its amount to the received total exactly
      when it is completed, and to the pending total exactly when pending. */
  lemma TotalsAfterAppend(ps: seq<Payment>, p: Payment)
    ensures TotalReceived(ps + [p]) == TotalReceived(ps) + (if IsCompleted(p) then p.amount else 0.0)
    ensures TotalPending(ps + [p]) == TotalPending(ps) + (if IsPending(p) then p.amount else 0.0)
  {
    FilterConcat(ps, [p], IsCompleted);
    SumConcat(Filter(ps, IsCompleted), Filter([p], IsCompleted), Amount);
    FilterConcat(ps, [p], IsPending);
    SumConcat(Filter(ps, IsPending), Filter([p], IsPending), Amount);
  }

  // ------------------------------------------- amounts kept as entered text

  /** A JavaScript value as `+` sees it. */
  datatype JsValue = JsNumber(n: real) | JsString(s: string)

  /** The texts joined end to end. */
  function Concat(texts: seq<string>): string {
    if texts == [] then "" else Concat(texts[..|texts| - 1]) + texts[|texts| - 1]
  }

  /** `reduce((sum, p) => sum + p.amount, 0)` when every amount is the text
      the payment form stored: the first `+` turns the accumulator 0 into the
      string "0" followed by the text, and every later `+` appends. */
  function SumAsEntered(texts: seq<string>): (r: JsValue)
    ensures texts == [] ==> r == JsNumber(0.0)
    ensures texts != [] ==> r == JsString("0" + Concat(texts))
  {
    if texts == [] then JsNumber(0.0)
    else
      var init, last := texts[..|texts| - 1], texts[|texts| - 1];
      var acc := SumAsEntered(init);
      assert Concat(texts) == Concat(init) + last;
      assert init == [] ==> Concat(init) + last == last;
      assert ("0" + Concat(init)) + last == "0" + (Concat(init) + last);
      if acc.JsString? then JsString(acc.s + last) else JsString("0" + last)
  }

  /** Two completed payments entered as "50" and "20": the received total
      comes out as the text "05020", where the sum of the amounts is 70. */
  lemma EnteredAmountsConcatenate()
    ensures SumAsEntered(["50", "20"]) == JsString("05020")
    ensures var ps := [Payment("p1", "d1", 50.0, PaymentStatus.Completed, CreditCard, Date(2026, 0, 5), "r1"),
                       Payment("p2", "d1", 20.0, PaymentStatus.Completed, PayPal, Date(2026, 0, 6), "r2")];
            TotalReceived(ps) == 70.0
  {
    assert ["50", "20"][..1] == ["50"];
    assert [""][..0] == [];
    var ps := [Payment("p1", "d1", 50.0, PaymentStatus.Completed, CreditCard, Date(2026, 0, 5), "r1"),
               Payment("p2", "d1", 20.0, PaymentStatus.Completed, PayPal, Date(2026, 0, 6), "r2")];
    FilterAll(ps, IsCompleted);
  }

  /** `Math.round(k / n * 100)` for 0 <= k <= n, n > 0, in exact arithmetic:
      the integer r with r <= k/n*100 + 1/2 < r + 1. */
  function RoundedPercent(k: nat, n: nat): (r: int)
    requires 0 < n && k <= n
    ensures 0 <= r <= 100
    ensures (r as real) <= (k as real) / (n as real) * 100.0 + 0.5 < (r as real) + 1.0
  {
    var num := 200 * k + n;
    var q := num / (2 * n);
    RoundedPercentBounds(k, n, num, q);
    q
  }

  lemma RoundedPercentBounds(k: nat, n: nat, num: int, q: int)
    requires 0 < n && k <= n
    requires num == 200 * k + n && q == num / (2 * n)
    ensures 0 <= q <= 100
    ensures (q as real) <= (k as real) / (n as real) * 100.0 + 0.5 < (q as real) + 1.0
  {
    var d := 2 * n;
    var rem := num % d;
    assert num == d * q + rem && 0 <= rem < d;
    QuotientBelow(num, d, q, rem, 101);
    ShareAsFraction(k, n);
    RealQuotientBounds(num, d, q, rem);
  }

  /** Integer division by a positive divisor: a dividend below d * m gives a
      quotient below m, and a non-negative one a non-negative quotient. */
  lemma QuotientBelow(num: int, d: int, q: int, rem: int, m: int)
    requires d > 0 && num == d * q + rem && 0 <= rem < d
    requires 0 <= num < d * m
    ensures 0 <= q < m
  {
  }

  /** k/n*100 + 1/2 is the fraction (200k + n) / (2n). */
  lemma ShareAsFraction(k: nat, n: nat)
    requires 0 < n
    ensures (k as real) / (n as real) * 100.0 + 0.5 == ((200 * k + n) as real) / ((2 * n) as real)
  {
    var kr, nr := k as real, n as real;
    var x := kr / nr * 100.0 + 0.5;
    assert kr / nr * nr == kr;
    assert x * (2.0 * nr) == 200.0 * kr + nr;
    assert ((200 * k + n) as real) == 200.0 * kr + nr;
    assert ((2 * n) as real) == 2.0 * nr;
    assert x * (2.0 * nr) / (2.0 * nr) == x;
  }

  /** The integer quotient is the floor of the exact quotient. */
  lemma RealQuotientBounds(num: int, d: int, q: int, rem: int)
    requires d > 0 && num == d * q + rem && 0 <= rem < d
    ensures (q as real) <= (num as real) / (d as real) < (q as real) + 1.0
  {
    var dr := d as real;
    assert (num as real) == dr * (q as real) + (rem as real);
    assert (num as real) / dr == (q as real) + (rem as real) / dr;
    assert 0.0 <= (rem as real) / dr < 1.0;
  }

  /** The "Success Rate" card: 0 for no payments, otherwise the completed
      share as a rounded percentage. */
  function SuccessRate(ps: seq<Payment>): (rate: int)
    ensures 0 <= rate <= 100
    ensures |ps| == 0 ==> rate == 0
    ensures |ps| > 0 ==>
      var share := (|Filter(ps, IsCompleted)| as real) / (|ps| as real) * 100.0;
      (rate as real) <= share + 0.5 < (rate as real) + 1.0
  {
    if |ps| == 0 then 0 else RoundedPercent(|Filter(ps, IsCompleted)|, |ps|)
  }

  /** All payments completed gives 100; none completed gives 0. */
  lemma SuccessRateExtremes(ps: seq<Payment>)
    ensures (forall p :: p in ps ==> IsCompleted(p)) ==> SuccessRate(ps) == (if |ps| == 0 then 0 else 100)
    ensures (forall p :: p in ps ==> !IsCompleted(p)) ==> SuccessRate(ps) == 0
  {
    if |ps| > 0 && forall p :: p in ps ==> IsCompleted(p) {
      FilterAll(ps, IsCompleted);
      WholeRoundsToHundred(|ps|);
    }
    if |ps| > 0 && forall p :: p in ps ==> !IsCompleted(p) {
      FilterNone(ps, IsCompleted);
      NothingRoundsToZero(|ps|);
    }
  }

  /** n out of n rounds to 100 per cent. */
  lemma WholeRoundsToHundred(n: nat)
    requires 0 < n
    ensures RoundedPercent(n, n) == 100
  {
    var r := RoundedPercent(n, n);
    RatioOfItself(n as real);
    assert (r as real) <= 100.5 < (r as real) + 1.0;
  }

  lemma RatioOfItself(x: real)
    requires x > 0.0
    ensures x / x == 1.0
  {
  }

  /** None out of n rounds to 0 per cent. */
  lemma NothingRoundsToZero(n: nat)
    requires 0 < n
    ensures RoundedPercent(0, n) == 0
  {
    var r := RoundedPercent(0, n);
    assert (0 as real) / (n as real) == 0.0;
    assert (r as real) <= 0.5 < (r as real) + 1.0;
  }

  /** The document and client shown in a payment's row: the first document
      with the payment's document id, and, only when one was found, the
      first client with that document's client id. A dangling reference
      yields nothing rather than a failure. */
  function LookupDocumentAndClient(p: Payment, documents: seq<Document>, clients: seq<Client>)
    : (r: (Option<Document>, Option<Client>))
    ensures r.0.None? <==> forall i :: 0 <= i < |documents| ==> documents[i].id != p.documentId
    ensures r.0.Some? ==> exists i :: 0 <= i < |documents| && documents[i] == r.0.value &&
                                       documents[i].id == p.documentId &&
                                       forall j :: 0 <= j < i ==> documents[j].id != p.documentId
    ensures r.0.None? ==> r.1.None?
    ensures r.0.Some? ==> (r.1.None? <==> forall i :: 0 <= i < |clients| ==> clients[i].id != r.0.value.clientId)
    ensures r.1.Some? ==> exists i :: 0 <= i < |clients| && clients[i] == r.1.value &&
                                       clients[i].id == r.0.value.clientId &&
                                       forall j :: 0 <= j < i ==> clients[j].id != r.0.value.clientId
  {
    var document := FindFirst(documents, DocumentId, p.documentId);
    var client := if document.Some? then FindFirst(clients, ClientId, document.value.clientId) else None;
    (document, client)
  }
}
