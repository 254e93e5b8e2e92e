/** The aggregation helpers of the payment dashboard page: the total of the listed payments,
    the payments of one calendar day with their amount, and the calendar's day-click rule. */
module PaymentDashboard {
  import opened Records

  /** `r` can be obtained from `s` by deleting elements, keeping the order of the rest. */
  predicate IsSubsequence(r: seq<Payment>, s: seq<Payment>)
    decreases |s|
  {
    if r == [] then true
    else if s == [] then false
    else if r[0] == s[0] then IsSubsequence(r[1..], s[1..])
    else IsSubsequence(r, s[1..])
  }

  predicate AmountsNonNegative(payments: seq<Payment>)
  {
    forall i :: 0 <= i < |payments| ==> payments[i].amount >= 0
  }

  /** `totalAmount`: the amounts of `payments` added up, starting from 0; never negative when
      no amount is. */
  function TotalAmount(payments: seq<Payment>): (r: int)
    ensures AmountsNonNegative(payments) ==> r >= 0
  {
    if payments == [] then 0 else payments[0].amount + TotalAmount(payments[1..])
  }

  /** `getPaymentsForDate`: exactly the payments on `d`, each as often as it occurs in
      `payments`, in their original order. */
  function PaymentsForDate(payments: seq<Payment>, d: Day): (r: seq<Payment>)
    ensures forall i :: 0 <= i < |r| ==> r[i].day == d
    ensures forall p :: multiset(r)[p] == if p.day == d then multiset(payments)[p] else 0
    ensures IsSubsequence(r, payments)
  {
    if payments == [] then []
    else
      assert payments == [payments[0]] + payments[1..];
      var rest := PaymentsForDate(payments[1..], d);
      if payments[0].day == d then [payments[0]] + rest else rest
  }

  /** `getDayAmount`: the total of the day's payments; with no negative amounts it lies between
      0 and the total of the whole list. */
  function DayAmount(payments: seq<Payment>, d: Day): (r: int)
    ensures AmountsNonNegative(payments) ==> 0 <= r <= TotalAmount(payments)
  {
    DayAmountAtMostTotal(payments, d);
    TotalAmount(PaymentsForDate(payments, d))
  }

  /** `hasPayments` for a calendar day, which also decides whether the day's button is enabled:
      true exactly when some payment in the list is on that day. */
  predicate HasPayments(payments: seq<Payment>, d: Day): (b: bool)
    ensures b <==> exists i :: 0 <= i < |payments| && payments[i].day == d
  {
    DayFilterNonEmptyIff(payments, d);
    |PaymentsForDate(payments, d)| > 0
  }

  /** The day button's click handler: it yields the day exactly when some payment is on it, and
      clears the selection otherwise. */
  function OnDayClick(payments: seq<Payment>, d: Day): (r: Option<Day>)
    ensures r == Some(d) <==> exists i :: 0 <= i < |payments| && payments[i].day == d
    ensures r != Some(d) ==> r == None
  {
    if HasPayments(payments, d) then Some(d) else None
  }

  /** The selected date after clicking day `d`: a day some payment is on becomes the selection; a
      day without payments has a disabled button, which ignores the click and keeps the selection. */
  function ClickDay(payments: seq<Payment>, d: Day, selected: Option<Day>): (r: Option<Day>)
    ensures (exists i :: 0 <= i < |payments| && payments[i].day == d) ==> r == Some(d)
    ensures !(exists i :: 0 <= i < |payments| && payments[i].day == d) ==> r == selected
  {
    var enabled := HasPayments(payments, d);
    if enabled then OnDayClick(payments, d) else selected
  }

  /** The word after the count in the summary card: singular exactly for one payment. */
  function TransactionWord(count: nat): (w: string)
    ensures w == "transaction" <==> count == 1
    ensures w == "transaction" || w == "transactions"
  {
    "transaction" + (if count != 1 then "s" else "")
  }

  lemma TotalAmountEmpty()
    ensures TotalAmount([]) == 0
  {
  }

  /** The total of two lists placed end to end is the sum of their totals. */
  lemma {:induction false} TotalAmountAppend(a: seq<Payment>, b: seq<Payment>)
    ensures TotalAmount(a + b) == TotalAmount(a) + TotalAmount(b)
    decreases |a|
  {
    if a == [] {
      assert a + b == b;
    } else {
      assert (a + b)[1..] == a[1..] + b;
      TotalAmountAppend(a[1..], b);
    }
  }

  /** With no negative amounts, a day's amount never exceeds the total. */
  lemma {:induction false} DayAmountAtMostTotal(payments: seq<Payment>, d: Day)
    ensures AmountsNonNegative(payments) ==> 0 <= TotalAmount(PaymentsForDate(payments, d)) <= TotalAmount(payments)
    decreases |payments|
  {
    if payments != [] {
      DayAmountAtMostTotal(payments[1..], d);
    }
  }

  /** Splitting by one day loses nothing: the day's amount plus the amount of the other days'
      payments is the total. */
  lemma {:induction false} DayAmountPartitionsTotal(payments: seq<Payment>, d: Day)
    ensures DayAmount(payments, d) + TotalAmount(PaymentsOffDate(payments, d)) == TotalAmount(payments)
    decreases |payments|
  {
    if payments != [] {
      DayAmountPartitionsTotal(payments[1..], d);
    }
  }

  /** The payments not on `d`, in order: the complement of `PaymentsForDate`. */
  function PaymentsOffDate(payments: seq<Payment>, d: Day): (r: seq<Payment>)
    ensures forall i :: 0 <= i < |r| ==> r[i].day != d
  {
    if payments == [] then []
    else if payments[0].day != d then [payments[0]] + PaymentsOffDate(payments[1..], d)
    else PaymentsOffDate(payments[1..], d)
  }

  /** The day's filtered list is non-empty exactly when some payment in the list is on that day. */
  lemma DayFilterNonEmptyIff(payments: seq<Payment>, d: Day)
    ensures |PaymentsForDate(payments, d)| > 0 <==> exists i :: 0 <= i < |payments| && payments[i].day == d
  {
    var r := PaymentsForDate(payments, d);
    if |r| > 0 {
      assert r[0] in multiset(r);
      assert r[0] in multiset(payments);
      var i :| 0 <= i < |payments| && payments[i] == r[0];
      assert payments[i].day == d;
    }
    if exists i :: 0 <= i < |payments| && payments[i].day == d {
      var i :| 0 <= i < |payments| && payments[i].day == d;
      assert payments[i] in multiset(payments);
      assert multiset(r)[payments[i]] > 0;
    }
  }

  /** With positive amounts, a day with payments shows a positive amount. */
  lemma {:induction false} DayWithPaymentsHasPositiveAmount(payments: seq<Payment>, d: Day)
    requires forall i :: 0 <= i < |payments| ==> payments[i].amount > 0
    requires HasPayments(payments, d)
    ensures DayAmount(payments, d) > 0
    decreases |payments|
  {
    var rest := payments[1..];
    if payments[0].day != d {
      DayWithPaymentsHasPositiveAmount(rest, d);
    } else {
      assert AmountsNonNegative(PaymentsForDate(rest, d));
    }
  }

  /** The click rule: the selection becomes `d` exactly when `d` has payments, and a click never
      selects a day without payments unless that day was already selected. */
  lemma ClickDaySelection(payments: seq<Payment>, d: Day, selected: Option<Day>)
    ensures HasPayments(payments, d) ==> ClickDay(payments, d, selected) == Some(d)
    ensures !HasPayments(payments, d) ==> ClickDay(payments, d, selected) == selected
    ensures OnDayClick(payments, d) == Some(d) <==> HasPayments(payments, d)
  {
  }

  /** If the current selection is empty or a day with payments, it stays so after any click. */
  lemma ClickKeepsSelectionMeaningful(payments: seq<Payment>, d: Day, selected: Option<Day>)
    requires selected.Some? ==> HasPayments(payments, selected.value)
    ensures var next := ClickDay(payments, d, selected);
            next.Some? ==> HasPayments(payments, next.value)
  {
  }
}
