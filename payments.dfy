/** The payments slice of the Redux store: the full payment list, the selected timeframe with
    its filtered list, and the payment history of the student whose profile is open. */
module Payments {
  import opened Records

  /** The timeframes the payment dashboard offers ('daily', 'weekly', 'monthly'). */
  datatype Timeframe = Daily | Weekly | Monthly

  /** The mock-data queries the reducers call; their filtering rules live outside this model,
      so they are parameters: any functions of these types. */
  datatype PaymentQueries = PaymentQueries(
    getPaymentsByTimeframe: Timeframe -> seq<Payment>,
    getPaymentsByStudentId: StudentId -> seq<Payment>)

  datatype PaymentState = PaymentState(
    payments: seq<Payment>,
    selectedTimeframe: Timeframe,
    filteredPayments: seq<Payment>,
    studentPayments: seq<Payment>,
    loading: bool,
    error: Option<string>)

  /** The slice's `initialState`: 'monthly' is selected, yet the filtered list starts as the
      full mock list rather than the monthly query's result. */
  function InitialState(mockPayments: seq<Payment>): (r: PaymentState)
    ensures r.payments == mockPayments && r.selectedTimeframe == Monthly && r.studentPayments == []
    ensures forall q: PaymentQueries :: TimeframeConsistent(q, r) <==> q.getPaymentsByTimeframe(Monthly) == mockPayments
  {
    PaymentState(payments := mockPayments, selectedTimeframe := Monthly, filteredPayments := mockPayments,
                 studentPayments := [], loading := false, error := None)
  }

  datatype PaymentAction =
    | SetPayments(payments: seq<Payment>)
    | SetTimeframe(timeframe: Timeframe)
    | LoadPaymentsByStudentId(id: StudentId)
    | ClearStudentPayments

  /** The slice reducer, on values. It never touches `loading` or `error`; a `setTimeframe`
      makes the filtered list the selected timeframe's, and no other action breaks that. */
  function Reduce(q: PaymentQueries, s: PaymentState, a: PaymentAction): (r: PaymentState)
    ensures r.loading == s.loading && r.error == s.error
    ensures a.SetTimeframe? ==> TimeframeConsistent(q, r)
    ensures TimeframeConsistent(q, s) ==> TimeframeConsistent(q, r)
  {
    match a
    case SetPayments(ps) => s.(payments := ps)
    case SetTimeframe(t) => s.(selectedTimeframe := t, filteredPayments := q.getPaymentsByTimeframe(t))
    case LoadPaymentsByStudentId(id) => s.(studentPayments := q.getPaymentsByStudentId(id))
    case ClearStudentPayments => s.(studentPayments := [])
  }

  /** The state after dispatching `actions` in order. */
  function Run(q: PaymentQueries, s: PaymentState, actions: seq<PaymentAction>): PaymentState
    decreases |actions|
  {
    if actions == [] then s else Run(q, Reduce(q, s, actions[0]), actions[1..])
  }

  /** The filtered list is the one the selected timeframe's query gives. */
  predicate TimeframeConsistent(q: PaymentQueries, s: PaymentState)
  {
    s.filteredPayments == q.getPaymentsByTimeframe(s.selectedTimeframe)
  }

  /** The initial filtered list agrees with the selected timeframe only when the monthly query
      happens to return the whole mock list. */
  lemma InitialTimeframeConsistency(q: PaymentQueries, mockPayments: seq<Payment>)
    ensures InitialState(mockPayments).selectedTimeframe == Monthly
    ensures InitialState(mockPayments).studentPayments == []
    ensures TimeframeConsistent(q, InitialState(mockPayments)) <==> q.getPaymentsByTimeframe(Monthly) == mockPayments
  {
  }

  /** Each reducer changes only its own fields. */
  lemma ReducerFrames(q: PaymentQueries, s: PaymentState, a: PaymentAction)
    ensures var t := Reduce(q, s, a);
            && t.loading == s.loading && t.error == s.error
            && (!a.SetPayments? ==> t.payments == s.payments)
            && (!a.SetTimeframe? ==> t.selectedTimeframe == s.selectedTimeframe && t.filteredPayments == s.filteredPayments)
            && (!a.LoadPaymentsByStudentId? && !a.ClearStudentPayments? ==> t.studentPayments == s.studentPayments)
  {
  }

  /** `setTimeframe` makes the filtered list consistent, and applying it twice is applying it once. */
  lemma SetTimeframeIdempotent(q: PaymentQueries, s: PaymentState, t: Timeframe)
    ensures TimeframeConsistent(q, Reduce(q, s, SetTimeframe(t)))
    ensures Reduce(q, Reduce(q, s, SetTimeframe(t)), SetTimeframe(t)) == Reduce(q, s, SetTimeframe(t))
  {
  }

  /** `setPayments` replaces the full list but leaves the filtered list as it was, so the two
      may disagree afterwards. */
  lemma SetPaymentsLeavesFilterStale(q: PaymentQueries, s: PaymentState, ps: seq<Payment>)
    ensures Reduce(q, s, SetPayments(ps)).payments == ps
    ensures Reduce(q, s, SetPayments(ps)).filteredPayments == s.filteredPayments
    ensures Reduce(q, s, SetPayments(ps)).selectedTimeframe == s.selectedTimeframe
  {
  }

  /** Once consistent, the filtered list stays consistent through every sequence of dispatches. */
  lemma {:induction false} RunKeepsTimeframeConsistent(q: PaymentQueries, s: PaymentState, actions: seq<PaymentAction>)
    requires TimeframeConsistent(q, s)
    ensures TimeframeConsistent(q, Run(q, s, actions))
    decreases |actions|
  {
    if actions != [] {
      ReducerFrames(q, s, actions[0]);
      RunKeepsTimeframeConsistent(q, Reduce(q, s, actions[0]), actions[1..]);
    }
  }

  /** After any sequence of dispatches containing a `setTimeframe`, the filtered list is the
      selected timeframe's, whatever the state before. */
  lemma {:induction false} TimeframeConsistentAfterSelection(q: PaymentQueries, s: PaymentState,
                                                            before: seq<PaymentAction>, t: Timeframe,
                                                            after: seq<PaymentAction>)
    ensures TimeframeConsistent(q, Run(q, s, before + [SetTimeframe(t)] + after))
    decreases |before|
  {
    if before == [] {
      assert before + [SetTimeframe(t)] + after == [SetTimeframe(t)] + after;
      assert ([SetTimeframe(t)] + after)[1..] == after;
      RunKeepsTimeframeConsistent(q, Reduce(q, s, SetTimeframe(t)), after);
    } else {
      assert (before + [SetTimeframe(t)] + after)[1..] == before[1..] + [SetTimeframe(t)] + after;
      TimeframeConsistentAfterSelection(q, Reduce(q, s, before[0]), before[1..], t, after);
    }
  }

  /** No sequence of dispatches ever changes `loading` or `error`. */
  lemma {:induction false} RunKeepsLoadingAndError(q: PaymentQueries, s: PaymentState, actions: seq<PaymentAction>)
    ensures Run(q, s, actions).loading == s.loading
    ensures Run(q, s, actions).error == s.error
    decreases |actions|
  {
    if actions != [] {
      ReducerFrames(q, s, actions[0]);
      RunKeepsLoadingAndError(q, Reduce(q, s, actions[0]), actions[1..]);
    }
  }

  /** The slice as the store holds it: one record whose fields the reducers assign in place. */
  class PaymentSlice {
    const queries: PaymentQueries
    var payments: seq<Payment>
    var selectedTimeframe: Timeframe
    var filteredPayments: seq<Payment>
    var studentPayments: seq<Payment>
    var loading: bool
    var error: Option<string>

    /** The record's current value. */
    function State(): PaymentState
      reads this
    {
      PaymentState(payments, selectedTimeframe, filteredPayments, studentPayments, loading, error)
    }

    constructor (queries: PaymentQueries, mockPayments: seq<Payment>)
      ensures this.queries == queries
      ensures State() == InitialState(mockPayments)
    {
      this.queries := queries;
      payments, selectedTimeframe, filteredPayments := mockPayments, Monthly, mockPayments;
      studentPayments, loading, error := [], false, None;
    }

    method SetPayments(ps: seq<Payment>)
      modifies this`payments
      ensures payments == ps
      ensures State() == Reduce(queries, old(State()), PaymentAction.SetPayments(ps))
    {
      payments := ps;
    }

    method SetTimeframe(t: Timeframe)
      modifies this`selectedTimeframe, this`filteredPayments
      ensures selectedTimeframe == t && filteredPayments == queries.getPaymentsByTimeframe(t)
      ensures State() == Reduce(queries, old(State()), PaymentAction.SetTimeframe(t))
    {
      selectedTimeframe := t;
      filteredPayments := queries.getPaymentsByTimeframe(t);
    }

    method LoadPaymentsByStudentId(id: StudentId)
      modifies this`studentPayments
      ensures studentPayments == queries.getPaymentsByStudentId(id)
      ensures State() == Reduce(queries, old(State()), PaymentAction.LoadPaymentsByStudentId(id))
    {
      studentPayments := queries.getPaymentsByStudentId(id);
    }

    method ClearStudentPayments()
      modifies this`studentPayments
      ensures studentPayments == []
      ensures State() == Reduce(queries, old(State()), PaymentAction.ClearStudentPayments)
    {
      studentPayments := [];
    }

    /** The store's dispatch of one action to this slice. */
    method Dispatch(a: PaymentAction)
      modifies this
      ensures State() == Reduce(queries, old(State()), a)
    {
      match a
      case SetPayments(ps) => SetPayments(ps);
      case SetTimeframe(t) => SetTimeframe(t);
      case LoadPaymentsByStudentId(id) => LoadPaymentsByStudentId(id);
      case ClearStudentPayments => ClearStudentPayments();
    }
  }
}
