/** The order state machine (server/app/orders/state_machine.py, server/app/models/order_dto.py). */
module OrderStates {
  datatype OrderState =
    | Approved | Submitted | InDoubt | Accepted | PartiallyFilled
    | Filled | Rejected | Canceled | Expired | Quarantined

  predicate Terminal(s: OrderState) {
    s.Filled? || s.Rejected? || s.Canceled? || s.Expired? || s.Quarantined?
  }

  /** The transition table. */
  function Legal(frm: OrderState): set<OrderState> {
    match frm
    case Approved => {Submitted}
    case Submitted => {Accepted, Rejected, InDoubt, Canceled, Quarantined}
    case InDoubt => {Accepted, PartiallyFilled, Filled, Rejected, Canceled, Expired, Quarantined}
    case Accepted => {PartiallyFilled, Filled, Canceled, Expired, Quarantined}
    case PartiallyFilled => {Filled, Canceled, Expired, Quarantined}
    case _ => {}
  }

  predicate CanTransition(frm: OrderState, to: OrderState) {
    !Terminal(frm) && to in Legal(frm)
  }

  /** The table alone already keeps terminal states closed; the separate terminal check never decides. */
  lemma TerminalIsClosed(frm: OrderState)
    ensures Terminal(frm) <==> Legal(frm) == {}
  {
    if !Terminal(frm) {
      var next := if frm.Approved? then Submitted else Canceled;
      assert next in Legal(frm);
    }
  }

  /** Orders only move forward. An approved order is submitted and nothing else; executions and expiry are recorded only
      after the broker's acknowledgement or in doubt; a rejection only before an acknowledgement; every other later
      state can be reached. */
  lemma LegalIff(frm: OrderState, to: OrderState)
    ensures CanTransition(frm, to)
       <==> && Rank(frm) < Rank(to)
            && (frm.Approved? ==> to.Submitted?)
            && (to.PartiallyFilled? || to.Filled? || to.Expired? ==>
                  frm.InDoubt? || frm.Accepted? || frm.PartiallyFilled?)
            && (to.Rejected? ==> frm.Submitted? || frm.InDoubt?)
  {
  }

  /** One recorded state change. */
  datatype Entry = Entry(frm: OrderState, to: OrderState)

  /** A transition history that starts in `start`, ends in `end` and takes only legal steps. */
  ghost predicate Chain(start: OrderState, log: seq<Entry>, end: OrderState) {
    if log == [] then start == end
    else
      var last := log[|log| - 1];
      last.to == end && CanTransition(last.frm, last.to) && Chain(start, log[..|log| - 1], last.frm)
  }

  function Rank(s: OrderState): nat {
    match s
    case Approved => 0
    case Submitted => 1
    case InDoubt => 2
    case Accepted => 3
    case PartiallyFilled => 4
    case _ => 5
  }

  lemma {:induction false} ChainClimbs(start: OrderState, log: seq<Entry>, end: OrderState)
    requires Chain(start, log, end)
    ensures Rank(start) + |log| <= Rank(end)
  {
    if log != [] {
      ChainClimbs(start, log[..|log| - 1], log[|log| - 1].frm);
    }
  }

  /** No order ever records more than five state changes. */
  lemma AtMostFiveChanges(start: OrderState, log: seq<Entry>, end: OrderState)
    requires Chain(start, log, end)
    ensures |log| <= 5
  {
    ChainClimbs(start, log, end);
  }

  /** Five is reached: the longest life of an order. */
  lemma FiveChangesHappen()
    ensures exists log :: |log| == 5 && Chain(Approved, log, Filled)
  {
    var a, b, c := Entry(Approved, Submitted), Entry(Submitted, InDoubt), Entry(InDoubt, Accepted);
    var d, e := Entry(Accepted, PartiallyFilled), Entry(PartiallyFilled, Filled);
    assert [a][..0] == [] && [a, b][..1] == [a] && [a, b, c][..2] == [a, b];
    assert [a, b, c, d][..3] == [a, b, c] && [a, b, c, d, e][..4] == [a, b, c, d];
    assert Chain(Approved, [a, b], InDoubt);
    assert Chain(Approved, [a, b, c, d], PartiallyFilled);
    assert Chain(Approved, [a, b, c, d, e], Filled);
  }

  lemma ChainExtends(start: OrderState, log: seq<Entry>, end: OrderState, to: OrderState)
    requires Chain(start, log, end) && CanTransition(end, to)
    ensures Chain(start, log + [Entry(end, to)], to)
  {
    assert (log + [Entry(end, to)])[..|log|] == log;
  }
}
