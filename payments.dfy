/**
 * The payment store of src/services/api/paymentService.js: a history of
 * payment records that starts empty, and a `nextPaymentId` counter that
 * starts at 1. `processPayment` and `refundPayment` append records; the
 * history and statistics views read them.
 *
 * Amounts are integer cents. The random 5% failure of `processPayment` is
 * the parameter `randomFails`; transaction ids and timestamps are
 * parameters too.
 */
module Payments {
  import opened Outcomes
  import opened Domain
  import Seqs

  const ProcessingFailed: string := "Payment processing failed. Please try again."
  const NotFound: string := "Payment not found"
  const NotRefundable: string := "Can only refund completed payments"
  const InvalidResident: string := "Invalid resident ID"

  function Abs(x: int): (r: int)
    ensures r >= 0 && (r == x || r == -x)
  {
    if x < 0 then -x else x
  }

  /**
   * The 2.9% processing fee of an amount in cents, rounded to the nearest
   * cent with halves rounded up (`Math.round(amount * 0.029 * 100) / 100`
   * on the dollar amount).
   */
  function Fee(amount: int): (fee: int)
    ensures -500 < 1000 * fee - 29 * amount <= 500
  {
    (29 * amount + 500) / 1000
  }

  /** A $100.00 payment costs $2.90 in fees and nets $97.10. */
  lemma FeeOfHundredDollars()
    ensures Fee(10000) == 290 && 10000 - Fee(10000) == 9710
  {
  }

  /** The fee never exceeds the amount it is taken from, for a non-negative amount. */
  lemma FeeBounds(amount: int)
    requires amount >= 0
    ensures 0 <= Fee(amount) <= amount
    ensures amount - Fee(amount) >= 0
  {
  }

  /** The argument of `getPaymentHistory`: an integer, or anything `Number.isInteger` rejects. */
  datatype ResidentRef = IntegerId(id: int) | NonInteger

  /** Newest first: no record is followed by a newer one. */
  predicate NewestFirst(s: seq<Payment>)
  {
    forall i, j :: 0 <= i < j < |s| ==> s[i].processedAt >= s[j].processedAt
  }

  /**
   * Place `x` into a newest-first list ahead of the first record that is no
   * newer than it, so records with equal timestamps keep their order.
   */
  function Insert(x: Payment, t: seq<Payment>): (r: seq<Payment>)
    requires NewestFirst(t)
    ensures NewestFirst(r)
    ensures multiset(r) == multiset(t) + multiset{x}
    ensures |r| == |t| + 1
    decreases |t|
  {
    if t == [] || x.processedAt >= t[0].processedAt then
      PrependNewest(x, t);
      [x] + t
    else
      var rest := Insert(x, t[1..]);
      assert t == [t[0]] + t[1..];
      NoNewerInside(t[0], rest, x, t[1..]);
      PrependNewest(t[0], rest);
      [t[0]] + rest
  }

  /** A record no older than the head of a newest-first list can go in front of it. */
  lemma PrependNewest(h: Payment, s: seq<Payment>)
    requires NewestFirst(s)
    requires s != [] ==> h.processedAt >= s[0].processedAt
    ensures NewestFirst([h] + s)
  {
    var r := [h] + s;
    forall i, j | 0 <= i < j < |r|
      ensures r[i].processedAt >= r[j].processedAt
    {
      if i == 0 {
        assert r[j] == s[j - 1];
      }
    }
  }

  /** Every record of `rest`, made of `x` and of `u`, is no newer than `h`. */
  lemma NoNewerInside(h: Payment, rest: seq<Payment>, x: Payment, u: seq<Payment>)
    requires multiset(rest) == multiset(u) + multiset{x}
    requires h.processedAt >= x.processedAt
    requires forall k :: 0 <= k < |u| ==> h.processedAt >= u[k].processedAt
    ensures rest != [] ==> h.processedAt >= rest[0].processedAt
  {
    if rest != [] {
      assert rest[0] in multiset(rest);
      if rest[0] != x {
        assert rest[0] in multiset(u);
        var k :| 0 <= k < |u| && u[k] == rest[0];
      }
    }
  }

  /**
   * `sort((a, b) => new Date(b.processedAt) - new Date(a.processedAt))`:
   * a stable sort, newest first.
   */
  function SortNewestFirst(s: seq<Payment>): (r: seq<Payment>)
    ensures NewestFirst(r)
    ensures multiset(r) == multiset(s)
    ensures |r| == |s|
  {
    if s == [] then []
    else
      assert s == [s[0]] + s[1..];
      Insert(s[0], SortNewestFirst(s[1..]))
  }

  /** The records stamped at instant `t`. */
  function At(t: int): Payment -> bool
  {
    (p: Payment) => p.processedAt == t
  }

  /**
   * Inserting `x` puts it ahead of every record stamped at the same
   * instant, so among those it comes first and their order is kept.
   */
  lemma {:induction false} InsertKeepsTies(x: Payment, l: seq<Payment>, t: int)
    requires NewestFirst(l)
    ensures Seqs.Filter(Insert(x, l), At(t)) == (if x.processedAt == t then [x] else []) + Seqs.Filter(l, At(t))
    decreases |l|
  {
    if l == [] || x.processedAt >= l[0].processedAt {
      Seqs.FilterCons(x, l, At(t));
    } else {
      assert l == [l[0]] + l[1..];
      assert NewestFirst(l[1..]) by {
        forall i, j | 0 <= i < j < |l| - 1
          ensures l[1..][i].processedAt >= l[1..][j].processedAt
        {
          assert l[1..][i] == l[i + 1] && l[1..][j] == l[j + 1];
        }
      }
      var rest := Insert(x, l[1..]);
      InsertKeepsTies(x, l[1..], t);
      Seqs.FilterCons(l[0], rest, At(t));
      Seqs.FilterCons(l[0], l[1..], At(t));
    }
  }

  /**
   * The sort is stable: for every instant, the records stamped then appear
   * in the result in the order they have in the input.
   */
  lemma {:induction false} SortIsStable(s: seq<Payment>, t: int)
    ensures Seqs.Filter(SortNewestFirst(s), At(t)) == Seqs.Filter(s, At(t))
  {
    if s != [] {
      assert s == [s[0]] + s[1..];
      SortIsStable(s[1..], t);
      InsertKeepsTies(s[0], SortNewestFirst(s[1..]), t);
      Seqs.FilterCons(s[0], s[1..], At(t));
    }
  }

  /** What `getPaymentStats` reports, in cents. */
  datatype PaymentStats = PaymentStats(
    totalPaid: int, totalRefunded: int, netAmount: int,
    paymentCount: nat, refundCount: nat, lastPaymentDate: Option<int>)

  function AmountOf(p: Payment): int { p.amount }
  function AbsAmountOf(p: Payment): int { Abs(p.amount) }
  predicate IsCharge(p: Payment) { p.amount > 0 }
  predicate IsRefund(p: Payment) { p.amount < 0 }

  /** What one record adds to the paid total: its amount when positive, else nothing. */
  function PaidPart(p: Payment): int { if p.amount > 0 then p.amount else 0 }
  /** What one record adds to the refunded total: the size of a negative amount, else nothing. */
  function RefundedPart(p: Payment): int { if p.amount < 0 then -p.amount else 0 }
  /** 1 for a charge, 0 otherwise. */
  function ChargeMark(p: Payment): int { if p.amount > 0 then 1 else 0 }
  /** 1 for a refund, 0 otherwise. */
  function RefundMark(p: Payment): int { if p.amount < 0 then 1 else 0 }

  /** The records of one resident: `p => p.residentId === residentId`. */
  function PaidBy(residentId: int): Payment -> bool
  {
    (p: Payment) => p.residentId == residentId
  }

  /**
   * The statistics over one list of payments: positive amounts are paid,
   * negative ones refunded, zero amounts count as neither; the "last"
   * payment date is that of the first record in the list.
   */
  function StatsOf(ps: seq<Payment>): (st: PaymentStats)
    ensures st.totalPaid == Seqs.Sum(ps, PaidPart)
    ensures st.totalRefunded == Seqs.Sum(ps, RefundedPart)
    ensures st.paymentCount == Seqs.Sum(ps, ChargeMark)
    ensures st.refundCount == Seqs.Sum(ps, RefundMark)
    ensures st.totalPaid >= 0 && st.totalRefunded >= 0
    ensures st.netAmount == st.totalPaid - st.totalRefunded
    ensures st.netAmount == Seqs.Sum(ps, AmountOf)
    ensures st.paymentCount + st.refundCount <= |ps|
    ensures forall i :: 0 <= i < |ps| ==> ps[i].amount != 0 ==> st.paymentCount + st.refundCount > 0
    ensures st.lastPaymentDate.None? <==> ps == []
    ensures ps != [] ==> st.lastPaymentDate == Some(ps[0].processedAt)
  {
    var charges, refunds := Seqs.Filter(ps, IsCharge), Seqs.Filter(ps, IsRefund);
    var paid, refunded := Seqs.Sum(charges, AmountOf), Seqs.Sum(refunds, AbsAmountOf);
    StatsSums(ps);
    StatsCounts(ps);
    StatsParts(ps);
    PaymentStats(paid, refunded, paid - refunded, |charges|, |refunds|,
                 if |ps| > 0 then Some(ps[0].processedAt) else None)
  }

  lemma StatsSums(ps: seq<Payment>)
    ensures Seqs.Sum(Seqs.Filter(ps, IsCharge), AmountOf) >= 0
    ensures Seqs.Sum(Seqs.Filter(ps, IsRefund), AbsAmountOf) >= 0
    ensures Seqs.Sum(Seqs.Filter(ps, IsCharge), AmountOf) - Seqs.Sum(Seqs.Filter(ps, IsRefund), AbsAmountOf) ==
            Seqs.Sum(ps, AmountOf)
  {
    var charges, refunds := Seqs.Filter(ps, IsCharge), Seqs.Filter(ps, IsRefund);
    Seqs.SumNonNegative(charges, AmountOf);
    Seqs.SumNonNegative(refunds, AbsAmountOf);
    Seqs.SumNegated(refunds, AmountOf, AbsAmountOf);
    Seqs.SumOverFilters(ps, IsCharge, IsRefund, AmountOf);
  }

  /** Each figure of the statistics, as one pass adding up what every record contributes. */
  lemma StatsParts(ps: seq<Payment>)
    ensures Seqs.Sum(Seqs.Filter(ps, IsCharge), AmountOf) == Seqs.Sum(ps, PaidPart)
    ensures Seqs.Sum(Seqs.Filter(ps, IsRefund), AbsAmountOf) == Seqs.Sum(ps, RefundedPart)
    ensures Seqs.Count(ps, IsCharge) == Seqs.Sum(ps, ChargeMark)
    ensures Seqs.Count(ps, IsRefund) == Seqs.Sum(ps, RefundMark)
  {
    Seqs.SumFiltered(ps, IsCharge, AmountOf, PaidPart);
    Seqs.SumFiltered(ps, IsRefund, AbsAmountOf, RefundedPart);
    Seqs.CountIsSum(ps, IsCharge, ChargeMark);
    Seqs.CountIsSum(ps, IsRefund, RefundMark);
  }

  lemma StatsCounts(ps: seq<Payment>)
    ensures |Seqs.Filter(ps, IsCharge)| + |Seqs.Filter(ps, IsRefund)| <= |ps|
    ensures forall i :: 0 <= i < |ps| ==> ps[i].amount != 0 ==>
      |Seqs.Filter(ps, IsCharge)| + |Seqs.Filter(ps, IsRefund)| > 0
  {
    var nonZero := (p: Payment) => IsCharge(p) || IsRefund(p);
    Seqs.FilterNarrower(ps, IsCharge, nonZero);
    Seqs.FilterNarrower(ps, IsRefund, nonZero);
    Seqs.FilterSplit(Seqs.Filter(ps, nonZero), IsCharge, IsRefund);
    assert forall i :: 0 <= i < |ps| ==> ps[i].amount != 0 ==> ps[i] in Seqs.Filter(ps, nonZero);
  }

  /** Appending one record moves the net amount by exactly that record's amount. */
  lemma NetAfterAppend(ps: seq<Payment>, q: Payment)
    ensures StatsOf(ps + [q]).netAmount == StatsOf(ps).netAmount + q.amount
  {
    Seqs.SumSnoc(ps, q, AmountOf);
  }

  /**
   * In a history whose timestamps never decrease, the reported "last"
   * payment date is the earliest one, not the latest.
   */
  lemma LastPaymentDateIsEarliest(ps: seq<Payment>)
    requires forall i, j :: 0 <= i < j < |ps| ==> ps[i].processedAt <= ps[j].processedAt
    ensures ps != [] ==>
      StatsOf(ps).lastPaymentDate.Some? &&
      forall i :: 0 <= i < |ps| ==> StatsOf(ps).lastPaymentDate.value <= ps[i].processedAt
  {
    if ps != [] {
      assert forall i :: 0 < i < |ps| ==> ps[0].processedAt <= ps[i].processedAt;
    }
  }

  class PaymentService {
    var history: seq<Payment>
    var nextPaymentId: int

    /**
     * The invariant the store keeps: Ids strictly increase along the history
     * and stay below the counter, and every record is completed.
     */
    ghost predicate Valid()
      reads this
    {
      (forall i, j :: 0 <= i < j < |history| ==> history[i].Id < history[j].Id) &&
      (forall i :: 0 <= i < |history| ==> history[i].Id < nextPaymentId) &&
      (forall i :: 0 <= i < |history| ==> history[i].status == PaymentState.Completed)
    }

    constructor ()
      ensures history == [] && nextPaymentId == 1
      ensures Valid()
    {
      history := [];
      nextPaymentId := 1;
    }

    /** `find(p => p.Id === id)`, as an index. */
    function IndexOf(id: int): (i: int)
      reads this
      ensures -1 <= i < |history|
      ensures i == -1 <==> forall j :: 0 <= j < |history| ==> history[j].Id != id
      ensures 0 <= i ==> history[i].Id == id && forall j :: 0 <= j < i ==> history[j].Id != id
    {
      Seqs.FirstIndex(history, (p: Payment) => p.Id == id)
    }

    /**
     * `processPayment`: unless the random failure strikes, append a
     * completed record with the next Id, the request's fields, the fee and
     * the net amount. Non-positive amounts are not rejected.
     */
    method ProcessPayment(req: PaymentRequest, randomFails: bool, txn: string, now: int)
      returns (r: Result<Payment>)
      modifies this
      ensures randomFails ==> r == Err(ProcessingFailed) && history == old(history) && nextPaymentId == old(nextPaymentId)
      ensures !randomFails ==>
        r.Ok? && history == old(history) + [r.value] && nextPaymentId == old(nextPaymentId) + 1
      ensures !randomFails ==>
        var p := r.value;
        p.Id == old(nextPaymentId) && p.status == PaymentState.Completed &&
        p.residentId == req.residentId && p.amount == req.amount &&
        p.paymentMethod == req.paymentMethod && p.description == req.description &&
        p.details == req.details && p.transactionId == txn && p.processedAt == now &&
        p.processingFee == Fee(req.amount) && p.processingFee + p.netAmount == req.amount &&
        p.originalPaymentId.None?
      ensures old(Valid()) ==> Valid()
    {
      if randomFails {
        return Err(ProcessingFailed);
      }
      var fee := Fee(req.amount);
      var p := Payment.Payment(nextPaymentId, req.residentId, req.amount, req.paymentMethod, req.description,
                       req.details, txn, PaymentState.Completed, now, fee, req.amount - fee, None);
      nextPaymentId := nextPaymentId + 1;
      history := history + [p];
      r := Ok(p);
    }

    /** `getPaymentById`: the first record with that Id, or "Payment not found". */
    function GetPaymentById(id: int): (r: Result<Payment>)
      reads this
      ensures r.Ok? <==> exists j :: 0 <= j < |history| && history[j].Id == id
      ensures r.Ok? ==> r.value in history && r.value.Id == id
      ensures r.Err? ==> r.message == NotFound
    {
      var i := IndexOf(id);
      if i == -1 then Err(NotFound) else Ok(history[i])
    }

    /**
     * `getPaymentHistory`: a non-integer resident reference is rejected;
     * otherwise that resident's records, newest first.
     */
    function GetPaymentHistory(resident: ResidentRef): (r: Result<seq<Payment>>)
      reads this
      ensures r.Ok? <==> resident.IntegerId?
      ensures resident.NonInteger? <==> r == Err(InvalidResident)
      ensures r.Ok? ==> NewestFirst(r.value)
      ensures r.Ok? ==> forall p :: p in r.value <==> p in history && p.residentId == resident.id
      ensures r.Ok? ==> multiset(r.value) == multiset(Seqs.Filter(history, PaidBy(resident.id)))
      ensures r.Ok? ==> forall t :: Seqs.Filter(r.value, At(t)) == Seqs.Filter(Seqs.Filter(history, PaidBy(resident.id)), At(t))
    {
      match resident
      case NonInteger => Err(InvalidResident)
      case IntegerId(id) =>
        var mine := Seqs.Filter(history, PaidBy(id));
        var sorted := SortNewestFirst(mine);
        assert forall p :: p in sorted <==> p in multiset(mine);
        assert forall t :: Seqs.Filter(sorted, At(t)) == Seqs.Filter(mine, At(t)) by {
          forall t ensures Seqs.Filter(sorted, At(t)) == Seqs.Filter(mine, At(t)) {
            SortIsStable(mine, t);
          }
        }
        Ok(sorted)
    }

    /** `getAllPayments`: every record, newest first. */
    function GetAllPayments(): (r: seq<Payment>)
      reads this
      ensures NewestFirst(r)
      ensures multiset(r) == multiset(history)
      ensures forall t :: Seqs.Filter(r, At(t)) == Seqs.Filter(history, At(t))
    {
      assert forall t :: Seqs.Filter(SortNewestFirst(history), At(t)) == Seqs.Filter(history, At(t)) by {
        forall t ensures Seqs.Filter(SortNewestFirst(history), At(t)) == Seqs.Filter(history, At(t)) {
          SortIsStable(history, t);
        }
      }
      SortNewestFirst(history)
    }

    /**
     * `refundPayment`: a refund of a completed record is appended as a new
     * completed record with the next Id, the negated magnitude of the
     * refund amount as both amount and net, no fee, the original's resident
     * and method, its details plus a refund reason, and a link back to it.
     * The original record is left as it was.
     */
    method RefundPayment(paymentId: int, refundAmount: int, txn: string, now: int)
      returns (r: Result<Payment>)
      modifies this
      ensures old(IndexOf(paymentId)) == -1 ==>
        r == Err(NotFound) && history == old(history) && nextPaymentId == old(nextPaymentId)
      ensures old(IndexOf(paymentId)) >= 0 && old(history[IndexOf(paymentId)]).status != PaymentState.Completed ==>
        r == Err(NotRefundable) && history == old(history) && nextPaymentId == old(nextPaymentId)
      ensures r.Ok? ==>
        var orig := old(history[IndexOf(paymentId)]);
        old(IndexOf(paymentId)) >= 0 && orig.status == PaymentState.Completed &&
        history == old(history) + [r.value] && nextPaymentId == old(nextPaymentId) + 1 &&
        r.value == Payment.Payment(old(nextPaymentId), orig.residentId, -Abs(refundAmount), orig.paymentMethod,
                           "Refund for payment " + orig.transactionId,
                           orig.details["refundReason" := "Requested refund"], txn,
                           PaymentState.Completed, now, 0, -Abs(refundAmount), Some(orig.Id))
      ensures old(Valid()) && old(IndexOf(paymentId)) >= 0 ==> r.Ok?
      ensures old(Valid()) ==> Valid()
    {
      var i := IndexOf(paymentId);
      if i == -1 {
        return Err(NotFound);
      }
      var orig := history[i];
      if orig.status != PaymentState.Completed {
        return Err(NotRefundable);
      }
      var refund := Payment.Payment(nextPaymentId, orig.residentId, -Abs(refundAmount), orig.paymentMethod,
                            "Refund for payment " + orig.transactionId,
                            orig.details["refundReason" := "Requested refund"], txn,
                            PaymentState.Completed, now, 0, -Abs(refundAmount), Some(orig.Id));
      nextPaymentId := nextPaymentId + 1;
      history := history + [refund];
      r := Ok(refund);
    }

    /**
     * `getPaymentStats`: over one resident's records when a non-zero
     * resident Id is given (a missing or zero Id is falsy and selects all).
     */
    function GetPaymentStats(resident: Option<int>): (st: PaymentStats)
      reads this
      ensures resident.None? || resident == Some(0) ==> st == StatsOf(history)
      ensures resident.Some? && resident.value != 0 ==> st == StatsOf(Seqs.Filter(history, PaidBy(resident.value)))
      ensures st.netAmount == st.totalPaid - st.totalRefunded
      ensures st.paymentCount + st.refundCount <= |history|
      ensures st.lastPaymentDate.Some? ==> exists i :: 0 <= i < |history| && history[i].processedAt == st.lastPaymentDate.value
    {
      var scope := if resident.Some? && resident.value != 0
        then Seqs.Filter(history, PaidBy(resident.value))
        else history;
      assert scope != [] ==> scope[0] in history;
      StatsOf(scope)
    }
  }
}
