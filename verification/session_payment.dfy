/**
  Payment totals over therapy sessions (`SessionPaymentUtil`). A session
  counts towards a total only when its price is present; a present price
  contributes its value.
*/
module SessionPayment {
  import opened Wrappers
  import opened Model
  import Seqs

  /** What `Number(s.precio) || 0` adds for a session, 0 when the price is missing. */
  function Amount(s: TherapySession): int {
    s.price.GetOr(0)
  }

  /** The `reduce` over amounts. */
  function Sum(ss: seq<TherapySession>): int
    decreases |ss|
  {
    if |ss| == 0 then 0 else Amount(ss[0]) + Sum(ss[1..])
  }

  /** The sum of a concatenation is the sum of the parts. */
  lemma {:induction false} SumConcat(a: seq<TherapySession>, b: seq<TherapySession>)
    ensures Sum(a + b) == Sum(a) + Sum(b)
    decreases |a|
  {
    if |a| == 0 {
      assert a + b == b;
    } else {
      assert (a + b)[1..] == a[1..] + b;
      SumConcat(a[1..], b);
    }
  }

  predicate Priced(s: TherapySession) {
    s.price.Some?
  }

  predicate PaidPriced(s: TherapySession) {
    s.paid && s.price.Some?
  }

  predicate PendingPriced(s: TherapySession) {
    !s.paid && s.price.Some?
  }

  /** The test `s.patientId === patientId`: a session without a patient matches no id. */
  function OfPatient(patientId: int): TherapySession -> bool {
    (s: TherapySession) => s.patientId == Some(patientId)
  }

  /**
    Independent total: walking the sessions one by one, add the price of
    each session whose paid flag is `paid` (a missing price adds nothing).
  */
  function AmountWhere(ss: seq<TherapySession>, paid: bool): int
    decreases |ss|
  {
    if |ss| == 0 then 0
    else (if ss[0].paid == paid then Amount(ss[0]) else 0) + AmountWhere(ss[1..], paid)
  }

  /** The same walk restricted to one patient's sessions. */
  function PatientAmountWhere(ss: seq<TherapySession>, patientId: int, paid: bool): int
    decreases |ss|
  {
    if |ss| == 0 then 0
    else (if ss[0].patientId == Some(patientId) && ss[0].paid == paid then Amount(ss[0]) else 0)
         + PatientAmountWhere(ss[1..], patientId, paid)
  }

  lemma {:induction false} FilteredSumIsWalk(ss: seq<TherapySession>)
    ensures Sum(Seqs.Filter(ss, PaidPriced)) == AmountWhere(ss, true)
    ensures Sum(Seqs.Filter(ss, PendingPriced)) == AmountWhere(ss, false)
    decreases |ss|
  {
    if |ss| > 0 {
      FilteredSumIsWalk(ss[1..]);
    }
  }

  lemma {:induction false} PatientWalk(ss: seq<TherapySession>, patientId: int, paid: bool)
    ensures AmountWhere(Seqs.Filter(ss, OfPatient(patientId)), paid) == PatientAmountWhere(ss, patientId, paid)
    decreases |ss|
  {
    if |ss| > 0 {
      PatientWalk(ss[1..], patientId, paid);
    }
  }

  /** `calculateTotalPaid`: the prices of the paid sessions, added up. */
  function CalculateTotalPaid(ss: seq<TherapySession>): (r: int)
    ensures r == AmountWhere(ss, true)
  {
    FilteredSumIsWalk(ss);
    Sum(Seqs.Filter(ss, PaidPriced))
  }

  /** `calculateTotalPending`: the prices of the unpaid sessions, added up. */
  function CalculateTotalPending(ss: seq<TherapySession>): (r: int)
    ensures r == AmountWhere(ss, false)
  {
    FilteredSumIsWalk(ss);
    Sum(Seqs.Filter(ss, PendingPriced))
  }

  /** With nothing paid the paid total is 0, with nothing unpaid the pending total is 0; both are 0 on `[]`. */
  lemma ZeroTotals(ss: seq<TherapySession>)
    ensures (forall i :: 0 <= i < |ss| ==> !ss[i].paid) ==> CalculateTotalPaid(ss) == 0
    ensures (forall i :: 0 <= i < |ss| ==> ss[i].paid) ==> CalculateTotalPending(ss) == 0
  {
    if forall i :: 0 <= i < |ss| ==> !ss[i].paid {
      Seqs.FilterKeepsNone(ss, PaidPriced);
    }
    if forall i :: 0 <= i < |ss| ==> ss[i].paid {
      Seqs.FilterKeepsNone(ss, PendingPriced);
    }
  }

  /** `calculateTotalPaidForPatient`: the paid total over that patient's sessions only. */
  function CalculateTotalPaidForPatient(ss: seq<TherapySession>, patientId: int): (r: int)
    ensures r == PatientAmountWhere(ss, patientId, true)
  {
    PatientWalk(ss, patientId, true);
    CalculateTotalPaid(Seqs.Filter(ss, OfPatient(patientId)))
  }

  /** `calculateTotalPendingForPatient`: the pending total over that patient's sessions only. */
  function CalculateTotalPendingForPatient(ss: seq<TherapySession>, patientId: int): (r: int)
    ensures r == PatientAmountWhere(ss, patientId, false)
  {
    PatientWalk(ss, patientId, false);
    CalculateTotalPending(Seqs.Filter(ss, OfPatient(patientId)))
  }

  function GetSessionCountForPatient(ss: seq<TherapySession>, patientId: int): (n: nat)
    ensures n <= |ss|
  {
    |Seqs.Filter(ss, OfPatient(patientId))|
  }

  /** Independent count: the sessions of that patient, one by one. */
  function CountOf(ss: seq<TherapySession>, patientId: int): nat
    decreases |ss|
  {
    if |ss| == 0 then 0
    else (if ss[0].patientId == Some(patientId) then 1 else 0) + CountOf(ss[1..], patientId)
  }

  lemma {:induction false} SessionCountIsCount(ss: seq<TherapySession>, patientId: int)
    ensures GetSessionCountForPatient(ss, patientId) == CountOf(ss, patientId)
    decreases |ss|
  {
    if |ss| > 0 {
      SessionCountIsCount(ss[1..], patientId);
    }
  }

  /** Paid plus pending is the sum over every priced session, which is the sum over all sessions. */
  lemma {:induction false} TotalsPartition(ss: seq<TherapySession>)
    ensures CalculateTotalPaid(ss) + CalculateTotalPending(ss) == Sum(Seqs.Filter(ss, Priced))
    ensures Sum(Seqs.Filter(ss, Priced)) == Sum(ss)
    decreases |ss|
  {
    if |ss| > 0 {
      TotalsPartition(ss[1..]);
    }
  }

  /** The per-patient totals partition that patient's sessions the same way. */
  lemma PatientTotalsPartition(ss: seq<TherapySession>, patientId: int)
    ensures CalculateTotalPaidForPatient(ss, patientId) + CalculateTotalPendingForPatient(ss, patientId)
            == Sum(Seqs.Filter(ss, OfPatient(patientId)))
  {
    TotalsPartition(Seqs.Filter(ss, OfPatient(patientId)));
  }

  /** The joint test: that patient's, paid and priced. */
  function PaidOfPatient(patientId: int): TherapySession -> bool {
    (s: TherapySession) => s.patientId == Some(patientId) && PaidPriced(s)
  }

  /** The per-patient paid total is the plain sum over that patient's paid, priced sessions. */
  lemma PatientPaidIsJointFilter(ss: seq<TherapySession>, patientId: int)
    ensures CalculateTotalPaidForPatient(ss, patientId) == Sum(Seqs.Filter(ss, PaidOfPatient(patientId)))
  {
    Seqs.FilterFilter(ss, OfPatient(patientId), PaidPriced);
    Seqs.FilterExt(ss, (x: TherapySession) => OfPatient(patientId)(x) && PaidPriced(x), PaidOfPatient(patientId));
  }
}
