/** The `reduce` folds the report pages share: the total of the payments and of the pending balances. */
module Totals {
  import opened Types
  import Lists

  function Amount(p: Payment): int
  {
    p.amount
  }

  function Pending(s: Student): int
  {
    s.pendingBalance
  }

  /** `payments.reduce((sum, p) => sum + p.amount, 0)`. */
  function PaymentsTotal(payments: seq<Payment>): (t: int)
    ensures (forall i :: 0 <= i < |payments| ==> payments[i].amount >= 0) ==> t >= 0
  {
    Lists.SumNonNegative(Amount, payments);
    Lists.Sum(Amount, payments)
  }

  /** The total of two lists of payments is the sum of their totals. */
  lemma PaymentsTotalAppend(a: seq<Payment>, b: seq<Payment>)
    ensures PaymentsTotal(a + b) == PaymentsTotal(a) + PaymentsTotal(b)
  {
    Lists.SumAppend(Amount, a, b);
  }

  /** A payment adds exactly its amount to the total. */
  lemma PaymentsTotalAddOne(payments: seq<Payment>, p: Payment)
    ensures PaymentsTotal(payments + [p]) == PaymentsTotal(payments) + p.amount
  {
    PaymentsTotalAppend(payments, [p]);
    assert [p][1..] == [];
    assert Lists.Sum(Amount, [p]) == Amount(p) + Lists.Sum(Amount, []);
  }

  /** `students.reduce((sum, s) => sum + s.pendingBalance, 0)`. */
  function PendingTotal(students: seq<Student>): (t: int)
    ensures (forall i :: 0 <= i < |students| ==> students[i].pendingBalance >= 0) ==> t >= 0
  {
    Lists.SumNonNegative(Pending, students);
    Lists.Sum(Pending, students)
  }

  /** The pending total of two lists of students is the sum of their pending totals. */
  lemma PendingTotalAppend(a: seq<Student>, b: seq<Student>)
    ensures PendingTotal(a + b) == PendingTotal(a) + PendingTotal(b)
  {
    Lists.SumAppend(Pending, a, b);
  }
}
