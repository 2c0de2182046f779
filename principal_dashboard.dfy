/**
 * The principal's read-only dashboard: three figures folded from the payments and the students,
 * and a table listing every payment.
 */
module PrincipalDashboardScreen {
  import opened Types
  import Totals
  import AdminDashboardScreen

  /** The three figures of the page. */
  datatype Figures = Figures(totalCollection: int, pendingFees: int, totalStudents: int)

  /** The three folds: the payments' total, the students' pending total and the student count. */
  function PrincipalFigures(payments: seq<Payment>, students: seq<Student>): (f: Figures)
    ensures f.totalCollection == Totals.PaymentsTotal(payments) && f.pendingFees == Totals.PendingTotal(students)
    ensures f.totalStudents == |students|
    ensures (forall i :: 0 <= i < |payments| ==> payments[i].amount >= 0) ==> f.totalCollection >= 0
    ensures (forall i :: 0 <= i < |students| ==> students[i].pendingBalance >= 0) ==> f.pendingFees >= 0
  {
    Figures(Totals.PaymentsTotal(payments), Totals.PendingTotal(students), |students|)
  }

  /** The principal sees the same three figures as the administrator's dashboard. */
  lemma SameFiguresAsAdmin(payments: seq<Payment>, students: seq<Student>)
    ensures var f := PrincipalFigures(payments, students);
            var s := AdminDashboardScreen.DashboardStats(payments, students);
            f.totalCollection == s.totalCollection && f.pendingFees == s.pendingFees
            && f.totalStudents == s.totalStudents
  {
  }

  /** A further payment raises the principal's total by its amount; the other two figures stay. */
  lemma NewPaymentRaisesFigure(payments: seq<Payment>, students: seq<Student>, p: Payment)
    ensures PrincipalFigures(payments + [p], students).totalCollection ==
              PrincipalFigures(payments, students).totalCollection + p.amount
    ensures PrincipalFigures(payments + [p], students).pendingFees == PrincipalFigures(payments, students).pendingFees
    ensures PrincipalFigures(payments + [p], students).totalStudents == |students|
  {
    Totals.PaymentsTotalAddOne(payments, p);
  }

  /** The table under "Recent Payments" lists every payment, in order, not only the latest ones. */
  function PaymentListing(payments: seq<Payment>): (rows: seq<Payment>)
    ensures |rows| == |payments|
    ensures forall i :: 0 <= i < |rows| ==> rows[i] == payments[i]
  {
    payments
  }

  /**
   * The administrator's five recent payments are the head of the principal's listing; the two
   * tables agree exactly when there are at most five payments.
   */
  lemma RecentIsPrefixOfListing(payments: seq<Payment>)
    ensures var recent := AdminDashboardScreen.RecentPayments(payments);
            recent <= PaymentListing(payments)
            && (recent == PaymentListing(payments) <==> |payments| <= 5)
  {
    var recent := AdminDashboardScreen.RecentPayments(payments);
    assert recent == payments[..|recent|];
  }
}
