/**
 * The financial reports page: the daily collection table with its total, the pending-fees table
 * with its footer, and the mode-wise and cashier tables, whose figures are written into the page.
 */
module FinancialReportsScreen {
  import opened Types
  import Lists
  import Totals

  /** The daily collection footer: the total of every payment listed. */
  function DailyCollectionTotal(payments: seq<Payment>): (t: int)
    ensures payments == [] ==> t == 0
    ensures forall p :: Totals.PaymentsTotal(payments + [p]) == t + p.amount
  {
    forall p ensures Totals.PaymentsTotal(payments + [p]) == Totals.PaymentsTotal(payments) + p.amount {
      Totals.PaymentsTotalAddOne(payments, p);
    }
    Totals.PaymentsTotal(payments)
  }

  predicate HasPendingBalance(s: Student)
  {
    s.pendingBalance > 0
  }

  /** The pending-fees rows: the students with a positive pending balance, in list order. */
  function PendingRows(students: seq<Student>): (r: seq<Student>)
    ensures |r| <= |students|
    ensures forall s :: s in r <==> s in students && s.pendingBalance > 0
    ensures Lists.IsSubsequence(r, students)
  {
    Lists.FilterIsSubsequence(HasPendingBalance, students);
    Lists.Filter(HasPendingBalance, students)
  }

  /**
   * The pending footer adds up every student's balance, not only the listed rows. It is never more
   * than the sum over the rows, and equals it when no balance is negative.
   */
  lemma PendingFooterVersusRows(students: seq<Student>)
    ensures Totals.PendingTotal(students) <= Totals.PendingTotal(PendingRows(students))
    ensures (forall i :: 0 <= i < |students| ==> students[i].pendingBalance >= 0) ==>
              Totals.PendingTotal(students) == Totals.PendingTotal(PendingRows(students))
  {
    Lists.SumOfFilter(Totals.Pending, HasPendingBalance, students);
  }

  /** One row of the mode-wise table. */
  datatype ModeRow = ModeRow(mode: PaymentMode, amount: int, transactions: int)

  /** `modeWiseCollection`: fixed figures written into the page, not derived from the payments. */
  const ModeWiseCollection: seq<ModeRow> := [
    ModeRow(Cash, 30000, 1),
    ModeRow(Card, 51500, 1),
    ModeRow(UPI, 51500, 1),
    ModeRow(Cheque, 0, 0)
  ]

  function RowAmount(r: ModeRow): int
  {
    r.amount
  }

  function RowTransactions(r: ModeRow): int
  {
    r.transactions
  }

  /** The mode-wise footer: the transactions and the amounts of the rows, added up. */
  function ModeFooter(rows: seq<ModeRow>): (footer: (int, int))
    ensures rows == [] ==> footer == (0, 0)
  {
    (Lists.Sum(RowTransactions, rows), Lists.Sum(RowAmount, rows))
  }

  /** The footer of a table split in two is the sum of the two parts' footers. */
  lemma ModeFooterAppend(a: seq<ModeRow>, b: seq<ModeRow>)
    ensures ModeFooter(a + b).0 == ModeFooter(a).0 + ModeFooter(b).0
    ensures ModeFooter(a + b).1 == ModeFooter(a).1 + ModeFooter(b).1
  {
    Lists.SumAppend(RowTransactions, a, b);
    Lists.SumAppend(RowAmount, a, b);
  }

  /** The mode-wise rows are Cash, Card, UPI and Cheque in that order; the footer reads 3 and 133000. */
  lemma ModeWiseTable()
    ensures |ModeWiseCollection| == 4
    ensures ModeWiseCollection[0].mode == Cash && ModeWiseCollection[1].mode == Card
    ensures ModeWiseCollection[2].mode == UPI && ModeWiseCollection[3].mode == Cheque
    ensures ModeFooter(ModeWiseCollection) == (3, 133000)
  {
  }

  /** The cashier-wise table's single row, also written into the page. */
  datatype CashierRow = CashierRow(name: string, transactions: int, total: int)

  const CashierSummary := CashierRow("Priya Sharma", 3, 133000)

  /** The cashier row agrees with the mode-wise footer. */
  lemma CashierSummaryAgrees()
    ensures ModeFooter(ModeWiseCollection) == (CashierSummary.transactions, CashierSummary.total)
  {
    ModeWiseTable();
  }
}
