/**
 * The administrator's dashboard: four figures, the payment-mode chart with its colours, and the
 * five most recent payments.
 */
module AdminDashboardScreen {
  import opened Types
  import Lists
  import Totals

  /** One slice of the payment-mode chart. */
  datatype ModeSlice = ModeSlice(name: PaymentMode, value: int, color: string)

  /** `modeData`: fixed figures written into the page, not derived from the payments. */
  const ModeData: seq<ModeSlice> := [
    ModeSlice(Cash, 5500, "#10b981"),
    ModeSlice(Card, 5100, "#3b82f6"),
    ModeSlice(UPI, 51500, "#8b5cf6"),
    ModeSlice(Cheque, 1000, "#f59e0b")
  ]

  /** `modeColors`: the swatch colour of each mode name. */
  const ModeColors: map<string, string> := map[
    "Cash" := "#10b981",
    "Card" := "#3b82f6",
    "UPI" := "#8b5cf6",
    "Cheque" := "#f59e0b"
  ]

  function SliceValue(m: ModeSlice): int
  {
    m.value
  }

  /** The dashboard's figures. */
  datatype Stats = Stats(
    totalCollection: int,
    pendingFees: int,
    totalStudents: int,
    todayCollection: int,
    cashierCount: int)

  /**
   * The figures: the payments' total, the students' pending total and count, today's collection
   * from the chart data (63100 whatever the payments are), and an active-cashier count fixed at 0.
   */
  function DashboardStats(payments: seq<Payment>, students: seq<Student>): (s: Stats)
    ensures s.totalCollection == Totals.PaymentsTotal(payments) && s.pendingFees == Totals.PendingTotal(students)
    ensures s.totalStudents == |students|
    ensures s.todayCollection == 63100 && s.cashierCount == 0
    ensures (forall i :: 0 <= i < |payments| ==> payments[i].amount >= 0) ==> s.totalCollection >= 0
    ensures (forall i :: 0 <= i < |students| ==> students[i].pendingBalance >= 0) ==> s.pendingFees >= 0
  {
    Stats(
      totalCollection := Totals.PaymentsTotal(payments),
      pendingFees := Totals.PendingTotal(students),
      totalStudents := |students|,
      todayCollection := Lists.Sum(SliceValue, ModeData),
      cashierCount := 0)
  }

  /** A new payment raises the total collection by its amount and leaves today's figure alone. */
  lemma NewPaymentRaisesTotal(payments: seq<Payment>, students: seq<Student>, p: Payment)
    ensures DashboardStats(payments + [p], students).totalCollection ==
              DashboardStats(payments, students).totalCollection + p.amount
    ensures DashboardStats(payments + [p], students).todayCollection ==
              DashboardStats(payments, students).todayCollection
  {
    Totals.PaymentsTotalAddOne(payments, p);
  }

  /** `payments.slice(0, 5)`: the first five payments, or all of them when there are fewer. */
  function RecentPayments(payments: seq<Payment>): (r: seq<Payment>)
    ensures |r| == if |payments| < 5 then |payments| else 5
    ensures forall i :: 0 <= i < |r| ==> r[i] == payments[i]
  {
    if |payments| < 5 then payments else payments[..5]
  }

  /** Every chart slice is drawn in the colour `modeColors` gives its mode, and every mode has one. */
  lemma ModeColoursConsistent()
    ensures forall m: PaymentMode :: ModeName(m) in ModeColors
    ensures forall i :: 0 <= i < |ModeData| ==>
              ModeName(ModeData[i].name) in ModeColors && ModeData[i].color == ModeColors[ModeName(ModeData[i].name)]
    ensures |ModeData| == 4
    ensures ModeData[0].name == Cash && ModeData[1].name == Card && ModeData[2].name == UPI && ModeData[3].name == Cheque
  {
    assert ModeData[0].name == Cash && ModeData[1].name == Card;
    assert ModeData[2].name == UPI && ModeData[3].name == Cheque;
  }

  /** The swatch colour of a payment in the recent list: the colour of its mode's chart slice. */
  function ModeSwatch(p: Payment): (c: string)
    ensures exists i :: 0 <= i < |ModeData| && ModeData[i].name == p.paymentMode && ModeData[i].color == c
  {
    ModeColoursConsistent();
    var c := ModeColors[ModeName(p.paymentMode)];
    assert ModeData[0].name == Cash && ModeData[1].name == Card;
    assert ModeData[2].name == UPI && ModeData[3].name == Cheque;
    c
  }
}
