/** The records of the fee-management system (users, students, payments, daily sessions). */
module Types {
  import opened Wrappers

  /** The three roles of the application. */
  datatype UserRole = Admin | Principal | Cashier

  /** The role's spelling in the source (`'admin'`, `'principal'`, `'cashier'`). */
  function RoleName(r: UserRole): string
  {
    match r
    case Admin => "admin"
    case Principal => "principal"
    case Cashier => "cashier"
  }

  /** The role a role string names, if any. */
  function ParseRole(s: string): (r: Option<UserRole>)
    ensures forall role :: RoleName(role) == s ==> r == Some(role)
    ensures r.Some? ==> RoleName(r.value) == s
  {
    if s == "admin" then Some(Admin)
    else if s == "principal" then Some(Principal)
    else if s == "cashier" then Some(Cashier)
    else None
  }

  /**
   * The signed-in user as the authentication collaborator reports it. The role is kept as the
   * string it arrives as, so that a value outside the three roles can be represented.
   */
  datatype AuthUser = AuthUser(id: string, username: string, role: string, name: string)

  datatype FeeStatus = FullyPaid | PartiallyPaid | Pending

  /** The fee status's spelling in the source. */
  function FeeStatusLabel(f: FeeStatus): string
  {
    match f
    case FullyPaid => "Fully Paid"
    case PartiallyPaid => "Partially Paid"
    case Pending => "Pending"
  }

  /** Amounts are whole rupees. */
  datatype Student = Student(
    id: string,
    rollNumber: string,
    name: string,
    course: string,
    section: string,
    year: string,
    totalFee: int,
    paidAmount: int,
    pendingBalance: int,
    feeStatus: FeeStatus,
    parentPhone: string,
    parentEmail: string)

  datatype PaymentMode = Cash | Card | UPI | Cheque

  /** The payment mode's spelling in the source. */
  function ModeName(m: PaymentMode): string
  {
    match m
    case Cash => "Cash"
    case Card => "Card"
    case UPI => "UPI"
    case Cheque => "Cheque"
  }

  /** A point in time; clocks are outside the model, so instants are opaque values. */
  type Timestamp = int

  datatype Payment = Payment(
    id: string,
    receiptNo: string,
    studentId: string,
    studentName: string,
    amount: int,
    paymentMode: PaymentMode,
    remarks: string,
    timestamp: Timestamp,
    cashierId: string,
    cashierName: string)

  /** One day's cash-collection session with its mode-wise subtotals. */
  datatype DailySession = DailySession(
    id: string,
    date: string,
    openedBy: string,
    openedAt: Timestamp,
    closedBy: Option<string>,
    closedAt: Option<Timestamp>,
    isOpen: bool,
    totalTransactions: int,
    totalAmount: int,
    cashAmount: int,
    cardAmount: int,
    upiAmount: int,
    chequeAmount: int)

  /** The session's total is the sum of its four mode subtotals. */
  predicate Balanced(s: DailySession)
  {
    s.totalAmount == s.cashAmount + s.cardAmount + s.upiAmount + s.chequeAmount
  }
}
