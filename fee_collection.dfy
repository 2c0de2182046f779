/**
 * The cashier's fee collection screen: find a student, validate the amount, build a receipt and
 * reset the form. The random receipt number and the printed date are parameters.
 */
module FeeCollectionScreen {
  import opened Wrappers
  import opened Types
  import Lists
  import Text
  import NumberParsing
  import StudentManagementScreen

  /** The receipt the dialog shows; the student parts are absent when no student is selected. */
  datatype Receipt = Receipt(
    receiptNo: string,
    studentName: Option<string>,
    rollNumber: Option<string>,
    amount: NumberParsing.Number,
    paymentMode: PaymentMode,
    remarks: string,
    date: string)

  /** `students.find(...)`: the first student, in list order, whose name or roll number matches. */
  function FindStudent(students: seq<Student>, term: string): (r: Option<Student>)
    ensures r.None? <==> forall i :: 0 <= i < |students| ==> !StudentManagementScreen.MatchesSearch(students[i], term)
    ensures r.Some? ==> exists i :: 0 <= i < |students| && students[i] == r.value
                          && StudentManagementScreen.MatchesSearch(students[i], term)
                          && forall j :: 0 <= j < i ==> !StudentManagementScreen.MatchesSearch(students[j], term)
  {
    var p := (s: Student) => StudentManagementScreen.MatchesSearch(s, term);
    var r := Lists.Find(p, students);
    assert r.Some? ==> exists i :: Lists.IsFirstMatch(p, students, i) && students[i] == r.value;
    r
  }

  /** An empty search term selects the first student of a non-empty list. */
  lemma EmptyTermFindsFirst(students: seq<Student>)
    requires students != []
    ensures FindStudent(students, "") == Some(students[0])
  {
    StudentManagementScreen.MatchesSearchProperties(students[0], "");
    var r := FindStudent(students, "");
    var i :| 0 <= i < |students| && students[i] == r.value
             && forall j :: 0 <= j < i ==> !StudentManagementScreen.MatchesSearch(students[j], "");
    assert i == 0;
  }

  /** `!amount || parseFloat(amount) <= 0`: the guard that refuses a payment. */
  predicate AmountRejected(amount: string)
  {
    var v := NumberParsing.ParseFloat(amount);
    amount == "" || (v.Finite? && v.value <= 0.0)
  }

  /**
   * An accepted amount is a non-empty string that parses to a positive number or to `NaN`
   * (`NaN <= 0` is false in JavaScript, so a non-numeric amount passes the guard).
   */
  lemma AcceptedAmount(amount: string)
    requires !AmountRejected(amount)
    ensures amount != []
    ensures NumberParsing.ParseFloat(amount).NaN? || NumberParsing.ParseFloat(amount).value > 0.0
  {
  }

  /** The empty amount, zero and any negative whole amount are refused. */
  lemma RefusedAmounts(n: nat)
    ensures AmountRejected("")
    ensures AmountRejected(Text.Decimal(0))
    ensures AmountRejected("-" + Text.Decimal(n))
  {
    NumberParsing.ParseFloatOfDecimal(0);
    NumberParsing.ParseFloatOfNegative(n);
  }

  /** A positive whole amount is accepted. */
  lemma WholeAmountAccepted(n: nat)
    requires n > 0
    ensures !AmountRejected(Text.Decimal(n))
  {
    NumberParsing.ParseFloatOfDecimal(n);
  }

  /** A non-empty amount without any digit reads as `NaN` and is accepted. */
  lemma NonNumericAmountAccepted(amount: string)
    requires amount != []
    requires forall i :: 0 <= i < |amount| ==> !NumberParsing.IsDigit(amount[i])
    ensures !AmountRejected(amount)
  {
    NumberParsing.ParseFloatWithoutDigits(amount);
  }

  /** An amount whose reading is positive has a digit somewhere and does not start with a minus sign. */
  lemma PositiveAmountHasDigits(amount: string)
    requires NumberParsing.ParseFloat(amount).Finite? && NumberParsing.ParseFloat(amount).value > 0.0
    ensures !AmountRejected(amount)
    ensures exists i :: 0 <= i < |amount| && NumberParsing.IsDigit(amount[i])
  {
    NumberParsing.ParseFloatPositive(amount);
  }

  /** The receipt of an accepted payment: number `RCP/2024/<draw>` with `draw` below 1000. */
  function MakeReceipt(draw: nat, selected: Option<Student>, amount: string, mode: PaymentMode,
                       remarks: string, date: string): (r: Receipt)
    requires draw < 1000
    ensures r.receiptNo == "RCP/2024/" + Text.Decimal(draw)
    ensures selected.Some? ==> r.studentName == Some(selected.value.name) && r.rollNumber == Some(selected.value.rollNumber)
    ensures selected.None? ==> r.studentName.None? && r.rollNumber.None?
    ensures r.amount == NumberParsing.ParseFloat(amount) && r.paymentMode == mode && r.remarks == remarks
  {
    Receipt(
      receiptNo := "RCP/2024/" + Text.Decimal(draw),
      studentName := if selected.Some? then Some(selected.value.name) else None,
      rollNumber := if selected.Some? then Some(selected.value.rollNumber) else None,
      amount := NumberParsing.ParseFloat(amount),
      paymentMode := mode,
      remarks := remarks,
      date := date)
  }

  /** The state of the fee collection screen. */
  class FeeCollection {
    /** The mock student list; the screen never changes it. */
    const students: seq<Student>
    var searchTerm: string
    var selectedStudent: Option<Student>
    var amount: string
    var paymentMode: PaymentMode
    var remarks: string
    var showReceipt: bool
    var receiptData: Option<Receipt>

    /** The initial state: empty inputs, no selection, mode Cash and no receipt. */
    constructor (students: seq<Student>)
      ensures this.students == students
      ensures searchTerm == "" && selectedStudent.None? && amount == "" && remarks == ""
      ensures paymentMode == Cash && !showReceipt && receiptData.None?
    {
      this.students := students;
      searchTerm := "";
      selectedStudent := None;
      amount := "";
      paymentMode := Cash;
      remarks := "";
      showReceipt := false;
      receiptData := None;
    }

    /** The search box's `onChange`. */
    method SetSearchTerm(term: string)
      modifies this
      ensures searchTerm == term
      ensures selectedStudent == old(selectedStudent) && amount == old(amount) && remarks == old(remarks)
      ensures paymentMode == old(paymentMode) && showReceipt == old(showReceipt) && receiptData == old(receiptData)
    {
      searchTerm := term;
    }

    /** The amount box's `onChange`. */
    method SetAmount(value: string)
      modifies this
      ensures amount == value
      ensures searchTerm == old(searchTerm) && selectedStudent == old(selectedStudent) && remarks == old(remarks)
      ensures paymentMode == old(paymentMode) && showReceipt == old(showReceipt) && receiptData == old(receiptData)
    {
      amount := value;
    }

    /** The payment-mode radio group: one of the four modes. */
    method SetPaymentMode(mode: PaymentMode)
      modifies this
      ensures paymentMode == mode
      ensures searchTerm == old(searchTerm) && selectedStudent == old(selectedStudent)
      ensures amount == old(amount) && remarks == old(remarks)
      ensures showReceipt == old(showReceipt) && receiptData == old(receiptData)
    {
      paymentMode := mode;
    }

    /** The remarks box's `onChange`. */
    method SetRemarks(value: string)
      modifies this
      ensures remarks == value
      ensures searchTerm == old(searchTerm) && selectedStudent == old(selectedStudent) && amount == old(amount)
      ensures paymentMode == old(paymentMode) && showReceipt == old(showReceipt) && receiptData == old(receiptData)
    {
      remarks := value;
    }

    /** The receipt dialog's `onOpenChange`: the receipt itself is kept. */
    method SetShowReceipt(open: bool)
      modifies this
      ensures showReceipt == open
      ensures searchTerm == old(searchTerm) && selectedStudent == old(selectedStudent)
      ensures amount == old(amount) && remarks == old(remarks)
      ensures paymentMode == old(paymentMode) && receiptData == old(receiptData)
    {
      showReceipt := open;
    }

    /** `handleSearch`: select the first match; when nothing matches the selection is kept. */
    method HandleSearch() returns (found: Option<Student>)
      modifies this
      ensures found == FindStudent(students, searchTerm)
      ensures selectedStudent == if found.Some? then found else old(selectedStudent)
      ensures searchTerm == old(searchTerm) && amount == old(amount) && remarks == old(remarks)
      ensures paymentMode == old(paymentMode) && showReceipt == old(showReceipt) && receiptData == old(receiptData)
    {
      found := FindStudent(students, searchTerm);
      if found.Some? {
        selectedStudent := found;
      }
    }

    /**
     * `handleSubmitPayment`: a refused amount changes nothing; an accepted one shows its receipt
     * and clears the amount and remarks, keeping the mode and the selected student.
     */
    method HandleSubmitPayment(draw: nat, date: string) returns (accepted: bool)
      requires draw < 1000
      modifies this
      ensures accepted <==> !AmountRejected(old(amount))
      ensures !accepted ==>
                amount == old(amount) && remarks == old(remarks)
                && showReceipt == old(showReceipt) && receiptData == old(receiptData)
      ensures accepted ==>
                receiptData == Some(MakeReceipt(draw, old(selectedStudent), old(amount), old(paymentMode), old(remarks), date))
                && showReceipt && amount == "" && remarks == ""
      ensures searchTerm == old(searchTerm) && selectedStudent == old(selectedStudent) && paymentMode == old(paymentMode)
    {
      if AmountRejected(amount) {
        return false;
      }
      receiptData := Some(MakeReceipt(draw, selectedStudent, amount, paymentMode, remarks, date));
      showReceipt := true;
      amount := "";
      remarks := "";
      accepted := true;
    }
  }

  /**
   * A cashier session on a fresh screen: search, enter a positive whole amount and submit. The
   * receipt carries the amount and the default mode Cash, and the form is ready for the next payment.
   */
  method CollectOnce(students: seq<Student>, term: string, rupees: nat, draw: nat, date: string)
    returns (found: Option<Student>, receipt: Option<Receipt>, amountAfter: string)
    requires rupees > 0 && draw < 1000
    ensures found == FindStudent(students, term)
    ensures receipt.Some? && receipt.value.amount == NumberParsing.Finite(rupees as real)
    ensures receipt.value.paymentMode == Cash && receipt.value.studentName == (if found.Some? then Some(found.value.name) else None)
    ensures amountAfter == ""
  {
    var screen := new FeeCollection(students);
    screen.SetSearchTerm(term);
    found := screen.HandleSearch();
    screen.SetAmount(Text.Decimal(rupees));
    WholeAmountAccepted(rupees);
    var accepted := screen.HandleSubmitPayment(draw, date);
    NumberParsing.ParseFloatOfDecimal(rupees);
    receipt := screen.receiptData;
    amountAfter := screen.amount;
  }
}
