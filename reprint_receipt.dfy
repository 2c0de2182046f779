/** The cashier's reprint screen: search past payments by student name or receipt number. */
module ReprintReceiptScreen {
  import opened Types
  import Lists
  import Text

  /** The search test: the student name or the receipt number contains the term, ignoring case. */
  predicate MatchesSearch(p: Payment, term: string)
  {
    Text.IncludesIgnoringCase(p.studentName, term) || Text.IncludesIgnoringCase(p.receiptNo, term)
  }

  function Matching(term: string): Payment -> bool
  {
    (p: Payment) => MatchesSearch(p, term)
  }

  /** `payments.filter(...)`: the matching payments, in list order. */
  function SearchPayments(payments: seq<Payment>, term: string): (r: seq<Payment>)
    ensures |r| <= |payments|
    ensures forall p :: p in r <==> p in payments && MatchesSearch(p, term)
    ensures Lists.IsSubsequence(r, payments)
  {
    Lists.FilterIsSubsequence(Matching(term), payments);
    Lists.Filter(Matching(term), payments)
  }

  /** The empty term keeps every payment. */
  lemma EmptyTermShowsAll(payments: seq<Payment>)
    ensures SearchPayments(payments, "") == payments
  {
    forall i | 0 <= i < |payments| ensures Matching("")(payments[i]) {
      Text.EmptyTermMatches(payments[i].studentName);
    }
    Lists.FilterKeepsAll(Matching(""), payments);
  }

  /** Searching the result again with the same term changes nothing. */
  lemma SearchIdempotent(payments: seq<Payment>, term: string)
    ensures SearchPayments(SearchPayments(payments, term), term) == SearchPayments(payments, term)
  {
    Lists.FilterIdempotent(Matching(term), payments);
  }

  /** The state of the reprint screen. */
  class ReprintReceipt {
    /** The mock payment list; the screen never changes it. */
    const payments: seq<Payment>
    var searchTerm: string
    var filteredPayments: seq<Payment>

    /** Every listed payment is one of the payments, in their order. */
    ghost predicate Valid()
      reads this
    {
      Lists.IsSubsequence(filteredPayments, payments)
    }

    /** Initially the list shows every payment. */
    constructor (payments: seq<Payment>)
      ensures this.payments == payments && filteredPayments == payments && searchTerm == ""
      ensures Valid()
    {
      this.payments := payments;
      searchTerm := "";
      filteredPayments := payments;
      new;
      Lists.FilterKeepsAll((p: Payment) => true, payments);
      Lists.FilterIsSubsequence((p: Payment) => true, payments);
    }

    /** The search box's `onChange`: the list is only recomputed by the search button. */
    method SetSearchTerm(term: string)
      modifies this
      ensures searchTerm == term && filteredPayments == old(filteredPayments)
    {
      searchTerm := term;
    }

    /** `handleSearch`: filters the full list, never the previous result. */
    method HandleSearch()
      modifies this
      ensures filteredPayments == SearchPayments(payments, searchTerm)
      ensures searchTerm == old(searchTerm)
      ensures Valid()
    {
      filteredPayments := SearchPayments(payments, searchTerm);
    }

    /** `handleReprint`: announces the receipt number and prints; no state changes. */
    method HandleReprint(receipt: Payment) returns (notice: string)
      ensures |notice| == 19 + |receipt.receiptNo|
      ensures notice[..19] == "Reprinting receipt " && notice[19..] == receipt.receiptNo
    {
      notice := "Reprinting receipt " + receipt.receiptNo;
    }

    /** "No receipts found" is shown exactly when the list is empty. */
    function NoReceiptsFound(): (b: bool)
      reads this
      ensures b <==> |filteredPayments| == 0
    {
      filteredPayments == []
    }
  }

  /** Searching twice in a row with the same term leaves the list the first search produced. */
  method SearchTwice(payments: seq<Payment>, term: string) returns (first: seq<Payment>, second: seq<Payment>)
    ensures first == second == SearchPayments(payments, term)
    ensures first == [] <==> forall i :: 0 <= i < |payments| ==> !MatchesSearch(payments[i], term)
  {
    var screen := new ReprintReceipt(payments);
    screen.SetSearchTerm(term);
    screen.HandleSearch();
    first := screen.filteredPayments;
    screen.HandleSearch();
    second := screen.filteredPayments;
    if first == [] {
      forall i | 0 <= i < |payments| ensures !MatchesSearch(payments[i], term) {
        assert payments[i] !in first;
      }
    } else {
      assert first[0] in payments;
    }
  }
}
