/** The student list: a search by name or roll number combined with a fee-status filter. */
module StudentManagementScreen {
  import opened Types
  import Lists
  import Text

  /** The search test: the name or the roll number contains the term, ignoring case. */
  predicate MatchesSearch(student: Student, term: string)
  {
    Text.IncludesIgnoringCase(student.name, term) || Text.IncludesIgnoringCase(student.rollNumber, term)
  }

  /** The empty term matches every student, and the term's case never matters. */
  lemma MatchesSearchProperties(student: Student, term: string)
    ensures MatchesSearch(student, "")
    ensures MatchesSearch(student, Text.ToUpper(term)) == MatchesSearch(student, term)
    ensures MatchesSearch(student, Text.ToLower(term)) == MatchesSearch(student, term)
  {
    Text.EmptyTermMatches(student.name);
    Text.IncludesIgnoresCase(student.name, term);
    Text.IncludesIgnoresCase(student.rollNumber, term);
  }

  /** The status select: `'all'` or one of the three fee-status labels. */
  datatype StatusFilter = AllStatuses | OnlyStatus(status: FeeStatus)

  /** `filterStatus === 'all' || student.feeStatus === filterStatus`. */
  predicate MatchesStatus(student: Student, filter: StatusFilter)
  {
    filter.AllStatuses? || student.feeStatus == filter.status
  }

  function Shown(term: string, filter: StatusFilter): Student -> bool
  {
    (s: Student) => MatchesSearch(s, term) && MatchesStatus(s, filter)
  }

  /** `filteredStudents`: the students passing both tests, in list order. */
  function FilteredStudents(students: seq<Student>, term: string, filter: StatusFilter): (r: seq<Student>)
    ensures |r| <= |students|
    ensures forall s :: s in r <==> s in students && MatchesSearch(s, term) && MatchesStatus(s, filter)
    ensures filter.OnlyStatus? ==> forall i :: 0 <= i < |r| ==> r[i].feeStatus == filter.status
    ensures Lists.IsSubsequence(r, students)
  {
    Lists.FilterIsSubsequence(Shown(term, filter), students);
    Lists.Filter(Shown(term, filter), students)
  }

  /** With an empty term and `'all'`, the whole list is shown. */
  lemma EmptySearchShowsAll(students: seq<Student>)
    ensures FilteredStudents(students, "", AllStatuses) == students
  {
    forall i | 0 <= i < |students| ensures Shown("", AllStatuses)(students[i]) {
      MatchesSearchProperties(students[i], "");
    }
    Lists.FilterKeepsAll(Shown("", AllStatuses), students);
  }

  /** Narrowing to one status keeps exactly the students with that status among the search hits. */
  lemma StatusFilterNarrows(students: seq<Student>, term: string, status: FeeStatus)
    ensures forall s :: s in FilteredStudents(students, term, OnlyStatus(status)) <==>
              s in FilteredStudents(students, term, AllStatuses) && s.feeStatus == status
  {
  }

  /** The badge variants of the status column. */
  datatype BadgeVariant = Default | Secondary | Destructive

  /** `getStatusVariant`: a switch on the status string, with `default` for anything else. */
  function StatusVariant(status: string): (v: BadgeVariant)
    ensures v == Secondary <==> status == "Partially Paid"
    ensures v == Destructive <==> status == "Pending"
  {
    if status == "Fully Paid" then Default
    else if status == "Partially Paid" then Secondary
    else if status == "Pending" then Destructive
    else Default
  }

  /** The three statuses map to default, secondary and destructive; any other string to default. */
  lemma StatusVariantOfLabels(status: string)
    ensures StatusVariant(FeeStatusLabel(FullyPaid)) == Default
    ensures StatusVariant(FeeStatusLabel(PartiallyPaid)) == Secondary
    ensures StatusVariant(FeeStatusLabel(Pending)) == Destructive
    ensures (forall f :: status != FeeStatusLabel(f)) ==> StatusVariant(status) == Default
  {
    if forall f :: status != FeeStatusLabel(f) {
      assert status != FeeStatusLabel(PartiallyPaid) && status != FeeStatusLabel(Pending);
    }
  }
}
