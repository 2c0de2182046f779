/**
 * The cashier's daily session screen: open the day, ask to close it, confirm the closing.
 * Clocks are parameters: `today` is the ISO date and `now` the instant of the click.
 */
module DailySessionScreen {
  import opened Wrappers
  import opened Types
  import Lists
  import Text

  /** `dailySessions.find(s => s.isOpen)`: the first open session of the mock list. */
  function CurrentSession(sessions: seq<DailySession>): (r: Option<DailySession>)
    ensures r.None? <==> forall i :: 0 <= i < |sessions| ==> !sessions[i].isOpen
    ensures r.Some? ==> r.value.isOpen && r.value in sessions
    ensures r.Some? ==> exists i :: 0 <= i < |sessions| && sessions[i] == r.value &&
                          forall j :: 0 <= j < i ==> !sessions[j].isOpen
  {
    var r := Lists.Find((s: DailySession) => s.isOpen, sessions);
    assert r.Some? ==> exists i :: Lists.IsFirstMatch((s: DailySession) => s.isOpen, sessions, i) && sessions[i] == r.value;
    r
  }

  /** `currentSession?.isOpen || false`: the screen starts open exactly when some mock session is open. */
  function InitiallyOpen(sessions: seq<DailySession>): (b: bool)
    ensures b <==> exists i :: 0 <= i < |sessions| && sessions[i].isOpen
  {
    var c := CurrentSession(sessions);
    c.Some? && c.value.isOpen
  }

  /**
   * The session record `handleStartDay` builds: id `String(dailySessions.length + 1)`, opened by the
   * fixed cashier name, open, with no transactions and every amount zero.
   */
  function NewSession(count: nat, today: string, now: Timestamp): (s: DailySession)
    ensures s.id == Text.Decimal(count + 1)
    ensures s.date == today && s.openedAt == now && s.openedBy == "Priya Sharma"
    ensures s.isOpen && s.closedBy.None? && s.closedAt.None?
    ensures s.totalTransactions == 0 && s.totalAmount == 0
    ensures s.cashAmount == 0 && s.cardAmount == 0 && s.upiAmount == 0 && s.chequeAmount == 0
  {
    DailySession(
      id := Text.Decimal(count + 1),
      date := today,
      openedBy := "Priya Sharma",
      openedAt := now,
      closedBy := None,
      closedAt := None,
      isOpen := true,
      totalTransactions := 0,
      totalAmount := 0,
      cashAmount := 0,
      cardAmount := 0,
      upiAmount := 0,
      chequeAmount := 0)
  }

  /** A freshly started session's total is the sum of its four mode subtotals (all zero). */
  lemma NewSessionBalanced(count: nat, today: string, now: Timestamp)
    ensures Balanced(NewSession(count, today, now))
    ensures NewSession(count, today, now).totalAmount == 0
  {
  }

  /** The id depends only on the length of the mock list, so every start on one screen reuses it. */
  lemma NewSessionIdReused(count: nat, today1: string, now1: Timestamp, today2: string, now2: Timestamp)
    ensures NewSession(count, today1, now1).id == NewSession(count, today2, now2).id
    ensures now1 != now2 ==> NewSession(count, today1, now1) != NewSession(count, today2, now2)
  {
  }

  /** The one button the status card offers. */
  datatype SessionAction = StartDayOpening | PerformDayClosing

  /** The state of the daily session screen. */
  class SessionControl {
    /** The mock session list; the screen never appends to it. */
    const dailySessions: seq<DailySession>
    var isOpen: bool
    var showClosingSummary: bool
    var sessionData: Option<DailySession>

    /** While the screen is open it has a session record, and that record is marked open. */
    ghost predicate Valid()
      reads this
    {
      isOpen ==> sessionData.Some? && sessionData.value.isOpen
    }

    /** The initial state: the first open mock session, if any, and the summary hidden. */
    constructor (sessions: seq<DailySession>)
      ensures dailySessions == sessions
      ensures sessionData == CurrentSession(sessions)
      ensures isOpen == InitiallyOpen(sessions)
      ensures !showClosingSummary
      ensures Valid()
    {
      dailySessions := sessions;
      sessionData := CurrentSession(sessions);
      isOpen := InitiallyOpen(sessions);
      showClosingSummary := false;
    }

    /** `handleStartDay`: open the screen with a new zeroed session; nothing checks the current state. */
    method HandleStartDay(today: string, now: Timestamp)
      modifies this
      ensures isOpen
      ensures sessionData == Some(NewSession(|dailySessions|, today, now))
      ensures showClosingSummary == old(showClosingSummary)
      ensures Valid()
    {
      isOpen := true;
      sessionData := Some(NewSession(|dailySessions|, today, now));
    }

    /** `handleCloseDay`: only shows the closing summary. */
    method HandleCloseDay()
      modifies this
      ensures showClosingSummary
      ensures isOpen == old(isOpen) && sessionData == old(sessionData)
      ensures Valid() == old(Valid())
    {
      showClosingSummary := true;
    }

    /**
     * `confirmClosing`: marks the screen closed and hides the summary. The session record keeps its
     * totals, its own `isOpen` flag, and gets no `closedBy`/`closedAt`.
     */
    method ConfirmClosing()
      modifies this
      ensures !isOpen && !showClosingSummary
      ensures sessionData == old(sessionData)
      ensures Valid()
    {
      isOpen := false;
      showClosingSummary := false;
    }

    /** The dialog's `onOpenChange`: dismissing the summary hides it and changes nothing else. */
    method SetShowClosingSummary(open: bool)
      modifies this
      ensures showClosingSummary == open
      ensures isOpen == old(isOpen) && sessionData == old(sessionData)
      ensures Valid() == old(Valid())
    {
      showClosingSummary := open;
    }

    /** Start is offered exactly when the screen is closed, closing exactly when it is open. */
    function OfferedAction(): (a: SessionAction)
      reads this
      ensures a == StartDayOpening <==> !isOpen
      ensures a == PerformDayClosing <==> isOpen
    {
      if !isOpen then StartDayOpening else PerformDayClosing
    }
  }

  /**
   * A whole day cycle on a fresh screen: start, request closing, confirm, start again. Start is
   * offered again after the close, and both starts produce zeroed sessions with the same id.
   */
  method DayCycle(sessions: seq<DailySession>, today: string, first: Timestamp, second: Timestamp)
    returns (started: DailySession, offeredAfterClose: SessionAction, reopened: DailySession)
    ensures started.id == reopened.id == Text.Decimal(|sessions| + 1)
    ensures offeredAfterClose == StartDayOpening
    ensures reopened == NewSession(|sessions|, today, second)
    ensures reopened.isOpen && reopened.totalTransactions == 0 && Balanced(reopened)
  {
    var screen := new SessionControl(sessions);
    screen.HandleStartDay(today, first);
    started := screen.sessionData.value;
    screen.HandleCloseDay();
    screen.ConfirmClosing();
    offeredAfterClose := screen.OfferedAction();
    screen.HandleStartDay(today, second);
    reopened := screen.sessionData.value;
  }
}
