/**
 * The navigation between the six screens, as a transition system. A state is the screen the
 * shell shows (`Index.App.screen`), the processing flag of a mounted confirmation screen,
 * and the number of confirmation timers still to fire. Those timers are never cleared: a
 * citizen who presses confirm and then goes back still lands on tracking when the timer fires.
 */
module ScreenFlow {
  import opened Wrappers
  import opened Index

  datatype NavState = NavState(screen: Screen, processing: bool, pending: nat)

  const Start: NavState := NavState(Login, false, 0)

  /** Everything that can change the screen: the callbacks, the back buttons and the timer. */
  datatype Event =
    | SubmitLogin | VerifyOtp | OpenProducts | DashboardBack | ProceedToPayment
    | ProductsBack | ConfirmationBack | PressConfirm | ConfirmTimerFires | ReturnHome

  /** How far along the checkout a screen is. */
  function Stage(s: Screen): (r: nat)
    ensures r <= 5
    ensures s == Login <==> r == 0
    ensures s == Tracking <==> r == 5
  {
    match s
    case Login => 0
    case Otp => 1
    case Dashboard => 2
    case Products => 3
    case Confirmation => 4
    case Tracking => 5
  }

  /** Only a shown confirmation screen can be processing, and then its timer is live. */
  predicate Consistent(s: NavState)
  {
    s.processing ==> s.screen == Confirmation && s.pending > 0
  }

  /**
   * One event, if the shown screen offers it. A freshly mounted confirmation screen is not
   * processing; the confirm button is disabled while it is; its timer moves the shell to
   * tracking whichever screen is shown by then.
   */
  function Step(s: NavState, e: Event): (r: Option<NavState>)
    ensures r.Some? ==>
      Stage(r.value.screen) <= Stage(s.screen) + 1 ||
      (e == ConfirmTimerFires && s.pending > 0 && r.value.screen == Tracking)
    ensures r.Some? && r.value.pending > 0 ==> s.pending > 0 || r.value.screen == Confirmation
    ensures r.Some? && Consistent(s) ==> Consistent(r.value)
  {
    match e
    case SubmitLogin => if s.screen == Login then Some(s.(screen := Otp)) else None
    case VerifyOtp => if s.screen == Otp then Some(s.(screen := Dashboard)) else None
    case OpenProducts => if s.screen == Dashboard then Some(s.(screen := Products)) else None
    case DashboardBack => if s.screen == Dashboard then Some(s.(screen := Login)) else None
    case ProceedToPayment =>
      if s.screen == Products then Some(s.(screen := Confirmation, processing := false)) else None
    case ProductsBack => if s.screen == Products then Some(s.(screen := Dashboard)) else None
    case ConfirmationBack =>
      if s.screen == Confirmation then Some(s.(screen := Products, processing := false)) else None
    case PressConfirm =>
      if s.screen == Confirmation && !s.processing then
        Some(s.(processing := true, pending := s.pending + 1))
      else None
    case ConfirmTimerFires =>
      if s.pending > 0 then Some(NavState(Tracking, false, s.pending - 1)) else None
    case ReturnHome => if s.screen == Tracking then Some(s.(screen := Dashboard)) else None
  }

  /** The only screen changes: the forward callbacks, the three back edges and the timer. */
  lemma ScreenChanges(s: NavState, e: Event)
    requires Step(s, e).Some? && Step(s, e).value.screen != s.screen
    ensures var t := Step(s, e).value.screen;
      (s.screen == Login && t == Otp) || (s.screen == Otp && t == Dashboard) ||
      (s.screen == Dashboard && (t == Products || t == Login)) ||
      (s.screen == Products && (t == Confirmation || t == Dashboard)) ||
      (s.screen == Confirmation && t == Products) ||
      (s.screen == Tracking && t == Dashboard) ||
      (e == ConfirmTimerFires && t == Tracking)
  {
  }

  /** `states` is what the shell goes through under `events`, one step each. */
  ghost predicate IsRun(states: seq<NavState>, events: seq<Event>)
  {
    |states| == |events| + 1 &&
    forall i :: 0 <= i < |events| ==> Step(states[i], events[i]) == Some(states[i + 1])
  }

  /** The furthest stage reached in the first n + 1 states. */
  function Peak(states: seq<NavState>, n: nat): (r: nat)
    requires n < |states|
    ensures forall j :: 0 <= j <= n ==> Stage(states[j].screen) <= r
    ensures exists j :: 0 <= j <= n && Stage(states[j].screen) == r
  {
    if n == 0 then Stage(states[0].screen)
    else
      var before := Peak(states, n - 1);
      if Stage(states[n].screen) > before then Stage(states[n].screen) else before
  }

  /** The first index at or after i whose stage is at least k, or |states| if there is none. */
  function FirstFrom(states: seq<NavState>, k: nat, i: nat): (r: nat)
    requires i <= |states|
    ensures i <= r <= |states|
    ensures forall j :: i <= j < r ==> Stage(states[j].screen) < k
    ensures r < |states| ==> Stage(states[r].screen) >= k
    decreases |states| - i
  {
    if i == |states| then i
    else if Stage(states[i].screen) >= k then i
    else FirstFrom(states, k, i + 1)
  }

  /** The first time the run reaches stage k or beyond. */
  function FirstVisit(states: seq<NavState>, k: nat): (r: nat)
    ensures r <= |states|
    ensures forall j :: 0 <= j < r ==> Stage(states[j].screen) < k
    ensures r < |states| ==> Stage(states[r].screen) >= k
  {
    FirstFrom(states, k, 0)
  }

  /** A confirmation timer can only be live once the run has been on the confirmation screen. */
  lemma {:induction false} PendingAfterConfirmation(states: seq<NavState>, events: seq<Event>, i: nat)
    requires IsRun(states, events) && states[0] == Start
    requires i < |states|
    ensures states[i].pending > 0 ==> Peak(states, i) >= 4
  {
    if i > 0 {
      PendingAfterConfirmation(states, events, i - 1);
      assert Step(states[i - 1], events[i - 1]) == Some(states[i]);
      assert Peak(states, i) >= Peak(states, i - 1);
      assert Peak(states, i) >= Stage(states[i].screen);
    }
  }

  /** A step goes at most one stage beyond the furthest one reached so far. */
  lemma JumpBound(states: seq<NavState>, events: seq<Event>, i: nat)
    requires IsRun(states, events) && states[0] == Start
    requires i < |events|
    ensures Stage(states[i + 1].screen) <= Peak(states, i) + 1
  {
    PendingAfterConfirmation(states, events, i);
    assert Step(states[i], events[i]) == Some(states[i + 1]);
  }

  /** The first time a run reaches stage k (k >= 1), it is exactly at stage k. */
  lemma FirstVisitIsExact(states: seq<NavState>, events: seq<Event>, k: nat)
    requires IsRun(states, events) && states[0] == Start
    requires 1 <= k && FirstVisit(states, k) < |states|
    ensures FirstVisit(states, k) > 0
    ensures Stage(states[FirstVisit(states, k)].screen) == k
  {
    var f := FirstVisit(states, k);
    assert Stage(states[0].screen) == 0;
    JumpBound(states, events, f - 1);
    var j :| 0 <= j <= f - 1 && Stage(states[j].screen) == Peak(states, f - 1);
  }

  /**
   * Every run from the login screen that ends on tracking went through OTP, the dashboard,
   * the product screen and the confirmation screen, first reaching them in that order.
   */
  lemma TrackingOnlyAfterCheckout(states: seq<NavState>, events: seq<Event>)
    requires IsRun(states, events) && states[0] == Start
    requires states[|states| - 1].screen == Tracking
    ensures 0 < FirstVisit(states, 1) < FirstVisit(states, 2) < FirstVisit(states, 3)
      < FirstVisit(states, 4) < FirstVisit(states, 5) < |states|
    ensures states[FirstVisit(states, 1)].screen == Otp
    ensures states[FirstVisit(states, 2)].screen == Dashboard
    ensures states[FirstVisit(states, 3)].screen == Products
    ensures states[FirstVisit(states, 4)].screen == Confirmation
    ensures states[FirstVisit(states, 5)].screen == Tracking
  {
    var last := |states| - 1;
    assert Stage(states[last].screen) == 5;
    forall k | 1 <= k <= 5
      ensures FirstVisit(states, k) < |states|
      ensures Stage(states[FirstVisit(states, k)].screen) == k
    {
      FirstVisitIsExact(states, events, k);
    }
  }

  /** The state after a sequence of events, if each was offered in turn. */
  function Replay(s: NavState, events: seq<Event>): Option<NavState>
    decreases |events|
  {
    if events == [] then Some(s)
    else match Step(s, events[0])
      case None => None
      case Some(t) => Replay(t, events[1..])
  }

  /**
   * Pressing confirm and then backing out to the dashboard does not cancel the order: the
   * pending timer still takes the shell to tracking.
   */
  lemma BackingOutDoesNotCancel()
    ensures Replay(Start, [SubmitLogin, VerifyOtp, OpenProducts, ProceedToPayment, PressConfirm,
      ConfirmationBack, ProductsBack]) == Some(NavState(Dashboard, false, 1))
    ensures Replay(Start, [SubmitLogin, VerifyOtp, OpenProducts, ProceedToPayment, PressConfirm,
      ConfirmationBack, ProductsBack, ConfirmTimerFires]) == Some(NavState(Tracking, false, 0))
  {
  }
}
