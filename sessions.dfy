/** The call-session bookkeeping of the tray application's main window, as values.

    The window keeps a table from each live call to the popup that shows it, and a
    single slot naming the call whose auto-dismiss timer is pending. Each of the four
    event handlers is a function from the old state to the new one; class MainWindow
    (window.dfy) updates its fields exactly as these functions say.
 */
module Sessions {

  /** Identity of one live call. In the application this is the address of the call's
      ContactInfo record; only equality of identities matters. */
  type CallId(==, !new)

  datatype Option<T> = None | Some(value: T)

  /** The two flags of one popup: whether it is on screen, and whether it shows the
      call as answered. */
  datatype Dialog = Dialog(visible: bool, answered: bool)

  /** One removal from the table: the call whose entry went, and whether its popup was
      closed on the way out (it is released in either case). */
  datatype Release = Release(call: CallId, closed: bool)

  /** The table of popups and the timer slot. */
  datatype Session = Session(dialogs: map<CallId, Dialog>, timerCall: Option<CallId>)

  /** The state after an event, with the entry it removed, if any. */
  datatype Step = Step(after: Session, released: Option<Release>)

  /** A freshly constructed popup: hidden, and not showing an answer. */
  const Fresh := Dialog(visible := false, answered := false)

  const Empty: Session := Session(map[], None)

  /** `m'` agrees with `m` on every call other than `c`: same keys, same popups. */
  ghost predicate SameExcept(m: map<CallId, Dialog>, m': map<CallId, Dialog>, c: CallId)
  {
    forall d :: d != c ==> (d in m <==> d in m') && (d in m ==> m[d] == m'[d])
  }

  /** onChannelCreated: show a popup for a new call; for a known call, reshow its popup
      only when it is hidden, clearing its answered flag. */
  function Create(s: Session, c: CallId): (r: Session)
    ensures c in r.dialogs && r.dialogs[c].visible
    ensures r.dialogs.Keys == s.dialogs.Keys + {c}
    ensures |r.dialogs| == if c in s.dialogs then |s.dialogs| else |s.dialogs| + 1
    ensures SameExcept(s.dialogs, r.dialogs, c)
    ensures r.timerCall == s.timerCall
    ensures c !in s.dialogs ==> r.dialogs[c] == Dialog(visible := true, answered := false)
    ensures c in s.dialogs && s.dialogs[c].visible ==> r == s
    ensures c in s.dialogs && !s.dialogs[c].visible ==>
              r.dialogs[c] == Dialog(visible := true, answered := false)
  {
    if c in s.dialogs then
      var popup := s.dialogs[c];
      if popup.visible then s
      else s.(dialogs := s.dialogs[c := popup.(answered := false).(visible := true)])
    else
      s.(dialogs := s.dialogs[c := Fresh.(visible := true)])
  }

  /** onChannelAnswered: the call takes the timer slot (whatever was there before), and
      its popup shows the answer only if it is on screen. The handler looks the popup up
      without checking that the call is known, so an unknown call is excluded. */
  function Answer(s: Session, c: CallId): (r: Session)
    requires c in s.dialogs
    ensures r.timerCall == Some(c)
    ensures r.dialogs.Keys == s.dialogs.Keys
    ensures SameExcept(s.dialogs, r.dialogs, c)
    ensures r.dialogs[c].visible == s.dialogs[c].visible
    ensures r.dialogs[c].answered <==> s.dialogs[c].answered || s.dialogs[c].visible
  {
    var popup := s.dialogs[c];
    var popup' := if popup.visible then popup.(answered := true) else popup;
    Session(s.dialogs[c := popup'], Some(c))
  }

  /** The timer slot holds a call that is still in the table. */
  predicate TimerLive(s: Session)
  {
    s.timerCall.Some? && s.timerCall.value in s.dialogs
  }

  /** timeout: when the slot names a call still in the table, close its popup if visible,
      remove its entry and clear the slot; otherwise do nothing at all. */
  function Timeout(s: Session): (r: Step)
    ensures !TimerLive(s) ==> r == Step(s, None)
    ensures TimerLive(s) ==>
              var c := s.timerCall.value;
              && r.released == Some(Release(c, s.dialogs[c].visible))
              && r.after.dialogs.Keys == s.dialogs.Keys - {c}
              && |r.after.dialogs| == |s.dialogs| - 1
              && SameExcept(s.dialogs, r.after.dialogs, c)
              && r.after.timerCall == None
  {
    match s.timerCall
    case None => Step(s, None)
    case Some(c) =>
      if c !in s.dialogs then Step(s, None)
      else
        var closed := s.dialogs[c].visible;
        Step(Session(s.dialogs - {c}, None), Some(Release(c, closed)))
  }

  /** onChannelDestroyed: for a known call, remove its entry, closing its popup only when
      the popup is visible and the "close on hang-up" setting is on; an unknown call is
      ignored. The timer slot is left as it is, even when it names this call. */
  function Destroy(s: Session, c: CallId, closeHungUp: bool): (r: Step)
    ensures c !in s.dialogs ==> r == Step(s, None)
    ensures c in s.dialogs ==>
              && r.released == Some(Release(c, s.dialogs[c].visible && closeHungUp))
              && r.after.dialogs.Keys == s.dialogs.Keys - {c}
              && |r.after.dialogs| == |s.dialogs| - 1
              && SameExcept(s.dialogs, r.after.dialogs, c)
              && r.after.timerCall == s.timerCall
  {
    if c !in s.dialogs then Step(s, None)
    else
      var closed := s.dialogs[c].visible && closeHungUp;
      Step(s.(dialogs := s.dialogs - {c}), Some(Release(c, closed)))
  }

  /** A popup leaving the screen while its call is still in the table: the user dismisses
      it, or the popup closes itself. No handler of the window does this; it is what makes
      the hidden branches of the handlers reachable. Nothing is inserted or removed. */
  function Hide(s: Session, c: CallId): (r: Session)
    ensures r.dialogs.Keys == s.dialogs.Keys
    ensures SameExcept(s.dialogs, r.dialogs, c)
    ensures r.timerCall == s.timerCall
    ensures c in s.dialogs ==> !r.dialogs[c].visible && r.dialogs[c].answered == s.dialogs[c].answered
  {
    if c in s.dialogs then s.(dialogs := s.dialogs[c := s.dialogs[c].(visible := false)]) else s
  }

  /** A creation event for a call whose popup was hidden reshows it, unanswered. */
  lemma CreateReshowsHidden(s: Session, c: CallId)
    requires c in s.dialogs
    ensures var r := Create(Hide(s, c), c);
            && r.dialogs.Keys == s.dialogs.Keys
            && r.dialogs[c] == Dialog(visible := true, answered := false)
  {
  }

  /** A duplicated creation event changes nothing the second time. */
  lemma CreateIdempotent(s: Session, c: CallId)
    ensures Create(Create(s, c), c) == Create(s, c)
  {
  }

  /** A duplicated destroy event does nothing the second time, whatever the setting says
      on either occasion. */
  lemma DestroyIdempotent(s: Session, c: CallId, close1: bool, close2: bool)
    ensures Destroy(Destroy(s, c, close1).after, c, close2) == Step(Destroy(s, c, close1).after, None)
  {
  }

  /** A destroy that arrives while the call still holds the timer slot wins the race: the
      timer firing afterwards removes nothing and leaves the state as it is. */
  lemma DestroyDefeatsTimer(s: Session, c: CallId, closeHungUp: bool)
    requires s.timerCall == Some(c)
    ensures Destroy(s, c, closeHungUp).after.timerCall == Some(c)
    ensures var t := Destroy(s, c, closeHungUp).after; Timeout(t) == Step(t, None)
  {
  }

  /** Stacked timers: once one timer has fired, the next finds nothing to do. */
  lemma TimeoutThenTimeout(s: Session)
    ensures var t := Timeout(s).after; Timeout(t) == Step(t, None)
  {
  }

  /** There is one slot, not one timer per call: a second answer takes the slot over, and
      the first timer to fire then removes the second call's entry and never the first. */
  lemma AnswerOverwritesSlot(s: Session, c1: CallId, c2: CallId)
    requires c1 in s.dialogs && c2 in s.dialogs && c1 != c2
    ensures var t := Answer(Answer(s, c1), c2);
            && t.timerCall == Some(c2)
            && Timeout(t).released.Some? && Timeout(t).released.value.call == c2
            && c1 in Timeout(t).after.dialogs
            && Timeout(Timeout(t).after).released == None
  {
  }
}
