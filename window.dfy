/** The main window's call handlers, updating its two fields in place. */
module Window {
  import opened Sessions

  class MainWindow {
    /** The table from each live call to its popup. */
    var dialogs: map<CallId, Dialog>
    /** The call whose auto-dismiss timer is pending; one slot for all calls. */
    var timerCall: Option<CallId>

    /** The window's bookkeeping as a value. */
    function State(): (s: Session)
      reads this
    {
      Session(dialogs, timerCall)
    }

    constructor ()
      ensures State() == Empty
    {
      dialogs := map[];
      timerCall := None;
    }

    method OnChannelCreated(c: CallId)
      modifies this
      ensures State() == Create(old(State()), c)
    {
      if c in dialogs {
        var popup := dialogs[c];
        if popup.visible {
          return;
        }
        popup := popup.(answered := false);
        popup := popup.(visible := true);
        dialogs := dialogs[c := popup];
      } else {
        var popup := Fresh;
        dialogs := dialogs[c := popup];
        popup := popup.(visible := true);
        dialogs := dialogs[c := popup];
      }
    }

    method OnChannelAnswered(c: CallId)
      requires c in dialogs
      modifies this
      ensures State() == Answer(old(State()), c)
    {
      timerCall := Some(c);
      var popup := dialogs[c];
      if popup.visible {
        dialogs := dialogs[c := popup.(answered := true)];
      }
    }

    /** The handler behind every armed single-shot timer; `released` is the entry it removed. */
    method Timeout() returns (released: Option<Release>)
      modifies this
      ensures Step(State(), released) == Sessions.Timeout(old(State()))
    {
      released := None;
      if timerCall == None {
        return;
      }
      var c := timerCall.value;
      if c !in dialogs {
        return;
      }
      var closed := false;
      if dialogs[c].visible {
        closed := true;
      }
      dialogs := dialogs - {c};
      released := Some(Release(c, closed));
      timerCall := None;
    }

    /** `closeHungUp` is the "close_hung_up" setting as read from the store at this moment
        (Settings.CloseHungUp). */
    method OnChannelDestroyed(c: CallId, closeHungUp: bool) returns (released: Option<Release>)
      modifies this
      ensures Step(State(), released) == Destroy(old(State()), c, closeHungUp)
    {
      released := None;
      if c !in dialogs {
        return;
      }
      var closed := false;
      if dialogs[c].visible && closeHungUp {
        closed := true;
      }
      dialogs := dialogs - {c};
      released := Some(Release(c, closed));
    }
  }
}
