/** Runs of the main window over a sequence of events: what the event source and the
    timers may deliver, in the one order in which the window handles them. */
module Traces {
  import opened Sessions

  /** One event delivered to the window. A destroy carries the "close on hang-up" setting
      read at that moment; a timer firing carries nothing, since every armed timer calls
      the same handler. A popup can also be hidden by the user while its call is live. */
  datatype Event =
    | ChannelCreated(call: CallId)
    | ChannelAnswered(call: CallId)
    | TimerFired
    | ChannelDestroyed(call: CallId, closeHungUp: bool)
    | PopupHidden(call: CallId)

  /** The window can handle `e` in state `s`: an answer must name a known call. */
  predicate Enabled(s: Session, e: Event)
  {
    e.ChannelAnswered? ==> e.call in s.dialogs
  }

  /** The handler for `e`, with the entry it removed. */
  function Apply(s: Session, e: Event): (r: Step)
    requires Enabled(s, e)
  {
    match e
    case ChannelCreated(c) => Step(Create(s, c), None)
    case ChannelAnswered(c) => Step(Answer(s, c), None)
    case TimerFired => Timeout(s)
    case ChannelDestroyed(c, close) => Destroy(s, c, close)
    case PopupHidden(c) => Step(Hide(s, c), None)
  }

  /** Every event of `es` is enabled when it arrives. */
  predicate Feasible(s: Session, es: seq<Event>)
    decreases |es|
  {
    es == [] || (Enabled(s, es[0]) && Feasible(Apply(s, es[0]).after, es[1..]))
  }

  /** The state after handling every event of `es`. */
  function Run(s: Session, es: seq<Event>): (r: Session)
    requires Feasible(s, es)
    decreases |es|
  {
    if es == [] then s else Run(Apply(s, es[0]).after, es[1..])
  }

  /** The calls given a new table entry along the run, in order. */
  function Inserted(s: Session, es: seq<Event>): (r: seq<CallId>)
    requires Feasible(s, es)
    decreases |es|
  {
    if es == [] then []
    else
      var here := if es[0].ChannelCreated? && es[0].call !in s.dialogs then [es[0].call] else [];
      here + Inserted(Apply(s, es[0]).after, es[1..])
  }

  /** The calls whose table entry was removed along the run, in order. */
  function Removed(s: Session, es: seq<Event>): (r: seq<CallId>)
    requires Feasible(s, es)
    decreases |es|
  {
    if es == [] then []
    else
      var step := Apply(s, es[0]);
      var here := if step.released.Some? then [step.released.value.call] else [];
      here + Removed(step.after, es[1..])
  }

  function Live(s: Session, c: CallId): (n: nat)
  {
    if c in s.dialogs then 1 else 0
  }

  /** One event inserts `c` as often as it removes it, net of `c`'s presence. */
  lemma StepBalance(s: Session, e: Event, c: CallId)
    requires Enabled(s, e)
    ensures var step := Apply(s, e);
            var ins := if e.ChannelCreated? && e.call == c && c !in s.dialogs then 1 else 0;
            var rem := if step.released.Some? && step.released.value.call == c then 1 else 0;
            ins + Live(s, c) == rem + Live(step.after, c)
  {
  }

  /** Entries are removed at most once per insertion: over any run, the insertions of `c`
      (plus one if `c` was live at the start) equal its removals (plus one if it is live
      at the end). So every entry that is not live at the end was removed exactly once. */
  lemma {:induction false} RemovalBalance(s: Session, es: seq<Event>, c: CallId)
    requires Feasible(s, es)
    ensures multiset(Inserted(s, es))[c] + Live(s, c)
            == multiset(Removed(s, es))[c] + Live(Run(s, es), c)
    ensures multiset(Removed(s, es))[c] <= multiset(Inserted(s, es))[c] + Live(s, c)
    decreases |es|
  {
    if es != [] {
      var step := Apply(s, es[0]);
      StepBalance(s, es[0], c);
      RemovalBalance(step.after, es[1..], c);
    }
  }

  /** From the start-up state, no call is ever removed more often than it was inserted,
      and a call that is not live at the end was removed exactly once per insertion. */
  lemma RemovedOnlyAfterInserted(es: seq<Event>, c: CallId)
    requires Feasible(Empty, es)
    ensures multiset(Removed(Empty, es))[c] <= multiset(Inserted(Empty, es))[c]
    ensures c !in Run(Empty, es).dialogs ==>
              multiset(Removed(Empty, es))[c] == multiset(Inserted(Empty, es))[c]
  {
    RemovalBalance(Empty, es, c);
  }

  /** The timer slot names a call only after an answer for it: a call that is never
      answered never holds the slot, so it never arms its own auto-dismiss. */
  lemma {:induction false} NoAnswerNoTimer(s: Session, es: seq<Event>, c: CallId)
    requires Feasible(s, es)
    requires s.timerCall != Some(c)
    requires forall i :: 0 <= i < |es| ==> es[i] != ChannelAnswered(c)
    ensures Run(s, es).timerCall != Some(c)
    decreases |es|
  {
    if es != [] {
      assert es[0] != ChannelAnswered(c);
      var next := Apply(s, es[0]).after;
      assert next.timerCall != Some(c);
      forall i | 0 <= i < |es[1..]| ensures es[1..][i] != ChannelAnswered(c) {
        assert es[1..][i] == es[i + 1];
      }
      NoAnswerNoTimer(next, es[1..], c);
    }
  }

  /** A call answered and then left alone is removed by the first timer, exactly once,
      however many timers fire. */
  lemma AnsweredCallTimesOut(c: CallId)
    ensures var es := [ChannelCreated(c), ChannelAnswered(c), TimerFired, TimerFired];
            && Feasible(Empty, es)
            && Removed(Empty, es) == [c]
            && Run(Empty, es) == Empty
  {
    var s1 := Create(Empty, c);
    var s2 := Answer(s1, c);
    var s3 := Timeout(s2).after;
    assert s3 == Empty;
    var tail := [TimerFired];
    assert tail[1..] == [];
    assert Feasible(s3, tail) && Run(s3, tail) == Empty && Removed(s3, tail) == [];
    var t2 := [TimerFired] + tail;
    assert t2[1..] == tail;
    assert Feasible(s2, t2) && Run(s2, t2) == Empty && Removed(s2, t2) == [c];
    var t1 := [ChannelAnswered(c)] + t2;
    assert t1[1..] == t2;
    assert Feasible(s1, t1) && Run(s1, t1) == Empty && Removed(s1, t1) == [c];
    var es := [ChannelCreated(c)] + t1;
    assert es[1..] == t1;
    assert Apply(Empty, es[0]) == Step(s1, None);
    assert Run(Empty, es) == Run(s1, t1);
    assert Removed(Empty, es) == [] + Removed(s1, t1);
    assert es == [ChannelCreated(c), ChannelAnswered(c), TimerFired, TimerFired];
  }

  /** A call destroyed before it is answered is removed at once, at the destroy, and no
      timer is ever armed for it; a timer firing afterwards finds nothing to do. */
  lemma UnansweredCallDestroyed(c: CallId, closeHungUp: bool)
    ensures var es := [ChannelCreated(c), ChannelDestroyed(c, closeHungUp), TimerFired];
            && Feasible(Empty, es[..1]) && Feasible(Empty, es[..2]) && Feasible(Empty, es)
            && Removed(Empty, es[..1]) == []
            && Removed(Empty, es[..2]) == [c] && Run(Empty, es[..2]) == Empty
            && Removed(Empty, es) == [c] && Run(Empty, es) == Empty
            && Run(Empty, es[..1]).timerCall == None
            && Run(Empty, es[..2]).timerCall == None
            && Run(Empty, es).timerCall == None
  {
    var es := [ChannelCreated(c), ChannelDestroyed(c, closeHungUp), TimerFired];
    var s1 := Create(Empty, c);
    var s2 := Destroy(s1, c, closeHungUp).after;
    assert s2 == Empty;
    var tail := [TimerFired];
    assert tail[1..] == [];
    assert Feasible(s2, tail) && Run(s2, tail) == Empty && Removed(s2, tail) == [];
    var t1 := [ChannelDestroyed(c, closeHungUp)] + tail;
    assert t1[1..] == tail;
    assert Feasible(s1, t1) && Run(s1, t1) == Empty && Removed(s1, t1) == [c];
    assert es == [ChannelCreated(c)] + t1;
    assert es[1..] == t1;
    assert Apply(Empty, es[0]) == Step(s1, None);
    assert Run(Empty, es) == Run(s1, t1);
    assert Removed(Empty, es) == [] + Removed(s1, t1);
    // the first two events
    var p2 := es[..2];
    assert p2[1..] == [ChannelDestroyed(c, closeHungUp)];
    assert p2[1..][1..] == [];
    assert Run(s1, p2[1..]) == s2 && Removed(s1, p2[1..]) == [c];
    assert Run(Empty, p2) == s2 && Removed(Empty, p2) == [c];
    // the first event
    var p1 := es[..1];
    assert p1[1..] == [];
    assert Run(Empty, p1) == s1 && Removed(Empty, p1) == [];
  }

  /** A duplicated creation after the user hid the popup reshows it, unanswered, and still
      gives the call a single entry. */
  lemma HiddenPopupReshown(c: CallId)
    ensures var es := [ChannelCreated(c), ChannelAnswered(c), PopupHidden(c), ChannelCreated(c)];
            && Feasible(Empty, es)
            && Run(Empty, es).dialogs == map[c := Dialog(visible := true, answered := false)]
            && Inserted(Empty, es) == [c]
            && Removed(Empty, es) == []
  {
    var s1 := Create(Empty, c);
    var s2 := Answer(s1, c);
    var s3 := Hide(s2, c);
    var s4 := Create(s3, c);
    assert s2.dialogs[c] == Dialog(true, true);
    assert s3.dialogs == map[c := Dialog(false, true)];
    assert s4.dialogs == map[c := Dialog(true, false)];
    var t3 := [ChannelCreated(c)];
    assert t3[1..] == [];
    assert Apply(s3, t3[0]) == Step(s4, None);
    assert Feasible(s3, t3) && Run(s3, t3) == s4 && Inserted(s3, t3) == [] && Removed(s3, t3) == [];
    var t2 := [PopupHidden(c)] + t3;
    assert t2[1..] == t3;
    assert Feasible(s2, t2) && Run(s2, t2) == s4 && Inserted(s2, t2) == [] && Removed(s2, t2) == [];
    var t1 := [ChannelAnswered(c)] + t2;
    assert t1[1..] == t2;
    assert Feasible(s1, t1) && Run(s1, t1) == s4 && Inserted(s1, t1) == [] && Removed(s1, t1) == [];
    var es := [ChannelCreated(c)] + t1;
    assert es[1..] == t1;
    assert Apply(Empty, es[0]) == Step(s1, None);
    assert Run(Empty, es) == s4;
    assert Inserted(Empty, es) == [c] + Inserted(s1, t1);
    assert Removed(Empty, es) == [] + Removed(s1, t1);
    assert es == [ChannelCreated(c), ChannelAnswered(c), PopupHidden(c), ChannelCreated(c)];
  }
}
