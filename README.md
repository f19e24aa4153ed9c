# Call-session bookkeeping of the kazoo-popup main window

The application listens to a call-control event bus and pops up a small window for each
incoming call. Its main window keeps the bookkeeping this project models:

- a table from each live call to its popup, where each popup is either visible or hidden and either shows the call as answered or does not;
- one timer slot, naming the call whose 15-second auto-dismiss is pending;
- four handlers that change these: a channel is created, answered or destroyed, or an auto-dismiss timer fires;
- the settings form's validator, and the mapping of the form's fields to the keys of the settings store, for both save and load.

Files:

- `sessions.dfy` (module `Sessions`): the table and the slot as a value, `Session`. Each handler is a function from the old session to the new one; `Hide` is the popup leaving the screen on the user's action, which no handler does. The contracts state what is inserted, updated or removed, and that no other entry changes. Lemmas cover duplicated events, the race between a destroy and a pending timer, and stacked timers.
- `window.dfy` (module `Window`): class `MainWindow`, which holds the table as a `map` field and the slot as an `Option` field. Its four handler methods update the fields in place. Each method's `ensures` ties the new state to the `Sessions` function of the old state. The timer and destroy handlers also return the entry they removed, if any, and say whether its popup was closed.
- `traces.dfy` (module `Traces`): runs of the window over any sequence of events. The main lemma is a balance proved by induction. For each call, insertions plus the call's presence at the start equal removals plus its presence at the end. So an entry is removed at most once per insertion, by a destroy or by the timer, never by both, and every inserted entry that is not live at the end of the run was removed exactly once. Another lemma shows a call that is never answered never takes the timer slot. Besides the four handlers' events, a run may contain a popup being hidden by the user (`PopupHidden`), so that the handlers' branches for a hidden popup are reached.
- `settings.dfy` (module `Settings`): `isCorrectSettings`, and `saveSettings`/`loadSettings` over an abstract text key-value store. The main lemma is the save-then-load round trip.

A call's identity is the abstract type `CallId`. In the application it is the address of the call's `ContactInfo` record. Only equality is used.

Three behaviours of the code differ from what one might expect of such a window: one auto-dismiss timer per call, answers for unknown calls ignored, and a destroy that cancels the call's pending timer. The model keeps the code's behaviour:

- **One timer slot, not one timer per call.** Every answer arms its own single-shot timer, and all of them call the same handler. Each answer overwrites the slot. So after answers for `c1` and then `c2`, the first timer to fire removes `c2` (possibly early) and never `c1`. Later timers find the slot empty. `Sessions.AnswerOverwritesSlot` states this.
- **An answer for an unknown call is not ignored.** The handler looks the popup up without checking the call is in the table, so an unknown call would dereference a null popup. `Sessions.Answer` and `Window.MainWindow.OnChannelAnswered` therefore require the call to be known.
- **A destroy does not clear the timer slot.** The slot can go on naming a removed call. The timer handler's membership check makes the later firing a no-op. If the same identity is later reused for a new call, that firing removes the new call's entry. In the application this is address reuse.

## Model

| member | source | states |
|---|---|---|
| Sessions.Create | mainwindow.cpp:88-112 | A new call gets exactly one entry, visible and unanswered. A known call never gets a second entry. If its popup is visible nothing changes; if hidden, it is reshown with `answered` cleared. The key set grows by at most the call, other entries and the slot are unchanged. |
| Sessions.Answer | mainwindow.cpp:114-122 | For a known call: the slot names the call, the key set is unchanged, `answered` becomes true only when the popup is visible, visibility and every other entry are unchanged. |
| Sessions.Timeout | mainwindow.cpp:124-140 | If the slot is empty or names a call no longer in the table, nothing changes and nothing is removed. Otherwise exactly the slotted call's entry is removed, its popup is closed iff it was visible, the slot is cleared and every other entry is untouched. |
| Sessions.Destroy | mainwindow.cpp:142-157 | An unknown call is a no-op. A known call's entry is always removed, whatever the setting says. Its popup is closed iff it was visible and "close on hang-up" is on. Other entries and the slot are unchanged. |
| Sessions.CreateIdempotent | mainwindow.cpp:90-98 | A duplicated create frame changes nothing the second time. |
| Sessions.DestroyIdempotent | mainwindow.cpp:144-154 | A duplicated destroy removes nothing and changes nothing the second time, whatever the setting on either occasion. |
| Sessions.DestroyDefeatsTimer | mainwindow.cpp:129-154 | After the slotted call is destroyed, the slot still names it, yet the timer firing later is a no-op. So the entry is removed only once. |
| Sessions.TimeoutThenTimeout | mainwindow.cpp:121-139 | With stacked timers, the firing after any firing finds nothing to do. |
| Sessions.AnswerOverwritesSlot | mainwindow.cpp:116-139 | A second answer takes the single slot over. The first timer then removes the second call, keeps the first, and leaves nothing for the next timer. |
| Window.MainWindow.constructor | mainwindow.cpp:46-68 | The window starts with an empty table and an empty slot. |
| Window.MainWindow.OnChannelCreated | mainwindow.cpp:88-112 | Updates the fields in place to exactly `Sessions.Create` of the old state. |
| Window.MainWindow.OnChannelAnswered | mainwindow.cpp:114-122 | For a known call, updates the fields in place to exactly `Sessions.Answer` of the old state. |
| Window.MainWindow.Timeout | mainwindow.cpp:124-140 | Updates the fields to `Sessions.Timeout` of the old state and returns the entry it removed, with whether the popup was closed. |
| Window.MainWindow.OnChannelDestroyed | mainwindow.cpp:142-157 | Updates the fields to `Sessions.Destroy` of the old state and returns the entry it removed, with whether the popup was closed. |
| Traces.StepBalance | mainwindow.cpp:88-157 | Each handled event inserts a call's entry exactly as often as it removes it, counting the call's presence before and after. |
| Traces.RemovalBalance | mainwindow.cpp:88-157 | Over any run, for each call, insertions plus presence at the start equal removals plus presence at the end. So removals never exceed insertions plus presence at the start. |
| Traces.RemovedOnlyAfterInserted | mainwindow.cpp:88-157 | From start-up, no call is removed more often than it was inserted: each entry is removed at most once, and exactly once if it is not live at the end. |
| Traces.NoAnswerNoTimer | mainwindow.cpp:114-122 | A call that is never answered in a run never comes to hold the timer slot. |
| Traces.AnsweredCallTimesOut | mainwindow.cpp:114-140 | Create, answer and two timer firings remove the call exactly once and leave the window empty. |
| Traces.UnansweredCallDestroyed | mainwindow.cpp:142-157 | Create, destroy and a timer firing: the removal is the destroy's (the first two events already remove `[c]` and leave the window empty), the timer firing removes nothing, and the timer slot is empty after every event. |
| Settings.IsCorrectSettings | mainwindow.cpp:159-191 | True iff login, password, realm, auth URL, event URL, info URL and MD5 hash are all non-empty. |
| Settings.SaveSettings | mainwindow.cpp:193-212 | An incomplete form is refused and the store is unchanged. A complete form is accepted, and the store gains exactly the eight setting keys, each holding the form's value (the flag as "true"/"false"). Keys other than the eight keep their values. |
| Settings.BoolTextRoundTrip | mainwindow.cpp:209-224 | The "close on hang-up" flag written as text reads back as the same flag. |
| Settings.SaveLoadRoundTrip | mainwindow.cpp:193-225 | Saving a complete form and loading it back restores all eight fields, whatever the store held and whatever the built-in values are. |
| Settings.SavedCloseHungUp | mainwindow.cpp:148-209 | After a successful save, the destroy handler reads the saved "close on hang-up" value. |
| Settings.RefusedSaveKeepsLoad | mainwindow.cpp:195-225 | A refused save changes nothing that a later load sees. |
| Settings.LoadFromEmpty | mainwindow.cpp:214-225 | With no stored keys, the form shows the built-in values and the box is ticked. |
| Settings.LoadReadsOnlyItsKeys | mainwindow.cpp:214-225 | Loading depends only on the eight setting keys of the store. |
| Settings.LoadSettings | mainwindow.cpp:214-225 | Each of the seven text fields shows the text stored under its key, or its built-in value when the key is absent; the box shows the stored "close on hang-up" flag. Partners: `SaveLoadRoundTrip`, `LoadReadsOnlyItsKeys`, `LoadFromEmpty`. |
| Settings.CloseHungUp | mainwindow.cpp:147-148 | The destroy handler's reading of "close on hang-up": on when the key is absent; a stored "true"/"false" reads back as that flag; off only if the key is present. Partner: `SavedCloseHungUp`. |
| Sessions.Hide | mainwindow.cpp:93-97 | The popup of a known call leaves the screen with its answered flag kept; no entry is inserted or removed, other entries and the slot are unchanged. This is the state the visibility tests at mainwindow.cpp:93, 118, 133 and 151 look for. |
| Sessions.CreateReshowsHidden | mainwindow.cpp:93-97 | A create for a known call whose popup was hidden reshows it with `answered` cleared, adding no entry. |
| Traces.HiddenPopupReshown | mainwindow.cpp:88-122 | Create, answer, user hides the popup, duplicate create: one insertion, no removal, and the single entry is visible and unanswered. |

## Left out

- The tray icon and its menu (mainwindow.cpp:75-86), and the warning box of a refused save: pure user interface. A refused save is modelled only as `accepted == false`.
- Popup geometry and placement on the desktop (mainwindow.cpp:104-109): widget sizing only.
- Signal/slot wiring and the start of the websocket manager (mainwindow.cpp:54-67): the event source is represented only by the events it delivers (`Traces.Event`). websocketmanager, contactinfo and informerdialog are not part of this model.
- The window's header (mainwindow.h) is not part of this model. The timer slot is taken to start empty.
- What a new popup shows: informerdialog is not part of this model. A freshly constructed popup is taken to be hidden and not answered.
- The settings file, its location and the file-existence check before loading: the store is an abstract `map<string, string>` of text values. The "close on hang-up" value the destroy handler reads from the file is a parameter of `Sessions.Destroy`; `Settings.CloseHungUp` computes it from a store. Booleans are stored as the texts "true" and "false". INI escaping is not modelled.
- Settings.TextToBool: lower-cases ASCII letters only, not the full Unicode case mapping used when the toolkit reads text as a boolean.
- Memory management: deleting the popup and the call record, and pointer identity. Calls are keyed by `CallId`, and a removed popup is reported as a `Release` value.
- The 15-second delay: a timer firing is an event the environment may deliver at any point of a run, whether or not a timer is pending. The properties hold for every schedule.
- How a popup hides itself (informerdialog is not part of this model): a run may hide a live call's popup at any point (`Traces.PopupHidden`), whatever the widget's own reason.
- Where a popup was released without being closed (destroy with "close on hang-up" off), the model reports `closed == false`. What the release does to the widget then is not modelled.
