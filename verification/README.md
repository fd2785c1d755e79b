# Lifecycle log activity, modelled in Dafny

This is a model of the Android sample activity `MainActivity`. The activity
writes the name of every lifecycle callback it receives to an on-screen log,
the "display". The callbacks are `onCreate`, `onStart`, `onResume`,
`onPause`, `onStop`, `onRestart`, `onDestroy` and `onSaveInstanceState`.

The host saves the display text in `onSaveInstanceState`, and that happens
before `onStop` and `onDestroy`. The lines for those two callbacks would
therefore be lost when the activity is destroyed and recreated. To keep them,
each of the two callbacks also inserts its name at the front of a static list.
That list outlives the activity instance. The next `onCreate` restores the
saved text, walks the list from back to front (oldest entry first), appends
each entry, and clears the list.

Files:

- `wrappers.dfy`: `Option`, used for the saved-state bundle. The bundle may be
  missing, or it may not hold the `"callbacks"` key.
- `callback_text.dfy`: the display text as values. `Line` is one callback's
  line. `Lines` is a run of lines in the given order. `Reversed` gives the
  most-recent-first order of the list. `ReplayText` is what the replay loop
  appends. The lemmas relate these functions.
- `lifecycle.dfy`: the three classes.
  - `PendingCallbacks` is the static list, a `seq` field. It also has a ghost
    `history` field that holds the same entries in insertion order.
  - `ActivityProcess` is the longer-lived owner. It creates the list once and
    hands it to every activity instance.
  - `MainActivity` has one method per callback.
- `scenarios.dfy`: client runs. Each builds activities in one process, calls
  the callbacks in an order the client chooses, and states the exact display
  and saved text that result. The class does not enforce the host's order.

The display is the `display` string field. The debug log (`Log.d`) is a ghost
sequence `diagnostics`. Each entry of that sequence is the message
`"Lifecycle Event: " + tag`. The layout's initial display text is not known,
so `OnCreate` takes it as a parameter.

In Java, the display field is null until `onCreate` has looked up the view.
Calling any other callback first would throw a NullPointerException. The ghost
flag `created` records this. The other callbacks and the reset handler
require it.

The code behaves differently from a naive reading of the activity's own
comments, and the model follows the code:

- The comment at app/src/main/java/com/example/android/lifecycle/MainActivity.java:43 says the pending list is replayed in `onStart`. The
  code replays it in `onCreate`.
- `onStop` writes to the pending list and to the display. Only `onCreate`
  clears the list. So after a stop/restart cycle, a later recreation replays a
  stale `onStop` that the saved text already shows. `Scenarios.StaleStopReplay`
  states the resulting duplicate line. No "no duplicates" property is claimed.
- `onSaveInstanceState` appends its own line before it reads the display. So a
  save right after a reset returns the reset text followed by
  `"onSaveInstanceState\n"`, not the reset text alone.

## Model

| member | source | states |
|---|---|---|
| CallbackText.LinesSnoc | app/src/main/java/com/example/android/lifecycle/MainActivity.java:171-175 | Logging one more callback after a run of callbacks leaves the earlier text unchanged and adds exactly that tag and a newline at the end. |
| CallbackText.ReversedSnoc | app/src/main/java/com/example/android/lifecycle/MainActivity.java:128 | Inserting a tag at index 0 of a most-recent-first list gives the reversal of the history extended by that tag. Proved by induction on the history; `AddFirst` needs it to keep its invariant. |
| CallbackText.ReversedLength | app/src/main/java/com/example/android/lifecycle/MainActivity.java:128 | Reversing a history keeps every entry, so the most-recent-first list is exactly as long as its insertion history. |
| CallbackText.ReversedIndex | app/src/main/java/com/example/android/lifecycle/MainActivity.java:128 | In the reversal of a history, index k holds the k-th most recent entry: the newest is at index 0 and the oldest at the last index. |
| CallbackText.ReplayOfReversed | app/src/main/java/com/example/android/lifecycle/MainActivity.java:80-82 | Walking a most-recent-first list from the last index down to 0 and appending each entry with a newline gives the entries' lines in insertion order. |
| CallbackText.ReplayConcat | app/src/main/java/com/example/android/lifecycle/MainActivity.java:80-82 | The back-to-front replay emits the entries at the back of the list before those at the front. Older entries sit at the back, for example an `onStop` left over from an earlier stop/restart cycle, so they are replayed before newer ones. `ReplayOfReversed` is proved from it. |
| Lifecycle.PendingCallbacks.constructor | app/src/main/java/com/example/android/lifecycle/MainActivity.java:45 | The static pending list starts empty. |
| Lifecycle.PendingCallbacks.AddFirst | app/src/main/java/com/example/android/lifecycle/MainActivity.java:128 | The list becomes the tag followed by the old entries. The tag joins the end of the insertion-order history, and entries stay the reversal of history. |
| Lifecycle.PendingCallbacks.MostRecentFirst | app/src/main/java/com/example/android/lifecycle/MainActivity.java:128 | For a valid pending list, there is one entry per insertion since the last clear. The entry at index k is the k-th most recent insertion, so the front holds the newest callback and the back the oldest. |
| Lifecycle.PendingCallbacks.Clear | app/src/main/java/com/example/android/lifecycle/MainActivity.java:88 | The list and its history become empty. |
| Lifecycle.ActivityProcess.constructor | app/src/main/java/com/example/android/lifecycle/MainActivity.java:45 | The process holds one freshly created, empty pending list. |
| Lifecycle.ActivityProcess.NewActivity | app/src/main/java/com/example/android/lifecycle/MainActivity.java:45 | Every new activity instance shares the process's single pending list and starts with no display and no diagnostics. |
| Lifecycle.MainActivity.constructor | app/src/main/java/com/example/android/lifecycle/MainActivity.java:37 | A new instance holds the shared pending list. Its display does not exist yet. |
| Lifecycle.MainActivity.LogAndAppend | app/src/main/java/com/example/android/lifecycle/MainActivity.java:171-175 | The display becomes the old display followed by exactly the tag and a newline. The debug log gains "Lifecycle Event: " + tag. |
| Lifecycle.MainActivity.OnCreate | app/src/main/java/com/example/android/lifecycle/MainActivity.java:56-91 | The display becomes the saved text, or the layout text when there is none. Then come the pending entries from the last index to the first, which is their insertion order, then "onCreate\n". The pending list ends empty. |
| Lifecycle.MainActivity.OnStart | app/src/main/java/com/example/android/lifecycle/MainActivity.java:95-99 | Appends "onStart\n" to the display. The pending list is outside the method's frame, so it is unchanged. |
| Lifecycle.MainActivity.OnResume | app/src/main/java/com/example/android/lifecycle/MainActivity.java:103-107 | Appends "onResume\n" to the display. The pending list is unchanged. |
| Lifecycle.MainActivity.OnPause | app/src/main/java/com/example/android/lifecycle/MainActivity.java:111-115 | Appends "onPause\n" to the display. The pending list is unchanged. |
| Lifecycle.MainActivity.OnStop | app/src/main/java/com/example/android/lifecycle/MainActivity.java:119-130 | Puts "onStop" at the front of the pending list, at the end of its history, and also appends "onStop\n" to the display. |
| Lifecycle.MainActivity.OnRestart | app/src/main/java/com/example/android/lifecycle/MainActivity.java:134-139 | Appends "onRestart\n" to the display. The pending list is unchanged. |
| Lifecycle.MainActivity.OnDestroy | app/src/main/java/com/example/android/lifecycle/MainActivity.java:143-154 | Puts "onDestroy" at the front of the pending list, at the end of its history, and also appends "onDestroy\n" to the display. |
| Lifecycle.MainActivity.OnSaveInstanceState | app/src/main/java/com/example/android/lifecycle/MainActivity.java:156-162 | Appends "onSaveInstanceState\n" and returns the whole display afterwards. The saved string equals the display and ends with that line. The pending list is unchanged. |
| Lifecycle.MainActivity.ResetLifecycleDisplay | app/src/main/java/com/example/android/lifecycle/MainActivity.java:182-184 | The display becomes exactly "Lifecycle callbacks:\n", whatever it held before. The pending list and debug log are unchanged. |
| Scenarios.FirstLaunch | app/src/main/java/com/example/android/lifecycle/MainActivity.java:56-107 | Create, start, resume with no saved state show the layout text followed by the three callback lines in order. |
| Scenarios.Recreation | app/src/main/java/com/example/android/lifecycle/MainActivity.java:56-162 | The saved text stops at "onSaveInstanceState\n". The recreated display is the saved text followed by "onStop\n", "onDestroy\n" and "onCreate\n", in the order they happened. The pending list ends empty. |
| Scenarios.CreateTwice | app/src/main/java/com/example/android/lifecycle/MainActivity.java:80-90 | After a stop and destroy, the next creation replays them. A further creation with no stop or destroy in between replays nothing and shows only the restored text and "onCreate\n". The host never makes that second call; the client does. |
| Scenarios.StaleStopReplay | app/src/main/java/com/example/android/lifecycle/MainActivity.java:119-139 | An onStop from an earlier stop/restart cycle appears in the saved text and is replayed again on recreation, so the display shows it twice. |
| Scenarios.ResetKeepsPending | app/src/main/java/com/example/android/lifecycle/MainActivity.java:119-184 | A reset after a stop/restart cycle leaves the pending list alone. A later save holds only the reset text, "onPause\n" and the save line. The next creation replays both the earlier and the later `onStop`, then `onDestroy`. |

## Left out

- The Android framework: the `super` calls, `setContentView`, `findViewById`,
  the `TextView` widget and the `Bundle` API. The display is a string field.
  The bundle is an `Option<string>` for the value under `"callbacks"`: a null
  bundle and a bundle without the key are both `None`.
- A bundle that maps `"callbacks"` to null, which makes `setText(null)` show an
  empty text. The activity never saves null, so the model does not represent
  that case.
- The layout's default display text. The layout resource is not part of this
  model, so the text is a parameter of `OnCreate`.
- `Log.d` output is a ghost sequence of messages. The log tag (the class's
  simple name) is not recorded.
- The host's callback order is not enforced by the class and is not modelled.
  Only the `created` flag is modelled, for the null display before `onCreate`.
- Process death, which discards the static list, is runtime behaviour outside
  the code.
