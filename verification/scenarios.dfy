/**
 * Runs of the activity in call orders chosen by the client (the class does not
 * enforce the host's order): what the display and the saved state hold after a
 * given sequence of callbacks, across a destroy/recreate boundary where the
 * pending list survives and the saved text is handed back.
 */
module Scenarios {
  import opened Wrappers
  import opened CallbackText
  import opened Lifecycle

  /** A first launch: create, start, resume, with no saved state. */
  method FirstLaunch(layoutText: string) returns (display: string)
    ensures display == layoutText + Line(OnCreateTag) + Line(OnStartTag) + Line(OnResumeTag)
  {
    var process := new ActivityProcess();
    var activity := process.NewActivity();
    activity.OnCreate(None, layoutText);
    activity.OnStart();
    activity.OnResume();
    display := activity.display;
  }

  /**
   * The host saves the state, then stops and destroys the activity, and creates
   * a new instance from the saved text. The saved text lacks `onStop` and
   * `onDestroy`; the new instance gets them back from the pending list, in the
   * order they happened, and leaves the list empty.
   */
  method Recreation(layoutText: string) returns (saved: string, recreated: string, pendingAfter: seq<string>)
    ensures saved == layoutText + Line(OnCreateTag) + Line(OnStartTag) + Line(OnResumeTag)
                    + Line(OnPauseTag) + Line(OnSaveInstanceStateTag)
    ensures recreated == saved + Line(OnStopTag) + Line(OnDestroyTag) + Line(OnCreateTag)
    ensures pendingAfter == []
  {
    var process := new ActivityProcess();
    var first := process.NewActivity();
    first.OnCreate(None, layoutText);
    first.OnStart();
    first.OnResume();
    first.OnPause();
    saved := first.OnSaveInstanceState();
    first.OnStop();
    first.OnDestroy();
    assert process.callbacks.history == [OnStopTag, OnDestroyTag];
    var second := process.NewActivity();
    second.OnCreate(Some(saved), layoutText);
    recreated := second.display;
    pendingAfter := process.callbacks.entries;
  }

  /**
   * A second `OnCreate` with no `OnStop` or `OnDestroy` in between replays
   * nothing: the first one emptied the pending list. (The host itself creates a
   * new instance only after destroying the previous one; the second creation
   * here is a client's choice.)
   */
  method CreateTwice(saved: Option<string>, layoutText: string) returns (first: string, second: string)
    ensures first == saved.GetOr(layoutText) + Line(OnStopTag) + Line(OnDestroyTag) + Line(OnCreateTag)
    ensures second == saved.GetOr(layoutText) + Line(OnCreateTag)
  {
    var process := new ActivityProcess();
    var previous := process.NewActivity();
    previous.OnCreate(None, layoutText);
    previous.OnStart();
    previous.OnResume();
    previous.OnPause();
    previous.OnStop();
    previous.OnDestroy();
    assert process.callbacks.history == [OnStopTag, OnDestroyTag];
    var activity := process.NewActivity();
    activity.OnCreate(saved, layoutText);
    first := activity.display;
    var again := process.NewActivity();
    again.OnCreate(saved, layoutText);
    second := again.display;
  }

  /**
   * A stop and restart, then a save, stop, destroy and recreation: the first
   * `onStop` is in the saved text and is also still in the pending list, so the
   * recreated display shows it twice.
   */
  method StaleStopReplay(layoutText: string) returns (saved: string, recreated: string)
    ensures saved == layoutText + Line(OnCreateTag) + Line(OnStartTag) + Line(OnResumeTag)
                    + Line(OnPauseTag) + Line(OnStopTag) + Line(OnRestartTag) + Line(OnStartTag)
                    + Line(OnResumeTag) + Line(OnPauseTag) + Line(OnSaveInstanceStateTag)
    ensures recreated == saved + Line(OnStopTag) + Line(OnStopTag) + Line(OnDestroyTag) + Line(OnCreateTag)
  {
    var process := new ActivityProcess();
    var first := process.NewActivity();
    first.OnCreate(None, layoutText);
    first.OnStart();
    first.OnResume();
    first.OnPause();
    first.OnStop();
    first.OnRestart();
    first.OnStart();
    first.OnResume();
    first.OnPause();
    saved := first.OnSaveInstanceState();
    first.OnStop();
    first.OnDestroy();
    assert process.callbacks.history == [OnStopTag, OnStopTag] + [OnDestroyTag];
    LinesSnoc([OnStopTag, OnStopTag], OnDestroyTag);
    var second := process.NewActivity();
    second.OnCreate(Some(saved), layoutText);
    recreated := second.display;
  }

  /**
   * Reset empties the display but not the pending list: a save shortly after a
   * reset holds only the reset text and the lines logged since, and the next
   * recreation still replays the `onStop` recorded before the reset, next to
   * the later one.
   */
  method ResetKeepsPending(layoutText: string) returns (saved: string, recreated: string)
    ensures saved == ResetText + Line(OnPauseTag) + Line(OnSaveInstanceStateTag)
    ensures recreated == saved + Line(OnStopTag) + Line(OnStopTag) + Line(OnDestroyTag) + Line(OnCreateTag)
  {
    var process := new ActivityProcess();
    var first := process.NewActivity();
    first.OnCreate(None, layoutText);
    first.OnStart();
    first.OnResume();
    first.OnPause();
    first.OnStop();
    first.OnRestart();
    first.OnStart();
    first.OnResume();
    first.ResetLifecycleDisplay();
    first.OnPause();
    saved := first.OnSaveInstanceState();
    first.OnStop();
    first.OnDestroy();
    assert process.callbacks.history == [OnStopTag, OnStopTag] + [OnDestroyTag];
    LinesSnoc([OnStopTag, OnStopTag], OnDestroyTag);
    var second := process.NewActivity();
    second.OnCreate(Some(saved), layoutText);
    recreated := second.display;
  }
}
