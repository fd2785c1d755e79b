/**
 * The lifecycle log activity: a display that every callback appends its name
 * to, and a process-wide list of callbacks that happened after the display was
 * last saved, replayed into the display of the next activity instance.
 */
module Lifecycle {
  import opened Wrappers
  import opened CallbackText

  // The names of the lifecycle callbacks, as they appear in the display.
  const OnCreateTag := "onCreate"
  const OnStartTag := "onStart"
  const OnResumeTag := "onResume"
  const OnPauseTag := "onPause"
  const OnStopTag := "onStop"
  const OnRestartTag := "onRestart"
  const OnDestroyTag := "onDestroy"
  const OnSaveInstanceStateTag := "onSaveInstanceState"

  /** The text the reset button puts in the display. */
  const ResetText := "Lifecycle callbacks:\n"

  /** The diagnostic log message for one callback. */
  function DiagnosticMessage(tag: string): string {
    "Lifecycle Event: " + tag
  }

  /**
   * The list of callbacks that happened after the display was last saved.
   * New entries go to the front, so `entries` is most recent first; `history`
   * is the same entries in the order they were inserted since the last clear.
   */
  class PendingCallbacks {
    var entries: seq<string>
    ghost var history: seq<string>

    ghost predicate Valid()
      reads this
    {
      entries == Reversed(history)
    }

    constructor ()
      ensures Valid() && entries == [] && history == []
    {
      entries := [];
      history := [];
    }

    /** Inserts `tag` at index 0, ahead of every earlier entry. */
    method AddFirst(tag: string)
      requires Valid()
      modifies this
      ensures Valid()
      ensures entries == [tag] + old(entries)
      ensures history == old(history) + [tag]
    {
      ReversedSnoc(history, tag);
      entries := [tag] + entries;
      history := history + [tag];
    }

    /**
     * The list is most recent first: it holds one entry per insertion since the
     * last clear, the newest at index 0 and the oldest at the last index.
     */
    lemma MostRecentFirst()
      requires Valid()
      ensures |entries| == |history|
      ensures forall k :: 0 <= k < |entries| ==> entries[k] == history[|history| - 1 - k]
    {
      ReversedIndex(history);
    }

    /** Removes every entry. */
    method Clear()
      modifies this
      ensures Valid() && entries == [] && history == []
    {
      entries := [];
      history := [];
    }
  }

  /**
   * What outlives a single activity instance: the pending list, created once
   * with an empty list and handed to every activity the process creates.
   */
  class ActivityProcess {
    const callbacks: PendingCallbacks

    constructor ()
      ensures fresh(callbacks) && callbacks.Valid() && callbacks.entries == []
    {
      callbacks := new PendingCallbacks();
    }

    /** A new activity instance that shares this process's pending list. */
    method NewActivity() returns (activity: MainActivity)
      ensures fresh(activity) && activity.callbacks == callbacks && !activity.created
      ensures activity.diagnostics == []
    {
      activity := new MainActivity(callbacks);
    }
  }

  /**
   * One activity instance. `display` is the text of the on-screen log; it does
   * not exist until `OnCreate` has inflated the layout, which `created` records.
   * `diagnostics` collects the messages written to the debug log.
   */
  class MainActivity {
    const callbacks: PendingCallbacks
    var display: string
    ghost var created: bool
    ghost var diagnostics: seq<string>

    constructor (callbacks: PendingCallbacks)
      ensures this.callbacks == callbacks && !created && diagnostics == []
    {
      this.callbacks := callbacks;
      display := "";
      created := false;
      diagnostics := [];
    }

    /** Writes the diagnostic message for `tag` and appends `tag` as a new line of the display. */
    method LogAndAppend(tag: string)
      requires created
      modifies this
      ensures created
      ensures display == old(display) + Line(tag)
      ensures diagnostics == old(diagnostics) + [DiagnosticMessage(tag)]
    {
      diagnostics := diagnostics + [DiagnosticMessage(tag)];
      display := display + Line(tag);
    }

    /**
     * Shows the saved display text if there is one (otherwise the layout's own
     * text), replays the pending callbacks oldest first, empties the pending
     * list and logs `onCreate`.
     */
    method OnCreate(saved: Option<string>, layoutText: string)
      requires callbacks.Valid()
      modifies this, callbacks
      ensures created && callbacks.Valid()
      ensures display == saved.GetOr(layoutText) + ReplayText(old(callbacks.entries)) + Line(OnCreateTag)
      ensures display == saved.GetOr(layoutText) + Lines(old(callbacks.history)) + Line(OnCreateTag)
      ensures callbacks.entries == [] && callbacks.history == []
      ensures diagnostics == old(diagnostics) + [DiagnosticMessage(OnCreateTag)]
    {
      created := true;
      display := layoutText;
      if saved.Some? {
        display := saved.value;
      }
      ghost var start := display;
      var i := |callbacks.entries| - 1;
      while i >= 0
        invariant -1 <= i < |callbacks.entries|
        invariant display == start + ReplayText(callbacks.entries[i + 1..])
        invariant created && diagnostics == old(diagnostics)
        invariant callbacks.entries == old(callbacks.entries) && callbacks.history == old(callbacks.history)
        decreases i
      {
        assert callbacks.entries[i..][1..] == callbacks.entries[i + 1..];
        display := display + Line(callbacks.entries[i]);
        i := i - 1;
      }
      assert callbacks.entries[0..] == callbacks.entries;
      ReplayOfReversed(callbacks.history);
      callbacks.Clear();
      LogAndAppend(OnCreateTag);
    }

    method OnStart()
      requires created
      modifies this
      ensures created
      ensures display == old(display) + Line(OnStartTag)
      ensures diagnostics == old(diagnostics) + [DiagnosticMessage(OnStartTag)]
    {
      LogAndAppend(OnStartTag);
    }

    method OnResume()
      requires created
      modifies this
      ensures created
      ensures display == old(display) + Line(OnResumeTag)
      ensures diagnostics == old(diagnostics) + [DiagnosticMessage(OnResumeTag)]
    {
      LogAndAppend(OnResumeTag);
    }

    method OnPause()
      requires created
      modifies this
      ensures created
      ensures display == old(display) + Line(OnPauseTag)
      ensures diagnostics == old(diagnostics) + [DiagnosticMessage(OnPauseTag)]
    {
      LogAndAppend(OnPauseTag);
    }

    /** Records `onStop` at the front of the pending list and also logs it to the display. */
    method OnStop()
      requires created && callbacks.Valid()
      modifies this, callbacks
      ensures created && callbacks.Valid()
      ensures callbacks.entries == [OnStopTag] + old(callbacks.entries)
      ensures callbacks.history == old(callbacks.history) + [OnStopTag]
      ensures display == old(display) + Line(OnStopTag)
      ensures diagnostics == old(diagnostics) + [DiagnosticMessage(OnStopTag)]
    {
      callbacks.AddFirst(OnStopTag);
      LogAndAppend(OnStopTag);
    }

    method OnRestart()
      requires created
      modifies this
      ensures created
      ensures display == old(display) + Line(OnRestartTag)
      ensures diagnostics == old(diagnostics) + [DiagnosticMessage(OnRestartTag)]
    {
      LogAndAppend(OnRestartTag);
    }

    /** Records `onDestroy` at the front of the pending list and also logs it to the display. */
    method OnDestroy()
      requires created && callbacks.Valid()
      modifies this, callbacks
      ensures created && callbacks.Valid()
      ensures callbacks.entries == [OnDestroyTag] + old(callbacks.entries)
      ensures callbacks.history == old(callbacks.history) + [OnDestroyTag]
      ensures display == old(display) + Line(OnDestroyTag)
      ensures diagnostics == old(diagnostics) + [DiagnosticMessage(OnDestroyTag)]
    {
      callbacks.AddFirst(OnDestroyTag);
      LogAndAppend(OnDestroyTag);
    }

    /**
     * Logs `onSaveInstanceState`, then returns the whole display text, which
     * the host stores in the bundle under the key `"callbacks"`.
     */
    method OnSaveInstanceState() returns (saved: string)
      requires created
      modifies this
      ensures created
      ensures display == old(display) + Line(OnSaveInstanceStateTag)
      ensures saved == display
      ensures diagnostics == old(diagnostics) + [DiagnosticMessage(OnSaveInstanceStateTag)]
    {
      LogAndAppend(OnSaveInstanceStateTag);
      saved := display;
    }

    /** The reset button's handler: replaces the display text with `ResetText`. */
    method ResetLifecycleDisplay()
      requires created
      modifies this
      ensures created
      ensures display == ResetText
      ensures diagnostics == old(diagnostics)
    {
      display := ResetText;
    }
  }
}
