/**
 * The text that the lifecycle display accumulates, as values: one line per
 * callback tag, and the order in which the pending callbacks are replayed.
 */
module CallbackText {

  /** What `logAndAppend` adds to the display for one callback: its tag and a newline. */
  function Line(tag: string): string {
    tag + "\n"
  }

  /** The display text for a run of callbacks, in the order given, one line each. */
  function Lines(tags: seq<string>): string {
    if tags == [] then "" else Line(tags[0]) + Lines(tags[1..])
  }

  /** `s` back to front. The pending list holds its history in this order (most recent first). */
  function Reversed(s: seq<string>): seq<string> {
    if s == [] then [] else Reversed(s[1..]) + [s[0]]
  }

  /**
   * What the replay loop of `onCreate` appends for a pending list: the entries
   * visited from the last index down to index 0, each followed by a newline.
   * The entry at the front of the list is visited last, so its line comes last.
   */
  function ReplayText(pending: seq<string>): string {
    if pending == [] then "" else ReplayText(pending[1..]) + Line(pending[0])
  }

  /** Appending one more callback to a run adds exactly its line at the end. */
  lemma {:induction false} LinesSnoc(tags: seq<string>, tag: string)
    ensures Lines(tags + [tag]) == Lines(tags) + Line(tag)
  {
    if tags != [] {
      assert (tags + [tag])[1..] == tags[1..] + [tag];
      LinesSnoc(tags[1..], tag);
    }
  }

  /** Inserting at the front of a reversed history is the reversal of the history extended at the back. */
  lemma {:induction false} ReversedSnoc(history: seq<string>, tag: string)
    ensures Reversed(history + [tag]) == [tag] + Reversed(history)
  {
    if history != [] {
      assert (history + [tag])[1..] == history[1..] + [tag];
      ReversedSnoc(history[1..], tag);
    }
  }

  /** Reversing keeps every entry, so the pending list is exactly as long as its history. */
  lemma {:induction false} ReversedLength(history: seq<string>)
    ensures |Reversed(history)| == |history|
  {
    if history != [] {
      ReversedLength(history[1..]);
    }
  }

  /**
   * Index `k` of the reversal holds the `k`-th most recent entry of the history:
   * the newest at index 0, the oldest at the last index.
   */
  lemma {:induction false} ReversedIndex(history: seq<string>)
    ensures |Reversed(history)| == |history|
    ensures forall k :: 0 <= k < |history| ==> Reversed(history)[k] == history[|history| - 1 - k]
  {
    ReversedLength(history);
    if history != [] {
      var rest := history[1..];
      ReversedIndex(rest);
      forall k | 0 <= k < |history|
        ensures Reversed(history)[k] == history[|history| - 1 - k]
      {
        if k < |rest| {
          // Every index but the last falls inside the reversal of the rest.
          assert Reversed(history)[k] == Reversed(rest)[k];
          assert rest[|rest| - 1 - k] == history[|history| - 1 - k];
        }
      }
    }
  }

  /**
   * Replaying a list visits the later part first: the entries at the back, which
   * are the older ones, come out before the entries at the front.
   */
  lemma {:induction false} ReplayConcat(front: seq<string>, back: seq<string>)
    ensures ReplayText(front + back) == ReplayText(back) + ReplayText(front)
  {
    if front != [] {
      assert (front + back)[1..] == front[1..] + back;
      ReplayConcat(front[1..], back);
    } else {
      assert front + back == back;
    }
  }

  /**
   * Replaying a most-recent-first list from back to front recovers the order in
   * which the entries were inserted.
   */
  lemma {:induction false} ReplayOfReversed(history: seq<string>)
    ensures ReplayText(Reversed(history)) == Lines(history)
  {
    if history != [] {
      var first, rest := history[0], history[1..];
      ReplayConcat(Reversed(rest), [first]);
      assert ReplayText([first]) == Line(first) by {
        assert [first][1..] == [];
      }
      ReplayOfReversed(rest);
    }
  }
}
