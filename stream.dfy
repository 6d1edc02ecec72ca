/**
 * The `/stream` event generator of app.py (app.py:350-360). Each time it
 * wakes up it looks at the log, sends every entry from its cursor
 * `last_index` on, and moves the cursor past what it sent.
 *
 * The cursor is a position in the log, but the log is bounded
 * (`LogBuffer.Bounded`): once it holds `MaxLines` entries, every append
 * evicts the oldest one and the log's length stays at `MaxLines`. So the
 * positions stop moving with the entries: `StreamStalls` shows that the
 * stream sends nothing more once it has sent `MaxLines` entries, and
 * `PollAfterWrap` that a cursor below `MaxLines` skips entries. `PollSince`
 * is the poll that counts entries instead of positions, with the delivery
 * property `PollSinceDelivers` and `RunSinceDeliversAll`.
 *
 * Each event carries the text `Jobs.Formatted` gives for its entry; the JSON
 * framing of the event and the pause between wake-ups are not modelled.
 */
module Stream {
  import opened LogBuffer

  /** What one wake-up sends, and the cursor after it. */
  datatype Poll<T> = Poll(sent: seq<T>, cursor: nat)

  /** One wake-up on the log `log` with cursor `cursor`: `log[cursor:]`, and the cursor moved past it. */
  function PollOnce<T>(log: seq<T>, cursor: nat): Poll<T> {
    var newLines := if cursor < |log| then log[cursor..] else [];
    Poll(newLines, cursor + |newLines|)
  }

  /** The wake-ups on the successive views `snapshots` of the log, from cursor 0. */
  function Run<T>(snapshots: seq<seq<T>>): Poll<T>
    decreases |snapshots|
  {
    if snapshots == [] then Poll([], 0)
    else
      var before := Run(snapshots[..|snapshots| - 1]);
      var now := PollOnce(snapshots[|snapshots| - 1], before.cursor);
      Poll(before.sent + now.sent, now.cursor)
  }

  /** The longest of the logs in `snapshots`, or 0. */
  function Longest<T>(snapshots: seq<seq<T>>): nat
    decreases |snapshots|
  {
    if snapshots == [] then 0
    else
      var m := Longest(snapshots[..|snapshots| - 1]);
      if |snapshots[|snapshots| - 1]| > m then |snapshots[|snapshots| - 1]| else m
  }

  /**
   * The generator: `events` are the entries it sends, in order, while it
   * wakes up once for each view of the log in `snapshots`.
   */
  method EventStream<T>(snapshots: seq<seq<T>>) returns (events: seq<T>, lastIndex: nat)
    ensures Poll(events, lastIndex) == Run(snapshots)
  {
    events, lastIndex := [], 0;
    var k := 0;
    while k < |snapshots|
      invariant 0 <= k <= |snapshots|
      invariant Poll(events, lastIndex) == Run(snapshots[..k])
    {
      assert snapshots[..k + 1][..k] == snapshots[..k];
      var log := snapshots[k];
      var newLines := if lastIndex < |log| then log[lastIndex..] else [];
      if |newLines| > 0 {
        ghost var before := events;
        for i := 0 to |newLines|
          invariant events == before + newLines[..i]
        {
          events := events + [newLines[i]];
        }
        assert newLines[..|newLines|] == newLines;
        lastIndex := lastIndex + |newLines|;
      }
      k := k + 1;
    }
    assert snapshots[..k] == snapshots;
  }

  /** The cursor never moves back, and after a wake-up it is at least the length of the log seen. */
  lemma PollOnceCursor<T>(log: seq<T>, cursor: nat)
    ensures PollOnce(log, cursor).cursor == if cursor < |log| then |log| else cursor
    ensures PollOnce(log, cursor).sent == [] <==> cursor >= |log|
  {
  }

  /** The cursor of the generator is the length of the longest log it has seen. */
  lemma {:induction false} RunCursor<T>(snapshots: seq<seq<T>>)
    ensures Run(snapshots).cursor == Longest(snapshots)
    decreases |snapshots|
  {
    if snapshots != [] {
      RunCursor(snapshots[..|snapshots| - 1]);
    }
  }

  /**
   * Without eviction, every entry is sent once, in order: when the views are
   * the first `times[i]` entries of one history, with `times` non-decreasing,
   * the generator has sent exactly the first `times[last]` entries.
   */
  lemma {:induction false} RunWithoutEviction<T>(all: seq<T>, times: seq<nat>, snapshots: seq<seq<T>>)
    requires |times| == |snapshots| > 0
    requires forall i :: 0 <= i < |times| ==> times[i] <= |all| && snapshots[i] == all[..times[i]]
    requires forall i, j :: 0 <= i <= j < |times| ==> times[i] <= times[j]
    ensures Run(snapshots) == Poll(all[..times[|times| - 1]], times[|times| - 1])
    decreases |snapshots|
  {
    var n := |snapshots|;
    var t := times[n - 1];
    if n == 1 {
      assert snapshots[..0] == [];
    } else {
      var s := times[n - 2];
      RunWithoutEviction(all, times[..n - 1], snapshots[..n - 1]);
      assert Run(snapshots[..n - 1]) == Poll(all[..s], s);
      if s < t {
        assert all[..t][s..] == all[s..t];
        assert all[..s] + all[s..t] == all[..t];
      } else {
        assert all[..s] + [] == all[..t];
      }
    }
  }

  /**
   * On a log that has wrapped (at least `MaxLines` entries appended), the
   * wake-up with cursor `cursor` sends only the newest `MaxLines - cursor`
   * entries, and nothing once the cursor has reached `MaxLines`.
   */
  lemma PollAfterWrap<T>(all: seq<T>, cursor: nat)
    requires |all| >= MaxLines
    ensures PollOnce(Bounded(all), cursor).sent ==
      if cursor < MaxLines then all[|all| - MaxLines + cursor..] else []
  {
    var log := all[|all| - MaxLines..];
    if cursor < MaxLines {
      assert log[cursor..] == all[|all| - MaxLines + cursor..];
    }
  }

  /**
   * The stream stops: after a wake-up that has seen the first `MaxLines`
   * entries, a later wake-up sends nothing, although `|all| - MaxLines`
   * entries have been appended since.
   */
  lemma StreamStalls<T>(all: seq<T>)
    requires |all| > MaxLines
    ensures Run([Bounded(all[..MaxLines]), Bounded(all)]) == Poll(all[..MaxLines], MaxLines)
  {
    var seen := all[..MaxLines];
    var snapshots := [Bounded(seen), Bounded(all)];
    assert snapshots[..1] == [seen];
    assert [seen][..0] == [];
    assert Run([seen]) == Poll([] + seen, MaxLines);
    PollAfterWrap(all, MaxLines);
    assert Run(snapshots) == Poll(([] + seen) + [], MaxLines);
  }

  // ---- A poll that counts entries ----

  /**
   * One wake-up that keeps as its cursor the number of entries appended so
   * far rather than a position: `total` entries have been appended to the
   * bounded log `log`, whose first entry is then the `total - |log|`-th.
   * It sends the entries appended since `cursor` that the log still holds.
   */
  function PollSince<T>(log: seq<T>, total: nat, cursor: nat): Poll<T>
    requires |log| <= total
  {
    var first := total - |log|;
    if cursor >= total then Poll([], cursor)
    else Poll(log[(if cursor > first then cursor - first else 0)..], total)
  }

  /**
   * `PollSince` sends exactly the entries appended since the cursor that have
   * not been evicted, oldest first; it sends something whenever something was
   * appended, and everything when at most `MaxLines` entries were appended.
   */
  lemma PollSinceDelivers<T>(all: seq<T>, cursor: nat)
    requires cursor <= |all|
    ensures var p := PollSince(Bounded(all), |all|, cursor);
      && p.cursor == |all|
      && p.sent == all[(if |all| - cursor > MaxLines then |all| - MaxLines else cursor)..]
      && (cursor < |all| ==> p.sent != [])
      && (|all| - cursor <= MaxLines ==> p.sent == all[cursor..])
  {
    BoundedNewest(all);
    var log := Bounded(all);
    assert log == all[|all| - |log|..];
    var first := |all| - |log|;
    if cursor < |all| {
      var from := if cursor > first then cursor - first else 0;
      assert log[from..] == all[first + from..];
    }
  }

  /** The wake-ups with `PollSince` on the views of one history after `times[i]` appends. */
  function RunSince<T>(all: seq<T>, times: seq<nat>): Poll<T>
    requires forall i :: 0 <= i < |times| ==> times[i] <= |all|
    decreases |times|
  {
    if times == [] then Poll([], 0)
    else
      var before := RunSince(all, times[..|times| - 1]);
      var t := times[|times| - 1];
      var now := PollSince(Bounded(all[..t]), t, before.cursor);
      Poll(before.sent + now.sent, now.cursor)
  }

  /**
   * With `PollSince`, every entry is sent once and in order, however long the
   * log grows, as long as no more than `MaxLines` entries are appended
   * between two wake-ups.
   */
  lemma {:induction false} RunSinceDeliversAll<T>(all: seq<T>, times: seq<nat>)
    requires |times| > 0
    requires forall i :: 0 <= i < |times| ==> times[i] <= |all|
    requires forall i, j :: 0 <= i <= j < |times| ==> times[i] <= times[j]
    requires times[0] <= MaxLines
    requires forall i :: 0 < i < |times| ==> times[i] - times[i - 1] <= MaxLines
    ensures RunSince(all, times) == Poll(all[..times[|times| - 1]], times[|times| - 1])
    decreases |times|
  {
    var n := |times|;
    var t := times[n - 1];
    var cursor := if n == 1 then 0 else times[n - 2];
    if n == 1 {
      assert times[..0] == [];
    } else {
      RunSinceDeliversAll(all, times[..n - 1]);
    }
    assert RunSince(all, times[..n - 1]).cursor == cursor;
    assert RunSince(all, times[..n - 1]).sent == all[..cursor];
    PollSinceDelivers(all[..t], cursor);
    assert all[..t][cursor..] == all[cursor..t];
    assert all[..cursor] + all[cursor..t] == all[..t];
  }
}
