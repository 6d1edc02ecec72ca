/**
 * The bounded log of app.py: `append_log` (app.py:63-69) appends one entry
 * and, when the log holds more than `LOG_MAX_LINES` (app.py:38) entries,
 * keeps only the newest ones. These functions specify the log whatever its
 * entries are; the class holding it is `Jobs.App`.
 */
module LogBuffer {
  /** `LOG_MAX_LINES`. */
  const MaxLines: nat := 800

  /** `log[-MaxLines:]` when the log is over the cap, the log itself otherwise. */
  function Bounded<T>(log: seq<T>): seq<T> {
    if |log| > MaxLines then log[|log| - MaxLines..] else log
  }

  /** Bounding keeps the newest `min(|log|, MaxLines)` entries, in order. */
  lemma BoundedNewest<T>(log: seq<T>)
    ensures |Bounded(log)| <= MaxLines
    ensures |Bounded(log)| == if |log| <= MaxLines then |log| else MaxLines
    ensures Bounded(log) == log[|log| - |Bounded(log)|..]
  {
  }

  /** The log after one `append_log` of `entry`. */
  function Appended<T>(log: seq<T>, entry: T): seq<T> {
    Bounded(log + [entry])
  }

  /** The log after appending `entries` one at a time, in order. */
  function AppendAll<T>(log: seq<T>, entries: seq<T>): seq<T>
    decreases |entries|
  {
    if entries == [] then log
    else Appended(AppendAll(log, entries[..|entries| - 1]), entries[|entries| - 1])
  }

  /**
   * One append on a log within the cap: the result is within the cap, ends
   * with the new entry, and is the old log plus the entry, less only the
   * oldest entry when the log was full.
   */
  lemma AppendedShape<T>(log: seq<T>, entry: T)
    requires |log| <= MaxLines
    ensures |Appended(log, entry)| <= MaxLines
    ensures Appended(log, entry)[|Appended(log, entry)| - 1] == entry
    ensures |log| < MaxLines ==> Appended(log, entry) == log + [entry]
    ensures |log| == MaxLines ==> Appended(log, entry) == (log + [entry])[1..]
  {
  }

  /** Bounding the log before an append changes nothing: only the newest entries matter. */
  lemma BoundedAbsorbs<T>(log: seq<T>, entry: T)
    ensures Appended(Bounded(log), entry) == Appended(log, entry)
  {
    var b := Bounded(log);
    if |log| > MaxLines {
      assert b + [entry] == (log + [entry])[|log| - MaxLines..];
    }
  }

  /**
   * Appending entries one by one keeps exactly the newest `MaxLines` of the
   * old log followed by the new entries, oldest first.
   */
  lemma {:induction false} AppendAllKeepsNewest<T>(log: seq<T>, entries: seq<T>)
    requires |log| <= MaxLines
    ensures AppendAll(log, entries) == Bounded(log + entries)
    decreases |entries|
  {
    if entries == [] {
      assert log + entries == log;
    } else {
      var init := entries[..|entries| - 1];
      var last := entries[|entries| - 1];
      AppendAllKeepsNewest(log, init);
      BoundedAbsorbs(log + init, last);
      assert log + init + [last] == log + entries;
    }
  }

  /** Appending at least `MaxLines` entries leaves exactly the newest `MaxLines` of them. */
  lemma Overflow<T>(log: seq<T>, entries: seq<T>)
    requires |log| <= MaxLines && |entries| >= MaxLines
    ensures AppendAll(log, entries) == entries[|entries| - MaxLines..]
  {
    AppendAllKeepsNewest(log, entries);
    assert (log + entries)[|log| + |entries| - MaxLines..] == entries[|entries| - MaxLines..];
  }
}
