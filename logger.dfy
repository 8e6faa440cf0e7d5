/** The activity log of the renderer (src/renderer/js/logger.js): a list of
    entries, newest last, that keeps at most one hundred of them. The time
    stamp, which the browser's clock gives, is an input. */
module Logger {
  import opened Values

  /** The most entries a `log` call leaves behind. */
  const Capacity: nat := 100

  /** One `log-entry` element: its class and its text. */
  datatype Entry = Entry(cls: string, text: string)

  /** The entry `log(message, type)` creates. */
  function MakeEntry(message: string, kind: string, timestamp: string): (e: Entry)
    ensures e.cls == "log-entry log-" + kind
    ensures e.text == "[" + timestamp + "] " + message
  {
    Entry("log-entry log-" + kind, "[" + timestamp + "] " + message)
  }

  /** The entries after appending `e`: the oldest one is dropped when that
      leaves more than `Capacity`. */
  function Appended(entries: seq<Entry>, e: Entry): (r: seq<Entry>)
    ensures |entries| < Capacity ==> r == entries + [e]
    ensures |entries| >= Capacity ==> r == entries[1..] + [e]
  {
    var all := entries + [e];
    if |all| > Capacity then all[1..] else all
  }

  /** A `log` call adds its entry at the end, keeps a full log full, never
      grows a log past `Capacity`, and keeps every other entry in order. */
  lemma {:induction false} AppendedBounded(entries: seq<Entry>, e: Entry)
    ensures |entries| <= Capacity ==> |Appended(entries, e)| <= Capacity
    ensures Appended(entries, e)[|Appended(entries, e)| - 1] == e
    ensures var r := Appended(entries, e);
            r[..|r| - 1] == entries[|entries| + 1 - |r|..]
  {
    var r := Appended(entries, e);
    if |entries| >= Capacity {
      assert r[..|r| - 1] == entries[1..];
    } else {
      assert r[..|r| - 1] == entries;
    }
  }

  /** A full log stays full: each new entry pushes out exactly the oldest. */
  lemma FullLogSlides(entries: seq<Entry>, e: Entry)
    requires |entries| == Capacity
    ensures |Appended(entries, e)| == Capacity
    ensures Appended(entries, e)[0] == entries[1]
  {
  }

  /** The entries of the log element. */
  class Logger {
    var entries: seq<Entry>

    constructor ()
      ensures entries == []
    {
      entries := [];
    }

    /** `log(message, type)`; `kind` is `None` when the type is left out. */
    method Log(message: string, kind: Option<string>, timestamp: string)
      modifies this
      ensures entries == Appended(old(entries), MakeEntry(message, kind.GetOr("info"), timestamp))
    {
      entries := entries + [MakeEntry(message, kind.GetOr("info"), timestamp)];
      if |entries| > Capacity {
        entries := entries[1..];
      }
    }

    /** `error(message)`. */
    method Error(message: string, timestamp: string)
      modifies this
      ensures entries == Appended(old(entries), MakeEntry(message, "error", timestamp))
    {
      Log(message, Some("error"), timestamp);
    }

    /** `success(message)`. */
    method Success(message: string, timestamp: string)
      modifies this
      ensures entries == Appended(old(entries), MakeEntry(message, "success", timestamp))
    {
      Log(message, Some("success"), timestamp);
    }

    /** `clear()`. */
    method Clear()
      modifies this
      ensures entries == []
    {
      entries := [];
    }
  }
}
