/** Event logs as both hosts serve them: entries with sequence numbers, and the filter `seq > k`. */
module EventLog {
  import opened RunTypes

  /** A stored event with its `seq` field. */
  datatype Entry = Entry(at: nat, event: Event)

  /** Every event with its position as `seq`. */
  function Numbered(es: seq<Event>): (log: seq<Entry>)
    ensures |log| == |es| && forall i :: 0 <= i < |es| ==> log[i] == Entry(i, es[i])
  {
    seq(|es|, i requires 0 <= i < |es| => Entry(i, es[i]))
  }

  lemma NumberedSnoc(es: seq<Event>, e: Event)
    ensures Numbered(es + [e]) == Numbered(es) + [Entry(|es|, e)]
  {
  }

  /** The entries whose `seq` exceeds `k`. */
  function After(log: seq<Entry>, k: int): seq<Entry> {
    if log == [] then []
    else (if log[0].at > k then [log[0]] else []) + After(log[1..], k)
  }

  /** The first replayed position: after `k`, but never past the end of the log. */
  function StartAt(log: seq<Entry>, k: int): (start: nat)
    ensures start <= |log|
  {
    if k < 0 then 0 else if k < |log| then k + 1 else |log|
  }

  /** Entries numbered from `base` on. */
  predicate NumberedFrom(log: seq<Entry>, base: nat) { forall i :: 0 <= i < |log| ==> log[i].at == base + i }

  /** The filter by `seq` is a suffix. */
  lemma {:induction false} AfterIsSuffix(log: seq<Entry>, base: nat, k: int)
    requires NumberedFrom(log, base)
    ensures After(log, k) == log[StartAt(log, k - base)..]
  {
    if log != [] {
      assert NumberedFrom(log[1..], base + 1) by {
        forall i | 0 <= i < |log| - 1 ensures log[1..][i].at == base + 1 + i {
          assert log[1..][i] == log[i + 1];
        }
      }
      AfterIsSuffix(log[1..], base + 1, k);
      assert log[0].at == base;
      if log[0].at > k {
        assert log == [log[0]] + log[1..];
      } else {
        assert log[1..][StartAt(log[1..], k - base - 1)..] == log[StartAt(log, k - base)..];
      }
    }
  }

  /** One round of a filter loop. */
  lemma AfterSplits(log: seq<Entry>, n: nat, k: int)
    requires n < |log|
    ensures After(log[n..], k) == (if log[n].at > k then [log[n]] else []) + After(log[n + 1..], k)
  {
    assert log[n..][1..] == log[n + 1..];
  }

  lemma AfterNothing(log: seq<Entry>, k: int)
    ensures After(log[|log|..], k) == []
  {
  }

  /** The next `since`: the last returned number, or the old cursor if nothing is new. */
  function LastSeq(found: seq<Entry>, since: int): int {
    if found == [] then since else found[|found| - 1].at
  }
}
