/**
  The append-only provenance log that every stream lives in.

  Each stored record's digest covers its sequence number, its contents and the digest of the
  record before it. With an injective hash such a digest stands for the whole history up to
  that record, which is what `LogDigest` says. The kinds of scopes and records are parameters: the
  streams of external actions and those of the case ledger live in logs of this form.
 */
module ProvenanceLog {
  import opened Prelude

  datatype LogEntry<S, R> = Entry(scope: S, record: R)

  type Log<S, R> = seq<LogEntry<S, R>>

  datatype LogDigest<S, R> = Genesis | Link(sequence: nat, entry: LogEntry<S, R>, previous: LogDigest<S, R>)

  /** The digest of the last record of a log: the hash chain over all of it. */
  function HistoryDigest<S, R>(log: Log<S, R>): LogDigest<S, R> {
    if log == [] then Genesis
    else Link(|log| - 1, log[|log| - 1], HistoryDigest(log[..|log| - 1]))
  }

  /** The records of one stream, in order. */
  function Stream<S(==), R>(log: Log<S, R>, scope: S): seq<R> {
    if log == [] then []
    else
      var last := log[|log| - 1];
      Stream(log[..|log| - 1], scope) + (if last.scope == scope then [last.record] else [])
  }

  /** The digest of the newest record of one stream. */
  function HeadOf<S(==), R>(log: Log<S, R>, scope: S): LogDigest<S, R> {
    if log == [] then Genesis
    else if log[|log| - 1].scope == scope then HistoryDigest(log)
    else HeadOf(log[..|log| - 1], scope)
  }

  /** Compare-and-append: the entry lands exactly when the stream's head is the expected one. */
  function CompareAndAppend<S(==), R(==)>(log: Log<S, R>, entry: LogEntry<S, R>, expected: LogDigest<S, R>): Option<Log<S, R>> {
    if HeadOf(log, entry.scope) == expected then Some(log + [entry]) else None
  }

  /** How many records of the log the digest covers. */
  function Height<S, R>(head: LogDigest<S, R>): nat {
    if head.Genesis? then 0 else head.sequence + 1
  }

  lemma StreamSnoc<S, R>(log: Log<S, R>, entry: LogEntry<S, R>, scope: S)
    ensures Stream(log + [entry], scope) == Stream(log, scope) + (if entry.scope == scope then [entry.record] else [])
  {
    assert (log + [entry])[..|log|] == log;
  }

  lemma {:induction false} StreamConcat<S, R>(log: Log<S, R>, more: Log<S, R>, scope: S)
    ensures Stream(log + more, scope) == Stream(log, scope) + Stream(more, scope)
    decreases |more|
  {
    if more == [] {
      assert log + more == log;
    } else {
      var front := more[..|more| - 1];
      StreamConcat(log, front, scope);
      assert (log + more)[..|log + more| - 1] == log + front;
    }
  }

  lemma StreamPrefix<S, R>(log: Log<S, R>, m: nat, scope: S)
    requires m <= |log|
    ensures Stream(log[..m], scope) <= Stream(log, scope)
  {
    assert log == log[..m] + log[m..];
    StreamConcat(log[..m], log[m..], scope);
  }

  /** A stream's head covers exactly the log up to the stream's newest record. */
  lemma {:induction false} HeadCovers<S, R>(log: Log<S, R>, scope: S)
    ensures var h := Height(HeadOf(log, scope));
            h <= |log| && HeadOf(log[..h], scope) == HeadOf(log, scope) && Stream(log[..h], scope) == Stream(log, scope)
    decreases |log|
  {
    if log == [] || log[|log| - 1].scope == scope {
      assert log[..|log|] == log;
    } else {
      var front := log[..|log| - 1];
      HeadCovers(front, scope);
      var h := Height(HeadOf(front, scope));
      assert front[..h] == log[..h];
    }
  }

  /** The fact behind every expected-head check: an unchanged head means an unchanged stream,
      whatever else was appended to the log in between. */
  lemma HeadPinsStream<S, R>(log: Log<S, R>, m: nat, scope: S)
    requires m <= |log| && HeadOf(log, scope) == HeadOf(log[..m], scope)
    ensures Stream(log, scope) == Stream(log[..m], scope)
  {
    HeadCovers(log, scope);
    HeadCovers(log[..m], scope);
    var h := Height(HeadOf(log, scope));
    assert log[..m][..h] == log[..h];
  }

  /** Conversely, a head moves only when the stream does, so an append that finds its stream
      unchanged always lands. */
  lemma {:induction false} StreamPinsHead<S, R>(log: Log<S, R>, m: nat, scope: S)
    requires m <= |log| && Stream(log, scope) == Stream(log[..m], scope)
    ensures HeadOf(log, scope) == HeadOf(log[..m], scope)
    decreases |log|
  {
    if m == |log| {
      assert log[..m] == log;
    } else {
      var front := log[..|log| - 1];
      assert front[..m] == log[..m];
      StreamPrefix(front, m, scope);
      StreamPinsHead(front, m, scope);
    }
  }

  /** One record digest pins the whole history it was computed over. */
  lemma {:induction false} DigestPinsHistory<S, R>(a: Log<S, R>, b: Log<S, R>)
    requires HistoryDigest(a) == HistoryDigest(b)
    ensures a == b
    decreases |a|
  {
    if a != [] {
      DigestPinsHistory(a[..|a| - 1], b[..|b| - 1]);
      assert a == a[..|a| - 1] + [a[|a| - 1]];
      assert b == b[..|b| - 1] + [b[|b| - 1]];
    }
  }

  /** An append to one stream leaves every other stream's records and head as they were. */
  lemma AppendIsolation<S, R>(log: Log<S, R>, entry: LogEntry<S, R>, other: S)
    requires entry.scope != other
    ensures Stream(log + [entry], other) == Stream(log, other)
    ensures HeadOf(log + [entry], other) == HeadOf(log, other)
  {
    StreamSnoc(log, entry, other);
    assert (log + [entry])[..|log|] == log;
  }
}
