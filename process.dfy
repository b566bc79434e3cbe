/**
 * What the managers see of child processes and of the retry schedules, as
 * oracle values: the outcome of a spawn or of a short command, the output
 * chunks a running child streams, and the first successful attempt of a
 * bounded retry.
 */
module Process {
  import opened Wrappers
  import opened JsString
  import opened Qr

  /** Spawning a long-running child: it starts, or the platform rejects the spawn. */
  datatype SpawnOutcome = Spawned | SpawnRejected(message: string)

  /** Running a command to completion under a timeout. */
  datatype RunOutcome = Exited(code: int) | TimedOut | RunRejected(message: string)

  /** The output chunks that arrive before attempts 0 .. n - 1, in arrival order. */
  function Streamed(out: nat -> seq<string>, n: nat): seq<string>
  {
    if n == 0 then [] else Streamed(out, n - 1) + out(n - 1)
  }

  /** The chunks handed to the append callback: empty decoded chunks are dropped. */
  function Forwarded(chunks: seq<string>): seq<string>
  {
    if |chunks| == 0 then []
    else
      var init := chunks[..|chunks| - 1];
      var last := chunks[|chunks| - 1];
      if last == "" then Forwarded(init) else Forwarded(init) + [last]
  }

  /** The forwarded chunks are the non-empty ones: none is empty, and together they spell the same text. */
  lemma {:induction false} ForwardedChunks(chunks: seq<string>)
    ensures var r := Forwarded(chunks);
            (forall i :: 0 <= i < |r| ==> r[i] != "")
            && Concat(r) == Concat(chunks) && |r| <= |chunks|
  {
    if |chunks| > 0 {
      var init := chunks[..|chunks| - 1];
      var last := chunks[|chunks| - 1];
      ForwardedChunks(init);
      assert chunks == init + [last];
      ConcatAppend(init, [last]);
      ConcatAppend(Forwarded(init), [last]);
    }
  }

  lemma {:induction false} ForwardedAppend(a: seq<string>, b: seq<string>)
    ensures Forwarded(a + b) == Forwarded(a) + Forwarded(b)
    decreases |b|
  {
    if |b| == 0 {
      assert a + b == a;
    } else {
      var init := b[..|b| - 1];
      var last := b[|b| - 1];
      assert b == init + [last];
      assert a + b == (a + init) + [last];
      ForwardedAppend(a, init);
      ForwardedSnoc(a + init, last);
      ForwardedSnoc(init, last);
    }
  }

  /** One chunk more is forwarded unless it is empty. */
  lemma ForwardedSnoc(chunks: seq<string>, last: string)
    ensures Forwarded(chunks + [last]) == Forwarded(chunks) + (if last == "" then [] else [last])
  {
    var whole := chunks + [last];
    assert whole[..|whole| - 1] == chunks;
  }

  /**
   * The streaming callback applied to each chunk in turn: a non-empty chunk is
   * forwarded to the append callback and added to a rolling buffer capped at
   * `max` characters. The buffer ends as the last `max` characters of
   * everything seen.
   */
  method Pump(chunks: seq<string>, buffer: string, max: nat) returns (next: string, forwarded: seq<string>)
    requires |buffer| <= max
    ensures next == Trim(buffer + Concat(chunks), max)
    ensures |next| <= max
    ensures forwarded == Forwarded(chunks)
  {
    next := buffer;
    forwarded := [];
    var i := 0;
    while i < |chunks|
      invariant i <= |chunks|
      invariant next == Trim(buffer + Concat(chunks[..i]), max)
      invariant forwarded == Forwarded(chunks[..i])
    {
      var text := chunks[i];
      PumpStep(buffer, chunks, i, max);
      if text != "" {
        forwarded := forwarded + [text];
      }
      next := Trim(next + text, max);
      i := i + 1;
    }
    assert chunks[..i] == chunks;
  }

  /** One chunk further on, the buffer and the forwarded chunks grow as `Pump` grows them. */
  lemma PumpStep(buffer: string, chunks: seq<string>, i: nat, max: nat)
    requires i < |chunks|
    ensures Trim(Trim(buffer + Concat(chunks[..i]), max) + chunks[i], max) == Trim(buffer + Concat(chunks[..i + 1]), max)
    ensures Forwarded(chunks[..i + 1]) == Forwarded(chunks[..i]) + (if chunks[i] == "" then [] else [chunks[i]])
  {
    var prefix := chunks[..i + 1];
    assert prefix[..i] == chunks[..i];
    assert prefix[i] == chunks[i];
    PrefixConcat(prefix, i);
    var before := buffer + Concat(chunks[..i]);
    assert buffer + Concat(prefix) == before + chunks[i];
    TrimAppend(before, chunks[i], max);
  }

  /** The text of a non-empty sequence of chunks is that of all but the last, then the last. */
  lemma PrefixConcat(prefix: seq<string>, i: nat)
    requires |prefix| == i + 1
    ensures Concat(prefix) == Concat(prefix[..i]) + prefix[i]
    ensures Forwarded(prefix) == Forwarded(prefix[..i]) + (if prefix[i] == "" then [] else [prefix[i]])
  {
  }

  /** One more attempt's chunks extend the stream. */
  lemma StreamedStep(out: nat -> seq<string>, n: nat)
    ensures Streamed(out, n + 1) == Streamed(out, n) + out(n)
    ensures Concat(Streamed(out, n + 1)) == Concat(Streamed(out, n)) + Concat(out(n))
    ensures Forwarded(Streamed(out, n + 1)) == Forwarded(Streamed(out, n)) + Forwarded(out(n))
  {
    ConcatAppend(Streamed(out, n), out(n));
    ForwardedAppend(Streamed(out, n), out(n));
  }

  /**
   * A retry schedule of `attempts` tries in all (the first try plus the
   * recurrences) stops at the first successful attempt: its index, or none.
   */
  function FirstSuccess(ok: nat -> bool, attempts: nat): (r: Option<nat>)
    ensures r.Some? ==> r.value < attempts && ok(r.value)
    ensures r.Some? ==> forall j: nat :: j < r.value ==> !ok(j)
    ensures r.None? ==> forall j: nat :: j < attempts ==> !ok(j)
  {
    if attempts == 0 then None
    else
      var earlier := FirstSuccess(ok, attempts - 1);
      if earlier.Some? then earlier
      else if ok(attempts - 1) then Some(attempts - 1) else None
  }

  /** An attempt that succeeds after failures only is the first success. */
  lemma FirstSuccessIs(ok: nat -> bool, attempts: nat, k: nat)
    requires k < attempts && ok(k)
    requires forall j: nat :: j < k ==> !ok(j)
    ensures FirstSuccess(ok, attempts) == Some(k)
    ensures AttemptsMade(ok, attempts) == k + 1
  {
  }

  /** A schedule whose every attempt fails makes all of them. */
  lemma NoSuccess(ok: nat -> bool, attempts: nat)
    requires forall j: nat :: j < attempts ==> !ok(j)
    ensures FirstSuccess(ok, attempts) == None
    ensures AttemptsMade(ok, attempts) == attempts
  {
  }

  /** The rolling buffer of everything streamed, one attempt further on. */
  lemma StreamedBufferStep(out: nat -> seq<string>, n: nat, max: nat)
    ensures Trim(Trim(Concat(Streamed(out, n)), max) + Concat(out(n)), max) == Trim(Concat(Streamed(out, n + 1)), max)
  {
    StreamedStep(out, n);
    TrimAppend(Concat(Streamed(out, n)), Concat(out(n)), max);
  }

  /** How many attempts the schedule makes. */
  function AttemptsMade(ok: nat -> bool, attempts: nat): (n: nat)
    ensures n <= attempts
    ensures attempts > 0 ==> n >= 1
  {
    var first := FirstSuccess(ok, attempts);
    if first.Some? then first.value + 1 else attempts
  }

  /**
   * `Effect.retryOrElse` under a schedule that allows `attempts - 1`
   * recurrences: try, and try again while the attempt fails and the budget
   * lasts. Returns the index of the successful attempt, if any.
   */
  method Retry(ok: nat -> bool, attempts: nat) returns (first: Option<nat>)
    ensures first == FirstSuccess(ok, attempts)
  {
    first := None;
    var k := 0;
    while k < attempts && first.None?
      invariant k <= attempts
      invariant first.Some? ==> k >= 1 && first == Some(k - 1) && ok(k - 1)
      invariant forall j: nat :: j < k && (first.None? || j < k - 1) ==> !ok(j)
    {
      if ok(k) {
        first := Some(k);
      }
      k := k + 1;
    }
    if first.Some? {
      FirstSuccessIs(ok, attempts, first.value);
    } else {
      NoSuccess(ok, attempts);
    }
  }

  /** The chunks that arrive before attempt `n`'s verdict, pumped into the buffer and the echo. */
  method PumpAttempt(out: nat -> seq<string>, n: nat, buffer: string, forwarded: seq<string>, max: nat)
    returns (buffer': string, forwarded': seq<string>)
    requires buffer == Trim(Concat(Streamed(out, n)), max)
    requires forwarded == Forwarded(Streamed(out, n))
    ensures buffer' == Trim(Concat(Streamed(out, n + 1)), max)
    ensures forwarded' == Forwarded(Streamed(out, n + 1))
  {
    var fw;
    buffer', fw := Pump(out(n), buffer, max);
    StreamedStep(out, n);
    StreamedBufferStep(out, n, max);
    forwarded' := forwarded + fw;
  }

  /**
   * The forked streaming fiber as seen when a wait of `n` attempts ends: every
   * chunk that arrived before those attempts has been forwarded, and the
   * rolling buffer holds the last `max` characters of them.
   */
  method PumpStream(out: nat -> seq<string>, n: nat, max: nat) returns (buffer: string, forwarded: seq<string>)
    ensures buffer == Trim(Concat(Streamed(out, n)), max)
    ensures |buffer| <= max
    ensures forwarded == Forwarded(Streamed(out, n))
  {
    buffer := "";
    forwarded := [];
    var k := 0;
    while k < n
      invariant k <= n
      invariant buffer == Trim(Concat(Streamed(out, k)), max)
      invariant forwarded == Forwarded(Streamed(out, k))
    {
      buffer, forwarded := PumpAttempt(out, k, buffer, forwarded, max);
      k := k + 1;
    }
  }
}
