/**
 * What a launched compiler reports back to the callback of `compile`: the
 * chunks of its standard output and standard error are collected as they
 * arrive, and at exit the callback receives an error (none for exit code
 * 0) together with both texts.
 */
module GccStreams {
  import opened Wrappers
  import opened Sequences

  /**
   * What the launched process emits, in the order its handlers see it. An
   * exit code is absent when the process ended on a signal.
   */
  datatype Event =
    | StdoutData(chunk: string)
    | StderrData(chunk: string)
    | Exit(code: Option<int>)

  /** The error handed to the callback: its message and its `code` field. */
  datatype Failure = Failure(message: string, code: Option<int>)

  /** One call of the callback: `callback(error, stdout, stderr)`. */
  datatype Invocation = Invocation(error: Option<Failure>, stdout: string, stderr: string)

  /** The exit-code mapping: no error for code 0, else one built from the error text and the code. */
  function ExitError(code: Option<int>, stderr: string): (e: Option<Failure>)
    ensures e.None? <==> code == Some(0)
    ensures e.Some? ==> e.value.message == stderr && e.value.code == code
  {
    if code == Some(0) then None else Some(Failure(stderr, code))
  }

  /** The standard-output chunks of a run of events, joined in order. */
  function StdoutText(events: seq<Event>): string
  {
    if events == [] then ""
    else
      var last := events[|events| - 1];
      StdoutText(events[..|events| - 1]) + (if last.StdoutData? then last.chunk else "")
  }

  /** The standard-error chunks of a run of events, joined in order. */
  function StderrText(events: seq<Event>): string
  {
    if events == [] then ""
    else
      var last := events[|events| - 1];
      StderrText(events[..|events| - 1]) + (if last.StderrData? then last.chunk else "")
  }

  /** How many exit events a run holds. */
  function ExitCount(events: seq<Event>): nat
  {
    if events == [] then 0
    else ExitCount(events[..|events| - 1]) + (if events[|events| - 1].Exit? then 1 else 0)
  }

  /** The callback calls a run of events causes: one per exit, with the texts collected up to it. */
  function Invocations(events: seq<Event>): seq<Invocation>
  {
    if events == [] then []
    else
      var front := events[..|events| - 1];
      match events[|events| - 1]
      case Exit(code) =>
        Invocations(front) + [Invocation(ExitError(code, StderrText(front)), StdoutText(front), StderrText(front))]
      case _ => Invocations(front)
  }

  /** The `data` and `exit` handlers of `compile`, run over the events in order. */
  method Capture(events: seq<Event>) returns (calls: seq<Invocation>)
    ensures calls == Invocations(events)
  {
    var stdout, stderr := "", "";
    calls := [];
    for i := 0 to |events|
      invariant stdout == StdoutText(events[..i])
      invariant stderr == StderrText(events[..i])
      invariant calls == Invocations(events[..i])
    {
      assert events[..i + 1][..i] == events[..i];
      match events[i]
      case StdoutData(data) =>
        stdout := stdout + data;
      case StderrData(data) =>
        stderr := stderr + data;
      case Exit(code) =>
        var error := ExitError(code, stderr);
        calls := calls + [Invocation(error, stdout, stderr)];
    }
    assert events[..|events|] == events;
  }

  /** The collected texts of two runs of events are those of the first run, then those of the second. */
  lemma {:induction false} TextAppend(a: seq<Event>, b: seq<Event>)
    ensures StdoutText(a + b) == StdoutText(a) + StdoutText(b)
    ensures StderrText(a + b) == StderrText(a) + StderrText(b)
    decreases |b|
  {
    if b == [] {
      AppendEmpty(a);
    } else {
      var front := b[..|b| - 1];
      var last := b[|b| - 1];
      AppendFront(a, b);
      TextAppend(a, front);
      Assoc(StdoutText(a), StdoutText(front), if last.StdoutData? then last.chunk else "");
      Assoc(StderrText(a), StderrText(front), if last.StderrData? then last.chunk else "");
    }
  }

  /** The callback is called once per exit event, and never before one. */
  lemma {:induction false} InvocationsCount(events: seq<Event>)
    ensures |Invocations(events)| == ExitCount(events)
    decreases |events|
  {
    if events != [] {
      InvocationsCount(events[..|events| - 1]);
    }
  }

  /**
   * All data arrives before the one exit: the callback is called exactly
   * once, with the error the exit code maps to and every chunk of each
   * stream, in order.
   */
  lemma ExitAfterData(data: seq<Event>, code: Option<int>)
    requires ExitCount(data) == 0
    ensures Invocations(data + [Exit(code)]) ==
      [Invocation(ExitError(code, StderrText(data)), StdoutText(data), StderrText(data))]
  {
    InvocationsCount(data);
    var events := data + [Exit(code)];
    assert events[..|events| - 1] == data;
  }

  /** A chunk of standard output adds its text to standard output only, and one of standard error likewise. */
  lemma ChunkText(events: seq<Event>, chunk: string)
    ensures StdoutText(events + [StdoutData(chunk)]) == StdoutText(events) + chunk
    ensures StderrText(events + [StdoutData(chunk)]) == StderrText(events)
    ensures StdoutText(events + [StderrData(chunk)]) == StdoutText(events)
    ensures StderrText(events + [StderrData(chunk)]) == StderrText(events) + chunk
  {
    assert (events + [StdoutData(chunk)])[..|events|] == events;
    assert (events + [StderrData(chunk)])[..|events|] == events;
  }
}
