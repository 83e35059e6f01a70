/** The event scheduler (src/tui/ui.rs): translation of terminal input into events, the two
    producer loops over an abstract schedule, and the task lifecycle (`start`, `stop`,
    `abort_task`). The runtime, the channel and the clock are not modelled: the outcome of
    each `select!`, each `is_finished` check and each send is an input. */
module Tui {
  import opened Wrappers
  import opened SysData
  import opened Collector

  // ---------------------------------------------------------------------------
  // Events

  datatype KeyEventKind = Press | Repeat | Release

  /** crossterm's `KeyEvent`: the key code, modifiers and state are opaque here. */
  datatype KeyEvent = KeyEvent(code: nat, modifiers: nat, kind: KeyEventKind, state: nat)

  /** crossterm's `MouseEvent`: the kind and modifiers are opaque here. */
  datatype MouseEvent = MouseEvent(kind: nat, column: u16, row: u16, modifiers: nat)

  /** crossterm's `Event` as read from the terminal. */
  datatype CrosstermEvent =
    | RawFocusGained | RawFocusLost | RawKey(key: KeyEvent) | RawMouse(mouse: MouseEvent)
    | RawPaste(text: string) | RawResize(columns: u16, rows: u16)

  /** `Event`. */
  datatype Event =
    | Init | Quit | Error | Closed | Tick | Render | FocusGained | FocusLost
    | Paste(text: string) | Key(key: KeyEvent) | Mouse(mouse: MouseEvent)
    | Resize(columns: u16, rows: u16) | DataUpdate(data: DataCollected)

  /** The match on `reader.next()`: a decoded terminal event becomes the matching `Event`
      (a key only when pressed), a read error becomes `Error`, end of stream sends nothing. */
  function TranslateInput(maybeEvent: Option<Result<CrosstermEvent, Report>>): (e: Option<Event>)
    ensures maybeEvent.None? ==> e.None?
    ensures maybeEvent.Some? && maybeEvent.value.Err? ==> e == Some(Error)
    ensures forall k :: maybeEvent == Some(Ok(RawKey(k))) ==> (e.Some? <==> k.kind == Press)
  {
    match maybeEvent
    case Some(Ok(evt)) =>
      (match evt
       case RawKey(key) => if key.kind == Press then Some(Key(key)) else None
       case RawMouse(mouse) => Some(Mouse(mouse))
       case RawResize(x, y) => Some(Resize(x, y))
       case RawFocusLost => Some(FocusLost)
       case RawFocusGained => Some(FocusGained)
       case RawPaste(s) => Some(Paste(s)))
    case Some(Err(_)) => Some(Error)
    case None => None
  }

  /** The terminal event that an input event stands for, if it is one. */
  function RawOf(e: Event): Option<CrosstermEvent> {
    match e
    case Key(k) => if k.kind == Press then Some(RawKey(k)) else None
    case Mouse(m) => Some(RawMouse(m))
    case Resize(x, y) => Some(RawResize(x, y))
    case FocusLost => Some(RawFocusLost)
    case FocusGained => Some(RawFocusGained)
    case Paste(s) => Some(RawPaste(s))
    case _ => None
  }

  /** Translation is one-to-one with the payload kept: every event it produces maps back to
      the terminal event it came from, and every input event is produced by its own
      terminal event. */
  lemma TranslateRoundTrip(c: CrosstermEvent, e: Event)
    ensures TranslateInput(Some(Ok(c))).Some? ==> RawOf(TranslateInput(Some(Ok(c))).value) == Some(c)
    ensures RawOf(e).Some? ==> TranslateInput(Some(Ok(RawOf(e).value))) == Some(e)
  {
  }

  // ---------------------------------------------------------------------------
  // The input loop

  /** Which branch of the input loop's `select!` fired in one iteration. */
  datatype Wakeup =
    | CancelRequested
    | InputReady(maybeEvent: Option<Result<CrosstermEvent, Report>>)
    | TickElapsed
    | RenderElapsed

  /** What one iteration that was not cancelled sends. */
  function WakeupEvents(w: Wakeup): seq<Event>
    requires !w.CancelRequested?
  {
    match w
    case InputReady(m) => (var t := TranslateInput(m); if t.Some? then [t.value] else [])
    case TickElapsed => [Tick]
    case RenderElapsed => [Render]
  }

  predicate NoCancel(ws: seq<Wakeup>) {
    forall i :: 0 <= i < |ws| ==> !ws[i].CancelRequested?
  }

  /** The events the input loop sends after `Init` for a schedule of wake-ups, up to the
      first cancellation. */
  function LoopEvents(ws: seq<Wakeup>): seq<Event>
    decreases |ws|
  {
    if ws == [] || ws[0].CancelRequested? then [] else WakeupEvents(ws[0]) + LoopEvents(ws[1..])
  }

  /** Events of one producer keep the order in which they were generated. */
  lemma {:induction false} LoopEventsAppend(a: seq<Wakeup>, b: seq<Wakeup>)
    requires NoCancel(a)
    ensures LoopEvents(a + b) == LoopEvents(a) + LoopEvents(b)
    decreases |a|
  {
    if a == [] {
      assert a + b == b;
    } else {
      assert (a + b)[1..] == a[1..] + b;
      LoopEventsAppend(a[1..], b);
    }
  }

  /** Nothing is sent after the cancellation branch fires. */
  lemma CancelEndsLoop(a: seq<Wakeup>, b: seq<Wakeup>)
    requires NoCancel(a)
    ensures LoopEvents(a + [CancelRequested] + b) == LoopEvents(a)
  {
    LoopEventsAppend(a, [CancelRequested] + b);
    assert a + [CancelRequested] + b == a + ([CancelRequested] + b);
  }

  /** A tick that fires before a render with no input in between is received first. */
  lemma TickBeforeRender(a: seq<Wakeup>, b: seq<Wakeup>)
    requires NoCancel(a)
    ensures LoopEvents(a + [TickElapsed, RenderElapsed] + b) == LoopEvents(a) + [Tick, Render] + LoopEvents(b)
  {
    var tr := [TickElapsed, RenderElapsed];
    TickRenderEvents();
    LoopEventsAppend(tr, b);
    LoopEventsAppend(a, tr + b);
    assert a + tr + b == a + (tr + b);
  }

  lemma TickRenderEvents()
    ensures LoopEvents([TickElapsed, RenderElapsed]) == [Tick, Render]
  {
    var tr := [TickElapsed, RenderElapsed];
    assert tr[1..] == [RenderElapsed] && tr[1..][1..] == [];
    assert LoopEvents([RenderElapsed]) == [Render] by {
      assert LoopEvents([RenderElapsed]) == WakeupEvents(RenderElapsed) + LoopEvents([]);
    }
    assert LoopEvents(tr) == WakeupEvents(TickElapsed) + LoopEvents([RenderElapsed]);
  }

  lemma LoopEventsStep(ws: seq<Wakeup>, i: nat)
    requires i < |ws|
    ensures ws[i].CancelRequested? ==> LoopEvents(ws[i..]) == []
    ensures !ws[i].CancelRequested? ==> LoopEvents(ws[i..]) == WakeupEvents(ws[i]) + LoopEvents(ws[i + 1..])
  {
    assert ws[i..][1..] == ws[i + 1..];
  }

  /** The body of the task spawned by `spawn_input_event_loop_task`: send `Init`, then one
      branch per iteration until cancelled. */
  method InputEventLoop(schedule: seq<Wakeup>) returns (sent: seq<Event>)
    ensures sent == [Init] + LoopEvents(schedule)
  {
    sent := [Init];
    var i := 0;
    while i < |schedule|
      invariant 0 <= i <= |schedule|
      invariant sent + LoopEvents(schedule[i..]) == [Init] + LoopEvents(schedule)
    {
      LoopEventsStep(schedule, i);
      if schedule[i].CancelRequested? {
        break;
      }
      sent := sent + WakeupEvents(schedule[i]);
      i := i + 1;
    }
  }

  // ---------------------------------------------------------------------------
  // The data-collection loop

  /** What the loop observes in one iteration: whether cancellation was requested at its
      check, and whether the consumer was still there to receive the event. */
  datatype Cycle = Cycle(cancelled: bool, channelOpen: bool)

  /** The provider state after `n` refreshes. */
  function RefreshedTimes(sys: SysinfoSource, n: nat): SysinfoSource
    decreases n
  {
    if n == 0 then sys else Refreshed(RefreshedTimes(sys, n - 1))
  }

  /** The events the data-collection loop delivers, and the number of collections it does:
      stop before collecting when cancelled, stop after collecting when the send fails. */
  function CollectionEvents(ex: Extractors, sys: SysinfoSource, cycles: seq<Cycle>): seq<Event>
    decreases |cycles|
  {
    if cycles == [] || cycles[0].cancelled || !cycles[0].channelOpen then []
    else [DataUpdate(Collect(ex, Refreshed(sys)))] + CollectionEvents(ex, Refreshed(sys), cycles[1..])
  }

  function CollectionCount(cycles: seq<Cycle>): nat
    decreases |cycles|
  {
    if cycles == [] || cycles[0].cancelled then 0
    else if !cycles[0].channelOpen then 1
    else 1 + CollectionCount(cycles[1..])
  }

  /** The k-th delivered snapshot is assembled from the provider after exactly k + 1
      refreshes and from nothing else: no value of an earlier cycle carries over. At most
      one event per cycle is delivered. */
  lemma {:induction false} CollectionEventsAt(ex: Extractors, sys: SysinfoSource, cycles: seq<Cycle>, k: nat)
    requires k < |CollectionEvents(ex, sys, cycles)|
    ensures CollectionEvents(ex, sys, cycles)[k] == DataUpdate(Collect(ex, RefreshedTimes(sys, k + 1)))
    decreases k
  {
    if k > 0 {
      CollectionEventsAt(ex, Refreshed(sys), cycles[1..], k - 1);
      RefreshedShift(sys, k);
    }
  }

  lemma {:induction false} RefreshedShift(sys: SysinfoSource, n: nat)
    ensures RefreshedTimes(Refreshed(sys), n) == RefreshedTimes(sys, n + 1)
    decreases n
  {
    if n > 0 {
      RefreshedShift(sys, n - 1);
    }
  }

  /** `n` refreshes from `sys`: every part but the network list refreshed `n` more times. */
  lemma {:induction false} RefreshedTimesClosedForm(sys: SysinfoSource, n: nat)
    ensures RefreshedTimes(sys, n)
      == SysinfoSource(sys.networkRefreshes + n, sys.networkListRefreshes, sys.cpuRefreshes + n,
                       sys.processRefreshes + n, sys.diskListRefreshes + n, sys.diskRefreshes + n)
    decreases n
  {
    if n > 0 {
      RefreshedTimesClosedForm(sys, n - 1);
    }
  }

  lemma {:induction false} CollectionEventsBound(ex: Extractors, sys: SysinfoSource, cycles: seq<Cycle>)
    ensures |CollectionEvents(ex, sys, cycles)| <= CollectionCount(cycles) <= |cycles|
    decreases |cycles|
  {
    if cycles != [] && !cycles[0].cancelled && cycles[0].channelOpen {
      CollectionEventsBound(ex, Refreshed(sys), cycles[1..]);
    }
  }

  /** The body of the task spawned by `spawn_data_collection_task`: per iteration, check
      for cancellation, collect, build the event, reset the accumulator, send (stopping when
      the send fails), and sleep (not modelled). Returns what was delivered and the final
      state of the collector. */
  method DataCollectionLoop(ex: Extractors, cycles: seq<Cycle>)
    returns (sent: seq<Event>, finalData: DataCollected, finalSys: SysinfoSource)
    ensures sent == CollectionEvents(ex, DefaultSource(), cycles)
    ensures finalData == DefaultCollected()
    ensures finalSys == RefreshedTimes(DefaultSource(), CollectionCount(cycles))
  {
    var dataState := new DataCollector();
    sent := [];
    var i := 0;
    while i < |cycles|
      invariant 0 <= i <= |cycles|
      invariant fresh(dataState)
      invariant dataState.data == DefaultCollected()
      invariant sent + CollectionEvents(ex, dataState.sys, cycles[i..]) == CollectionEvents(ex, DefaultSource(), cycles)
      invariant CollectionCount(cycles[i..]) <= CollectionCount(cycles)
      invariant dataState.sys == RefreshedTimes(DefaultSource(), CollectionCount(cycles) - CollectionCount(cycles[i..]))
    {
      assert cycles[i..][1..] == cycles[i + 1..];
      if cycles[i].cancelled {
        break;
      }

      dataState.UpdateData(ex);
      var event := DataUpdate(dataState.data);

      dataState.data := DefaultCollected();
      if !cycles[i].channelOpen {
        break;
      }
      sent := sent + [event];
      i := i + 1;
    }
    finalData := dataState.data;
    finalSys := dataState.sys;
  }

  /** Where `DataCollectionLoop` leaves the provider after `n` collections: every part
      refreshed `n` times, except the disk list, refreshed once more at construction, and
      the network list, refreshed only at construction. */
  lemma CollectionRefreshCounts(cycles: seq<Cycle>)
    ensures var n := CollectionCount(cycles);
      RefreshedTimes(DefaultSource(), n) == SysinfoSource(n, 1, n, n, n + 1, n)
  {
    RefreshedTimesClosedForm(DefaultSource(), CollectionCount(cycles));
  }

  // ---------------------------------------------------------------------------
  // Task shutdown

  /** `SLEEP_INTERVAL` (ms) and `MAX_RETRIES`. */
  const SLEEP_INTERVAL_MS: nat := 1
  const MAX_RETRIES: nat := 10

  /** The error `abort_task` reports: the bound it waited, in milliseconds. */
  datatype AbortError = Timeout(milliseconds: nat)

  /** The first of the `maxRetries` checks that saw the task finished, or `maxRetries`. */
  function FirstFinished(finished: seq<bool>, maxRetries: nat, from: nat): (k: nat)
    requires maxRetries <= |finished| && from <= maxRetries
    ensures from <= k <= maxRetries
    ensures forall i :: from <= i < k ==> !finished[i]
    ensures k < maxRetries ==> finished[k]
    decreases maxRetries - from
  {
    if from == maxRetries then maxRetries
    else if finished[from] then from
    else FirstFinished(finished, maxRetries, from + 1)
  }

  /** The outcome `abort_task` reports for a sequence of `is_finished` answers. */
  function AbortOutcome(finished: seq<bool>, maxRetries: nat): Result<(), AbortError>
    requires maxRetries <= |finished|
  {
    if FirstFinished(finished, maxRetries, 0) < maxRetries then Ok(())
    else Err(Timeout(maxRetries * SLEEP_INTERVAL_MS))
  }

  /** The attempts at which `abort_task` calls `abort()`. */
  function AbortAttempts(finished: seq<bool>, maxRetries: nat): seq<nat>
    requires maxRetries <= |finished|
  {
    if maxRetries / 2 < FirstFinished(finished, maxRetries, 0) then [maxRetries / 2] else []
  }

  /** With the shipped constants the error names 10 milliseconds. */
  lemma TimeoutBound(finished: seq<bool>)
    requires MAX_RETRIES <= |finished|
    ensures AbortOutcome(finished, MAX_RETRIES).Err? ==> AbortOutcome(finished, MAX_RETRIES).error == Timeout(10)
  {
  }

  class CancellationToken {
    var cancelled: bool

    constructor ()
      ensures !cancelled
    {
      cancelled := false;
    }

    /** `cancel`: idempotent. */
    method Cancel()
      modifies this
      ensures cancelled
    {
      cancelled := true;
    }
  }

  datatype TaskKind = Placeholder | InputLoopTask | DataCollectionTask

  /** A `JoinHandle`: which task it owns, the token that task observes, and how often
      `abort()` was called on it. */
  class TaskHandle {
    const kind: TaskKind
    const token: CancellationToken?
    var abortCalls: nat

    constructor (kind: TaskKind, token: CancellationToken?)
      ensures this.kind == kind && this.token == token && abortCalls == 0
    {
      this.kind := kind;
      this.token := token;
      abortCalls := 0;
    }

    method Abort()
      modifies this
      ensures abortCalls == old(abortCalls) + 1
    {
      abortCalls := abortCalls + 1;
    }
  }

  /** The lifecycle steps of the scheduler, in the order they happen. */
  datatype LifecycleStep =
    | CancelToken(token: CancellationToken)
    | InstallToken(token: CancellationToken)
    | Spawn(kind: TaskKind)
    | Wait(kind: TaskKind, outcome: Result<(), AbortError>)

  /** `abort_task`: up to `maxRetries` checks; return as soon as a check sees the task
      finished; call `abort()` once, on attempt `maxRetries / 2`, if still running; sleep
      between checks; fail with the waited bound when no check saw it finished. */
  method AbortTask(task: TaskHandle, finished: seq<bool>, maxRetries: nat)
    returns (r: Result<(), AbortError>, aborts: seq<nat>, sleeps: nat)
    requires maxRetries <= |finished|
    modifies task
    ensures r == AbortOutcome(finished, maxRetries)
    ensures r.Ok? <==> exists i :: 0 <= i < maxRetries && finished[i]
    ensures r.Err? ==> r.error == Timeout(maxRetries * SLEEP_INTERVAL_MS)
    ensures aborts == AbortAttempts(finished, maxRetries) && |aborts| <= 1
    ensures task.abortCalls == old(task.abortCalls) + |aborts|
    ensures sleeps == FirstFinished(finished, maxRetries, 0)
    ensures 0 < maxRetries && finished[0] ==> r.Ok? && aborts == [] && sleeps == 0
  {
    ghost var first := FirstFinished(finished, maxRetries, 0);
    aborts, sleeps := [], 0;
    for attempt := 0 to maxRetries
      invariant attempt <= first
      invariant sleeps == attempt
      invariant aborts == if maxRetries / 2 < attempt then [maxRetries / 2] else []
      invariant task.abortCalls == old(task.abortCalls) + |aborts|
    {
      if finished[attempt] {
        return Ok(()), aborts, sleeps;
      }

      if attempt == maxRetries / 2 {
        task.Abort();
        aborts := aborts + [attempt];
      }

      // std::thread::sleep(SLEEP_INTERVAL)
      sleeps := sleeps + 1;
    }

    return Err(Timeout(maxRetries * SLEEP_INTERVAL_MS)), aborts, sleeps;
  }

  /** `Tui`, without the terminal, the channel and the timing configuration. */
  class Tui {
    var cancellationToken: CancellationToken
    var task: TaskHandle
    var dataCollectionTask: TaskHandle
    ghost var trace: seq<LifecycleStep>

    /** `Tui::new`: a fresh, uncancelled token and two placeholder tasks. */
    constructor ()
      ensures fresh(cancellationToken) && !cancellationToken.cancelled
      ensures fresh(task) && fresh(dataCollectionTask)
      ensures task.kind == Placeholder && dataCollectionTask.kind == Placeholder
      ensures task != dataCollectionTask
      ensures trace == []
    {
      cancellationToken := new CancellationToken();
      task := new TaskHandle(Placeholder, null);
      dataCollectionTask := new TaskHandle(Placeholder, null);
      trace := [];
    }

    /** `cancel`. */
    method Cancel()
      modifies cancellationToken, this`trace
      ensures cancellationToken.cancelled
      ensures trace == old(trace) + [CancelToken(cancellationToken)]
    {
      cancellationToken.Cancel();
      trace := trace + [CancelToken(cancellationToken)];
    }

    /** `start`: cancel the current token, install a fresh one, then spawn the data
        collection task and the input task, both observing the new token. */
    method Start()
      modifies this, cancellationToken
      ensures old(cancellationToken).cancelled
      ensures fresh(cancellationToken) && !cancellationToken.cancelled
      ensures fresh(task) && fresh(dataCollectionTask) && task != dataCollectionTask
      ensures task.kind == InputLoopTask && dataCollectionTask.kind == DataCollectionTask
      ensures task.token == cancellationToken && dataCollectionTask.token == cancellationToken
      ensures trace == old(trace) + [CancelToken(old(cancellationToken)), InstallToken(cancellationToken),
                                     Spawn(DataCollectionTask), Spawn(InputLoopTask)]
    {
      Cancel();
      cancellationToken := new CancellationToken();
      trace := trace + [InstallToken(cancellationToken)];

      dataCollectionTask := new TaskHandle(DataCollectionTask, cancellationToken);
      trace := trace + [Spawn(DataCollectionTask)];

      task := new TaskHandle(InputLoopTask, cancellationToken);
      trace := trace + [Spawn(InputLoopTask)];
    }

    /** `stop`: cancel, then wait for the input task, then for the data task; a failed first
        wait returns at once and the second is never attempted, so the data task is then not
        aborted. `sleeps` counts the sleeps of both waits. The two handles are distinct
        owned `JoinHandle`s. */
    method Stop(inputFinished: seq<bool>, dataFinished: seq<bool>) returns (r: Result<(), AbortError>, sleeps: nat)
      requires MAX_RETRIES <= |inputFinished| && MAX_RETRIES <= |dataFinished|
      requires task != dataCollectionTask
      modifies cancellationToken, task, dataCollectionTask, this`trace
      ensures cancellationToken.cancelled
      ensures task.abortCalls == old(task.abortCalls) + |AbortAttempts(inputFinished, MAX_RETRIES)|
      ensures AbortOutcome(inputFinished, MAX_RETRIES).Err? ==>
        dataCollectionTask.abortCalls == old(dataCollectionTask.abortCalls)
      ensures AbortOutcome(inputFinished, MAX_RETRIES).Ok? ==>
        dataCollectionTask.abortCalls == old(dataCollectionTask.abortCalls) + |AbortAttempts(dataFinished, MAX_RETRIES)|
      ensures sleeps == FirstFinished(inputFinished, MAX_RETRIES, 0)
        + (if AbortOutcome(inputFinished, MAX_RETRIES).Ok? then FirstFinished(dataFinished, MAX_RETRIES, 0) else 0)
      ensures inputFinished[0] && dataFinished[0] ==> r == Ok(()) && sleeps == 0
      ensures var first := AbortOutcome(inputFinished, MAX_RETRIES);
              var second := AbortOutcome(dataFinished, MAX_RETRIES);
        && (first.Err? ==>
              (r == first &&
               trace == old(trace) + [CancelToken(cancellationToken), Wait(task.kind, first)]))
        && (first.Ok? ==>
              (r == second &&
               trace == old(trace) + [CancelToken(cancellationToken), Wait(task.kind, first),
                                      Wait(dataCollectionTask.kind, second)]))
    {
      Cancel();

      var first, _, firstSleeps := AbortTask(task, inputFinished, MAX_RETRIES);
      trace := trace + [Wait(task.kind, first)];
      if first.Err? {
        return first, firstSleeps;
      }

      var second, _, secondSleeps := AbortTask(dataCollectionTask, dataFinished, MAX_RETRIES);
      trace := trace + [Wait(dataCollectionTask.kind, second)];
      if second.Err? {
        return second, firstSleeps + secondSleeps;
      }

      return Ok(()), firstSleeps + secondSleeps;
    }
  }
}
