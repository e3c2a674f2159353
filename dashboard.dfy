/**
 * The dashboard's application state machine (src/main.rs): the process
 * list, the selection cursor, the timed status message, the quit flag,
 * the tier-based kill policy and the control loop that applies events.
 *
 * Time is an explicit parameter (`now`, in nanoseconds of a monotonic
 * clock) and the operating system's kill is recorded as a request in
 * `killRequests` instead of being performed.
 */
module Dashboard {
  import opened Base
  import opened Text
  import opened Process

  // ---------------------------------------------------------------------
  // State and events
  // ---------------------------------------------------------------------

  /** A reading of the monotonic clock, in nanoseconds. */
  type Instant = nat

  /** How long a status message stays up: three seconds. */
  const StatusTtl: nat := 3_000_000_000

  /** `Instant::elapsed`: the time since `since`, never negative. */
  function Elapsed(since: Instant, now: Instant): nat {
    if now >= since then now - since else 0
  }

  datatype StatusMessage = StatusMessage(text: string, createdAt: Instant)

  /** The operating system the binary was built for. */
  datatype Platform = Windows | OtherOs

  /** The key codes the dashboard tells apart; every other key is `OtherKey`. */
  datatype KeyCode = Char(c: char) | Esc | Up | Down | OtherKey(code: nat)

  datatype KeyEventKind = Press | Repeat | Release

  /** A terminal event: a key event, or anything else (mouse, resize, focus, paste). */
  datatype Event = Key(code: KeyCode, kind: KeyEventKind) | OtherEvent

  /** What the control loop receives on its channel. */
  datatype AppEvent =
    | Input(event: Event)
    | Tick
    | ProcessesUpdated(data: seq<ProcessData>, stats: GlobalStats)

  /** An event together with the clock reading at which it is handled. */
  datatype Timed = Timed(event: AppEvent, at: Instant)

  /** Everything the application owns, plus the log of kill requests sent to the OS. */
  datatype AppState = AppState(
    processes: seq<ProcessData>,
    globalStats: GlobalStats,
    selected: Option<nat>,
    shouldQuit: bool,
    statusMessage: Option<StatusMessage>,
    killRequests: seq<u32>)

  const BlockedMsg: string := "\U{26A0}\U{FE0F}  Cannot kill System process! Blocked."
  const ConfirmMsg: string := "\U{26A0}\U{FE0F}  Service process needs confirmation (Not implemented)."
  const PendingMsg: string := "Kill implementation pending for non-windows."

  /** The status shown after a kill request for `p`. */
  function KilledMsg(p: ProcessData): string {
    "\U{1F480} Killed process " + p.name + " (" + NatToString(p.pid) + ")"
  }

  /** `App::new`: empty list, first row selected, running, no message. */
  function InitialState(): AppState {
    AppState([], GlobalStats(0, 0, 0.0, 0), Some(0), false, None, [])
  }

  // ---------------------------------------------------------------------
  // on_tick
  // ---------------------------------------------------------------------

  /** `on_tick`: drops the status message once it is more than three seconds old. */
  function AfterTick(s: AppState, now: Instant): (t: AppState)
    ensures t.statusMessage.None? <==>
      s.statusMessage.None? || Elapsed(s.statusMessage.value.createdAt, now) > StatusTtl
    ensures t.statusMessage.Some? ==> t.statusMessage == s.statusMessage
    ensures t.(statusMessage := s.statusMessage) == s
  {
    match s.statusMessage
    case Some(m) => if Elapsed(m.createdAt, now) > StatusTtl then s.(statusMessage := None) else s
    case None => s
  }

  /**
   * A message set at `created` survives every tick up to three seconds
   * later, and the first tick after that removes it.
   */
  lemma StatusLifetime(s: AppState, msg: string, created: Instant, now: Instant)
    requires now >= created
    ensures AfterTick(WithStatus(s, msg, created), now).statusMessage.Some? <==> now <= created + StatusTtl
  {
  }

  // ---------------------------------------------------------------------
  // next / previous
  // ---------------------------------------------------------------------

  /** The row `next` selects in a list of `len` rows. */
  function NextIndex(selected: Option<nat>, len: nat): (i: nat)
    requires len > 0
    ensures i < len
    ensures selected.Some? && selected.value < len ==> i == (selected.value + 1) % len
    ensures selected.None? || selected.value >= len ==> i == 0
  {
    match selected
    case Some(i) => if i >= len - 1 then 0 else i + 1
    case None => 0
  }

  /** The row `previous` selects in a list of `len` rows. */
  function PrevIndex(selected: Option<nat>, len: nat): (i: nat)
    requires len > 0
    ensures selected.Some? && selected.value < len ==> i < len && i == (selected.value - 1) % len
    ensures selected.Some? && selected.value > 0 ==> i == selected.value - 1
    ensures selected.None? ==> i == 0
  {
    match selected
    case Some(i) => if i == 0 then len - 1 else i - 1
    case None => 0
  }

  /** `next`: moves the cursor down with wrap-around; nothing on an empty list. */
  function AfterNext(s: AppState): (t: AppState)
    ensures |s.processes| == 0 ==> t == s
    ensures |s.processes| > 0 ==> t == s.(selected := Some(NextIndex(s.selected, |s.processes|)))
  {
    if |s.processes| == 0 then s
    else s.(selected := Some(NextIndex(s.selected, |s.processes|)))
  }

  /** `previous`: moves the cursor up with wrap-around; nothing on an empty list. */
  function AfterPrevious(s: AppState): (t: AppState)
    ensures |s.processes| == 0 ==> t == s
    ensures |s.processes| > 0 ==> t == s.(selected := Some(PrevIndex(s.selected, |s.processes|)))
  {
    if |s.processes| == 0 then s
    else s.(selected := Some(PrevIndex(s.selected, |s.processes|)))
  }

  /** On an in-range cursor, `previous` undoes `next` and `next` undoes `previous`. */
  lemma NextPreviousInverse(s: AppState)
    requires s.selected.Some? && s.selected.value < |s.processes|
    ensures AfterPrevious(AfterNext(s)) == s
    ensures AfterNext(AfterPrevious(s)) == s
  {
  }

  /** `next` applied `k` times. */
  function NextTimes(s: AppState, k: nat): AppState
    decreases k
  {
    if k == 0 then s else AfterNext(NextTimes(s, k - 1))
  }

  /** `previous` applied `k` times. */
  function PreviousTimes(s: AppState, k: nat): AppState
    decreases k
  {
    if k == 0 then s else AfterPrevious(PreviousTimes(s, k - 1))
  }

  /** From an in-range row `i`, `k` presses of Down land on row `(i + k) mod len`. */
  lemma {:induction false} NextTimesRotates(s: AppState, k: nat)
    requires s.selected.Some? && s.selected.value < |s.processes|
    ensures NextTimes(s, k) == s.(selected := Some((s.selected.value + k) % |s.processes|))
    decreases k
  {
    if k > 0 {
      NextTimesRotates(s, k - 1);
      var n, i := |s.processes|, s.selected.value;
      ModSucc(i + k - 1, n);
    }
  }

  /** From an in-range row `i`, `k` presses of Up land on row `(i - k) mod len`. */
  lemma {:induction false} PreviousTimesRotates(s: AppState, k: nat)
    requires s.selected.Some? && s.selected.value < |s.processes|
    ensures PreviousTimes(s, k) == s.(selected := Some((s.selected.value - k) % |s.processes|))
    decreases k
  {
    if k > 0 {
      PreviousTimesRotates(s, k - 1);
      var n, i := |s.processes|, s.selected.value;
      var j := (i - (k - 1)) % n;
      assert PreviousTimes(s, k) == AfterPrevious(s.(selected := Some(j)));
      assert PrevIndex(Some(j), n) == (j - 1) % n;
      ModPred(i - k + 1, n);
    }
  }

  lemma ModSucc(a: int, n: nat)
    requires n > 0
    ensures (a % n + 1) % n == (a + 1) % n
  {
    var q, r := a / n, a % n;
    if r + 1 == n {
      DivModUnique(a + 1, n, q + 1, 0);
      DivModUnique(r + 1, n, 1, 0);
    } else {
      DivModUnique(a + 1, n, q, r + 1);
      DivModUnique(r + 1, n, 0, r + 1);
    }
  }

  lemma ModPred(a: int, n: nat)
    requires n > 0
    ensures (a % n - 1) % n == (a - 1) % n
  {
    var q, r := a / n, a % n;
    if r == 0 {
      DivModUnique(a - 1, n, q - 1, n - 1);
      DivModUnique(r - 1, n, -1, n - 1);
    } else {
      DivModUnique(a - 1, n, q, r - 1);
      DivModUnique(r - 1, n, 0, r - 1);
    }
  }

  /** Pressing Down once per row brings the cursor back where it started. */
  lemma NextFullCycle(s: AppState)
    requires s.selected.Some? && s.selected.value < |s.processes|
    ensures NextTimes(s, |s.processes|) == s
  {
    NextTimesRotates(s, |s.processes|);
    DivModUnique(s.selected.value + |s.processes|, |s.processes|, 1, s.selected.value);
  }

  // ---------------------------------------------------------------------
  // kill_selected_process
  // ---------------------------------------------------------------------

  /** `processes.get(selected)`: the selected row, when the cursor is on one. */
  function SelectedProcess(s: AppState): (r: Option<ProcessData>)
    ensures r.Some? <==> s.selected.Some? && s.selected.value < |s.processes|
    ensures r.Some? ==> r.value == s.processes[s.selected.value]
  {
    match s.selected
    case Some(i) => if i < |s.processes| then Some(s.processes[i]) else None
    case None => None
  }

  /** `set_status`: a new message stamped with the current time. */
  function WithStatus(s: AppState, msg: string, now: Instant): AppState {
    s.(statusMessage := Some(StatusMessage(msg, now)))
  }

  /**
   * `kill_selected_process`: `System` rows are refused, `Service` rows
   * need a confirmation that does not exist, `User` rows get one kill
   * request on Windows and a "pending" notice elsewhere.
   */
  function AfterKill(s: AppState, platform: Platform, now: Instant): (t: AppState)
    ensures t.processes == s.processes && t.globalStats == s.globalStats
    ensures t.selected == s.selected && t.shouldQuit == s.shouldQuit
    ensures SelectedProcess(s).None? ==> t == s
    ensures SelectedProcess(s).Some? ==>
      t.statusMessage.Some? && t.statusMessage.value.createdAt == now
    ensures SelectedProcess(s).Some? && SelectedProcess(s).value.category == System ==>
      t.statusMessage.value.text == BlockedMsg && t.killRequests == s.killRequests
    ensures SelectedProcess(s).Some? && SelectedProcess(s).value.category == Service ==>
      t.statusMessage.value.text == ConfirmMsg && t.killRequests == s.killRequests
    ensures SelectedProcess(s).Some? && SelectedProcess(s).value.category == User && platform == Windows ==>
      t.statusMessage.value.text == KilledMsg(SelectedProcess(s).value) &&
      t.killRequests == s.killRequests + [SelectedProcess(s).value.pid]
    ensures SelectedProcess(s).Some? && SelectedProcess(s).value.category == User && platform == OtherOs ==>
      t.statusMessage.value.text == PendingMsg && t.killRequests == s.killRequests
  {
    match SelectedProcess(s)
    case None => s
    case Some(p) =>
      match p.category
      case System => WithStatus(s, BlockedMsg, now)
      case Service => WithStatus(s, ConfirmMsg, now)
      case User =>
        if platform == Windows then
          WithStatus(s.(killRequests := s.killRequests + [p.pid]), KilledMsg(p), now)
        else
          WithStatus(s, PendingMsg, now)
  }

  /** A kill request is sent exactly when a `User` row is selected on Windows. */
  lemma KillRequestIffUser(s: AppState, platform: Platform, now: Instant)
    ensures var t := AfterKill(s, platform, now);
      (|t.killRequests| == |s.killRequests| + 1 <==>
        platform == Windows && SelectedProcess(s).Some? && SelectedProcess(s).value.category == User) &&
      (t.killRequests == s.killRequests <==>
        !(platform == Windows && SelectedProcess(s).Some? && SelectedProcess(s).value.category == User))
  {
  }

  // ---------------------------------------------------------------------
  // Event dispatch and the control loop
  // ---------------------------------------------------------------------

  /** A press of the key with `code`. */
  function Pressed(code: KeyCode): AppEvent {
    Input(Key(code, Press))
  }

  predicate IsQuitPress(e: AppEvent) {
    e == Pressed(Char('q')) || e == Pressed(Esc)
  }

  /** The key handling of the control loop, for a pressed key. */
  function AfterKey(s: AppState, platform: Platform, code: KeyCode, now: Instant): AppState {
    match code
    case Char(c) =>
      if c == 'q' then s.(shouldQuit := true)
      else if c == 'k' then AfterKill(s, platform, now)
      else s
    case Esc => s.(shouldQuit := true)
    case Down => AfterNext(s)
    case Up => AfterPrevious(s)
    case OtherKey(_) => s
  }

  /** One turn of the control loop: apply the received event. */
  function AfterEvent(s: AppState, platform: Platform, e: AppEvent, now: Instant): (t: AppState)
    // a snapshot replaces the list and the figures and keeps the cursor
    ensures e.ProcessesUpdated? ==>
      t == s.(processes := e.data, globalStats := e.stats)
    // ticks only expire the status message
    ensures e.Tick? ==> t == AfterTick(s, now)
    // releases, repeats and non-key events change nothing
    ensures e.Input? && (e.event.OtherEvent? || e.event.kind != Press) ==> t == s
    // q and Esc quit; nothing else sets the flag, and nothing clears it
    ensures IsQuitPress(e) ==> t == s.(shouldQuit := true)
    ensures t.shouldQuit ==> s.shouldQuit || IsQuitPress(e)
    ensures s.shouldQuit ==> t.shouldQuit
    // Down and Up move the cursor, k asks for a kill, other keys do nothing
    ensures e == Pressed(Down) ==> t == AfterNext(s)
    ensures e == Pressed(Up) ==> t == AfterPrevious(s)
    ensures e == Pressed(Char('k')) ==> t == AfterKill(s, platform, now)
    ensures (e.Input? && e.event.Key? && e.event.kind == Press &&
      e.event.code !in {Char('q'), Esc, Char('k'), Down, Up}) ==> t == s
    // only a press of k sends a kill request, at most one
    ensures t.killRequests == s.killRequests ||
      (e == Pressed(Char('k')) && |t.killRequests| == |s.killRequests| + 1 &&
       t.killRequests[..|s.killRequests|] == s.killRequests)
  {
    match e
    case Input(ev) =>
      (match ev
       case Key(code, kind) => if kind == Press then AfterKey(s, platform, code, now) else s
       case OtherEvent => s)
    case ProcessesUpdated(data, stats) => s.(processes := data, globalStats := stats)
    case Tick => AfterTick(s, now)
  }

  /**
   * What drawing a frame does to the cursor. The list is rendered with the
   * application's own selection as the widget state, and ratatui's `List`
   * widget clears the selection of an empty list and moves a selection past
   * the end onto the last row. Nothing else in the state changes.
   */
  function AfterDraw(s: AppState): (t: AppState)
    ensures t == s.(selected := t.selected)
    ensures t.selected.Some? ==> t.selected.value < |s.processes|
    ensures |s.processes| == 0 ==> t.selected.None?
    ensures s.selected.None? ==> t.selected.None?
    ensures s.selected.Some? && s.selected.value < |s.processes| ==> t.selected == s.selected
    ensures s.selected.Some? && s.selected.value >= |s.processes| > 0 ==>
      t.selected == Some(|s.processes| - 1)
  {
    if |s.processes| == 0 then s.(selected := None)
    else match s.selected
      case Some(i) => if i >= |s.processes| then s.(selected := Some(|s.processes| - 1)) else s
      case None => s
  }

  /** After a frame is drawn, a row is selected exactly when the cursor is set. */
  lemma DrawnCursorInRange(s: AppState)
    ensures SelectedProcess(AfterDraw(s)).Some? <==> AfterDraw(s).selected.Some?
    ensures AfterDraw(s).selected.Some? <==> s.selected.Some? && |s.processes| > 0
  {
  }

  /** One turn of the control loop: draw the frame, then handle the event received. */
  function Turn(s: AppState, platform: Platform, e: Timed): AppState {
    AfterEvent(AfterDraw(s), platform, e.event, e.at)
  }

  /**
   * The control loop over the events it receives: draw, take the next
   * event and handle it, and stop right after the one that set the quit
   * flag. The end of the sequence stands for the channel closing. Returns
   * the final state and how many events were taken.
   */
  function Run(s: AppState, platform: Platform, events: seq<Timed>): (r: (AppState, nat))
    ensures r.1 <= |events|
    ensures r.1 == 0 <==> |events| == 0
    ensures r.1 < |events| ==> r.0.shouldQuit
    decreases |events|
  {
    if |events| == 0 then (s, 0)
    else
      var s1 := Turn(s, platform, events[0]);
      if s1.shouldQuit then (s1, 1)
      else
        var r := Run(s1, platform, events[1..]);
        (r.0, r.1 + 1)
  }

  /** All events applied in order, each after a frame is drawn, with no stop on quit. */
  function Replay(s: AppState, platform: Platform, events: seq<Timed>): AppState
    decreases |events|
  {
    if |events| == 0 then s
    else Replay(Turn(s, platform, events[0]), platform, events[1..])
  }

  /**
   * The loop is the replay of the events it took, and none of those but
   * the last left the quit flag set.
   */
  lemma {:induction false} RunIsReplayUntilQuit(s: AppState, platform: Platform, events: seq<Timed>)
    ensures Run(s, platform, events).0 == Replay(s, platform, events[..Run(s, platform, events).1])
    ensures forall j :: 0 < j < Run(s, platform, events).1 ==> !Replay(s, platform, events[..j]).shouldQuit
    decreases |events|
  {
    if |events| > 0 {
      var s1 := Turn(s, platform, events[0]);
      assert events[..1][1..] == [];
      if !s1.shouldQuit {
        var rest := events[1..];
        RunIsReplayUntilQuit(s1, platform, rest);
        var n := Run(s, platform, events).1;
        assert events[..n][1..] == rest[..n - 1];
        forall j | 0 < j < n ensures !Replay(s, platform, events[..j]).shouldQuit {
          assert events[..j][1..] == rest[..j - 1];
          assert events[..j][0] == events[0];
        }
      }
    }
  }

  /** Events after the one that quits are never looked at. */
  lemma {:induction false} RunIgnoresTail(s: AppState, platform: Platform, events: seq<Timed>, more: seq<Timed>)
    requires |events| > 0 && Run(s, platform, events).0.shouldQuit
    ensures Run(s, platform, events + more) == Run(s, platform, events)
    decreases |events|
  {
    if |events| > 0 {
      assert (events + more)[0] == events[0];
      var s1 := Turn(s, platform, events[0]);
      if !s1.shouldQuit {
        assert (events + more)[1..] == events[1..] + more;
        RunIgnoresTail(s1, platform, events[1..], more);
      }
    }
  }

  /**
   * A quit key ends the loop at once, whatever the state and whatever
   * follows: only the frame drawn before it and the quit flag take effect.
   */
  lemma QuitEndsLoop(s: AppState, platform: Platform, code: KeyCode, now: Instant, rest: seq<Timed>)
    requires code == Char('q') || code == Esc
    ensures Run(s, platform, [Timed(Pressed(code), now)] + rest) == (AfterDraw(s).(shouldQuit := true), 1)
  {
  }

  /** How many presses of k a sequence of events holds. */
  function KillPresses(events: seq<Timed>): nat
    decreases |events|
  {
    if |events| == 0 then 0
    else (if events[0].event == Pressed(Char('k')) then 1 else 0) + KillPresses(events[1..])
  }

  /**
   * The loop only appends to the kill-request log, and appends at most
   * one request per press of k among the events it handled.
   */
  lemma {:induction false} RunKillRequests(s: AppState, platform: Platform, events: seq<Timed>)
    ensures var (t, n) := Run(s, platform, events);
      |s.killRequests| <= |t.killRequests| <= |s.killRequests| + KillPresses(events[..n]) &&
      t.killRequests[..|s.killRequests|] == s.killRequests
    decreases |events|
  {
    if |events| > 0 {
      var s1 := Turn(s, platform, events[0]);
      var n := Run(s, platform, events).1;
      assert events[..n][0] == events[0];
      if s1.shouldQuit {
        assert events[..n][1..] == [];
      } else {
        RunKillRequests(s1, platform, events[1..]);
        assert events[..n][1..] == events[1..][..n - 1];
        var t := Run(s, platform, events).0;
        assert t.killRequests[..|s.killRequests|] == t.killRequests[..|s1.killRequests|][..|s.killRequests|];
      }
    }
  }

  /**
   * At start-up the cursor is on row 0 of an empty list. The first frame
   * clears it, so a k pressed right after the first snapshot kills nothing,
   * even when that snapshot's only row is a `User` process.
   */
  lemma KillBeforeMovingSendsNothing(p: ProcessData, stats: GlobalStats, t1: Instant, t2: Instant)
    requires p.category == User
    ensures var events := [Timed(ProcessesUpdated([p], stats), t1), Timed(Pressed(Char('k')), t2)];
      Run(InitialState(), Windows, events) == (InitialState().(processes := [p], globalStats := stats, selected := None), 2)
  {
    var events := [Timed(ProcessesUpdated([p], stats), t1), Timed(Pressed(Char('k')), t2)];
    var s1 := Turn(InitialState(), Windows, events[0]);
    assert s1 == InitialState().(processes := [p], globalStats := stats, selected := None);
    var s2 := Turn(s1, Windows, events[1]);
    assert AfterDraw(s1) == s1;
    assert s2 == s1;
    assert events[1..] == [events[1]];
    assert Run(s1, Windows, events[1..]) == (s2, 1);
  }

  // ---------------------------------------------------------------------
  // The application object
  // ---------------------------------------------------------------------

  /** The state owned by the control loop, updated in place. */
  class App {
    const platform: Platform
    var processes: seq<ProcessData>
    var globalStats: GlobalStats
    var selected: Option<nat>
    var shouldQuit: bool
    var statusMessage: Option<StatusMessage>
    var killRequests: seq<u32>

    /** The fields as one value. */
    function State(): AppState
      reads this
    {
      AppState(processes, globalStats, selected, shouldQuit, statusMessage, killRequests)
    }

    constructor (platform: Platform)
      ensures State() == InitialState() && this.platform == platform
    {
      this.platform := platform;
      processes := [];
      globalStats := GlobalStats(0, 0, 0.0, 0);
      selected := Some(0);
      shouldQuit := false;
      statusMessage := None;
      killRequests := [];
    }

    method OnTick(now: Instant)
      modifies this
      ensures State() == AfterTick(old(State()), now)
    {
      if statusMessage.Some? {
        if Elapsed(statusMessage.value.createdAt, now) > StatusTtl {
          statusMessage := None;
        }
      }
    }

    method Next()
      modifies this
      ensures State() == AfterNext(old(State()))
    {
      if |processes| == 0 {
        return;
      }
      var i: nat;
      match selected {
        case Some(j) => i := if j >= |processes| - 1 then 0 else j + 1;
        case None => i := 0;
      }
      selected := Some(i);
    }

    method Previous()
      modifies this
      ensures State() == AfterPrevious(old(State()))
    {
      if |processes| == 0 {
        return;
      }
      var i: nat;
      match selected {
        case Some(j) => i := if j == 0 then |processes| - 1 else j - 1;
        case None => i := 0;
      }
      selected := Some(i);
    }

    method SetStatus(msg: string, now: Instant)
      modifies this
      ensures State() == WithStatus(old(State()), msg, now)
    {
      statusMessage := Some(StatusMessage(msg, now));
    }

    method KillSelectedProcess(now: Instant)
      modifies this
      ensures State() == AfterKill(old(State()), platform, now)
    {
      if selected.Some? {
        var index := selected.value;
        if index < |processes| {
          var p := processes[index];
          match p.category {
            case System => SetStatus(BlockedMsg, now);
            case Service => SetStatus(ConfirmMsg, now);
            case User =>
              if platform == Windows {
                killRequests := killRequests + [p.pid];
                SetStatus(KilledMsg(p), now);
              } else {
                SetStatus(PendingMsg, now);
              }
          }
        }
      }
    }

    /** The `match` on the received event in the control loop. */
    method HandleEvent(e: AppEvent, now: Instant)
      modifies this
      ensures State() == AfterEvent(old(State()), platform, e, now)
    {
      match e {
        case Input(ev) =>
          match ev {
            case Key(code, kind) =>
              if kind == Press {
                match code {
                  case Char(c) =>
                    if c == 'q' {
                      shouldQuit := true;
                    } else if c == 'k' {
                      KillSelectedProcess(now);
                    }
                  case Esc => shouldQuit := true;
                  case Down => Next();
                  case Up => Previous();
                  case OtherKey(_) =>
                }
              }
            case OtherEvent =>
          }
        case ProcessesUpdated(data, stats) =>
          processes := data;
          globalStats := stats;
        case Tick =>
          OnTick(now);
      }
    }

    /**
     * `terminal.draw` as far as the state is concerned: rendering the list
     * with the application's selection as widget state clamps it.
     */
    method Draw()
      modifies this
      ensures State() == AfterDraw(old(State()))
    {
      if |processes| == 0 {
        selected := None;
      } else if selected.Some? && selected.value >= |processes| {
        selected := Some(|processes| - 1);
      }
    }

    /** The control loop: draw, receive, handle, and leave once the quit flag is set. */
    method RunLoop(events: seq<Timed>) returns (consumed: nat)
      modifies this
      ensures (State(), consumed) == Run(old(State()), platform, events)
    {
      consumed := 0;
      while consumed < |events|
        invariant consumed <= |events|
        invariant consumed > 0 ==> !shouldQuit
        invariant Run(old(State()), platform, events) ==
          (Run(State(), platform, events[consumed..]).0, Run(State(), platform, events[consumed..]).1 + consumed)
      {
        ghost var rest := events[consumed..];
        Draw();
        HandleEvent(events[consumed].event, events[consumed].at);
        assert rest[1..] == events[consumed + 1..];
        consumed := consumed + 1;
        if shouldQuit {
          return;
        }
      }
    }
  }
}
