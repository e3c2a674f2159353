# oxiproc core, modelled in Dafny

oxiproc is a terminal process monitor. A sampler thread takes snapshots of the
host's processes. A control loop applies keyboard input, idle ticks and those
snapshots to one application state. Each process is put in a trust tier
(`System`, `Service` or `User`), and the tier decides whether the operator may
kill it from the dashboard.

This project models three parts of that program:

- `process.dfy`, module `Process` (src/process.rs): the tiers, their labels and
  colours, and the `Categorizer`. The categorizer is a class. Its constructor
  builds the lower-cased whitelist in a loop. `Categorize` is a first-match-wins
  classification of a process given its name, its pid and an optional
  executable path.
- `dashboard.dfy`, module `Dashboard` (src/main.rs): the application state
  machine. `AppState` is the state as a value. `AfterTick`, `AfterNext`,
  `AfterPrevious`, `AfterKill`, `AfterDraw` and `AfterEvent` are the
  transitions as functions, and `Run` is the control loop over a finite sequence of events.
  The class `App` holds the same fields and updates them in place. Each of its
  methods is proved to produce exactly the state that the matching function
  gives. Time is an explicit `now` parameter, in nanoseconds. The kill that the
  program asks of the operating system is recorded as a pid appended to
  `killRequests`.
- `ui.dfy`, module `Ui` (src/ui.rs): `format_duration` and the unit choice and
  kilobyte text of `format_memory`.

Two helper modules support them. `Base` holds `Option` and the `u8`/`u32`/`u64`
ranges. `Text` holds ASCII lower-casing, substring search (with a proof that it
finds exactly the occurring substrings), and decimal rendering of naturals
(with a proof that the digits read back as the number).

### Behaviour of the code worth knowing

- `svchost.exe` is one of the critical names (src/process.rs:45), so it is
  `System` whatever its pid or path (`Process.SvchostIsSystem`).
- `on_tick` removes the message only when `elapsed() > 3s`
  (src/main.rs:55), so a tick at exactly three seconds keeps it
  (`Dashboard.StatusLifetime`).
- A `User` kill on Windows discards the result of `taskkill` and always
  reports "Killed process …" (src/main.rs:110-116, `Dashboard.AfterKill`).
- A snapshot replaces the list without touching the cursor
  (src/main.rs:207-210). The next frame hands the cursor to the list widget
  as its state (src/main.rs:174, src/ui.rs:129), and the widget clears it on
  an empty list and moves it onto the last row when it is past the end
  (`Dashboard.AfterDraw`). The cursor starts on row 0 of an empty list
  (src/main.rs:37-38), so the first frame clears it, and k does nothing
  until Up or Down is pressed (`Dashboard.KillBeforeMovingSendsNothing`).

## Model

| member | source | states |
|---|---|---|
| `Text.ContainsIff` | src/process.rs:81 | the left-to-right search used for `contains` returns true exactly when the pattern occurs at some position of the string |
| `Text.LowerIdempotent` | src/process.rs:53-55 | lower-casing an already lower-cased name changes nothing, so the stored whitelist entries are fixed points of the lookup's lower-casing |
| `Text.DecimalRoundTrip` | src/ui.rs:161 | the decimal text printed for a number reads back as that number |
| `Text.NatToStringWidth` | src/ui.rs:169 | a number is printed with at most k digits exactly when it is below 10^k |
| `Process.ProcessCategory.AsStr` | src/process.rs:12-18 | each tier's label names that tier: reading the label back gives the same tier |
| `Process.ProcessCategory.ColorCode` | src/process.rs:20-26 | the colour code is one of 1, 2, 3, and in the ANSI palette it names the colour the process table draws the tier in (src/ui.rs:92-95): red for `System`, yellow for `Service`, green for `User` |
| `Process.ColorCodeDistinct` | src/process.rs:20-26 | two tiers share a colour code only if they are the same tier |
| `Process.CriticalNames` | src/process.rs:37-55 | every name in the whitelist is lower-case |
| `Process.PidValue` | src/process.rs:72 | rendering the pid in decimal and parsing it as `u32` with 0 on failure gives the pid itself when it fits in `u32` and 0 when it does not |
| `Process.Categorizer.constructor` | src/process.rs:34-60 | the loop leaves the whitelist equal to the set of all thirteen listed names, lower-cased |
| `Process.Categorizer.Categorize` | src/process.rs:62-87 | a whitelisted lower-cased name gives `System`; the result is `System` iff the name is whitelisted or the pid is at most 4; `Service` iff neither holds and the lower-cased exe path contains `\windows\system32\`; `User` iff neither holds and there is no path or the path does not contain it; no path never gives `Service` |
| `Process.NameCaseIrrelevant` | src/process.rs:63-68 | classifying the lower-cased name gives the same tier as the original name |
| `Process.UnparseablePidIsSystem` | src/process.rs:72-75 | a pid above `u32::MAX` reads as 0 and the process is `System`, whatever its name or path |
| `Process.SvchostIsSystem` | src/process.rs:62-68 | `Svchost.exe` is `System` under the built whitelist, for any pid and path |
| `Process.System32ProgramIsService` | src/process.rs:79-84 | a non-critical program with pid 1234 under `c:\windows\system32\` is a `Service` |
| `Process.SysWow64ProgramIsUser` | src/process.rs:79-86 | the same program under `c:\windows\syswow64\` is a `User` process |
| `Ui.SplitDuration` | src/ui.rs:165-168 | hours*3600 + minutes*60 + seconds equals the input, with minutes and seconds below 60 |
| `Ui.SplitDurationUnique` | src/ui.rs:165-168 | any split with minutes and seconds below 60 that adds up to the input is the one computed |
| `Ui.Pad2` | src/ui.rs:169 | `{:02}` gives only digits, exactly two for numbers below 10 and otherwise as many as the number's decimal text, and they read back as the number |
| `Ui.FormatDuration` | src/ui.rs:165-170 | the text is three digit fields separated by colons that read as the hours, minutes and seconds of the split; minutes and seconds take two digits, hours two or as many as they need; the text is 8 characters when the hours are below 100 |
| `Ui.FormatDurationRoundTrip` | src/ui.rs:165-170 | reading the printed clock back gives the input number of seconds |
| `Ui.FormatMemory` | src/ui.rs:151-163 | GB exactly when bytes ≥ 1024³, MB exactly when 1024² ≤ bytes < 1024³, KB otherwise; the KB text is the decimal text of bytes/1024 followed by " KB", and it reads back as k with k*1024 ≤ bytes < (k+1)*1024 and k < 1024 |
| `Ui.FormatMemoryMonotone` | src/ui.rs:156-162 | a larger size never gets a smaller unit |
| `Dashboard.AfterTick` | src/main.rs:53-59 | the message is dropped iff one exists and it is more than three seconds old; nothing else changes |
| `Dashboard.StatusLifetime` | src/main.rs:53-59 | a message set at T survives a tick at any time up to T+3s and is removed by a tick after that |
| `Dashboard.NextIndex` | src/main.rs:61-76 | `next` selects a row in range; from an in-range row i it selects (i+1) mod len; from no selection or an out-of-range row it selects 0 |
| `Dashboard.PrevIndex` | src/main.rs:78-93 | from an in-range row i, `previous` selects (i-1) mod len; from any row i > 0 it selects i-1; from no selection it selects 0 |
| `Dashboard.AfterNext` | src/main.rs:61-76 | on an empty list nothing changes; otherwise only the cursor changes, to a row in range: (i+1) mod len from an in-range row i, row 0 from no selection or an out-of-range row |
| `Dashboard.AfterPrevious` | src/main.rs:78-93 | on an empty list nothing changes; otherwise only the cursor changes: (i-1) mod len, in range, from an in-range row i; i-1 from any row i > 0; row 0 from no selection |
| `Dashboard.NextPreviousInverse` | src/main.rs:61-93 | on an in-range cursor, `previous` undoes `next` and `next` undoes `previous` |
| `Dashboard.NextTimesRotates` | src/main.rs:61-76 | k presses of Down from row i land on row (i+k) mod len and change nothing else |
| `Dashboard.PreviousTimesRotates` | src/main.rs:78-93 | k presses of Up from row i land on row (i-k) mod len and change nothing else |
| `Dashboard.NextFullCycle` | src/main.rs:61-76 | len presses of Down bring the state back to where it started |
| `Dashboard.SelectedProcess` | src/main.rs:96-97 | there is a selected row iff the cursor is set and below the list length, and it is the row at the cursor |
| `Dashboard.AfterKill` | src/main.rs:95-127 | the list, figures, cursor and quit flag never change; with no row selected nothing changes; `System` sets the blocked message and sends nothing; `Service` sets the confirmation message and sends nothing; `User` on Windows sends one request for its pid and sets "Killed process name (pid)"; `User` elsewhere sets the pending message and sends nothing |
| `Dashboard.KillRequestIffUser` | src/main.rs:107-117 | a kill request is added exactly when a `User` row is selected on Windows; otherwise the log is unchanged |
| `Dashboard.AfterEvent` | src/main.rs:188-214 | a snapshot replaces list and figures and keeps everything else, including the cursor; a tick only expires the message; non-press and non-key events change nothing; Down is `next`, Up is `previous`, k is the kill, and any other key changes nothing; q/Esc presses set the quit flag and change nothing else, nothing else sets it and nothing clears it; only a press of k can add a kill request, and at most one |
| `Dashboard.AfterDraw` | src/ui.rs:129 | drawing a frame changes only the cursor: it is cleared on an empty list, moved onto the last row when past the end, and otherwise kept; afterwards it is unset or in range |
| `Dashboard.DrawnCursorInRange` | src/main.rs:173-174 | after a frame a row is selected exactly when the cursor is set, and the cursor is set exactly when it was before and the list is not empty |
| `Dashboard.Run` | src/main.rs:172-219 | the loop takes at least one event when one arrives, and stops before the end only after an event that set the quit flag |
| `Dashboard.RunIsReplayUntilQuit` | src/main.rs:188-218 | the loop's final state is all taken events applied in order, and no event before the last one taken set the quit flag |
| `Dashboard.RunIgnoresTail` | src/main.rs:216-218 | once the loop has quit, later events make no difference |
| `Dashboard.QuitEndsLoop` | src/main.rs:173-195 | a q or Esc press ends the loop after that one event, from any state; only the frame drawn before it and the quit flag take effect |
| `Dashboard.RunKillRequests` | src/main.rs:196-198 | the loop only appends to the kill-request log, and appends at most one request per k press among the events it handled |
| `Dashboard.KillBeforeMovingSendsNothing` | src/main.rs:36-51 | from start-up, a snapshot whose only row is a `User` process followed by a k press sends no kill request on Windows: the first frame cleared the cursor |
| `Dashboard.App.constructor` | src/main.rs:36-51 | a new app has an empty list, zero figures, row 0 selected, the quit flag clear, no message and no requests |
| `Dashboard.App.OnTick` | src/main.rs:53-59 | the object's new state is `AfterTick` of its old state |
| `Dashboard.App.Next` | src/main.rs:61-76 | the object's new state is `AfterNext` of its old state: on a non-empty list only the cursor moves, one row down with wrap-around |
| `Dashboard.App.Previous` | src/main.rs:78-93 | the object's new state is `AfterPrevious` of its old state: on a non-empty list only the cursor moves, one row up with wrap-around |
| `Dashboard.App.Draw` | src/main.rs:173-174 | the object's new state is `AfterDraw` of its old state |
| `Dashboard.App.SetStatus` | src/main.rs:129-131 | only the message changes, to the new text stamped with the current time |
| `Dashboard.App.KillSelectedProcess` | src/main.rs:95-127 | the object's new state is `AfterKill` of its old state |
| `Dashboard.App.HandleEvent` | src/main.rs:188-214 | the object's new state is `AfterEvent` of its old state, with the dispatch that function's contract states |
| `Dashboard.App.RunLoop` | src/main.rs:172-219 | the loop leaves the object in the state `Run` gives, having taken the number of events `Run` gives |

## Left out

- `collect_processes` (src/process.rs:106-146) is not modelled. It calls sysinfo, sorts on `f32` with `partial_cmp` and averages CPU usage in floating point. Snapshots reach the model as given `ProcessData` lists, whose `cpuUsage` is an uninterpreted `real`.
- The sampler and input threads, the `mpsc` channel, `event::poll`, the 200 ms poll window and the sleeps are not modelled. The control loop receives a finite sequence of timed events, and the end of the sequence stands for `recv` failing. In the source that failure returns an error from `main` before the terminal is restored. Terminal teardown is outside the model.
- Terminal setup and teardown, the ratatui widgets' output and the status overlay are not modelled. Of `terminal.draw` the model keeps only what rendering the list does to the selected index. The ratatui source is not part of this model: `Dashboard.AfterDraw` follows what the `List` widget does to the selection when it renders with it as its state, in the ratatui versions that have `Frame::area`, and leaves out its scroll offset and its early return when the list area has no room, in which case the selection is left as it is.
- `Dashboard.Run`: the frame drawn before the `recv` that fails at the end of the events is not applied, because nothing follows it.
- The two-decimal GB and MB texts of `format_memory` are floating-point formatting. `Ui.FormatMemory` returns the chosen unit with the byte count. Only the KB branch's text is produced.
- `Text.Lower`: lower-cases ASCII letters only. Rust's `to_lowercase` follows Unicode, which does not matter for the ASCII names and paths the classifier compares against. `to_string_lossy` replacement of invalid code units is not modelled either: names and paths are already strings.
- `Dashboard.App.KillSelectedProcess`: the `taskkill` process spawn is recorded as the pid appended to `killRequests`, because its outcome is discarded. The method's `Result` return is dropped because it is always `Ok`, so the `?` in the loop never fires.
- The non-Windows `cfg` branch is kept as the `OtherOs` platform, a constant of the `App` object.
- `Instant` is a natural number of nanoseconds. `Instant::now` becomes the `now` parameter of each event.
