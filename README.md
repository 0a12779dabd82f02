# FIFO echo server: a model of main_loop

The echo server in `main.c` reads messages from a named pipe and copies them
to a log. It waits in `open(2)` until a writer connects. It then reads the
message in chunks of at most `BUF_SIZE - 1` bytes with `read(2)` until end of
file, and goes back to waiting. While it waits or reads, five signal handlers
only set flags:

- `SIGTERM` and `SIGINT` end the loop.
- `SIGALRM` logs a heartbeat (`diagnostic`).
- `SIGUSR1` logs the counters (`print_stats`).
- `SIGHUP` switches the process to daemon mode (`become_daemon`).

The loop acts on these flags at three points:

- after an interrupted `open`;
- after an interrupted `read`;
- after each message.

The model has three modules.

- `EchoModel` (`echo_model.dfy`) holds the state as values:
  - the `stats` record, with its three counters as 64-bit unsigned integers that wrap modulo 2^64;
  - the five flags;
  - `run_as_daemon`;
  - where log output goes (`Console` for stdout, or `LogFile`);
  - the log, as a sequence of abstract records.

  A run of `main_loop` is driven by a trace of environment events. Each event is what one blocking call answered: `OpenOk`, `OpenIntr(raised)`, `OpenFail`, `ReadData(bytes)`, `ReadIntr(raised)`, `ReadEof` or `ReadFail`. Here `raised` is the set of signals whose handlers ran before the interrupted call returned. `Step` is one call and the dispatch after it. `Run` is the loop over a trace. The loop ends in one of four outcomes: `Terminated`, `Interrupted`, `Fatal` (the `perror`/`exit` paths), or `TraceExhausted` (the loop is still blocked when the trace ends).
- `EchoServer` (`echo_server.dfy`) is the imperative form of the same code:
  - a `Server` class whose fields are the C globals;
  - one method per helper function and per dispatch site;
  - a `MainLoop` method. It has the source's nested loop, uses a `buf` array of `BUF_SIZE` bytes, and accumulates `msgBytes`.

  Each method is proved to produce the state that the matching `EchoModel` function gives.
- `EchoProperties` (`echo_properties.dfy`) proves what `main_loop` promises about those functions:
  - counter growth;
  - the newline rule;
  - flag priority at each site;
  - the deferred interrupt;
  - the exit log;
  - the daemon switch.

### Points where the code decides

- A flag is cleared after its action has run, not before.
- `flag_term` and `flag_int` are never cleared.
- `-d` sets `run_as_daemon` before the startup `become_daemon` call. That call therefore returns at its guard. With `-d` the log file is the one `main()` opened itself (`LaunchWithDaemonOption`).
- The counters are `unsigned long` and `unsigned long long` (64 bits on an LP64 target). "Grows by one" therefore means "grows by one modulo 2^64".
- After `SIGINT` arrives during a read, the read path's `continue` skips alarm, usr1 and hup. `flag_int` stays set. At the check after the message, it ends the loop before alarm, usr1 and hup are looked at. So any alarm, usr1 or hup raised from that point on is never acted on (`ReadSiteInterrupt`, `DeferredInterrupt`).
- `msg_bytes` adds the full `n` returned by `read`, even though `fputs` stops at a NUL byte. The model logs the chunk as `Text(bytes)`, with all of its bytes.

## Model

| member | source | states |
|---|---|---|
| EchoModel.Wrap | main.c:26-30 | The counter arithmetic is reduction modulo 2^64, and a value below 2^64 is kept as it is |
| EchoModel.WithSets | main.c:53-57 | A handler sets the flag of every signal it was raised for; every other flag keeps its value |
| EchoModel.WithoutClears | main.c:156-158 | Clearing one flag resets it and leaves the other four unchanged |
| EchoModel.Initial | main.c:221-232 | After option parsing, `run_as_daemon` is the `-d` option, and the destination is the log file exactly when `-d` was given; the counters are zero, no flag is set and nothing is logged |
| EchoModel.Step | main.c:150-197 | When the loop goes on: after a successful `open` it reads, after end of file it waits in `open` again, and after any other event it stays where it was; a step that ends the loop never has the outcome `TraceExhausted` |
| EchoModel.Run | main.c:148-198 | The loop consumes at most the whole trace; an outcome other than `TraceExhausted` consumes at least one event; `TraceExhausted` consumes all of it |
| EchoServer.Server.constructor | main.c:221-232 | The object starts in the state `Initial` describes for the given `-d` option |
| EchoServer.Server.Write | main.c:39-46 | One log line is appended to the current destination |
| EchoServer.Server.Deliver | main.c:53-57 | The handlers of the raised signals set their flags and nothing else |
| EchoServer.Server.PrintStats | main.c:48-50 | One statistics block holding the current counters is logged, and nothing else changes |
| EchoServer.Server.Diagnostic | main.c:116-122 | One heartbeat is logged, then `alarms` grows by one modulo 2^64 |
| EchoServer.Server.BecomeDaemon | main.c:71-114 | In daemon mode nothing changes; otherwise the destination becomes the log file, daemon mode is set, and the notice and a statistics block are logged there |
| EchoServer.Server.Routine | main.c:156-158 | The alarm, usr1 and hup checks run in that order, each clearing its flag after its action, as `EchoModel.Routine` gives |
| EchoServer.Server.Launch | main.c:248-252 | The startup `become_daemon` call is made when `run_as_daemon` is set, then the banner is logged |
| EchoServer.Server.OpenSite | main.c:150-165 | The open call's answer is handled as `Step` gives from the waiting phase: the state, whether the loop stops, and the outcome |
| EchoServer.Server.ReadSite | main.c:169-187 | A read's answer is handled as `Step` gives from the reading phase; the chunk goes through `buf`, and the new running total is returned |
| EchoServer.Server.MessageDone | main.c:190-197 | At end of file the message total is added to `bytes`, then the post-message dispatch runs, as `Step` gives |
| EchoServer.Server.Finish | main.c:200-204 | The `graceful_int` and `graceful_term` tails write what `Exit` gives for the outcome |
| EchoServer.Server.MainLoop | main.c:143-205 | The nested loop over a trace ends in the state, outcome and number of consumed events that `Run` gives |
| EchoProperties.RoutineEffects | main.c:156-158 | alarm, usr1 and hup are each acted on at most once, in that order, and each flag is cleared; `term` and `int` are unchanged; only `alarms` can change, by one; daemon mode is set when hup was pending; the log gains a heartbeat, a statistics block, and the daemon notice with its block, in that order, each exactly when its flag was set |
| EchoProperties.ActionsEffects | main.c:116-122 | `diagnostic` adds one to `alarms` and logs one heartbeat; `print_stats` logs the current counters and changes none of them |
| EchoProperties.BecomeDaemonOnce | main.c:71-114 | `become_daemon` is the identity in daemon mode; afterwards daemon mode is always set and the counters and flags are as they were; from interactive mode it moves to the log file and writes the notice and a statistics block there; a second call changes nothing |
| EchoProperties.LaunchWithDaemonOption | main.c:248 | With `-d`, startup writes only the banner, to the log file, and changes nothing else |
| EchoProperties.ExitShapes | main.c:200-204 | A termination exit logs the termination line and a statistics block; an interrupt exit logs the SIGINT line before those two; nothing else changes |
| EchoProperties.OpenSiteTerminal | main.c:152-159 | After an interrupted `open` with `term` or `int` set, the loop ends on that event, `Terminated` taking priority over `Interrupted`; no counter or mode changes, so alarm, usr1 and hup were not acted on; the log gains exactly the exit lines |
| EchoProperties.MessageSiteTerminal | main.c:190-194 | At the post-message check, `term` before `int` ends the loop after the message total has been added to `bytes`, and the log gains only the exit lines |
| EchoProperties.ReadSiteTerminate | main.c:172 | A terminate request during a read ends the loop with the counters unchanged, so the bytes of the unfinished message are not added; the log gains the termination line and a statistics block |
| EchoProperties.ReadSiteInterrupt | main.c:173 | An interrupt during a read, without a terminate request, continues the read: only the flags change, and `int` stays set |
| EchoProperties.StepCounters | main.c:165-190 | Only a successful `open` changes `received_messages`, adding one; only end of file changes `bytes`, adding the message's running total |
| EchoProperties.RunCountsOpens | main.c:151-165 | Over any run, `received_messages` grows by the number of successful opens among the consumed events, modulo 2^64 |
| EchoProperties.RunCountsBytes | main.c:166-190 | Over any run, `bytes` grows by the chunk lengths of exactly the messages whose end of file was consumed, modulo 2^64; `msg_bytes` tracks the running total of the message in progress |
| EchoProperties.MessageBytesFromOpen | main.c:165-190 | From a fresh connection, which starts with `msg_bytes` = 0, `bytes` counts exactly the messages read to the end |
| EchoProperties.LogChunkRecords | main.c:183-186 | A chunk is logged as its text, followed by one line end exactly when its last byte is not a newline; no counter, flag or destination changes |
| EchoProperties.LogChunkFramed | main.c:183-186 | Logging a chunk of 1 to `BUF_SIZE - 1` bytes keeps the log framed: every chunk has 1 to `BUF_SIZE - 1` bytes, every chunk not ending in a newline is followed by a line end, and there is no other line end |
| EchoProperties.DiagnosticSound | main.c:116-122 | The heartbeat and the `alarms` increment keep `alarms` equal to the number of heartbeats logged, modulo 2^64 |
| EchoProperties.RunSound | main.c:143-205 | Every run keeps the log framed and `alarms` equal to the heartbeat count; the SIGINT line is in the log exactly when the loop ended `Interrupted` |
| EchoProperties.ServeFromStart | main.c:218-254 | From `main()`'s start, with or without `-d`, a whole run leaves a framed log and `alarms` equal to its number of heartbeats, and logs the SIGINT line exactly when it ends `Interrupted` |
| EchoProperties.RunExtendsLog | main.c:143-205 | The loop only appends to the log |
| EchoProperties.RunStaysDaemon | main.c:110-111 | Once in daemon mode writing to the log file, the loop never leaves it, and every record it writes goes to the log file |
| EchoProperties.DeferredInterrupt | main.c:173-194 | With `int` pending and no terminate request, a message of chunks and interrupted reads is read to its end; its bytes are added; the loop ends `Interrupted` on the end of file, with no heartbeat, statistics or daemon switch in between; the log gains the chunks and then the exit lines |

## Left out

- Signal delivery itself, `sigaction`/`signal`, and ignoring `SIGQUIT` (main.c:53-69, 239-246). Handlers run only where an `OpenIntr`/`ReadIntr` event says they did, and concurrency is not modelled.
- The process plumbing inside `become_daemon`: `fork`, `setsid`, `umask`, `chdir`, the `fopen` of the log and its failure, `dup2` and `close` (main.c:74-108). Only the guard and the mode and destination switch are modelled.
- `alarm()` re-arming and the wall-clock timestamp in `diagnostic` (main.c:117-119, 146). A heartbeat is an abstract record without a time.
- `ensure_fifo`, `unlink` and `fclose` at exit. These are filesystem I/O.
- `perror` followed by `exit`. A failing `open` or `read` is the `Fatal` outcome, which logs nothing either.
- A failing `fopen` of the log at startup (main.c:232-236). The initial state assumes it succeeded.
- `getopt`, `atoi` and `usage`. Only `-d` is an input. The FIFO path, the log path and `alarm_sec` are not part of the state, and no counter depends on them.
- `vfprintf` formatting and `fflush`. Log lines are abstract records, and `fputs` writing only up to an embedded NUL byte is not modelled.
- `close(fd)` of the pipe. No file descriptors are modelled.
- EchoModel.Step: its own contract states only the phase it moves to and that a stop has a real outcome. What each step does to the counters, flags and log is stated in the EchoProperties lemmas and `EchoServer` methods listed above.
