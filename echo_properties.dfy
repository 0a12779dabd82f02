/** What main_loop promises about its counters, its log and its signal
    handling, proved about EchoModel.Run and the functions it is made of. */
module EchoProperties {
  import opened EchoModel

  // ---------------------------------------------------------------------
  // Reference definitions over traces and logs
  // ---------------------------------------------------------------------

  /** The number of successful opens among the first n events of t. */
  function Opens(t: seq<Event>, n: nat): nat
    requires n <= |t|
    decreases n
  {
    if n == 0 then 0 else (if t[0].OpenOk? then 1 else 0) + Opens(t[1..], n - 1)
  }

  /** What an event finishes: the running total m at end of file, else 0. */
  function Finished(m: nat, e: Event): nat {
    if e.ReadEof? then m else 0
  }

  /** The running total of the current message after an event: a chunk adds
      its length, and a new connection or an end of file starts again at 0. */
  function MsgAfter(m: nat, e: Event): nat {
    match e
    case ReadData(b) => m + |b|
    case ReadEof => 0
    case OpenOk => 0
    case _ => m
  }

  /** The total length of the chunks of every message whose end of file lies
      among the first n events of t; m is what was already read of a message
      in progress. */
  function CompletedBytes(m: nat, t: seq<Event>, n: nat): nat
    requires n <= |t|
    decreases n
  {
    if n == 0 then 0 else Finished(m, t[0]) + CompletedBytes(MsgAfter(m, t[0]), t[1..], n - 1)
  }

  /** The total length of a sequence of chunks. */
  function ChunkBytes(t: seq<Event>): nat
    decreases |t|
  {
    if t == [] then 0 else (if t[0].ReadData? then |t[0].bytes| else 0) + ChunkBytes(t[1..])
  }

  /** The log records that a run of chunk events writes. */
  function ChunkLog(k: Sink, t: seq<Event>): seq<Record>
    decreases |t|
  {
    if t == [] then []
    else
      match t[0]
      case ReadData(b) =>
        [Record(k, Text(b))] + (if |b| > 0 && b[|b| - 1] != NEWLINE then [Record(k, LineEnd)] else [])
        + ChunkLog(k, t[1..])
      case _ => ChunkLog(k, t[1..])
  }

  /** A chunk whose last byte is not a newline. */
  predicate OpenChunk(e: Entry) {
    e.Text? && |e.chunk| > 0 && e.chunk[|e.chunk| - 1] != NEWLINE
  }

  /** Every chunk in the log holds 1 to BUF_SIZE - 1 bytes, every chunk that
      does not end in a newline is followed by one LineEnd, and there is no
      other LineEnd. */
  ghost predicate Framed(log: seq<Record>) {
    (forall i | 0 <= i < |log| :: log[i].entry.Text? ==> 1 <= |log[i].entry.chunk| <= BUF_SIZE - 1)
    && (forall i | 0 <= i < |log| :: OpenChunk(log[i].entry) ==> i + 1 < |log| && log[i + 1].entry == LineEnd)
    && (forall i | 0 <= i < |log| :: log[i].entry == LineEnd ==> 0 < i && OpenChunk(log[i - 1].entry))
  }

  /** The number of heartbeat lines in a log. */
  function Heartbeats(log: seq<Record>): nat
    decreases |log|
  {
    if log == [] then 0
    else Heartbeats(log[..|log| - 1]) + (if log[|log| - 1].entry == Heartbeat then 1 else 0)
  }

  /** The alarms counter is the number of heartbeat lines logged, modulo 2^64,
      and the chunks in the log are framed. */
  ghost predicate Sound(s: State) {
    Framed(s.log) && s.stats.alarms == Wrap(Heartbeats(s.log))
  }

  ghost predicate NoSigint(log: seq<Record>) {
    forall i | 0 <= i < |log| :: log[i].entry != SigintNotice
  }

  /** Every record is written to the log file. */
  ghost predicate AllToLogFile(log: seq<Record>) {
    forall i | 0 <= i < |log| :: log[i].sink == LogFile
  }

  // ---------------------------------------------------------------------
  // Arithmetic
  // ---------------------------------------------------------------------

  lemma WrapAdd(a: nat, b: nat)
    ensures Wrap(Wrap(a) + b) == Wrap(a + b)
  {
  }

  /** Adding a then b to a wrapping counter is adding a + b. */
  lemma WrapChain(x: nat, a: nat, mid: nat, b: nat, total: nat)
    requires mid == Wrap(x + a) && total == a + b
    ensures Wrap(mid + b) == Wrap(x + total)
  {
    WrapAdd(x + a, b);
  }

  // ---------------------------------------------------------------------
  // The dispatch routine, the actions and the daemon switch
  // ---------------------------------------------------------------------

  /** alarm, usr1 and hup are each handled at most once, in that order, and
      each flag is cleared; term and int are left as they are. Only the alarm
      action touches a counter. */
  lemma RoutineEffects(s: State)
    ensures var r := Routine(s);
      && r.pending == s.pending.(alarm := false, usr1 := false, hup := false)
      && r.stats == s.stats.(alarms := if s.pending.alarm then Wrap(s.stats.alarms + 1) else s.stats.alarms)
      && r.runAsDaemon == (s.runAsDaemon || s.pending.hup)
      && r.sink == (if s.pending.hup && !s.runAsDaemon then LogFile else s.sink)
      && r.log == s.log
                  + (if s.pending.alarm then [Record(s.sink, Heartbeat)] else [])
                  + (if s.pending.usr1 then [Record(s.sink, StatsBlock(r.stats))] else [])
                  + (if s.pending.hup && !s.runAsDaemon
                     then [Record(LogFile, DaemonNotice), Record(LogFile, StatsBlock(r.stats))] else [])
  {
    var a := if s.pending.alarm then Clear(Diagnostic(s), SigAlrm) else s;
    var u := if a.pending.usr1 then Clear(PrintStats(a), SigUsr1) else a;
    assert u.stats == a.stats && a.stats == Routine(s).stats;
  }

  /** diagnostic adds one to alarms and logs one heartbeat; print_stats
      changes no counter and logs one block holding the current counters. */
  lemma ActionsEffects(s: State)
    ensures Diagnostic(s).stats == s.stats.(alarms := Wrap(s.stats.alarms + 1))
    ensures Diagnostic(s).log == s.log + [Record(s.sink, Heartbeat)]
    ensures PrintStats(s).stats == s.stats
    ensures PrintStats(s).log == s.log + [Record(s.sink, StatsBlock(s.stats))]
  {
  }

  /** become_daemon does nothing in daemon mode; otherwise it switches to
      daemon mode and to the log file, where it logs the notice and the
      counters. A second call changes nothing. */
  lemma BecomeDaemonOnce(s: State)
    ensures s.runAsDaemon ==> BecomeDaemon(s) == s
    ensures BecomeDaemon(s).runAsDaemon
    ensures !s.runAsDaemon ==> BecomeDaemon(s).sink == LogFile
                               && BecomeDaemon(s).log == s.log + [Record(LogFile, DaemonNotice), Record(LogFile, StatsBlock(s.stats))]
    ensures BecomeDaemon(s).stats == s.stats && BecomeDaemon(s).pending == s.pending
    ensures BecomeDaemon(BecomeDaemon(s)) == BecomeDaemon(s)
  {
  }

  /** With -d the startup call to become_daemon returns at once: the log file
      opened by main() is kept and only the banner is written. */
  lemma LaunchWithDaemonOption()
    ensures Launch(Initial(true)) == Initial(true).(log := [Record(LogFile, Started)])
  {
  }

  // ---------------------------------------------------------------------
  // The three dispatch sites
  // ---------------------------------------------------------------------

  /** The exit lines main_loop writes after graceful_int and graceful_term;
      no counter, flag or destination changes. */
  lemma ExitShapes(s: State)
    ensures Exit(s, Terminated).log == s.log + [Record(s.sink, TermNotice), Record(s.sink, StatsBlock(s.stats))]
    ensures Exit(s, Interrupted).log
            == s.log + [Record(s.sink, SigintNotice), Record(s.sink, TermNotice), Record(s.sink, StatsBlock(s.stats))]
    ensures Exit(s, Terminated).(log := s.log) == s && Exit(s, Interrupted).(log := s.log) == s
  {
  }

  /** The outcome of a terminal dispatch: flag_term wins over flag_int. */
  function Ending(f: Flags): Outcome {
    if f.term then Terminated else Interrupted
  }

  lemma RunOpenStop(s: State, raised: set<Signal>, rest: seq<Event>)
    requires ValidTrace(false, [OpenIntr(raised)] + rest)
    requires var t := Raise(s, raised); t.pending.term || t.pending.intr
    ensures Run(s, Idle, [OpenIntr(raised)] + rest)
            == Final(Exit(Raise(s, raised), Ending(Raise(s, raised).pending)), Ending(Raise(s, raised).pending), 1)
  {
    var t := [OpenIntr(raised)] + rest;
    assert t[0] == OpenIntr(raised);
    RunStop(s, Idle, t);
  }

  /** At the open EINTR site flag_term is looked at before flag_int, and
      either one ends the loop before alarm, usr1 or hup is acted on: no
      counter changes, and the log gains only the exit lines. */
  lemma OpenSiteTerminal(s: State, raised: set<Signal>, rest: seq<Event>)
    requires ValidTrace(false, [OpenIntr(raised)] + rest)
    requires var t := Raise(s, raised); t.pending.term || t.pending.intr
    ensures var f := Run(s, Idle, [OpenIntr(raised)] + rest);
      && f.consumed == 1
      && f.outcome == (if Raise(s, raised).pending.term then Terminated else Interrupted)
      && f.state.stats == s.stats && f.state.runAsDaemon == s.runAsDaemon
      && f.state.pending == Raise(s, raised).pending
    ensures var f := Run(s, Idle, [OpenIntr(raised)] + rest);
      f.outcome == Terminated ==>
        f.state.log == s.log + [Record(s.sink, TermNotice), Record(s.sink, StatsBlock(s.stats))]
    ensures var f := Run(s, Idle, [OpenIntr(raised)] + rest);
      f.outcome == Interrupted ==>
        f.state.log == s.log + [Record(s.sink, SigintNotice), Record(s.sink, TermNotice), Record(s.sink, StatsBlock(s.stats))]
  {
    RunOpenStop(s, raised, rest);
    ExitShapes(Raise(s, raised));
  }

  /** The post-message dispatch when flag_term or flag_int is set. */
  lemma RunEofStop(s: State, m: u64, rest: seq<Event>)
    requires ValidTrace(true, [ReadEof] + rest)
    requires s.pending.term || s.pending.intr
    ensures var t := s.(stats := s.stats.(bytes := Wrap(s.stats.bytes + m)));
      Run(s, Reading(m), [ReadEof] + rest) == Final(Exit(t, Ending(s.pending)), Ending(s.pending), 1)
  {
    var t := [ReadEof] + rest;
    assert t[0] == ReadEof;
    EofStops(s, m);
    RunStop(s, Reading(m), t);
  }

  /** At the post-message site the same order holds, and the message's byte
      total has already been added when the loop ends. */
  lemma MessageSiteTerminal(s: State, m: u64, rest: seq<Event>)
    requires ValidTrace(true, [ReadEof] + rest)
    requires s.pending.term || s.pending.intr
    ensures var f := Run(s, Reading(m), [ReadEof] + rest);
      && f.consumed == 1
      && f.outcome == (if s.pending.term then Terminated else Interrupted)
      && f.state.stats == s.stats.(bytes := Wrap(s.stats.bytes + m))
    ensures var f := Run(s, Reading(m), [ReadEof] + rest);
      f.outcome == Terminated ==>
        f.state.log == s.log + [Record(s.sink, TermNotice), Record(s.sink, StatsBlock(f.state.stats))]
    ensures var f := Run(s, Reading(m), [ReadEof] + rest);
      f.outcome == Interrupted ==>
        f.state.log == s.log + [Record(s.sink, SigintNotice), Record(s.sink, TermNotice), Record(s.sink, StatsBlock(f.state.stats))]
  {
    RunEofStop(s, m, rest);
    ExitShapes(s.(stats := s.stats.(bytes := Wrap(s.stats.bytes + m))));
  }

  lemma EofStops(s: State, m: u64)
    requires s.pending.term || s.pending.intr
    ensures Step(s, Reading(m), ReadEof)
            == Stop(s.(stats := s.stats.(bytes := Wrap(s.stats.bytes + m))), Ending(s.pending))
  {
  }

  /** A terminate request during a read closes the message without adding its
      bytes: the loop ends with the counters as they were. */
  lemma ReadSiteTerminate(s: State, m: u64, raised: set<Signal>, rest: seq<Event>)
    requires ValidTrace(true, [ReadIntr(raised)] + rest)
    requires Raise(s, raised).pending.term
    ensures var f := Run(s, Reading(m), [ReadIntr(raised)] + rest);
      && f.outcome == Terminated && f.consumed == 1
      && f.state.stats == s.stats
      && f.state.log == s.log + [Record(s.sink, TermNotice), Record(s.sink, StatsBlock(s.stats))]
  {
    var t := [ReadIntr(raised)] + rest;
    assert t[0] == ReadIntr(raised);
    assert Step(s, Reading(m), ReadIntr(raised)) == Stop(Raise(s, raised), Terminated);
    RunStop(s, Reading(m), t);
    ExitShapes(Raise(s, raised));
  }

  /** An interrupt during a read does not end the loop and skips alarm, usr1
      and hup for that wakeup: only the flags change, and flag_int stays set. */
  lemma ReadSiteInterrupt(s: State, m: u64, raised: set<Signal>)
    requires var t := Raise(s, raised); !t.pending.term && t.pending.intr
    ensures Step(s, Reading(m), ReadIntr(raised)) == Next(Raise(s, raised), Reading(m))
    ensures Raise(s, raised).pending.intr
  {
  }

  // ---------------------------------------------------------------------
  // Whole runs
  // ---------------------------------------------------------------------

  /** How one step changes the message and byte counters. */
  lemma StepCounters(s: State, p: Phase, e: Event)
    requires FitsSite(p.Reading?, e)
    ensures var st := Step(s, p, e).state.stats;
      && st.receivedMessages == (if e.OpenOk? then Wrap(s.stats.receivedMessages + 1) else s.stats.receivedMessages)
      && st.bytes == (if e.ReadEof? then Wrap(s.stats.bytes + p.msgBytes) else s.stats.bytes)
  {
    match e
    case OpenIntr(r) => RoutineEffects(Raise(s, r));
    case ReadIntr(r) => RoutineEffects(Raise(s, r));
    case ReadEof => RoutineEffects(s.(stats := s.stats.(bytes := Wrap(s.stats.bytes + p.msgBytes))));
    case _ =>
  }

  lemma ExitCounters(s: State, o: Outcome)
    ensures Exit(s, o).stats == s.stats
  {
  }

  /** received_messages grows by exactly one per successful open among the
      events the loop consumed, and by nothing else. */
  lemma {:induction false} RunCountsOpens(s: State, p: Phase, t: seq<Event>)
    requires ValidTrace(p.Reading?, t)
    ensures var f := Run(s, p, t);
      f.state.stats.receivedMessages == Wrap(s.stats.receivedMessages + Opens(t, f.consumed))
    decreases |t|, 2
  {
    if t != [] {
      if Step(s, p, t[0]).Stop? {
        StopCountsOpens(s, p, t);
      } else {
        NextCountsOpens(s, p, t);
      }
    }
  }

  /** RunCountsOpens when the first event ends the loop. */
  lemma StopCountsOpens(s: State, p: Phase, t: seq<Event>)
    requires ValidTrace(p.Reading?, t) && t != [] && Step(s, p, t[0]).Stop?
    ensures var f := Run(s, p, t);
      f.state.stats.receivedMessages == Wrap(s.stats.receivedMessages + Opens(t, f.consumed))
  {
    var f := Run(s, p, t);
    var e := t[0];
    var r := Step(s, p, e);
    StepCounters(s, p, e);
    RunStop(s, p, t);
    ExitCounters(r.state, r.outcome);
  }

  /** RunCountsOpens when the first event lets the loop go on. */
  lemma {:induction false} NextCountsOpens(s: State, p: Phase, t: seq<Event>)
    requires ValidTrace(p.Reading?, t) && t != [] && Step(s, p, t[0]).Next?
    ensures var f := Run(s, p, t);
      f.state.stats.receivedMessages == Wrap(s.stats.receivedMessages + Opens(t, f.consumed))
    decreases |t|, 1
  {
    var r := Step(s, p, t[0]);
    StepCounters(s, p, t[0]);
    RunNext(s, p, t);
    LaterOpens(r.state, r.phase, t, s.stats.receivedMessages);
  }

  /** The rest of a run after a step that went on from a message count n0. */
  lemma {:induction false} LaterOpens(s1: State, p1: Phase, t: seq<Event>, n0: nat)
    requires t != [] && ValidTrace(p1.Reading?, t[1..])
    requires s1.stats.receivedMessages == Wrap(n0 + if t[0].OpenOk? then 1 else 0)
    ensures var g := Run(s1, p1, t[1..]);
      g.state.stats.receivedMessages == Wrap(n0 + Opens(t, g.consumed + 1))
    decreases |t|, 0
  {
    var x := t[1..];
    RunCountsOpens(s1, p1, x);
    var g := Run(s1, p1, x);
    WrapChain(n0, if t[0].OpenOk? then 1 else 0, s1.stats.receivedMessages, Opens(x, g.consumed),
              Opens(t, g.consumed + 1));
  }

  /** One step adds to bytes what it finishes, and keeps msg_bytes equal to
      the running total modulo 2^64. */
  lemma StepBytes(s: State, p: Phase, e: Event, m: nat)
    requires FitsSite(p.Reading?, e)
    requires p.Reading? ==> p.msgBytes == Wrap(m)
    ensures Step(s, p, e).state.stats.bytes == Wrap(s.stats.bytes + Finished(m, e))
    ensures var r := Step(s, p, e); r.Next? && r.phase.Reading? ==> r.phase.msgBytes == Wrap(MsgAfter(m, e))
  {
    StepCounters(s, p, e);
    match e
    case ReadEof => WrapAdd(m, s.stats.bytes);
    case ReadData(b) => WrapAdd(m, |b|);
    case _ =>
  }

  /** bytes grows by the chunk lengths of each message that reached end of
      file among the consumed events, and only then; m is the running total
      of a message in progress, as msg_bytes holds it modulo 2^64. */
  lemma {:induction false} RunCountsBytes(s: State, p: Phase, t: seq<Event>, m: nat)
    requires ValidTrace(p.Reading?, t)
    requires p.Reading? ==> p.msgBytes == Wrap(m)
    ensures var f := Run(s, p, t);
      f.state.stats.bytes == Wrap(s.stats.bytes + CompletedBytes(m, t, f.consumed))
    decreases |t|, 2
  {
    if t != [] {
      if Step(s, p, t[0]).Stop? {
        StopCountsBytes(s, p, t, m);
      } else {
        NextCountsBytes(s, p, t, m);
      }
    }
  }

  /** RunCountsBytes when the first event ends the loop. */
  lemma StopCountsBytes(s: State, p: Phase, t: seq<Event>, m: nat)
    requires ValidTrace(p.Reading?, t) && t != [] && Step(s, p, t[0]).Stop?
    requires p.Reading? ==> p.msgBytes == Wrap(m)
    ensures var f := Run(s, p, t);
      f.state.stats.bytes == Wrap(s.stats.bytes + CompletedBytes(m, t, f.consumed))
  {
    var f := Run(s, p, t);
    var e := t[0];
    var r := Step(s, p, e);
    StepBytes(s, p, e, m);
    RunStop(s, p, t);
    ExitCounters(r.state, r.outcome);
  }

  /** RunCountsBytes when the first event lets the loop go on. */
  lemma {:induction false} NextCountsBytes(s: State, p: Phase, t: seq<Event>, m: nat)
    requires ValidTrace(p.Reading?, t) && t != [] && Step(s, p, t[0]).Next?
    requires p.Reading? ==> p.msgBytes == Wrap(m)
    ensures var f := Run(s, p, t);
      f.state.stats.bytes == Wrap(s.stats.bytes + CompletedBytes(m, t, f.consumed))
    decreases |t|, 1
  {
    var r := Step(s, p, t[0]);
    StepBytes(s, p, t[0], m);
    RunNext(s, p, t);
    LaterBytes(r.state, r.phase, t, m, s.stats.bytes);
  }

  /** The rest of a run after a step that went on from a byte count b0. */
  lemma {:induction false} LaterBytes(s1: State, p1: Phase, t: seq<Event>, m: nat, b0: nat)
    requires t != [] && ValidTrace(p1.Reading?, t[1..])
    requires p1.Reading? ==> p1.msgBytes == Wrap(MsgAfter(m, t[0]))
    requires s1.stats.bytes == Wrap(b0 + Finished(m, t[0]))
    ensures var g := Run(s1, p1, t[1..]);
      g.state.stats.bytes == Wrap(b0 + CompletedBytes(m, t, g.consumed + 1))
    decreases |t|, 0
  {
    var x := t[1..];
    RunCountsBytes(s1, p1, x, MsgAfter(m, t[0]));
    var g := Run(s1, p1, x);
    WrapChain(b0, Finished(m, t[0]), s1.stats.bytes, CompletedBytes(MsgAfter(m, t[0]), x, g.consumed),
              CompletedBytes(m, t, g.consumed + 1));
  }

  /** From the point where the writer of a message has connected: bytes ends
      up counting exactly the messages that were read to the end. */
  lemma MessageBytesFromOpen(s: State, t: seq<Event>)
    requires ValidTrace(true, t)
    ensures var f := Run(s, Reading(0), t);
      f.state.stats.bytes == Wrap(s.stats.bytes + CompletedBytes(0, t, f.consumed))
  {
    RunCountsBytes(s, Reading(0), t, 0);
  }

  // Framing and heartbeat count, one record at a time

  lemma {:induction false} HeartbeatsSnoc(log: seq<Record>, r: Record)
    ensures Heartbeats(log + [r]) == Heartbeats(log) + (if r.entry == Heartbeat then 1 else 0)
  {
    assert (log + [r])[..|log|] == log;
  }

  /** Appending a record that is not a chunk and not a line end. */
  lemma EmitPlain(s: State, e: Entry)
    requires Framed(s.log) && !e.Text? && e != LineEnd
    ensures Framed(Emit(s, e).log)
    ensures Heartbeats(Emit(s, e).log) == Heartbeats(s.log) + (if e == Heartbeat then 1 else 0)
    ensures NoSigint(s.log) && e != SigintNotice ==> NoSigint(Emit(s, e).log)
  {
    var log := Emit(s, e).log;
    HeartbeatsSnoc(s.log, Record(s.sink, e));
    forall i | 0 <= i < |log| && OpenChunk(log[i].entry)
      ensures i + 1 < |log| && log[i + 1].entry == LineEnd
    {
      assert i < |s.log|;
    }
  }

  /** A chunk that ends in a newline, appended to a framed log. */
  lemma {:induction false} FramedClosedChunk(log: seq<Record>, r: Record)
    requires Framed(log) && r.entry.Text? && 1 <= |r.entry.chunk| <= BUF_SIZE - 1 && !OpenChunk(r.entry)
    ensures Framed(log + [r])
  {
    var l := log + [r];
    forall i | 0 <= i < |l| && OpenChunk(l[i].entry)
      ensures i + 1 < |l| && l[i + 1].entry == LineEnd
    {
      assert i < |log| && l[i] == log[i] && l[i + 1] == log[i + 1];
    }
    forall i | 0 <= i < |l| && l[i].entry == LineEnd
      ensures 0 < i && OpenChunk(l[i - 1].entry)
    {
      assert i < |log| && l[i] == log[i] && l[i - 1] == log[i - 1];
    }
  }

  /** A chunk that does not end in a newline, and its LineEnd, appended to a
      framed log. */
  lemma {:induction false} FramedOpenChunk(log: seq<Record>, r: Record, n: Record)
    requires Framed(log) && r.entry.Text? && 1 <= |r.entry.chunk| <= BUF_SIZE - 1 && OpenChunk(r.entry)
    requires n.entry == LineEnd
    ensures Framed(log + [r] + [n])
  {
    var l := log + [r] + [n];
    forall i | 0 <= i < |l| && l[i].entry.Text?
      ensures 1 <= |l[i].entry.chunk| <= BUF_SIZE - 1
    {
      if i < |log| {
        assert l[i] == log[i];
      }
    }
    forall i | 0 <= i < |l| && OpenChunk(l[i].entry)
      ensures i + 1 < |l| && l[i + 1].entry == LineEnd
    {
      if i < |log| {
        assert l[i] == log[i];
        if i + 1 < |log| {
          assert l[i + 1] == log[i + 1];
        } else {
          assert false;
        }
      }
    }
    forall i | 0 <= i < |l| && l[i].entry == LineEnd
      ensures 0 < i && OpenChunk(l[i - 1].entry)
    {
      if i < |log| {
        assert l[i] == log[i] && l[i - 1] == log[i - 1];
      }
    }
  }

  lemma LogChunkFramed(s: State, b: seq<byte>)
    requires Framed(s.log) && 1 <= |b| <= BUF_SIZE - 1
    ensures Framed(LogChunk(s, b).log)
  {
    if b[|b| - 1] != NEWLINE {
      FramedOpenChunk(s.log, Record(s.sink, Text(b)), Record(s.sink, LineEnd));
    } else {
      FramedClosedChunk(s.log, Record(s.sink, Text(b)));
    }
  }

  lemma LogChunkBeats(s: State, b: seq<byte>)
    requires 1 <= |b|
    ensures Heartbeats(LogChunk(s, b).log) == Heartbeats(s.log)
  {
    HeartbeatsSnoc(s.log, Record(s.sink, Text(b)));
    if b[|b| - 1] != NEWLINE {
      HeartbeatsSnoc(Emit(s, Text(b)).log, Record(s.sink, LineEnd));
    }
  }

  lemma LogChunkNoSigint(s: State, b: seq<byte>)
    requires 1 <= |b| && NoSigint(s.log)
    ensures NoSigint(LogChunk(s, b).log)
  {
    var l := LogChunk(s, b).log;
    forall i | 0 <= i < |l| ensures l[i].entry != SigintNotice {
      if i < |s.log| {
        assert l[i] == s.log[i];
      }
    }
  }

  lemma LogChunkSound(s: State, b: seq<byte>)
    requires Sound(s) && 1 <= |b| <= BUF_SIZE - 1
    ensures Sound(LogChunk(s, b))
    ensures NoSigint(s.log) ==> NoSigint(LogChunk(s, b).log)
  {
    LogChunkFramed(s, b);
    LogChunkBeats(s, b);
    LogChunkRecords(s, b);
    if NoSigint(s.log) {
      LogChunkNoSigint(s, b);
    }
  }

  lemma DiagnosticSound(s: State)
    requires Sound(s)
    ensures Sound(Diagnostic(s))
    ensures NoSigint(s.log) ==> NoSigint(Diagnostic(s).log)
  {
    EmitPlain(s, Heartbeat);
    WrapAdd(Heartbeats(s.log), 1);
  }

  lemma PrintStatsSound(s: State)
    requires Sound(s)
    ensures Sound(PrintStats(s))
    ensures NoSigint(s.log) ==> NoSigint(PrintStats(s).log)
  {
    EmitPlain(s, StatsBlock(s.stats));
  }

  lemma BecomeDaemonSound(s: State)
    requires Sound(s)
    ensures Sound(BecomeDaemon(s))
    ensures NoSigint(s.log) ==> NoSigint(BecomeDaemon(s).log)
  {
    if !s.runAsDaemon {
      var t := s.(sink := LogFile, runAsDaemon := true);
      EmitPlain(t, DaemonNotice);
      PrintStatsSound(Emit(t, DaemonNotice));
    }
  }

  /** Clearing a flag changes neither the log nor the counters. */
  lemma ClearSound(s: State, g: Signal)
    requires Sound(s)
    ensures Sound(Clear(s, g)) && Clear(s, g).log == s.log
  {
  }

  lemma RoutineSound(s: State)
    requires Sound(s)
    ensures Sound(Routine(s))
    ensures NoSigint(s.log) ==> NoSigint(Routine(s).log)
  {
    var a := if s.pending.alarm then Clear(Diagnostic(s), SigAlrm) else s;
    if s.pending.alarm {
      DiagnosticSound(s);
      ClearSound(Diagnostic(s), SigAlrm);
    }
    var u := if a.pending.usr1 then Clear(PrintStats(a), SigUsr1) else a;
    if a.pending.usr1 {
      PrintStatsSound(a);
      ClearSound(PrintStats(a), SigUsr1);
    }
    if u.pending.hup {
      BecomeDaemonSound(u);
      ClearSound(BecomeDaemon(u), SigHup);
    }
  }

  lemma ExitSound(s: State, o: Outcome)
    requires Sound(s)
    ensures Sound(Exit(s, o))
    ensures NoSigint(s.log) && o != Interrupted ==> NoSigint(Exit(s, o).log)
  {
    match o
    case Interrupted =>
      EmitPlain(s, SigintNotice);
      EmitPlain(Emit(s, SigintNotice), TermNotice);
      PrintStatsSound(Emit(Emit(s, SigintNotice), TermNotice));
    case Terminated =>
      EmitPlain(s, TermNotice);
      PrintStatsSound(Emit(s, TermNotice));
    case _ =>
  }

  lemma StepSound(s: State, p: Phase, e: Event)
    requires Sound(s) && FitsSite(p.Reading?, e)
    ensures Sound(Step(s, p, e).state)
    ensures NoSigint(s.log) ==> NoSigint(Step(s, p, e).state.log)
  {
    if e.OpenIntr? || e.ReadIntr? {
      WakeupSound(s, p, e);
    } else if e.ReadEof? {
      EofSound(s, p);
    } else if e.ReadData? {
      ChunkSound(s, p, e.bytes);
    } else {
      QuietStep(s, p, e);
    }
  }

  lemma WakeupSound(s: State, p: Phase, e: Event)
    requires Sound(s) && FitsSite(p.Reading?, e) && (e.OpenIntr? || e.ReadIntr?)
    ensures Sound(Step(s, p, e).state)
    ensures NoSigint(s.log) ==> NoSigint(Step(s, p, e).state.log)
  {
    var t := Raise(s, e.raised);
    assert t.log == s.log && t.stats == s.stats;
    RoutineSound(t);
    StepAtWakeup(s, p, e);
  }

  lemma EofSound(s: State, p: Phase)
    requires Sound(s) && p.Reading?
    ensures Sound(Step(s, p, ReadEof).state)
    ensures NoSigint(s.log) ==> NoSigint(Step(s, p, ReadEof).state.log)
  {
    var t := s.(stats := s.stats.(bytes := Wrap(s.stats.bytes + p.msgBytes)));
    assert t.log == s.log && t.stats.alarms == s.stats.alarms;
    assert Sound(t);
    RoutineSound(t);
    StepAtEof(s, p);
  }

  /** The state an end of file leaves: the message total added, then either
      a terminal flag or the routine checks. */
  lemma StepAtEof(s: State, p: Phase)
    requires p.Reading?
    ensures var t := s.(stats := s.stats.(bytes := Wrap(s.stats.bytes + p.msgBytes)));
      Step(s, p, ReadEof).state == if t.pending.term || t.pending.intr then t else Routine(t)
  {
  }

  /** The state an interrupted open or read leaves: the flags raised, then
      either a pending term or int, or the routine checks. */
  lemma StepAtWakeup(s: State, p: Phase, e: Event)
    requires FitsSite(p.Reading?, e) && (e.OpenIntr? || e.ReadIntr?)
    ensures var t := Raise(s, e.raised);
      Step(s, p, e).state == if t.pending.term || t.pending.intr then t else Routine(t)
  {
  }

  /** The state a chunk leaves: the chunk logged. */
  lemma StepAtChunk(s: State, p: Phase, b: seq<byte>)
    requires FitsSite(p.Reading?, ReadData(b))
    ensures Step(s, p, ReadData(b)).state == LogChunk(s, b)
  {
  }

  lemma ChunkSound(s: State, p: Phase, b: seq<byte>)
    requires Sound(s) && FitsSite(p.Reading?, ReadData(b))
    ensures Sound(Step(s, p, ReadData(b)).state)
    ensures NoSigint(s.log) ==> NoSigint(Step(s, p, ReadData(b)).state.log)
  {
    LogChunkSound(s, b);
    StepAtChunk(s, p, b);
  }

  /** The steps that write nothing: a connection, and the two failures. */
  lemma QuietStep(s: State, p: Phase, e: Event)
    requires FitsSite(p.Reading?, e) && (e.OpenOk? || e.OpenFail? || e.ReadFail?)
    ensures var r := Step(s, p, e).state;
      r.log == s.log && r.stats.alarms == s.stats.alarms && r.sink == s.sink && r.runAsDaemon == s.runAsDaemon
  {
  }

  /** The chunk framing and the heartbeat count hold after every run that
      starts from a state where they hold, and the SIGINT line is logged by
      the Interrupt exit and by nothing else. */
  lemma {:induction false} RunSound(s: State, p: Phase, t: seq<Event>)
    requires ValidTrace(p.Reading?, t) && Sound(s)
    ensures Sound(Run(s, p, t).state)
    ensures NoSigint(s.log) ==> (NoSigint(Run(s, p, t).state.log) <==> Run(s, p, t).outcome != Interrupted)
    decreases |t|
  {
    if t != [] {
      var r := Step(s, p, t[0]);
      StepSound(s, p, t[0]);
      if r.Stop? {
        ExitSound(r.state, r.outcome);
        if r.outcome == Interrupted {
          var l := Exit(r.state, r.outcome).log;
          assert l[|l| - 3].entry == SigintNotice;
        }
      } else {
        RunSound(r.state, r.phase, t[1..]);
      }
    }
  }

  /** A run from main()'s start state: every chunk written is framed, and
      alarms equals the number of heartbeat lines, modulo 2^64. */
  lemma ServeFromStart(daemonOption: bool, t: seq<Event>)
    requires ValidTrace(false, t)
    ensures var f := Run(Launch(Initial(daemonOption)), Idle, t);
      && Framed(f.state.log)
      && f.state.stats.alarms == Wrap(Heartbeats(f.state.log))
      && (f.outcome == Interrupted <==> !NoSigint(f.state.log))
  {
    var s0 := Initial(daemonOption);
    assert Sound(s0) && NoSigint(s0.log);
    var t0 := if s0.runAsDaemon then BecomeDaemon(s0) else s0;
    if s0.runAsDaemon {
      BecomeDaemonSound(s0);
    }
    EmitPlain(t0, Started);
    RunSound(Launch(s0), Idle, t);
  }

  /** One step only appends to the log. */
  lemma StepExtendsLog(s: State, p: Phase, e: Event)
    requires FitsSite(p.Reading?, e)
    ensures s.log <= Step(s, p, e).state.log
  {
    if e.OpenIntr? || e.ReadIntr? {
      StepAtWakeup(s, p, e);
      RoutineExtendsLog(Raise(s, e.raised));
    } else if e.ReadEof? {
      StepAtEof(s, p);
      RoutineExtendsLog(s.(stats := s.stats.(bytes := Wrap(s.stats.bytes + p.msgBytes))));
    } else if e.ReadData? {
      StepAtChunk(s, p, e.bytes);
    } else {
      QuietStep(s, p, e);
    }
  }

  lemma RoutineExtendsLog(s: State)
    ensures s.log <= Routine(s).log
  {
    RoutineEffects(s);
  }

  /** The log only grows. */
  lemma {:induction false} RunExtendsLog(s: State, p: Phase, t: seq<Event>)
    requires ValidTrace(p.Reading?, t)
    ensures s.log <= Run(s, p, t).state.log
    decreases |t|
  {
    if t != [] {
      var r := Step(s, p, t[0]);
      StepExtendsLog(s, p, t[0]);
      if r.Stop? {
        RunStop(s, p, t);
        ExitShapes(r.state);
      } else {
        RunNext(s, p, t);
        RunExtendsLog(r.state, r.phase, t[1..]);
      }
    }
  }

  /** In daemon mode, writing to the log file, with every record written
      since the log was base also written to the log file. */
  ghost predicate LoggingToFile(s: State, base: seq<Record>) {
    s.runAsDaemon && s.sink == LogFile && base <= s.log && AllToLogFile(s.log[|base|..])
  }

  lemma EmitToFile(s: State, base: seq<Record>, e: Entry)
    requires LoggingToFile(s, base)
    ensures LoggingToFile(Emit(s, e), base)
  {
    var l := Emit(s, e).log;
    forall i | 0 <= i < |l[|base|..]| ensures l[|base|..][i].sink == LogFile {
      if |base| + i < |s.log| {
        assert l[|base|..][i] == s.log[|base|..][i];
      }
    }
  }

  lemma RoutineToFile(s: State, base: seq<Record>)
    requires LoggingToFile(s, base)
    ensures LoggingToFile(Routine(s), base)
  {
    var a := if s.pending.alarm then Clear(Diagnostic(s), SigAlrm) else s;
    if s.pending.alarm {
      EmitToFile(s, base, Heartbeat);
    }
    var u := if a.pending.usr1 then Clear(PrintStats(a), SigUsr1) else a;
    if a.pending.usr1 {
      EmitToFile(a, base, StatsBlock(a.stats));
    }
  }

  lemma ExitToFile(s: State, o: Outcome, base: seq<Record>)
    requires LoggingToFile(s, base)
    ensures LoggingToFile(Exit(s, o), base)
  {
    match o
    case Interrupted =>
      EmitToFile(s, base, SigintNotice);
      EmitToFile(Emit(s, SigintNotice), base, TermNotice);
      EmitToFile(Emit(Emit(s, SigintNotice), TermNotice), base, StatsBlock(s.stats));
    case Terminated =>
      EmitToFile(s, base, TermNotice);
      EmitToFile(Emit(s, TermNotice), base, StatsBlock(s.stats));
    case _ =>
  }

  lemma StepToFile(s: State, p: Phase, e: Event, base: seq<Record>)
    requires FitsSite(p.Reading?, e) && LoggingToFile(s, base)
    ensures LoggingToFile(Step(s, p, e).state, base)
  {
    if e.OpenIntr? || e.ReadIntr? {
      StepAtWakeup(s, p, e);
      RoutineToFile(Raise(s, e.raised), base);
    } else if e.ReadEof? {
      StepAtEof(s, p);
      RoutineToFile(s.(stats := s.stats.(bytes := Wrap(s.stats.bytes + p.msgBytes))), base);
    } else if e.ReadData? {
      StepAtChunk(s, p, e.bytes);
      EmitToFile(s, base, Text(e.bytes));
      EmitToFile(Emit(s, Text(e.bytes)), base, LineEnd);
    } else {
      QuietStep(s, p, e);
    }
  }

  lemma {:induction false} RunToFile(s: State, p: Phase, t: seq<Event>, base: seq<Record>)
    requires ValidTrace(p.Reading?, t) && LoggingToFile(s, base)
    ensures LoggingToFile(Run(s, p, t).state, base)
    decreases |t|
  {
    if t != [] {
      var r := Step(s, p, t[0]);
      StepToFile(s, p, t[0], base);
      if r.Stop? {
        RunStop(s, p, t);
        ExitToFile(r.state, r.outcome, base);
      } else {
        RunNext(s, p, t);
        RunToFile(r.state, r.phase, t[1..], base);
      }
    }
  }

  /** Daemon mode is never left: once in it, the loop stays in it and every
      record it writes goes to the log file. */
  lemma RunStaysDaemon(s: State, p: Phase, t: seq<Event>)
    requires ValidTrace(p.Reading?, t)
    requires s.runAsDaemon && s.sink == LogFile
    ensures var f := Run(s, p, t);
      && f.state.runAsDaemon && f.state.sink == LogFile
      && s.log <= f.state.log && AllToLogFile(f.state.log[|s.log|..])
  {
    assert s.log[|s.log|..] == [];
    RunToFile(s, p, t, s.log);
  }

  /** A message events between ReadData and ReadIntr without a terminate
      request. */
  predicate QuietRead(t: seq<Event>) {
    forall k | 0 <= k < |t| :: (t[k].ReadData? && 1 <= |t[k].bytes| <= BUF_SIZE - 1)
                               || (t[k].ReadIntr? && SigTerm !in t[k].raised)
  }

  lemma QuietTail(body: seq<Event>)
    requires QuietRead(body) && body != []
    ensures QuietRead(body[1..])
    ensures (body[0].ReadData? && 1 <= |body[0].bytes| <= BUF_SIZE - 1) || (body[0].ReadIntr? && SigTerm !in body[0].raised)
  {
    var x := body[1..];
    forall k | 0 <= k < |x| ensures (x[k].ReadData? && 1 <= |x[k].bytes| <= BUF_SIZE - 1)
                                    || (x[k].ReadIntr? && SigTerm !in x[k].raised)
    {
      assert x[k] == body[k + 1];
    }
  }

  /** An interrupt that is pending while a message is read is honoured at the
      next post-message check, after that message's bytes are added, and no
      alarm, usr1 or hup is acted on in between. */
  lemma {:induction false} DeferredInterrupt(s: State, m: u64, body: seq<Event>, rest: seq<Event>)
    requires s.pending.intr && !s.pending.term
    requires QuietRead(body)
    requires ValidTrace(false, rest)
    ensures ValidTrace(true, body + [ReadEof] + rest)
    ensures var f := Run(s, Reading(m), body + [ReadEof] + rest);
      var done := s.stats.(bytes := Wrap(s.stats.bytes + m + ChunkBytes(body)));
      && f.outcome == Interrupted
      && f.consumed == |body| + 1
      && f.state.stats == done
      && f.state.log == s.log + ChunkLog(s.sink, body)
         + [Record(s.sink, SigintNotice), Record(s.sink, TermNotice), Record(s.sink, StatsBlock(done))]
    decreases |body|, 1
  {
    if body == [] {
      assert body + [ReadEof] + rest == [ReadEof] + rest;
      assert [ReadEof] + rest == [ReadEof] + rest && ([ReadEof] + rest)[0] == ReadEof && ([ReadEof] + rest)[1..] == rest;
      assert ChunkLog(s.sink, body) == [] && ChunkBytes(body) == 0;
      MessageSiteTerminal(s, m, rest);
    } else {
      QuietTail(body);
      if body[0].ReadData? {
        DeferredChunk(s, m, body, rest);
      } else {
        DeferredWakeup(s, m, body, rest);
      }
    }
  }

  /** DeferredInterrupt when the message goes on with a chunk. */
  lemma {:induction false} DeferredChunk(s: State, m: u64, body: seq<Event>, rest: seq<Event>)
    requires s.pending.intr && !s.pending.term
    requires QuietRead(body) && body != [] && body[0].ReadData?
    requires ValidTrace(false, rest)
    ensures ValidTrace(true, body + [ReadEof] + rest)
    ensures var f := Run(s, Reading(m), body + [ReadEof] + rest);
      var done := s.stats.(bytes := Wrap(s.stats.bytes + m + ChunkBytes(body)));
      && f.outcome == Interrupted
      && f.consumed == |body| + 1
      && f.state.stats == done
      && f.state.log == s.log + ChunkLog(s.sink, body)
         + [Record(s.sink, SigintNotice), Record(s.sink, TermNotice), Record(s.sink, StatsBlock(done))]
    decreases |body|, 0
  {
    QuietTail(body);
    var t := body + [ReadEof] + rest;
    var e, x := body[0], body[1..];
    var b := e.bytes;
    assert t[0] == e && t[1..] == x + [ReadEof] + rest;
    var s1 := LogChunk(s, b);
    var m1 := Wrap(m + |b|);
    ChunkGlue(s, m, body);
    DeferredInterrupt(s1, m1, x, rest);
    assert Step(s, Reading(m), e) == Next(s1, Reading(m1));
    RunNext(s, Reading(m), t);
  }

  /** How the first chunk of a message moves the running total into the
      log and the byte count. */
  lemma ChunkGlue(s: State, m: u64, body: seq<Event>)
    requires body != [] && body[0].ReadData? && 1 <= |body[0].bytes| <= BUF_SIZE - 1
    ensures var s1 := LogChunk(s, body[0].bytes);
      var m1 := Wrap(m + |body[0].bytes|);
      && s1.sink == s.sink && s1.pending == s.pending
      && s1.stats.(bytes := Wrap(s1.stats.bytes + m1 + ChunkBytes(body[1..])))
         == s.stats.(bytes := Wrap(s.stats.bytes + m + ChunkBytes(body)))
      && s1.log + ChunkLog(s.sink, body[1..]) == s.log + ChunkLog(s.sink, body)
  {
    var e, x := body[0], body[1..];
    var b := e.bytes;
    LogChunkRecords(s, b);
    WrapAdd(m + |b|, s.stats.bytes + ChunkBytes(x));
    assert ChunkBytes(body) == |b| + ChunkBytes(x);
    assert ChunkLog(s.sink, body) == ChunkLog(s.sink, [e]) + ChunkLog(s.sink, x) by {
      assert [e][1..] == [];
    }
  }

  /** DeferredInterrupt when the read is interrupted again without a
      terminate request. */
  lemma {:induction false} DeferredWakeup(s: State, m: u64, body: seq<Event>, rest: seq<Event>)
    requires s.pending.intr && !s.pending.term
    requires QuietRead(body) && body != [] && body[0].ReadIntr?
    requires ValidTrace(false, rest)
    ensures ValidTrace(true, body + [ReadEof] + rest)
    ensures var f := Run(s, Reading(m), body + [ReadEof] + rest);
      var done := s.stats.(bytes := Wrap(s.stats.bytes + m + ChunkBytes(body)));
      && f.outcome == Interrupted
      && f.consumed == |body| + 1
      && f.state.stats == done
      && f.state.log == s.log + ChunkLog(s.sink, body)
         + [Record(s.sink, SigintNotice), Record(s.sink, TermNotice), Record(s.sink, StatsBlock(done))]
    decreases |body|, 0
  {
    QuietTail(body);
    var t := body + [ReadEof] + rest;
    var e, x := body[0], body[1..];
    assert t[0] == e && t[1..] == x + [ReadEof] + rest;
    var s1 := Raise(s, e.raised);
    DeferredInterrupt(s1, m, x, rest);
    ReadSiteInterrupt(s, m, e.raised);
    RunNext(s, Reading(m), t);
    assert ChunkBytes(body) == ChunkBytes(x);
    assert ChunkLog(s.sink, body) == ChunkLog(s.sink, x);
  }

  /** The log records of one chunk event, as LogChunk writes them. */
  lemma LogChunkRecords(s: State, b: seq<byte>)
    requires 1 <= |b|
    ensures LogChunk(s, b).log == s.log + ChunkLog(s.sink, [ReadData(b)])
    ensures LogChunk(s, b).stats == s.stats && LogChunk(s, b).sink == s.sink
    ensures LogChunk(s, b).pending == s.pending
  {
    assert [ReadData(b)][1..] == [];
  }
}
