/** The state and the control loop of the FIFO echo server (main.c), as values.
    A run of main_loop is driven by a trace of environment events: what each
    blocking open(2) or read(2) returned, and which signal flags the handlers
    set before an interrupted call returned. */
module EchoModel {

  /** Size of main_loop's buffer; read(2) is asked for BUF_SIZE - 1 bytes. */
  const BUF_SIZE: nat := 4096

  /** unsigned long and unsigned long long on an LP64 target. */
  const U64: int := 0x1_0000_0000_0000_0000
  type u64 = x: int | 0 <= x < 0x1_0000_0000_0000_0000

  type byte = x: int | 0 <= x < 256
  const NEWLINE: byte := 10

  /** C unsigned arithmetic: x reduced modulo 2^64. */
  function Wrap(x: nat): (r: u64)
    ensures x < U64 ==> r == x
  {
    x % U64
  }

  /** The five signals whose handlers set a pending flag. */
  datatype Signal = SigTerm | SigInt | SigAlrm | SigUsr1 | SigHup

  /** What the environment answers to the blocking call being made. */
  datatype Event =
    | OpenOk                           // a writer connected
    | OpenIntr(raised: set<Signal>)    // open failed with EINTR
    | OpenFail                         // open failed otherwise
    | ReadData(bytes: seq<byte>)       // read returned n > 0 bytes
    | ReadIntr(raised: set<Signal>)    // read failed with EINTR
    | ReadEof                          // read returned 0
    | ReadFail                         // read failed otherwise

  datatype Outcome = Terminated | Interrupted | Fatal | TraceExhausted

  /** Where log_fp ? log_fp : stdout points: the terminal, or the log file. */
  datatype Sink = Console | LogFile

  /** struct stats_s */
  datatype Stats = Stats(receivedMessages: u64, bytes: u64, alarms: u64)

  /** One write to the log destination. A message chunk is written by fputs
      as Text, and the extra fputc('\n') is LineEnd. */
  datatype Entry =
    | Started
    | Text(chunk: seq<byte>)
    | LineEnd
    | Heartbeat
    | StatsBlock(snapshot: Stats)
    | DaemonNotice
    | SigintNotice
    | TermNotice

  datatype Record = Record(sink: Sink, entry: Entry)

  /** The five sig_atomic_t flags; true stands for 1. */
  datatype Flags = Flags(term: bool, intr: bool, alarm: bool, usr1: bool, hup: bool) {
    predicate Has(g: Signal) {
      match g
      case SigTerm => term
      case SigInt => intr
      case SigAlrm => alarm
      case SigUsr1 => usr1
      case SigHup => hup
    }

    /** Every flag whose signal was raised is set. */
    function With(raised: set<Signal>): Flags {
      Flags(term || SigTerm in raised, intr || SigInt in raised, alarm || SigAlrm in raised,
            usr1 || SigUsr1 in raised, hup || SigHup in raised)
    }

    /** The flag of g is cleared. */
    function Without(g: Signal): Flags {
      match g
      case SigTerm => this.(term := false)
      case SigInt => this.(intr := false)
      case SigAlrm => this.(alarm := false)
      case SigUsr1 => this.(usr1 := false)
      case SigHup => this.(hup := false)
    }
  }

  /** A raised signal sets its flag, and the other flags keep their value. */
  lemma WithSets(f: Flags, raised: set<Signal>)
    ensures forall g :: f.With(raised).Has(g) <==> f.Has(g) || g in raised
  {
  }

  /** Clearing a flag leaves the other four as they were. */
  lemma WithoutClears(f: Flags, g: Signal)
    ensures !f.Without(g).Has(g)
    ensures forall h :: h != g ==> (f.Without(g).Has(h) <==> f.Has(h))
  {
  }

  const NoFlags := Flags(false, false, false, false, false)

  datatype State = State(
    stats: Stats,
    pending: Flags,
    runAsDaemon: bool,
    sink: Sink,
    log: seq<Record>)

  /** Where main_loop is: blocked in open (Idle), or inside the read loop with
      the running msg_bytes total of the current message. */
  datatype Phase = Idle | Reading(msgBytes: u64)

  datatype Transition = Next(state: State, phase: Phase) | Stop(state: State, outcome: Outcome)

  datatype Final = Final(state: State, outcome: Outcome, consumed: nat)

  /** The state of main() right after option parsing and the initial log open. */
  function Initial(daemonOption: bool): (s: State)
    ensures s.runAsDaemon == daemonOption
    ensures s.sink == (if daemonOption then LogFile else Console)
    ensures s.log == [] && s.pending == NoFlags && s.stats == Stats(0, 0, 0)
  {
    State(Stats(0, 0, 0), NoFlags, daemonOption, if daemonOption then LogFile else Console, [])
  }

  function Emit(s: State, e: Entry): State {
    s.(log := s.log + [Record(s.sink, e)])
  }

  /** Signal handlers: each raised signal sets its flag. */
  function Raise(s: State, raised: set<Signal>): State {
    s.(pending := s.pending.With(raised))
  }

  function Clear(s: State, f: Signal): State {
    s.(pending := s.pending.Without(f))
  }

  /** print_stats: one statistics block, nothing else changes. */
  function PrintStats(s: State): State {
    Emit(s, StatsBlock(s.stats))
  }

  /** diagnostic: a heartbeat line, then alarms++. */
  function Diagnostic(s: State): State {
    var t := Emit(s, Heartbeat);
    t.(stats := t.stats.(alarms := Wrap(t.stats.alarms + 1)))
  }

  /** become_daemon, reduced to its guard and the mode and destination switch. */
  function BecomeDaemon(s: State): State {
    if s.runAsDaemon then s
    else PrintStats(Emit(s.(sink := LogFile, runAsDaemon := true), DaemonNotice))
  }

  /** The alarm, usr1 and hup checks shared by the three dispatch sites, in
      the order the source tests them; each flag is cleared after its action
      has run. */
  function Routine(s: State): State {
    var a := if s.pending.alarm then Clear(Diagnostic(s), SigAlrm) else s;
    var u := if a.pending.usr1 then Clear(PrintStats(a), SigUsr1) else a;
    if u.pending.hup then Clear(BecomeDaemon(u), SigHup) else u
  }

  /** fputs of the chunk, then a newline only when its last byte is not one. */
  function LogChunk(s: State, chunk: seq<byte>): State
    requires |chunk| > 0
  {
    var t := Emit(s, Text(chunk));
    if chunk[|chunk| - 1] != NEWLINE then Emit(t, LineEnd) else t
  }

  /** The graceful_int / graceful_term tail of main_loop; graceful_int falls
      through into graceful_term. */
  function Exit(s: State, o: Outcome): State {
    match o
    case Interrupted => PrintStats(Emit(Emit(s, SigintNotice), TermNotice))
    case Terminated => PrintStats(Emit(s, TermNotice))
    case _ => s
  }

  /** Whether an event can answer the call made at that point of the loop
      (open when not reading, read when reading). */
  predicate FitsSite(reading: bool, e: Event) {
    match e
    case OpenOk => !reading
    case OpenIntr(_) => !reading
    case OpenFail => !reading
    case ReadData(b) => reading && 1 <= |b| <= BUF_SIZE - 1
    case ReadIntr(_) => reading
    case ReadEof => reading
    case ReadFail => reading
  }

  function NextSite(reading: bool, e: Event): bool {
    match e
    case OpenOk => true
    case ReadEof => false
    case _ => reading
  }

  predicate ValidTrace(reading: bool, t: seq<Event>)
    decreases |t|
  {
    t == [] || (FitsSite(reading, t[0]) && ValidTrace(NextSite(reading, t[0]), t[1..]))
  }

  /** One answer to one blocking call, and the dispatch that follows it. */
  function Step(s: State, p: Phase, e: Event): (r: Transition)
    requires FitsSite(p.Reading?, e)
    ensures r.Next? ==> r.phase.Reading? == NextSite(p.Reading?, e)
    ensures r.Stop? ==> r.outcome != TraceExhausted
  {
    match e
    case OpenOk =>
      Next(s.(stats := s.stats.(receivedMessages := Wrap(s.stats.receivedMessages + 1))), Reading(0))
    case OpenIntr(raised) =>
      var t := Raise(s, raised);
      if t.pending.term then Stop(t, Terminated)
      else if t.pending.intr then Stop(t, Interrupted)
      else Next(Routine(t), Idle)
    case OpenFail => Stop(s, Fatal)
    case ReadData(b) =>
      Next(LogChunk(s, b), Reading(Wrap(p.msgBytes + |b|)))
    case ReadIntr(raised) =>
      var t := Raise(s, raised);
      if t.pending.term then Stop(t, Terminated)
      else if t.pending.intr then Next(t, p)
      else Next(Routine(t), p)
    case ReadEof =>
      var t := s.(stats := s.stats.(bytes := Wrap(s.stats.bytes + p.msgBytes)));
      if t.pending.term then Stop(t, Terminated)
      else if t.pending.intr then Stop(t, Interrupted)
      else Next(Routine(t), Idle)
    case ReadFail => Stop(s, Fatal)
  }

  /** main_loop over a trace: it stops at the first terminal step, or is still
      blocked in a call when the trace runs out. */
  function Run(s: State, p: Phase, t: seq<Event>): (f: Final)
    requires ValidTrace(p.Reading?, t)
    ensures f.consumed <= |t|
    ensures f.outcome == TraceExhausted ==> f.consumed == |t|
    ensures f.outcome != TraceExhausted ==> 1 <= f.consumed
    decreases |t|
  {
    if t == [] then Final(s, TraceExhausted, 0)
    else
      match Step(s, p, t[0])
      case Next(s1, p1) =>
        Leads(Run(s1, p1, t[1..]))
      case Stop(s1, o) => Final(Exit(s1, o), o, 1)
  }

  /** Unfolding Run by one step that continues. */
  lemma RunNext(s: State, p: Phase, t: seq<Event>)
    requires ValidTrace(p.Reading?, t) && t != [] && Step(s, p, t[0]).Next?
    ensures ValidTrace(Step(s, p, t[0]).phase.Reading?, t[1..])
    ensures Run(s, p, t) == Leads(Run(Step(s, p, t[0]).state, Step(s, p, t[0]).phase, t[1..]))
  {
  }

  /** Unfolding Run by one step that ends the loop. */
  lemma RunStop(s: State, p: Phase, t: seq<Event>)
    requires ValidTrace(p.Reading?, t) && t != [] && Step(s, p, t[0]).Stop?
    ensures Run(s, p, t) == Final(Exit(Step(s, p, t[0]).state, Step(s, p, t[0]).outcome), Step(s, p, t[0]).outcome, 1)
  {
  }

  /** The same end, reached one event later. */
  function Leads(f: Final): Final {
    Final(f.state, f.outcome, f.consumed + 1)
  }

  /** The part of main() after the signal handlers are installed and before
      main_loop: the startup become_daemon call and the banner. */
  function Launch(s: State): State {
    Emit(if s.runAsDaemon then BecomeDaemon(s) else s, Started)
  }
}
