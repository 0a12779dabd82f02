/** The process-wide state of main.c as one object, and main_loop as a method
    over it, each proved to do what the matching function of EchoModel says. */
module EchoServer {
  import opened EchoModel

  /** A run that, from event i on, ends where the whole run ends. */
  ghost predicate OnTrack(f: Final, i: nat, goal: Final) {
    f.state == goal.state && f.outcome == goal.outcome && i + f.consumed == goal.consumed
  }

  class Server {
    // struct stats_s stats
    var receivedMessages: u64
    var bytes: u64
    var alarms: u64
    // the five sig_atomic_t flags
    var flagTerm: bool
    var flagInt: bool
    var flagAlarm: bool
    var flagUsr1: bool
    var flagHup: bool
    var runAsDaemon: bool
    // log_fp
    var logSink: Sink
    // everything written to the log destinations so far
    var log: seq<Record>


    function Model(): State
      reads this
    {
      State(Stats(receivedMessages, bytes, alarms), Flags(flagTerm, flagInt, flagAlarm, flagUsr1, flagHup), runAsDaemon, logSink, log)
    }

    /** Option parsing (-d) and the initial choice of log destination. */
    constructor (daemonOption: bool)
      ensures Model() == Initial(daemonOption)
    {
      receivedMessages, bytes, alarms := 0, 0, 0;
      flagTerm, flagInt, flagAlarm, flagUsr1, flagHup := false, false, false, false, false;
      runAsDaemon := daemonOption;
      logSink := if daemonOption then LogFile else Console;
      log := [];
    }

    method Write(e: Entry)
      modifies this
      ensures Model() == Emit(old(Model()), e)
    {
      log := log + [Record(logSink, e)];
    }

    /** The signal handlers: each one only sets its flag. */
    method Deliver(raised: set<Signal>)
      modifies this
      ensures Model() == Raise(old(Model()), raised)
    {
      if SigTerm in raised { flagTerm := true; }
      if SigInt in raised { flagInt := true; }
      if SigAlrm in raised { flagAlarm := true; }
      if SigUsr1 in raised { flagUsr1 := true; }
      if SigHup in raised { flagHup := true; }
    }

    method PrintStats()
      modifies this
      ensures Model() == EchoModel.PrintStats(old(Model()))
    {
      Write(StatsBlock(Stats(receivedMessages, bytes, alarms)));
    }

    method Diagnostic()
      modifies this
      ensures Model() == EchoModel.Diagnostic(old(Model()))
    {
      Write(Heartbeat);
      alarms := Wrap(alarms + 1);
    }

    method BecomeDaemon()
      modifies this
      ensures Model() == EchoModel.BecomeDaemon(old(Model()))
    {
      if runAsDaemon { return; }
      logSink := LogFile;
      runAsDaemon := true;
      Write(DaemonNotice);
      PrintStats();
    }

    /** The alarm, usr1 and hup checks written out at each dispatch site. */
    method Routine()
      modifies this
      ensures Model() == EchoModel.Routine(old(Model()))
    {
      ghost var s := Model();
      if flagAlarm {
        Diagnostic();
        flagAlarm := false;
      }
      ghost var a := Model();
      assert a == if s.pending.alarm then Clear(EchoModel.Diagnostic(s), SigAlrm) else s;
      if flagUsr1 {
        PrintStats();
        flagUsr1 := false;
      }
      assert Model() == if a.pending.usr1 then Clear(EchoModel.PrintStats(a), SigUsr1) else a;
      if flagHup {
        BecomeDaemon();
        flagHup := false;
      }
    }

    /** main() from the startup become_daemon call to the banner. */
    method Launch()
      modifies this
      ensures Model() == EchoModel.Launch(old(Model()))
    {
      if runAsDaemon { BecomeDaemon(); }
      Write(Started);
    }

    /** The open call's answer and the dispatch that follows it
        (main.c, the retry_open block). */
    method OpenSite(ev: Event) returns (stop: bool, outcome: Outcome)
      requires FitsSite(false, ev)
      modifies this
      ensures var r := Step(old(Model()), Idle, ev);
              Model() == r.state && stop == r.Stop? && (stop ==> outcome == r.outcome)
    {
      stop, outcome := false, TraceExhausted;
      if ev.OpenFail? {
        stop, outcome := true, Fatal;
      } else if ev.OpenIntr? {
        Deliver(ev.raised);
        if flagTerm {
          stop, outcome := true, Terminated;
          return;
        }
        if flagInt {
          stop, outcome := true, Interrupted;
          return;
        }
        Routine();
      } else {
        receivedMessages := Wrap(receivedMessages + 1);
      }
    }

    /** One read call's answer and what the read loop does with it. The
        chunk goes through buf, as read(2) fills it. */
    method ReadSite(ev: Event, buf: array<byte>, msgBytes: u64) returns (stop: bool, outcome: Outcome, total: u64)
      requires FitsSite(true, ev) && !ev.ReadEof? && buf.Length == BUF_SIZE
      modifies this, buf
      ensures var r := Step(old(Model()), Reading(msgBytes), ev);
              Model() == r.state && stop == r.Stop? && (stop ==> outcome == r.outcome)
              && (r.Next? ==> r.phase == Reading(total))
    {
      stop, outcome, total := false, TraceExhausted, msgBytes;
      if ev.ReadFail? {
        stop, outcome := true, Fatal;
      } else if ev.ReadIntr? {
        Deliver(ev.raised);
        if flagTerm {
          stop, outcome := true, Terminated;
          return;
        }
        if flagInt {
          return;
        }
        Routine();
      } else {
        var n := |ev.bytes|;
        forall k | 0 <= k < n {
          buf[k] := ev.bytes[k];
        }
        buf[n] := 0;
        assert buf[..n] == ev.bytes;
        Write(Text(buf[..n]));
        if buf[n - 1] != NEWLINE {
          Write(LineEnd);
        }
        total := Wrap(msgBytes + n);
      }
    }

    /** End of a message: the byte total, then the post-message dispatch. */
    method MessageDone(msgBytes: u64) returns (stop: bool, outcome: Outcome)
      modifies this
      ensures var r := Step(old(Model()), Reading(msgBytes), ReadEof);
              Model() == r.state && stop == r.Stop? && (stop ==> outcome == r.outcome)
    {
      stop, outcome := false, TraceExhausted;
      bytes := Wrap(bytes + msgBytes);
      if flagTerm {
        stop, outcome := true, Terminated;
        return;
      }
      if flagInt {
        stop, outcome := true, Interrupted;
        return;
      }
      Routine();
    }

    /** main_loop. The trace supplies, one event per blocking call, what open
        and read return; the loop ends when a terminal action runs or the
        trace runs out. */
    method MainLoop(trace: seq<Event>) returns (outcome: Outcome, consumed: nat)
      requires ValidTrace(false, trace)
      modifies this
      ensures var f := Run(old(Model()), Idle, trace);
              Model() == f.state && outcome == f.outcome && consumed == f.consumed
    {
      ghost var goal := Run(Model(), Idle, trace);
      var buf := new byte[BUF_SIZE];
      var i := 0;
      outcome := TraceExhausted;
      while true
        invariant i <= |trace| && ValidTrace(false, trace[i..])
        invariant OnTrack(Run(Model(), Idle, trace[i..]), i, goal)
        invariant outcome == TraceExhausted
        decreases |trace| - i
      {
        if i == |trace| {
          break;
        }
        ghost var before, rest := Model(), trace[i..];
        var ev := trace[i];
        i := i + 1;
        assert rest[0] == ev && rest[1..] == trace[i..];
        var stop, o := OpenSite(ev);
        if stop {
          outcome := o;
          RunStop(before, Idle, rest);
          break;
        }
        RunNext(before, Idle, rest);
        if !ev.OpenOk? {
          continue;
        }
        var msgBytes: u64 := 0;
        while true
          invariant i <= |trace| && ValidTrace(true, trace[i..])
          invariant OnTrack(Run(Model(), Reading(msgBytes), trace[i..]), i, goal)
          invariant outcome == TraceExhausted
          decreases |trace| - i
        {
          if i == |trace| {
            break break;
          }
          before, rest := Model(), trace[i..];
          ev := trace[i];
          i := i + 1;
          assert rest[0] == ev && rest[1..] == trace[i..];
          if ev.ReadEof? {
            break;
          }
          var total;
          stop, o, total := ReadSite(ev, buf, msgBytes);
          if stop {
            outcome := o;
            RunStop(before, Reading(msgBytes), rest);
            break break;
          }
          RunNext(before, Reading(msgBytes), rest);
          msgBytes := total;
        }
        stop, o := MessageDone(msgBytes);
        if stop {
          outcome := o;
          RunStop(before, Reading(msgBytes), rest);
          break;
        }
        RunNext(before, Reading(msgBytes), rest);
      }
      Finish(outcome);
      consumed := i;
    }

    /** The graceful_int and graceful_term labels at the end of main_loop. */
    method Finish(outcome: Outcome)
      modifies this
      ensures Model() == Exit(old(Model()), outcome)
    {
      if outcome == Interrupted {
        Write(SigintNotice);
      }
      if outcome == Interrupted || outcome == Terminated {
        Write(TermNotice);
        PrintStats();
      }
    }
  }
}
