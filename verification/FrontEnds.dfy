/** The three ways a VM ends: stop QEMU, save the overlay if asked to, remove the runtime directory. */
module FrontEnds {
  import opened Prelude
  import opened Processes
  import opened Sidecars
  import opened Launch

  /** What a manifest says about how its VM was stopped. */
  datatype Consistency = StoppedDisk | CrashConsistent | CleanShutdown

  /**
   What matters of a run.  When the overlay is read: whether QEMU could no longer
   write, whether it was never signalled, and the consistency the manifest gets.
   */
  datatype Event =
    | SidecarsStopped
    | OverlayRead(stopped: bool, gentle: bool, consistency: Consistency)
    | CheckpointReturned
    | RuntimeRemoved

  ghost predicate Before(log: seq<Event>, i: nat, e: Event)
    requires i <= |log|
  {
    exists j | 0 <= j < i :: log[j] == e
  }

  /**
   The overlay is only read once QEMU has stopped and the sidecars were stopped,
   and is only called cleanly shut down if QEMU was never signalled or `shutdown`
   says that the guest had shut itself down.  Where a save was requested the
   runtime directory is only removed after the checkpoint was returned.
   */
  ghost predicate Ordered(log: seq<Event>, save: bool, shutdown: bool) {
    forall i | 0 <= i < |log| ::
      && (log[i].OverlayRead? ==>
            && log[i].stopped && Before(log, i, SidecarsStopped)
            && (log[i].consistency.CleanShutdown? ==> log[i].gentle || shutdown))
      && (log[i].RuntimeRemoved? && save ==> Before(log, i, CheckpointReturned))
  }

  /** The manifest of every overlay that was read says this of its consistency. */
  predicate Labelled(log: seq<Event>, consistency: Consistency) {
    forall e | e in log && e.OverlayRead? :: e.consistency == consistency
  }

  /** How a run that kept the order ends. */
  ghost predicate EndsWell(log: seq<Event>, save: bool, shutdown: bool, raised: bool) {
    && Ordered(log, save, shutdown)
    && (raised ==> RuntimeRemoved !in log)
    && (!raised ==> SidecarsStopped in log && RuntimeRemoved in log)
    && (!raised && save ==> CheckpointReturned in log)
  }

  /** One more event keeps the order if it comes in its turn. */
  lemma OrderedMore(log: seq<Event>, e: Event, save: bool, shutdown: bool)
    requires Ordered(log, save, shutdown)
    requires e.OverlayRead? ==>
               e.stopped && SidecarsStopped in log && (e.consistency.CleanShutdown? ==> e.gentle || shutdown)
    requires e.RuntimeRemoved? && save ==> CheckpointReturned in log
    ensures Ordered(log + [e], save, shutdown)
  {
    var more := log + [e];
    forall i, x | 0 <= i < |log| && Before(log, i, x)
      ensures Before(more, i, x)
    {
      var j :| 0 <= j < i && log[j] == x;
      assert more[j] == x;
    }
    forall x | x in log
      ensures Before(more, |log|, x)
    {
      var j :| 0 <= j < |log| && log[j] == x;
      assert more[j] == x;
    }
  }

  lemma CopiedOrdered(before: seq<Event>, after: seq<Event>, read: Event, save: bool, shutdown: bool, raised: bool)
    requires Copied(before, after, read, raised) && Ordered(before, save, shutdown) && SidecarsStopped in before
    requires read.OverlayRead? && read.stopped && (read.consistency.CleanShutdown? ==> read.gentle || shutdown)
    ensures Ordered(after, save, shutdown) && forall e | e in before :: e in after
    ensures RuntimeRemoved !in before ==> RuntimeRemoved !in after
    ensures !raised ==> CheckpointReturned in after
  {
    OrderedMore(before, read, save, shutdown);
    OrderedMore(before, CheckpointReturned, save, shutdown);
    OrderedMore(before + [read], CheckpointReturned, save, shutdown);
    assert before + [] == before && before + [read] + [] == before + [read];
  }

  lemma CopiedLabelled(before: seq<Event>, after: seq<Event>, read: Event, raised: bool)
    requires Copied(before, after, read, raised) && read.OverlayRead? && Labelled(before, read.consistency)
    ensures Labelled(after, read.consistency)
  {
  }

  class FrontEnd {
    const kernel: Kernel
    /** QEMU's pid, if the metadata has one. */
    const qemu: Option<Pid>
    ghost var log: seq<Event>

    constructor (kernel: Kernel, qemu: Option<Pid>)
      requires kernel.Valid() && (qemu.Some? ==> qemu.value in kernel.procs)
      ensures Valid() && this.kernel == kernel && this.qemu == qemu && log == []
    {
      this.kernel, this.qemu, log := kernel, qemu, [];
    }

    ghost predicate Valid()
      reads this, kernel
    {
      kernel.Valid() && (qemu.Some? ==> qemu.value in kernel.procs)
    }

    /** QEMU has exited, or was sent SIGKILL. */
    ghost predicate Stopped()
      requires Valid()
      reads this, kernel
    {
      qemu.Some? ==> kernel.procs[qemu.value] != Running || WasKilled(kernel.sent, qemu.value)
    }

    /** Nobody has sent QEMU a signal. */
    ghost predicate Gentle()
      reads this, kernel
    {
      qemu.Some? ==> forall i | 0 <= i < |kernel.sent| :: kernel.sent[i].pid != qemu.value
    }

    /** create_checkpoint, as far as the front ends see it. */
    method CreateCheckpoint(consistency: Consistency) returns (raised: bool)
      requires Valid()
      modifies this`log, kernel`trace
      ensures Copied(old(log), log, OverlayRead(Stopped(), Gentle(), consistency), raised)
      ensures kernel.trace == old(kernel.trace) + [Did(Checkpoint, !raised)]
    {
      // It may fail, or find the checkpoint already published, before it reads.
      if * {
        log := log + [OverlayRead(Stopped(), Gentle(), consistency)];
      }
      raised := kernel.Do(Checkpoint);
      if !raised {
        log := log + [CheckpointReturned];
      }
    }

    /** stop_vm_sidecars: it may raise when it goes by the metadata of another process. */
    method StopSidecars() returns (raised: bool)
      modifies this`log, kernel`trace
      ensures log == old(log) + [SidecarsStopped]
      ensures kernel.trace == old(kernel.trace) + [Did(Task.StopSidecars, !raised)]
    {
      log := log + [SidecarsStopped];
      raised := kernel.Do(Task.StopSidecars);
    }

    /** shutil.rmtree of the runtime directory, which ignores errors. */
    method RemoveRuntime()
      modifies this`log
      ensures log == old(log) + [RuntimeRemoved]
    {
      log := log + [RuntimeRemoved];
    }

    /** _wait_for_qemu: was QEMU seen to exit, and reaped? */
    method WaitForQemu() returns (exited: bool)
      requires Valid() && qemu.Some? && qemu.value in kernel.children
      modifies kernel`procs
      ensures Valid() && (old(Stopped()) ==> Stopped())
      ensures exited ==> kernel.procs[qemu.value] == Reaped
    {
      var polls: nat := *;
      exited := false;
      while polls > 0 && !exited
        invariant Valid() && (old(Stopped()) ==> Stopped())
        invariant exited ==> kernel.procs[qemu.value] == Reaped
      {
        exited := kernel.Poll(qemu.value);
        polls := polls - 1;
      }
    }

    /** The checkpoint, between two writes of the metadata. */
    method Publish(consistency: Consistency, ghost shutdown: bool) returns (raised: bool)
      requires Valid() && Stopped() && Ordered(log, true, shutdown)
      requires SidecarsStopped in log && RuntimeRemoved !in log && Labelled(log, consistency)
      requires consistency.CleanShutdown? ==> Gentle() || shutdown
      modifies this`log, kernel`trace
      ensures Ordered(log, true, shutdown) && SidecarsStopped in log && RuntimeRemoved !in log
      ensures Labelled(log, consistency)
      ensures !raised ==> CheckpointReturned in log
      ensures InTurn(old(kernel.trace), kernel.trace, PUBLISH, !raised)
    {
      ghost var before, read := kernel.trace, OverlayRead(Stopped(), Gentle(), consistency);
      raised := kernel.Do(Metadata);
      assert before + Done(PUBLISH[..0]) == before;
      TurnOf(before, before, PUBLISH, 0, !raised);
      if raised {
        return;
      }
      ghost var trace, saved := kernel.trace, log;
      raised := CreateCheckpoint(consistency);
      TurnOf(before, trace, PUBLISH, 1, !raised);
      CopiedOrdered(saved, log, read, true, shutdown, raised);
      CopiedLabelled(saved, log, read, raised);
      if raised {
        return;
      }
      trace := kernel.trace;
      raised := kernel.Do(Metadata);
      TurnOf(before, trace, PUBLISH, 2, !raised);
      assert PUBLISH[..3] == PUBLISH;
    }

    /** Stop the sidecars, and publish the checkpoint if one was requested. */
    method StopAndSave(save: bool, consistency: Consistency, ghost shutdown: bool) returns (raised: bool)
      requires Valid() && Stopped() && log == [] && (consistency.CleanShutdown? ==> Gentle() || shutdown)
      modifies this`log, kernel`trace
      ensures Ordered(log, save, shutdown) && SidecarsStopped in log && RuntimeRemoved !in log
      ensures Labelled(log, consistency)
      ensures !raised && save ==> CheckpointReturned in log
      ensures InTurn(old(kernel.trace), kernel.trace, SaveTasks(save), !raised)
    {
      ghost var before := kernel.trace;
      raised := StopSidecars();
      assert before + Done(SaveTasks(save)[..0]) == before;
      TurnOf(before, before, SaveTasks(save), 0, !raised);
      assert SaveTasks(save)[..1] == [Task.StopSidecars] && log[0] == SidecarsStopped;
      if !raised && save {
        ghost var trace := kernel.trace;
        raised := Publish(consistency, shutdown);
        MoreTurns(before, trace, kernel.trace, [Task.StopSidecars], PUBLISH, !raised);
      }
    }

    /**
     The steps of all three front ends once QEMU is dealt with: stop the sidecars,
     publish the checkpoint if one was requested, remove the runtime directory.
     */
    method SaveAndRemove(save: bool, consistency: Consistency, ghost shutdown: bool) returns (raised: bool)
      requires Valid() && Stopped() && log == [] && (consistency.CleanShutdown? ==> Gentle() || shutdown)
      modifies this`log, kernel`trace
      ensures EndsWell(log, save, shutdown, raised) && Labelled(log, consistency)
      ensures Worked(old(kernel.trace), kernel.trace, save, !raised) && SidecarsStopped in log
    {
      raised := StopAndSave(save, consistency, shutdown);
      var removeRuntime := !raised;
      ghost var saved, trace := log, kernel.trace;
      var again := StopSidecars();
      WorkedNow(old(kernel.trace), trace, save, !raised, !again);
      OrderedMore(saved, SidecarsStopped, save, shutdown);
      raised := raised || again;
      if removeRuntime && !again {
        OrderedMore(log, RuntimeRemoved, save, shutdown);
        RemoveRuntime();
      }
    }

    /** Make QEMU stop: powerdown, quit, and at last signals; each only when the one before was of no use. */
    method StopQemu() returns (wentDown: bool)
      requires Valid() && qemu.Some? && qemu.value in kernel.children && Gentle()
      modifies kernel`procs, kernel`probes, kernel`sent, kernel`trace
      ensures Valid() && Stopped() && (wentDown ==> Gentle())
      ensures Went(old(kernel.trace), kernel.trace, true)
      ensures wentDown <==> Asked(kernel.trace[|old(kernel.trace)|..], Powerdown)
                            && !Asked(kernel.trace[|old(kernel.trace)|..], Quit)
      ensures Asked(kernel.trace[|old(kernel.trace)|..], Quit) ==> Asked(kernel.trace[|old(kernel.trace)|..], Powerdown)
      ensures kernel.sent != old(kernel.sent) ==> Asked(kernel.trace[|old(kernel.trace)|..], Quit)
      ensures old(kernel.sent) <= kernel.sent && Escalated(kernel.sent[|old(kernel.sent)|..], qemu.value)
    {
      wentDown := false;
      var exited := kernel.Poll(qemu.value);
      if exited {
        return;
      }
      ghost var before := kernel.trace;
      var failed := kernel.Do(Powerdown);
      WentOne(before, before, Did(Powerdown, !failed));
      assert kernel.trace[|before|..] == [Did(Powerdown, !failed)];
      exited := WaitForQemu();
      if exited {
        return true;
      }
      ghost var trace := kernel.trace;
      var failed' := kernel.Do(Quit);
      WentOne(before, trace, Did(Quit, !failed'));
      assert kernel.trace[|before|..] == [Did(Powerdown, !failed), Did(Quit, !failed')];
      exited := WaitForQemu();
      if !exited {
        ghost var sent := kernel.sent;
        KillQemu(kernel, qemu.value, 1);
        KilledBefore(kernel.procs, sent, kernel.sent, qemu.value);
        exited := WaitForQemu();
      }
    }

    /** The monitor is closed, and then as in the other front ends. */
    method CloseAndSave(save: bool, consistency: Consistency, ghost shutdown: bool) returns (raised: bool)
      requires Valid() && Stopped() && log == [] && (consistency.CleanShutdown? ==> Gentle() || shutdown)
      modifies this`log, kernel`trace
      ensures EndsWell(log, save, shutdown, raised) && Labelled(log, consistency)
      ensures Went(old(kernel.trace), kernel.trace, !raised)
      ensures SidecarsStopped in log
      ensures forall e | e in kernel.trace[|old(kernel.trace)|..] :: e.Did? && e.task !in {Powerdown, Quit}
      ensures !raised ==> kernel.trace == old(kernel.trace) + [Did(CloseMonitor, true)] + Done(Work(save))
    {
      ghost var before := kernel.trace;
      raised := kernel.Do(CloseMonitor);
      WentOne(before, before, Did(CloseMonitor, !raised));
      ghost var trace := kernel.trace;
      if raised {
        var again := StopSidecars();
        WentAfter(before, trace, Did(Task.StopSidecars, !again), false);
        assert kernel.trace[|before|..] == [Did(CloseMonitor, false), Did(Task.StopSidecars, !again)];
      } else {
        raised := SaveAndRemove(save, consistency, shutdown);
        WorkWent(trace, kernel.trace, save, !raised);
        WentMore(before, trace, kernel.trace, !raised);
        assert kernel.trace[|before|..] == [Did(CloseMonitor, true)] + kernel.trace[|trace|..];
      }
    }

    /**
     The end of run_attached_session.  It raises exactly if one of its calls does,
     and the manifest says clean shutdown exactly if the guest had shut itself down or
     QEMU went down on the powerdown, without being told to quit.
     */
    method FinishAttached(save: bool, shutdown: bool) returns (raised: bool)
      requires Valid() && qemu.Some? && qemu.value in kernel.children && log == [] && Gentle()
      modifies this`log, kernel`procs, kernel`probes, kernel`sent, kernel`trace
      ensures Valid() && EndsWell(log, save, shutdown, raised)
      ensures Went(old(kernel.trace), kernel.trace, !raised)
      ensures var asked := kernel.trace[|old(kernel.trace)|..];
              && Labelled(log, AttachedEnd(asked, shutdown))
              && (kernel.sent != old(kernel.sent) ==> Asked(asked, Powerdown) && Asked(asked, Quit))
      ensures !raised ==>
        Encloses(old(kernel.trace), kernel.trace, [Metadata], [CloseMonitor] + Work(save))
      ensures (Stopped() && SidecarsStopped in log) || kernel.trace == old(kernel.trace) + [Did(Metadata, false)]
    {
      ghost var before := kernel.trace;
      raised := kernel.Do(Metadata);
      WentOne(before, before, Did(Metadata, !raised));
      if raised {
        assert kernel.trace[|before|..] == [Did(Metadata, false)];
        return;
      }
      ghost var noted := kernel.trace;
      var wentDown := StopQemu();
      WentMore(before, noted, kernel.trace, true);
      ghost var stopped := kernel.trace;
      var consistency := if shutdown || wentDown then CleanShutdown else CrashConsistent;
      raised := CloseAndSave(save, consistency, shutdown);
      WentMore(before, stopped, kernel.trace, !raised);
      MiddleAsks(before, noted, stopped, kernel.trace);
      if !raised {
        AttachedEnclosed(before, stopped, kernel.trace, save);
      }
    }

    /** A failed sidecar is reported, and QEMU is told to quit and then killed. */
    method SidecarFailed() returns (broken: bool)
      requires Valid() && qemu.Some? && qemu.value in kernel.children
      modifies kernel`procs, kernel`probes, kernel`sent, kernel`trace
      ensures Valid() && kernel.trace == old(kernel.trace) + [Did(Report, !broken)]
      ensures old(kernel.sent) <= kernel.sent && Escalated(kernel.sent[|old(kernel.sent)|..], qemu.value)
      ensures !broken ==> Finished(kernel.procs, kernel.sent[|old(kernel.sent)|..], qemu.value)
    {
      broken := kernel.Do(Report); // the message, the thread that sends quit
      if !broken {
        KillQemu(kernel, qemu.value, 2);
      }
    }

    /** One turn of the loop: a look at QEMU and, while it runs, at the sidecars. */
    method Watch() returns (exited: bool, failed: bool, broken: bool)
      requires Valid() && qemu.Some? && qemu.value in kernel.children
      modifies kernel`procs, kernel`probes, kernel`sent, kernel`trace
      ensures Valid() && kernel.trace == old(kernel.trace) + Turn(qemu.value, exited, failed, broken)
      ensures exited ==> kernel.procs[qemu.value] == Reaped
      ensures (exited ==> !failed) && (broken ==> failed)
      ensures kernel.sent != old(kernel.sent) ==> failed
      ensures old(kernel.sent) <= kernel.sent
      ensures failed && !broken ==> Finished(kernel.procs, kernel.sent[|old(kernel.sent)|..], qemu.value)
    {
      exited := kernel.Check(qemu.value);
      failed, broken := false, false;
      if !exited {
        failed := kernel.Do(Supervise); // a sidecar may have failed
        if failed {
          broken := SidecarFailed();
        }
      }
    }

    /**
     _block_until_exit: it comes back once QEMU has exited, and raises then if a
     sidecar had failed, which is also the only reason to signal QEMU.  Only an
     exception of the loop's own calls leaves it earlier.  Whenever it finds QEMU
     running it looks at the sidecars, and reports one that failed.
     */
    method BlockUntilExit() returns (raised: bool)
      requires Valid() && qemu.Some? && qemu.value in kernel.children
      modifies kernel`procs, kernel`probes, kernel`sent, kernel`trace
      ensures Valid() && Went(old(kernel.trace), kernel.trace, !raised)
      ensures Did(Report, false) in kernel.trace[|old(kernel.trace)|..] || kernel.procs[qemu.value] == Reaped
      ensures kernel.sent != old(kernel.sent) ==> raised
      ensures Watched(kernel.trace[|old(kernel.trace)|..])
    {
      ghost var before := kernel.trace;
      var exited := false;
      raised := false;
      var polls: nat := *;
      while polls > 0 && !exited
        invariant Valid() && Went(before, kernel.trace, !raised)
        invariant exited ==> kernel.procs[qemu.value] == Reaped
        invariant kernel.sent != old(kernel.sent) ==> raised
        invariant Watched(kernel.trace[|before|..])
      {
        ghost var trace := kernel.trace;
        var broken, failed;
        exited, failed, broken := Watch();
        TurnTaken(before, trace, qemu.value, exited, failed, broken, !raised);
        raised := raised || failed;
        if broken {
          return;
        }
        polls := polls - 1;
      }
      if !exited {
        kernel.WaitForExit(qemu.value);
      }
    }

    /** What the unattached branch of run does once QEMU is gone. */
    method FinishUnattached(save: bool) returns (raised: bool)
      requires Valid() && Stopped() && log == []
      modifies this`log, kernel`trace
      ensures EndsWell(log, save, false, raised) && Labelled(log, StoppedDisk)
      ensures Went(old(kernel.trace), kernel.trace, !raised)
      ensures !raised ==> kernel.trace == old(kernel.trace) + Done([Metadata] + Work(save))
      ensures SidecarsStopped in log
    {
      ghost var before := kernel.trace;
      raised := kernel.Do(Metadata);
      WentOne(before, before, Did(Metadata, !raised));
      ghost var trace := kernel.trace;
      if raised {
        var again := StopSidecars();
        WentAfter(before, trace, Did(Task.StopSidecars, !again), false);
      } else {
        raised := SaveAndRemove(save, StoppedDisk, false);
        WorkWent(trace, kernel.trace, save, !raised);
        WentMore(before, trace, kernel.trace, !raised);
        DoneMore([Metadata], Work(save));
        assert Done([Metadata]) == [Did(Metadata, true)];
      }
    }

    /** The unattached branch of run: it raises exactly if one of its calls does or a sidecar failed. */
    method RunUnattached(save: bool) returns (raised: bool)
      requires Valid() && qemu.Some? && qemu.value in kernel.children && log == []
      modifies this`log, kernel`procs, kernel`probes, kernel`sent, kernel`trace
      ensures Valid() && EndsWell(log, save, false, raised) && Labelled(log, StoppedDisk)
      ensures Went(old(kernel.trace), kernel.trace, !raised)
      ensures !raised ==> Encloses(old(kernel.trace), kernel.trace, [], [Metadata] + Work(save))
      ensures SidecarsStopped in log
    {
      ghost var before := kernel.trace;
      raised := BlockUntilExit();
      ghost var trace := kernel.trace;
      if raised {
        var again := StopSidecars();
        WentAfter(before, trace, Did(Task.StopSidecars, !again), false);
      } else {
        assert IsFatal(Did(Report, false));
        raised := FinishUnattached(save);
        WentMore(before, trace, kernel.trace, !raised);
        if !raised {
          assert Done([]) == [];
          Enclosed(before, [], trace, kernel.trace, [Metadata] + Work(save));
        }
      }
    }

    /** QEMU's end in teardown_vm: gracefully only for the sake of a checkpoint. */
    method TearQemuDown(save: bool) returns (consistency: Consistency)
      requires Valid() && Gentle()
      modifies kernel`procs, kernel`probes, kernel`sent, kernel`trace
      ensures Valid() && Stopped() && (consistency.CleanShutdown? ==> Gentle())
      ensures Went(old(kernel.trace), kernel.trace, true)
      ensures consistency == TornDown(save, kernel.trace[|old(kernel.trace)|..])
      ensures Asked(kernel.trace[|old(kernel.trace)|..], Powerdown) <==> save && qemu.Some?
      ensures Missed(true) !in kernel.trace[|old(kernel.trace)|..]
    {
      consistency := StoppedDisk;
      if qemu.Some? {
        ghost var before, sent := kernel.trace, kernel.sent;
        if save {
          var clean := GracefulShutdown(kernel, qemu.value);
          GentleTrace(before, kernel.trace, qemu.value);
          consistency := if clean then CleanShutdown else CrashConsistent;
        } else {
          KillQemu(kernel, qemu.value, 10);
        }
        KilledBefore(kernel.procs, sent, kernel.sent, qemu.value);
      }
    }

    /** What a teardown may say: a clean shutdown exactly if QEMU was seen to be gone after the powerdown. */
    ghost function TornDown(save: bool, trace: seq<Effect>): Consistency {
      if !save || qemu.None? then StoppedDisk
      else if Found(qemu.value, false) in trace then CleanShutdown
      else CrashConsistent
    }

    /**
     teardown_vm, usually from another process than the one that started QEMU.  It
     raises exactly if one of its calls does, or if the runtime directory has vanished
     and a checkpoint was requested.
     */
    method Teardown(save: bool) returns (raised: bool, vanished: bool)
      requires Valid() && log == [] && Gentle()
      modifies this`log, kernel`procs, kernel`probes, kernel`sent, kernel`trace
      ensures Valid() && old(kernel.trace) <= kernel.trace
      ensures vanished <==> Missed(true) in kernel.trace[|old(kernel.trace)|..]
      ensures vanished ==> log == [] && (raised <==> save) && kernel.sent == old(kernel.sent)
      ensures LookedFor(kernel.trace[|old(kernel.trace)|..], vanished) || (raised && kernel.sent == old(kernel.sent))
      ensures !raised && !vanished ==> Encloses(old(kernel.trace) + [Did(Validate, true), Missed(false)], kernel.trace,
                                                [Metadata], Work(save))
      ensures !raised && !vanished ==> Stopped() && SidecarsStopped in log
      ensures !vanished ==>
        && EndsWell(log, save, false, raised) && Went(old(kernel.trace), kernel.trace, !raised)
        && Labelled(log, TornDown(save, kernel.trace[|old(kernel.trace)|..]))
    {
      ghost var before := kernel.trace;
      raised := kernel.Do(Validate); // no vm.json, a blocked checkpoint, a bad destination
      WentOne(before, before, Did(Validate, !raised));
      assert kernel.trace[|before|..] == [Did(Validate, !raised)];
      vanished := false;
      if raised {
        return;
      }
      vanished := kernel.IsGone();
      if vanished {
        assert kernel.trace[|before|..] == [Did(Validate, true), Missed(true)];
        return save, true;
      }
      ghost var there := kernel.trace;
      raised := StopAndTear(save);
      AfterPlain(before, [Did(Validate, true), Missed(false)], kernel.trace, !raised);
    }

    /** The teardown of a VM whose metadata could be read. */
    method StopAndTear(save: bool) returns (raised: bool)
      requires Valid() && log == [] && Gentle()
      modifies this`log, kernel`procs, kernel`probes, kernel`sent, kernel`trace
      ensures Valid() && EndsWell(log, save, false, raised) && Went(old(kernel.trace), kernel.trace, !raised)
      ensures Labelled(log, TornDown(save, kernel.trace[|old(kernel.trace)|..]))
      ensures Missed(true) !in kernel.trace[|old(kernel.trace)|..]
      ensures !raised ==> Encloses(old(kernel.trace), kernel.trace, [Metadata], Work(save))
      ensures (Stopped() && SidecarsStopped in log) || kernel.trace == old(kernel.trace) + [Did(Metadata, false)]
    {
      ghost var before := kernel.trace;
      raised := kernel.Do(Metadata);
      WentOne(before, before, Did(Metadata, !raised));
      assert kernel.trace[|before|..] == [Did(Metadata, !raised)];
      if raised {
        return;
      }
      ghost var noted := kernel.trace;
      var consistency := TearQemuDown(save);
      ghost var torn := kernel.trace;
      raised := SaveAndRemove(save, consistency, false);
      TornTrace(before, noted, torn, kernel.trace, save, !raised);
    }
  }

  // ---- What was asked of the system, and what failed --------------------------------------------

  /** The metadata was read, and then the runtime directory was looked for. */
  predicate LookedFor(trace: seq<Effect>, gone: bool) {
    |trace| > 1 && trace[0] == Did(Validate, true) && trace[1] == Missed(gone)
  }

  predicate Asked(trace: seq<Effect>, task: Task) {
    Did(task, true) in trace || Did(task, false) in trace
  }

  /** What an attached session may say: clean if the guest had shut down, or QEMU went without being told to quit. */
  function AttachedEnd(asked: seq<Effect>, shutdown: bool): Consistency {
    if shutdown || (Asked(asked, Powerdown) && !Asked(asked, Quit)) then CleanShutdown else CrashConsistent
  }

  /** A failure that the front ends do not swallow. */
  predicate IsFatal(e: Effect) {
    e.Did? && !e.ok && e.task !in {Powerdown, Quit}
  }

  /** The trace has grown, by nothing fatal exactly if `ok`. */
  ghost predicate Went(before: seq<Effect>, after: seq<Effect>, ok: bool) {
    before <= after && (ok <==> forall e | e in after[|before|..] :: !IsFatal(e))
  }

  /** QEMU was only found running with a look at the sidecars next, and a failed one with its report next. */
  predicate Watched(trace: seq<Effect>) {
    forall i | 0 <= i < |trace| ::
      && (trace[i].Found? && trace[i].running ==> Next(trace, i, Supervise))
      && (trace[i] == Did(Supervise, false) ==> Next(trace, i, Report))
  }

  predicate Next(trace: seq<Effect>, i: nat, task: Task) {
    i + 1 < |trace| && trace[i + 1].Did? && trace[i + 1].task == task
  }

  /** What one turn of the loop in _block_until_exit sees and does. */
  function Turn(pid: Pid, exited: bool, failed: bool, broken: bool): seq<Effect> {
    if exited then [Found(pid, false)]
    else [Found(pid, true), Did(Supervise, !failed)] + if failed then [Did(Report, !broken)] else []
  }

  lemma TurnTaken(before: seq<Effect>, trace: seq<Effect>, pid: Pid, exited: bool, failed: bool, broken: bool, ok: bool)
    requires Went(before, trace, ok) && Watched(trace[|before|..])
    requires (exited ==> !failed) && (broken ==> failed)
    ensures var after := trace + Turn(pid, exited, failed, broken);
            && Went(before, after, ok && !failed) && Watched(after[|before|..])
            && (broken ==> Did(Report, false) in after[|before|..])
  {
    var turn := Turn(pid, exited, failed, broken);
    assert (trace + turn)[|before|..] == trace[|before|..] + turn;
    if failed {
      assert turn[1] == Did(Supervise, false) && turn[2] == Did(Report, !broken);
      assert turn[1] in turn && turn[2] in turn && IsFatal(turn[1]);
    }
    WatchedMore(trace[|before|..], turn);
  }

  lemma WatchedMore(a: seq<Effect>, b: seq<Effect>)
    requires Watched(a) && Watched(b)
    ensures Watched(a + b)
  {
    forall i | 0 <= i < |a + b|
      ensures (a + b)[i].Found? && (a + b)[i].running ==> Next(a + b, i, Supervise)
      ensures (a + b)[i] == Did(Supervise, false) ==> Next(a + b, i, Report)
    {
      if i < |a| {
        assert a[i] == (a + b)[i];
      } else {
        assert b[i - |a|] == (a + b)[i];
      }
    }
  }

  lemma WentOne(before: seq<Effect>, trace: seq<Effect>, e: Effect)
    requires before == trace || Went(before, trace, true)
    ensures Went(before, trace + [e], !IsFatal(e))
  {
    assert (trace + [e])[|before|..] == trace[|before|..] + [e];
  }

  lemma WentAfter(before: seq<Effect>, trace: seq<Effect>, e: Effect, ok: bool)
    requires Went(before, trace, ok)
    ensures Went(before, trace + [e], ok && !IsFatal(e))
  {
    assert (trace + [e])[|before|..] == trace[|before|..] + [e];
  }

  /** These calls, all of which succeeded. */
  function Done(tasks: seq<Task>): (r: seq<Effect>)
    ensures |r| == |tasks|
  {
    seq(|tasks|, i requires 0 <= i < |tasks| => Did(tasks[i], true))
  }

  /** The calls were made in this order, all of them if `ok` and else up to the first that failed. */
  ghost predicate InTurn(before: seq<Effect>, after: seq<Effect>, tasks: seq<Task>, ok: bool) {
    if ok then after == before + Done(tasks)
    else exists n :: StopsAt(before, after, tasks, n)
  }

  ghost predicate StopsAt(before: seq<Effect>, after: seq<Effect>, tasks: seq<Task>, n: int) {
    0 <= n < |tasks| && after == before + Done(tasks[..n]) + [Did(tasks[n], false)]
  }

  const PUBLISH := [Metadata, Task.Checkpoint, Metadata]

  /** What is done about a checkpoint, and around it. */
  function SaveTasks(save: bool): seq<Task> {
    [Task.StopSidecars] + if save then PUBLISH else []
  }

  function Work(save: bool): seq<Task> {
    SaveTasks(save) + [Task.StopSidecars]
  }

  /** That work: whatever fails of it, the sidecars are stopped once more at its end. */
  ghost predicate Worked(before: seq<Effect>, after: seq<Effect>, save: bool, ok: bool) {
    && after != [] && after[|after| - 1].Did? && after[|after| - 1].task == Task.StopSidecars
    && WorkedUpTo(before, after[..|after| - 1], save, after[|after| - 1].ok, ok)
  }

  ghost predicate WorkedUpTo(before: seq<Effect>, trace: seq<Effect>, save: bool, stopped: bool, ok: bool) {
    exists saved :: InTurn(before, trace, SaveTasks(save), saved) && (ok <==> saved && stopped)
  }

  lemma DoneMore(a: seq<Task>, b: seq<Task>)
    ensures Done(a + b) == Done(a) + Done(b)
  {
  }

  /** The next of the calls. */
  lemma TurnOf(before: seq<Effect>, trace: seq<Effect>, tasks: seq<Task>, k: nat, ok: bool)
    requires k < |tasks| && trace == before + Done(tasks[..k])
    ensures ok ==> trace + [Did(tasks[k], true)] == before + Done(tasks[..k + 1])
    ensures !ok ==> InTurn(before, trace + [Did(tasks[k], false)], tasks, false)
  {
    if ok {
      assert Done(tasks[..k + 1]) == Done(tasks[..k]) + [Did(tasks[k], true)];
    } else {
      assert StopsAt(before, trace + [Did(tasks[k], false)], tasks, k);
    }
  }

  lemma MoreTurns(a: seq<Effect>, b: seq<Effect>, c: seq<Effect>, first: seq<Task>, rest: seq<Task>, ok: bool)
    requires InTurn(a, b, first, true) && InTurn(b, c, rest, ok)
    ensures InTurn(a, c, first + rest, ok)
  {
    if ok {
      DoneMore(first, rest);
    } else {
      var n :| StopsAt(b, c, rest, n);
      assert (first + rest)[..|first| + n] == first + rest[..n];
      DoneMore(first, rest[..n]);
      assert StopsAt(a, c, first + rest, |first| + n);
    }
  }

  lemma WorkedNow(before: seq<Effect>, trace: seq<Effect>, save: bool, saved: bool, ok: bool)
    requires InTurn(before, trace, SaveTasks(save), saved)
    ensures Worked(before, trace + [Did(Task.StopSidecars, ok)], save, saved && ok)
  {
    assert (trace + [Did(Task.StopSidecars, ok)])[..|trace|] == trace;
  }

  /** The trace has grown, by these calls at first and by those at last. */
  ghost predicate Encloses(before: seq<Effect>, after: seq<Effect>, first: seq<Task>, last: seq<Task>) {
    && |before| + |first| + |last| <= |after|
    && before + Done(first) <= after
    && after[|after| - |last|..] == Done(last)
  }

  lemma Enclosed(before: seq<Effect>, first: seq<Task>, middle: seq<Effect>, after: seq<Effect>, last: seq<Task>)
    requires before + Done(first) <= middle && after == middle + Done(last)
    ensures Encloses(before, after, first, last)
  {
  }

  /** A graceful shutdown asks for a powerdown and then only looks. */
  lemma GentleTrace(before: seq<Effect>, after: seq<Effect>, pid: Pid)
    requires GentleLooks(before, after, pid)
    ensures Went(before, after, true) && Asked(after[|before|..], Powerdown) && Missed(true) !in after[|before|..]
  {
    var asked, looks := after[|before|], after[|before| + 1..];
    assert after[|before|..] == [asked] + looks;
    assert asked in after[|before|..] && asked == Did(Powerdown, asked.ok);
    forall e | e in after[|before|..]
      ensures e == asked || e.Found?
    {
      assert e == asked || e in looks;
    }
  }

  lemma AttachedEnclosed(before: seq<Effect>, stopped: seq<Effect>, after: seq<Effect>, save: bool)
    requires before + [Did(Metadata, true)] <= stopped
    requires after == stopped + [Did(CloseMonitor, true)] + Done(Work(save))
    ensures Encloses(before, after, [Metadata], [CloseMonitor] + Work(save))
  {
    DoneMore([CloseMonitor], Work(save));
    assert Done([CloseMonitor]) == [Did(CloseMonitor, true)] && Done([Metadata]) == [Did(Metadata, true)];
    Enclosed(before, [Metadata], stopped, after, [CloseMonitor] + Work(save));
  }

  /** None of this is asked of QEMU, and each failure is fatal. */
  lemma TurnsWent(before: seq<Effect>, after: seq<Effect>, tasks: seq<Task>, ok: bool)
    requires InTurn(before, after, tasks, ok) && Powerdown !in tasks && Quit !in tasks
    ensures Went(before, after, ok)
    ensures forall e | e in after[|before|..] :: e.Did? && e.task in tasks
  {
    if ok {
      assert after[|before|..] == Done(tasks);
    } else {
      var n :| StopsAt(before, after, tasks, n);
      var failed := Did(tasks[n], false);
      assert after[|before|..] == Done(tasks[..n]) + [failed] && failed in after[|before|..] && IsFatal(failed);
    }
  }

  lemma WorkWent(before: seq<Effect>, after: seq<Effect>, save: bool, ok: bool)
    requires Worked(before, after, save, ok)
    ensures Went(before, after, ok)
    ensures forall e | e in after[|before|..] :: e.Did? && e.task !in {Powerdown, Quit}
    ensures ok ==> after == before + Done(Work(save))
  {
    var most, last := after[..|after| - 1], after[|after| - 1];
    var saved :| InTurn(before, most, SaveTasks(save), saved) && (ok <==> saved && last.ok);
    SaveTasksWent(before, most, save, saved);
    assert after == most + [last] && last == Did(Task.StopSidecars, last.ok);
    WorkStops(before, most, last.ok, saved);
    if ok {
      AllWorked(before, most, save);
    }
  }

  lemma WorkStops(before: seq<Effect>, most: seq<Effect>, stopped: bool, saved: bool)
    requires Went(before, most, saved)
    requires forall e | e in most[|before|..] :: e.Did? && e.task !in {Powerdown, Quit}
    ensures var after := most + [Did(Task.StopSidecars, stopped)];
            && Went(before, after, saved && stopped)
            && forall e | e in after[|before|..] :: e.Did? && e.task !in {Powerdown, Quit}
  {
    WentAfter(before, most, Did(Task.StopSidecars, stopped), saved);
    assert (most + [Did(Task.StopSidecars, stopped)])[|before|..] ==
      most[|before|..] + [Did(Task.StopSidecars, stopped)];
  }

  lemma AllWorked(before: seq<Effect>, most: seq<Effect>, save: bool)
    requires InTurn(before, most, SaveTasks(save), true)
    ensures most + [Did(Task.StopSidecars, true)] == before + Done(Work(save))
  {
    DoneMore(SaveTasks(save), [Task.StopSidecars]);
    assert Done([Task.StopSidecars]) == [Did(Task.StopSidecars, true)];
  }

  lemma SaveTasksWent(before: seq<Effect>, most: seq<Effect>, save: bool, saved: bool)
    requires InTurn(before, most, SaveTasks(save), saved)
    ensures Went(before, most, saved)
    ensures forall e | e in most[|before|..] :: e.Did? && e.task !in {Powerdown, Quit}
  {
    SaveTasksAre(save);
    TurnsWent(before, most, SaveTasks(save), saved);
  }

  /** Nothing that failed, and no look that found something gone. */
  predicate Plain(es: seq<Effect>) {
    forall e | e in es :: !IsFatal(e) && e != Missed(true) && !(e.Found? && !e.running)
  }

  /** What comes after some plain effects. */
  lemma AfterPlain(before: seq<Effect>, first: seq<Effect>, after: seq<Effect>, ok: bool)
    requires Plain(first) && Went(before + first, after, ok)
    requires Missed(true) !in after[|before + first|..]
    ensures Went(before, after, ok) && Missed(true) !in after[|before|..]
    ensures forall pid :: Found(pid, false) in after[|before|..] <==> Found(pid, false) in after[|before + first|..]
    ensures after[|before|..] == first + after[|before + first|..]
  {
    assert after[|before|..] == first + after[|before + first|..];
  }

  /** Further calls after what was done about QEMU. */
  lemma CallsTail(noted: seq<Effect>, torn: seq<Effect>, after: seq<Effect>, ok: bool)
    requires Went(noted, torn, true) && Went(torn, after, ok) && Missed(true) !in torn[|noted|..]
    requires forall e | e in after[|torn|..] :: e.Did?
    ensures Went(noted, after, ok) && Missed(true) !in after[|noted|..]
    ensures forall pid :: Found(pid, false) in after[|noted|..] <==> Found(pid, false) in torn[|noted|..]
  {
    WentMore(noted, torn, after, ok);
    assert after[|noted|..] == torn[|noted|..] + after[|torn|..];
  }

  /** The metadata, QEMU's end and the work on the checkpoint, one after the other. */
  lemma TornTrace(before: seq<Effect>, noted: seq<Effect>, torn: seq<Effect>, after: seq<Effect>, save: bool, ok: bool)
    requires noted == before + [Did(Metadata, true)] && Went(noted, torn, true) && Worked(torn, after, save, ok)
    requires Missed(true) !in torn[|noted|..]
    ensures Went(before, after, ok) && Missed(true) !in after[|before|..]
    ensures forall pid :: Found(pid, false) in after[|before|..] <==> Found(pid, false) in torn[|noted|..]
    ensures ok ==> Encloses(before, after, [Metadata], Work(save))
  {
    WorkWent(torn, after, save, ok);
    CallsTail(noted, torn, after, ok);
    AfterPlain(before, [Did(Metadata, true)], after, ok);
    if ok {
      assert Done([Metadata]) == [Did(Metadata, true)];
      Enclosed(before, [Metadata], torn, after, Work(save));
    }
  }

  lemma SaveTasksAre(save: bool)
    ensures Powerdown !in SaveTasks(save) && Quit !in SaveTasks(save)
  {
  }

  /** What was asked of QEMU in the middle is what was asked of it at all. */
  lemma MiddleAsks(a: seq<Effect>, b: seq<Effect>, c: seq<Effect>, d: seq<Effect>)
    requires a <= b <= c <= d
    requires forall e | e in b[|a|..] + d[|c|..] :: e.Did? && e.task !in {Powerdown, Quit}
    ensures Asked(d[|a|..], Powerdown) == Asked(c[|b|..], Powerdown) && Asked(d[|a|..], Quit) == Asked(c[|b|..], Quit)
  {
    assert d[|a|..] == b[|a|..] + c[|b|..] + d[|c|..];
    assert forall e | e in b[|a|..] :: e in b[|a|..] + d[|c|..];
    assert forall e | e in d[|c|..] :: e in b[|a|..] + d[|c|..];
  }

  lemma WentMore(a: seq<Effect>, b: seq<Effect>, c: seq<Effect>, ok: bool)
    requires Went(a, b, true) && Went(b, c, ok)
    ensures Went(a, c, ok)
  {
    assert c[|a|..] == b[|a|..] + c[|b|..];
  }

  /** The log after a call of create_checkpoint. */
  ghost predicate Copied(before: seq<Event>, after: seq<Event>, read: Event, raised: bool) {
    var end: seq<Event> := if raised then [] else [CheckpointReturned];
    after == before + end || after == before + [read] + end
  }

  lemma KilledBefore(procs: Procs, before: seq<Sent>, sent: seq<Sent>, pid: Pid)
    requires before <= sent && Finished(procs, sent[|before|..], pid)
    ensures pid in procs && (procs[pid] == Reaped || WasKilled(sent, pid))
  {
    if WasKilled(sent[|before|..], pid) {
      var i :| 0 <= i < |sent[|before|..]| && sent[|before|..][i].pid == pid && sent[|before|..][i].signal == Kill;
      assert sent[|before| + i] == sent[|before|..][i];
    }
  }
}
