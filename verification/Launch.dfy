/** Starting and killing QEMU: a launch leaves everything running, or nothing. */
module Launch {
  import opened Prelude
  import opened Processes
  import opened Sidecars

  /** `pid` is gone, or was sent SIGKILL. */
  ghost predicate Finished(procs: Procs, sent: seq<Sent>, pid: Pid) {
    Ended(procs, sent, {pid})
  }

  /** What was sent to one process: nothing, SIGTERM, or SIGTERM and then SIGKILL. */
  ghost predicate Escalated(sent: seq<Sent>, pid: Pid) {
    && |sent| <= 2 && Proper(sent, {pid})
    && (|sent| > 0 ==> sent[0].signal == Term)
    && (|sent| > 1 ==> sent[1].signal == Kill)
  }

  /** _kill_qemu: SIGTERM, at most `timeout` looks, and SIGKILL after all of them found the process. */
  method KillQemu(kernel: Kernel, pid: Pid, timeout: nat)
    requires kernel.Valid() && pid in kernel.procs
    modifies kernel`procs, kernel`probes, kernel`sent
    ensures kernel.Valid() && Later(kernel.children, old(kernel.procs), kernel.procs)
    ensures old(kernel.sent) <= kernel.sent && Escalated(kernel.sent[|old(kernel.sent)|..], pid)
    ensures Finished(kernel.procs, kernel.sent[|old(kernel.sent)|..], pid)
    ensures kernel.sent == old(kernel.sent) ==> kernel.procs[pid] == Reaped
    ensures |old(kernel.probes)| <= |kernel.probes| <= |old(kernel.probes)| + timeout
    ensures |kernel.sent| > |old(kernel.sent)| + 1 ==> |kernel.probes| == |old(kernel.probes)| + timeout
  {
    ghost var n := |kernel.sent|;
    var found := kernel.Signal(pid, Term);
    if !found {
      return;
    }
    for i := 0 to timeout
      invariant kernel.Valid() && Later(kernel.children, old(kernel.procs), kernel.procs)
      invariant |kernel.probes| == |old(kernel.probes)| + i
      invariant |kernel.sent| == n + 1 && old(kernel.sent) <= kernel.sent
      invariant kernel.sent[n].pid == pid && kernel.sent[n].status != Reaped && kernel.sent[n].signal == Term
    {
      found := kernel.Exists(pid);
      if !found {
        return;
      }
    }
    ghost var sent := kernel.sent;
    found := kernel.Signal(pid, Kill);
    if found {
      assert kernel.sent[n..][1] == kernel.sent[n + 1];
    }
  }

  /** A powerdown was asked for, and then only looks were taken at `pid`. */
  ghost predicate GentleLooks(before: seq<Effect>, after: seq<Effect>, pid: Pid) {
    && before < after
    && after[|before|].Did? && after[|before|].task == Powerdown
    && forall e | e in after[|before| + 1..] :: e.Found? && e.pid == pid
  }

  /**
   _graceful_shutdown: powerdown over QMP, then a wait; else _kill_qemu.
   The result says exactly whether QEMU was seen to have exited on its own.
   */
  method GracefulShutdown(kernel: Kernel, pid: Pid) returns (clean: bool)
    requires kernel.Valid() && pid in kernel.procs
    modifies kernel`procs, kernel`probes, kernel`sent, kernel`trace
    ensures kernel.Valid() && Later(kernel.children, old(kernel.procs), kernel.procs)
    ensures old(kernel.sent) <= kernel.sent && Escalated(kernel.sent[|old(kernel.sent)|..], pid)
    ensures Finished(kernel.procs, kernel.sent[|old(kernel.sent)|..], pid)
    ensures clean ==> kernel.sent == old(kernel.sent) && kernel.procs[pid] == Reaped
    ensures GentleLooks(old(kernel.trace), kernel.trace, pid)
    ensures clean <==> Found(pid, false) in kernel.trace[|old(kernel.trace)|..]
    ensures |kernel.sent| > |old(kernel.sent)| + 1 ==> |kernel.probes| >= |old(kernel.probes)| + 10
  {
    ghost var before := kernel.trace;
    var unreachable := kernel.Do(Powerdown);
    assert kernel.trace[|before|..] == [Did(Powerdown, !unreachable)];
    if unreachable {
      KillQemu(kernel, pid, 10);
      return false;
    }
    // How often it looks before the deadline is up to the clock.
    var polls: nat := *;
    while polls > 0
      invariant kernel.Valid() && Later(kernel.children, old(kernel.procs), kernel.procs)
      invariant kernel.sent == old(kernel.sent) && GentleLooks(before, kernel.trace, pid)
      invariant |old(kernel.probes)| <= |kernel.probes|
      invariant Found(pid, false) !in kernel.trace[|before|..]
    {
      ghost var trace := kernel.trace;
      var gone := kernel.IsExited(pid);
      assert kernel.trace[|before|..] == trace[|before|..] + [Found(pid, !gone)];
      if gone {
        return true;
      }
      polls := polls - 1;
    }
    KillQemu(kernel, pid, 10);
    return false;
  }

  /** The processes a launch started and knows of. */
  ghost function Started(manager: SidecarManager, forked: Option<Pid>): set<Pid>
    reads manager
  {
    manager.Own() + if forked.Some? then {forked.value} else {}
  }

  /** QEMU was forked right after a round in which every sidecar was found running and answering. */
  ghost predicate ForkedReady(trace: seq<Effect>, pids: seq<Pid>, qemu: Pid) {
    exists k: nat :: ForkedAt(trace, k, pids, qemu)
  }

  ghost predicate ForkedAt(trace: seq<Effect>, k: nat, pids: seq<Pid>, qemu: Pid) {
    && k + 1 < |trace|
    && EndsReady(trace[..k], pids) && trace[k] == Did(Metadata, true) && trace[k + 1] == Spawned(Some(qemu))
  }

  lemma ForkedStays(trace: seq<Effect>, more: seq<Effect>, pids: seq<Pid>, qemu: Pid)
    requires ForkedReady(trace, pids, qemu)
    ensures ForkedReady(trace + more, pids, qemu)
  {
    var k: nat :| ForkedAt(trace, k, pids, qemu);
    assert (trace + more)[..k] == trace[..k];
    assert ForkedAt(trace + more, k, pids, qemu);
  }

  lemma ForkedNow(trace: seq<Effect>, pids: seq<Pid>, qemu: Pid)
    requires EndsReady(trace, pids)
    ensures ForkedReady(trace + [Did(Metadata, true), Spawned(Some(qemu))], pids, qemu)
  {
    var after := trace + [Did(Metadata, true), Spawned(Some(qemu))];
    assert after[..|trace|] == trace;
    assert ForkedAt(after, |trace|, pids, qemu);
  }

  /** The metadata with the sidecars in it, and the fork of QEMU. */
  method SpawnQemu(kernel: Kernel) returns (forked: Option<Pid>)
    requires kernel.Valid()
    modifies kernel`procs, kernel`children, kernel`next, kernel`trace
    ensures kernel.Valid() && Handled(old(kernel.children), {}, old(kernel.procs), kernel.procs)
    ensures Extended(old(kernel.trace), kernel.trace, forked.Some?)
    ensures forked.None? ==> kernel.children == old(kernel.children)
    ensures forked.Some? ==>
      && kernel.trace == old(kernel.trace) + [Did(Metadata, true), Spawned(forked)]
      && forked.value !in old(kernel.procs) && forked.value in kernel.procs && kernel.procs[forked.value] == Running
      && kernel.children == old(kernel.children) + {forked.value}
      && Later(old(kernel.children), old(kernel.procs), kernel.procs - {forked.value})
  {
    ghost var before := kernel.trace;
    forked := None;
    var raised := kernel.Do(Metadata);
    OneMore(before, before, Did(Metadata, !raised));
    if !raised {
      ghost var trace := kernel.trace;
      var fails: bool := *;
      forked := kernel.Spawn(fails);
      OneMore(before, trace, Spawned(forked));
    }
  }

  /** One more child, that nobody has signalled. */
  lemma ForkGrows(before: set<Pid>, children: set<Pid>, own: set<Pid>, p: Procs, p': Procs, p'': Procs, qemu: Pid)
    requires Grown(before, children, own, None) && children <= p'.Keys && Unreaped(p', own, own)
    requires Handled(before, {}, p, p') && Handled(children, {}, p', p'') && qemu !in p' && qemu in p''
    requires p''[qemu] == Running
    ensures Handled(before, {}, p, p'') && Grown(before, children + {qemu}, own + {qemu}, None)
    ensures Unreaped(p'', own + {qemu}, own + {qemu}) && qemu !in own
  {
  }

  /** The sidecars, and then QEMU. */
  method ForkQemu(manager: SidecarManager) returns (forked: Option<Pid>, ghost lost: Option<Pid>)
    requires manager.Valid() && manager.handles == []
    modifies manager, manager.kernel
    ensures manager.Valid() && old(manager.kernel.sent) <= manager.kernel.sent
    ensures Handled(old(manager.kernel.children), {}, old(manager.kernel.procs), manager.kernel.procs)
    ensures Grown(old(manager.kernel.children), manager.kernel.children, Started(manager, forked), lost)
    ensures Proper(manager.kernel.sent[|old(manager.kernel.sent)|..], manager.Own())
    ensures Extended(old(manager.kernel.trace), manager.kernel.trace, forked.Some?)
    ensures forked.Some? ==>
      && forked.value !in manager.Own() && lost == None
      && manager.Planned() && manager.kernel.sent == old(manager.kernel.sent)
      && Unreaped(manager.kernel.procs, Started(manager, forked), Started(manager, forked))
      && ForkedReady(manager.kernel.trace[|old(manager.kernel.trace)|..], Pids(manager.handles), forked.value)
  {
    var kernel := manager.kernel;
    forked := None;
    ghost var before := kernel.trace;
    var ok;
    ok, lost := manager.StartAll();
    if !ok {
      return;
    }
    ghost var trace, procs, children := kernel.trace, kernel.procs, kernel.children;
    forked := SpawnQemu(kernel);
    ExtendedMore(before, trace, kernel.trace, forked.Some?);
    if forked.Some? {
      ForkGrows(old(kernel.children), children, manager.Own(), old(kernel.procs), procs, kernel.procs, forked.value);
      ForkedNow(trace[|before|..], Pids(manager.handles), forked.value);
      assert kernel.trace[|before|..] == trace[|before|..] + [Did(Metadata, true), Spawned(forked)];
    } else {
      HandledLess(old(kernel.children), children, children, old(kernel.procs), procs, kernel.procs);
    }
  }

  /** The calls between the fork and the last metadata, up to the first that raises. */
  method BringUp(kernel: Kernel) returns (raised: bool)
    modifies kernel`trace
    ensures Extended(old(kernel.trace), kernel.trace, !raised)
    ensures !raised ==>
      kernel.trace == old(kernel.trace) +
        [Did(Metadata, true), Did(Monitor, true), Did(Boot, true), Did(Login, true), Did(Metadata, true)]
  {
    ghost var before, trace := kernel.trace, kernel.trace;
    raised := kernel.Do(Metadata);
    OneMore(before, trace, Did(Metadata, !raised));
    if raised {
      return;
    }
    trace := kernel.trace;
    raised := kernel.Do(Monitor); // wait_for_monitor
    OneMore(before, trace, Did(Monitor, !raised));
    if raised {
      return;
    }
    trace := kernel.trace;
    raised := kernel.Do(Boot); // migration, cont, host key, key rotation
    OneMore(before, trace, Did(Boot, !raised));
    if raised {
      return;
    }
    trace := kernel.trace;
    raised := kernel.Do(Login); // wait_for_ssh, handoff check
    OneMore(before, trace, Did(Login, !raised));
    if raised {
      return;
    }
    trace := kernel.trace;
    raised := kernel.Do(Metadata);
    OneMore(before, trace, Did(Metadata, !raised));
  }

  /** The steps between the first sidecar and the final metadata, up to the first that raises. */
  method LaunchSteps(manager: SidecarManager) returns (raised: bool, forked: Option<Pid>, ghost lost: Option<Pid>)
    requires manager.Valid() && manager.handles == []
    modifies manager, manager.kernel
    ensures manager.Valid() && old(manager.kernel.sent) <= manager.kernel.sent
    ensures Handled(old(manager.kernel.children), {}, old(manager.kernel.procs), manager.kernel.procs)
    ensures Grown(old(manager.kernel.children), manager.kernel.children, Started(manager, forked), lost)
    ensures forked.Some? ==>
      && forked.value !in manager.Own()
      && forked.value in manager.kernel.procs && manager.kernel.procs[forked.value] != Reaped
    ensures Proper(manager.kernel.sent[|old(manager.kernel.sent)|..], manager.Own())
    ensures Extended(old(manager.kernel.trace), manager.kernel.trace, !raised)
    ensures forked.Some? ==>
      ForkedReady(manager.kernel.trace[|old(manager.kernel.trace)|..], Pids(manager.handles), forked.value)
    ensures !raised ==>
      && forked.Some? && lost == None
      && manager.Planned() && manager.kernel.sent == old(manager.kernel.sent)
      && Unreaped(manager.kernel.procs, Started(manager, forked), Started(manager, forked))
  {
    var kernel := manager.kernel;
    ghost var before := kernel.trace;
    forked, lost := ForkQemu(manager);
    raised := forked.None?;
    if !raised {
      ghost var trace := kernel.trace;
      raised := BringUp(kernel);
      ExtendedMore(before, trace, kernel.trace, !raised);
      ForkedStays(trace[|before|..], kernel.trace[|trace|..], Pids(manager.handles), forked.value);
      assert kernel.trace[|before|..] == trace[|before|..] + kernel.trace[|trace|..];
    }
  }

  lemma ProperAppend(a: seq<Sent>, b: seq<Sent>, pids: set<Pid>, more: set<Pid>)
    requires Proper(a, pids) && Proper(b, more)
    ensures Proper(a + b, pids + more)
  {
  }

  predicate Signalled(sent: seq<Sent>, pid: Pid) {
    exists i | 0 <= i < |sent| :: sent[i].pid == pid
  }

  lemma SignalledMore(a: seq<Sent>, b: seq<Sent>, pid: Pid)
    requires Signalled(a, pid) || Signalled(b, pid)
    ensures Signalled(a + b, pid)
  {
    if i :| 0 <= i < |a| && a[i].pid == pid {
      assert (a + b)[i].pid == pid;
    } else {
      var i :| 0 <= i < |b| && b[i].pid == pid;
      assert (a + b)[|a| + i].pid == pid;
    }
  }

  method KillAndReap(kernel: Kernel, pid: Pid)
    requires kernel.Valid() && pid in kernel.children
    modifies kernel`procs, kernel`probes, kernel`sent
    ensures kernel.Valid() && kernel.procs.Keys == old(kernel.procs).Keys
    ensures Handled(kernel.children, {pid}, old(kernel.procs), kernel.procs)
    ensures old(kernel.sent) <= kernel.sent && Proper(kernel.sent[|old(kernel.sent)|..], {pid})
    ensures kernel.procs[pid] == Reaped
    ensures old(kernel.procs)[pid] != Reaped ==> Signalled(kernel.sent[|old(kernel.sent)|..], pid)
  {
    KillQemu(kernel, pid, 2);
    kernel.WaitForExit(pid);
  }

  /** The handler of launch_vm: QEMU is killed and reaped, the sidecars are stopped. */
  method Abandon(manager: SidecarManager, forked: Option<Pid>)
    requires manager.Valid()
    requires forked.Some? ==> forked.value in manager.kernel.children - manager.Own()
    modifies manager.kernel`procs, manager.kernel`probes, manager.kernel`sent, manager.kernel`waits
    ensures manager.Valid() && old(manager.kernel.sent) <= manager.kernel.sent
    ensures Handled(manager.kernel.children, Started(manager, forked), old(manager.kernel.procs), manager.kernel.procs)
    ensures Proper(manager.kernel.sent[|old(manager.kernel.sent)|..], Started(manager, forked))
    ensures Ended(manager.kernel.procs, manager.kernel.sent[|old(manager.kernel.sent)|..], manager.Own())
    ensures forked.Some? && old(manager.kernel.procs)[forked.value] != Reaped ==>
              Signalled(manager.kernel.sent[|old(manager.kernel.sent)|..], forked.value)
    ensures forked.Some? ==> forked.value in manager.kernel.procs && manager.kernel.procs[forked.value] == Reaped
  {
    var kernel := manager.kernel;
    if forked.Some? {
      KillAndReap(kernel, forked.value);
    }
    ghost var sent, procs := kernel.sent, kernel.procs;
    ghost var alive, stubborn;
    alive, stubborn := manager.StopAll();
    ghost var n := |old(kernel.sent)|;
    StoppingEnds(kernel.procs, kernel.sent[|sent|..], Pids(manager.handles), alive, stubborn);
    assert kernel.sent[n..] == sent[n..] + kernel.sent[|sent|..];
    ProperAppend(sent[n..], kernel.sent[|sent|..], if forked.Some? then {forked.value} else {}, manager.Own());
    KilledAppend(kernel.procs, sent[n..], kernel.sent[|sent|..], manager.Own());
    if forked.Some? && Signalled(sent[n..], forked.value) {
      SignalledMore(sent[n..], kernel.sent[|sent|..], forked.value);
    }
  }

  lemma KilledAppend(procs: Procs, before: seq<Sent>, sent: seq<Sent>, pids: set<Pid>)
    requires Ended(procs, sent, pids)
    ensures Ended(procs, before + sent, pids)
  {
    forall pid | pid in pids && WasKilled(sent, pid)
      ensures WasKilled(before + sent, pid)
    {
      var i :| 0 <= i < |sent| && sent[i].pid == pid && sent[i].signal == Kill;
      assert (before + sent)[|before| + i] == sent[i];
    }
  }

  /**
   The process part of launch_vm.  If nothing fails it returns with QEMU and every
   planned sidecar started and not signalled; if anything does it raises (None), and
   every process it knows to have started has ended: QEMU reaped, each sidecar reaped
   or sent SIGKILL.  QEMU is only forked once all sidecars answer.  `lost` is the one
   sidecar it cannot know of.
   */
  method LaunchVm(kernel: Kernel, plans: seq<Plan>)
    returns (manager: SidecarManager, qemu: Option<Pid>, forked: Option<Pid>, ghost lost: Option<Pid>)
    requires kernel.Valid()
    modifies kernel
    ensures fresh(manager) && manager.kernel == kernel && manager.plans == plans && manager.Valid()
    ensures Grown(old(kernel.children), kernel.children, Started(manager, forked), lost)
    ensures Handled(old(kernel.children), {}, old(kernel.procs), kernel.procs)
    ensures old(kernel.sent) <= kernel.sent
    ensures Extended(old(kernel.trace), kernel.trace, qemu.Some?)
    ensures forked.Some? ==> ForkedReady(kernel.trace[|old(kernel.trace)|..], Pids(manager.handles), forked.value)
    ensures qemu.Some? ==>
      && forked == qemu && lost == None && manager.Planned() && kernel.sent == old(kernel.sent)
      && Unreaped(kernel.procs, Started(manager, forked), Started(manager, forked))
    ensures qemu.None? ==>
      && Proper(kernel.sent[|old(kernel.sent)|..], Started(manager, forked))
      && Ended(kernel.procs, kernel.sent[|old(kernel.sent)|..], Started(manager, forked))
      && (forked.Some? ==>
            && kernel.procs[forked.value] == Reaped
            && Signalled(kernel.sent[|old(kernel.sent)|..], forked.value))
    ensures lost.Some? ==>
      && lost.value !in Started(manager, forked) && lost.value !in old(kernel.children)
      && forall i | |old(kernel.sent)| <= i < |kernel.sent| :: kernel.sent[i].pid != lost.value
  {
    manager := new SidecarManager(kernel, plans);
    var raised;
    raised, forked, lost := LaunchSteps(manager);
    if !raised {
      return manager, forked, forked, lost;
    }
    ghost var sent, procs := kernel.sent, kernel.procs;
    Abandon(manager, forked);
    HandledOthers(old(kernel.children), kernel.children, Started(manager, forked), old(kernel.procs), procs,
      kernel.procs);
    ghost var n := |old(kernel.sent)|;
    assert kernel.sent[n..] == sent[n..] + kernel.sent[|sent|..];
    ProperAppend(sent[n..], kernel.sent[|sent|..], manager.Own(), Started(manager, forked));
    assert manager.Own() + Started(manager, forked) == Started(manager, forked);
    KilledAppend(kernel.procs, sent[n..], kernel.sent[|sent|..], manager.Own());
    if forked.Some? {
      SignalledMore(sent[n..], kernel.sent[|sent|..], forked.value);
    }
    qemu := None;
  }
}
