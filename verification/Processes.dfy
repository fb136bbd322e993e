/** Processes as the supervisor sees them: it can signal them, and reap its own children. */
module Processes {
  import opened Prelude

  /** A process's identity; unlike its number it is never used again. */
  type Pid = nat

  /** Reaped: its number is free for another process. */
  datatype Status = Running | Zombie | Reaped

  datatype Signal = Term | Kill

  /** A signal, with what the receiver was when it was sent. */
  datatype Sent = Sent(pid: Pid, signal: Signal, status: Status)

  type Procs = map<Pid, Status>

  /** What can happen to a process on its own; only its parent reaps it. */
  predicate Ages(before: Status, after: Status, child: bool) {
    || after == before
    || (before == Running && after == Zombie)
    || (before != Reaped && after == Reaped && !child)
  }

  /** What can happen while the supervisor does nothing to the processes. */
  predicate Later(children: set<Pid>, p: Procs, p': Procs) {
    p'.Keys == p.Keys && forall pid | pid in p :: Ages(p[pid], p'[pid], pid in children)
  }

  /** What can happen while the supervisor may also reap the processes in `pids`, or start more. */
  predicate Handled(children: set<Pid>, pids: set<Pid>, p: Procs, p': Procs) {
    p.Keys <= p'.Keys && forall pid | pid in p :: Ages(p[pid], p'[pid], pid in children && pid !in pids)
  }

  /** `pid` was sent SIGKILL. */
  predicate WasKilled(sent: seq<Sent>, pid: Pid) {
    exists i | 0 <= i < |sent| :: sent[i].pid == pid && sent[i].signal == Kill
  }

  /** The calls of the supervisor that may raise an exception and change no process. */
  datatype Task =
    | Preflight | Prepare | CloseLog | Metadata | Monitor | Boot | Login
    | Powerdown | Quit | CloseMonitor | Supervise | Report | Validate | StopSidecars | Checkpoint

  /** What the supervisor did or saw, in order. */
  datatype Effect =
    | Did(task: Task, ok: bool)
    | Spawned(child: Option<Pid>)           // None: the fork or the exec failed
    | Found(pid: Pid, running: bool)        // a look at a child before it is ready
    | Looked(pid: Pid, answered: bool)      // a look at its sockets
    | TimedOut
    | Missed(gone: bool)                    // a look for the runtime directory

  predicate IsFault(e: Effect) {
    (e.Did? && !e.ok) || e == Spawned(None) || (e.Found? && !e.running) || e.TimedOut?
  }

  predicate Faultless(trace: seq<Effect>) {
    forall e | e in trace :: !IsFault(e)
  }

  /** One round that found each of `pids` running and its sockets answering, in order. */
  function Answers(pids: seq<Pid>): seq<Effect> {
    if pids == [] then []
    else
      var last := pids[|pids| - 1];
      Answers(pids[..|pids| - 1]) + [Found(last, true), Looked(last, true)]
  }

  class Kernel {
    var procs: Procs
    /** The processes that this one started, and alone can reap. */
    var children: set<Pid>
    var sent: seq<Sent>
    ghost var trace: seq<Effect>
    /** The processes that were looked at with signal 0, in order. */
    ghost var probes: seq<Pid>
    /** The children that were waited for, in order. */
    ghost var waits: seq<Pid>
    var next: Pid

    constructor (running: Procs, unused: Pid)
      requires forall pid | pid in running :: pid < unused
      ensures Valid() && procs == running && children == {} && sent == [] && trace == []
              && probes == [] && waits == []
    {
      procs := running;
      children := {};
      sent, trace, probes, waits := [], [], [], [];
      next := unused;
    }

    ghost predicate Valid()
      reads this
    {
      children <= procs.Keys && forall pid | pid in procs :: pid < next
    }

    /** Time passes. */
    method Pass()
      requires Valid()
      modifies this`procs
      ensures Valid() && Later(children, old(procs), procs)
    {
      var exiting: set<Pid>, reaped: set<Pid> := *, *;
      procs := map pid | pid in procs ::
        if pid in reaped && pid !in children then Reaped
        else if pid in exiting && procs[pid] == Running then Zombie
        else procs[pid];
    }

    /** A call that may raise: `fails` is the system's choice. */
    method DoGiven(task: Task, fails: bool) returns (raised: bool)
      modifies this`trace
      ensures raised == fails && trace == old(trace) + [Did(task, !raised)]
    {
      trace := trace + [Did(task, !fails)];
      raised := fails;
    }

    method Do(task: Task) returns (raised: bool)
      modifies this`trace
      ensures trace == old(trace) + [Did(task, !raised)]
    {
      var fails: bool := *;
      raised := DoGiven(task, fails);
    }

    /** Do the sockets of this process exist and answer? */
    method Look(pid: Pid) returns (answered: bool)
      modifies this`trace
      ensures trace == old(trace) + [Looked(pid, answered)]
    {
      answered := *;
      trace := trace + [Looked(pid, answered)];
    }

    /** Is the deadline over?  At the latest when it `must` be. */
    method Deadline(must: bool) returns (over: bool)
      modifies this`trace
      ensures must ==> over
      ensures trace == old(trace) + if over then [TimedOut] else []
    {
      over := *;
      over := over || must;
      trace := trace + if over then [TimedOut] else [];
    }

    /** Has another process removed the runtime directory? */
    method IsGone() returns (gone: bool)
      modifies this`trace
      ensures trace == old(trace) + [Missed(gone)]
    {
      gone := *;
      trace := trace + [Missed(gone)];
    }

    /** subprocess.Popen or os.fork: `fails` is the system's choice. */
    method Spawn(fails: bool) returns (pid: Option<Pid>)
      requires Valid()
      modifies this`procs, this`children, this`next, this`trace
      ensures Valid() && (pid.None? <==> fails) && trace == old(trace) + [Spawned(pid)]
      ensures pid.None? ==> children == old(children) && Later(children, old(procs), procs)
      ensures pid.Some? ==>
        && pid.value !in old(procs) && pid.value in procs && procs[pid.value] == Running
        && children == old(children) + {pid.value}
        && Later(old(children), old(procs), procs - {pid.value})
    {
      Pass();
      pid := None;
      if !fails {
        procs, children := procs[next := Running], children + {next};
        pid, next := Some(next), next + 1;
      }
      trace := trace + [Spawned(pid)];
    }

    /** Popen.poll: has this child exited?  If so it is reaped. */
    method Poll(pid: Pid) returns (exited: bool)
      requires Valid() && pid in children
      modifies this`procs
      ensures Valid() && Handled(children, {pid}, old(procs), procs) && procs.Keys == old(procs).Keys
      ensures procs[pid] == if exited then Reaped else Running
    {
      Pass();
      exited := procs[pid] != Running;
      if exited {
        procs := procs[pid := Reaped];
      }
    }

    /** Popen.poll on a child that is not ready yet. */
    method Check(pid: Pid) returns (exited: bool)
      requires Valid() && pid in children
      modifies this`procs, this`trace
      ensures Valid() && Handled(children, {pid}, old(procs), procs) && procs.Keys == old(procs).Keys
      ensures procs[pid] == if exited then Reaped else Running
      ensures trace == old(trace) + [Found(pid, !exited)]
    {
      exited := Poll(pid);
      trace := trace + [Found(pid, !exited)];
    }

    /** Popen.wait(timeout): as poll, some time later. */
    method Wait(pid: Pid) returns (exited: bool)
      requires Valid() && pid in children
      modifies this`procs, this`waits
      ensures Valid() && Handled(children, {pid}, old(procs), procs) && procs.Keys == old(procs).Keys
      ensures procs[pid] == if exited then Reaped else Running
      ensures waits == old(waits) + [pid]
    {
      exited := Poll(pid);
      waits := waits + [pid];
    }

    /** os.waitpid(pid, 0): returns once the child has exited. */
    method WaitForExit(pid: Pid)
      requires Valid() && pid in children
      modifies this`procs
      ensures Valid() && Handled(children, {pid}, old(procs), procs) && procs.Keys == old(procs).Keys
      ensures procs[pid] == Reaped
    {
      Pass();
      procs := procs[pid := Reaped];
    }

    /** os.kill(pid, 0) */
    method Exists(pid: Pid) returns (found: bool)
      requires Valid() && pid in procs
      modifies this`procs, this`probes
      ensures Valid() && Later(children, old(procs), procs) && probes == old(probes) + [pid]
      ensures !found ==> procs[pid] == Reaped
    {
      Pass();
      probes := probes + [pid];
      found := procs[pid] != Reaped;
    }

    /** os.kill(pid, 0), to see whether a process has exited by itself. */
    method IsExited(pid: Pid) returns (exited: bool)
      requires Valid() && pid in procs
      modifies this`procs, this`probes, this`trace
      ensures Valid() && Later(children, old(procs), procs)
      ensures exited ==> procs[pid] == Reaped
      ensures trace == old(trace) + [Found(pid, !exited)] && probes == old(probes) + [pid]
    {
      var found := Exists(pid);
      exited := !found;
      trace := trace + [Found(pid, !exited)];
    }

    /** os.kill or os.killpg; false is ProcessLookupError. */
    method Signal(pid: Pid, signal: Signal) returns (found: bool)
      requires Valid() && pid in procs
      modifies this`procs, this`sent
      ensures Valid() && Later(children, old(procs), procs)
      ensures found ==> |sent| == |old(sent)| + 1 && sent == old(sent) + [Sent(pid, signal, sent[|old(sent)|].status)]
      ensures found ==>
        && sent[|old(sent)|].status != Reaped
        && Ages(old(procs[pid]), sent[|old(sent)|].status, pid in children)
      ensures !found ==> sent == old(sent) && procs[pid] == Reaped
    {
      Pass();
      found := procs[pid] != Reaped;
      if found {
        sent := sent + [Sent(pid, signal, procs[pid])];
        Pass();
      }
    }
  }
}
