/** The attached session: its reconnect loop, and the records it stages in a Windows guest. */
module Session {
  import opened Prelude
  import opened Processes
  import opened Sidecars
  import opened Launch
  import opened FrontEnds

  /** A record's name; the source draws 16 random bytes for each. */
  type StageId = nat

  /** What the session did or saw outside of itself, in order. */
  datatype Deed =
    | Staged(id: StageId, ok: bool)              // a record was put into a Windows guest, or may have been
    | StagedPosix(ok: bool)
    | Ran(exit: Option<int>)                     // None: SSH could not be started
    | Cleaned(id: StageId, confirmed: bool)      // the guest was asked to remove a record
    | Seen(stop: Option<int>, shutdown: bool)    // a stop signal, and the guest's own shutdown
    | Alive(alive: bool)                         // is QEMU?
    | Waited(back: bool)                         // for the guest's SSH to come back

  /** What the metadata says about the launch: all three are needed to stage in a Windows guest. */
  datatype Gates = Gates(ephemeralKey: bool, pinned: bool, verified: bool)

  /** One finished SSH command, and what was found after it. */
  datatype Run = Run(status: int, stop: Option<int>, shutdown: bool, alive: bool, back: bool)

  /** The loop goes on, the function returns, or an exception leaves it. */
  datatype Next = Again | Return(status: int) | Raise

  // ---- What a log of deeds says ---------------------------------------------------------------

  /** The commands that ran, each with what was seen after it. */
  function RunsOf(log: seq<Deed>): seq<Run> {
    if log == [] then []
    else Noted(RunsOf(log[..|log| - 1]), log[|log| - 1])
  }

  function Noted(runs: seq<Run>, d: Deed): seq<Run> {
    match d
    case Ran(Some(status)) => runs + [Run(status, None, false, false, false)]
    case Seen(stop, shutdown) =>
      if runs == [] then [] else runs[..|runs| - 1] + [runs[|runs| - 1].(stop := stop, shutdown := shutdown)]
    case Alive(alive) => if runs == [] then [] else runs[..|runs| - 1] + [runs[|runs| - 1].(alive := alive)]
    case Waited(back) => if runs == [] then [] else runs[..|runs| - 1] + [runs[|runs| - 1].(back := back)]
    case _ => runs
  }

  lemma RunsMore(log: seq<Deed>, d: Deed)
    ensures RunsOf(log + [d]) == Noted(RunsOf(log), d)
  {
    assert (log + [d])[..|log|] == log;
  }

  /** Deeds that are not about a command that ran. */
  predicate Aside(d: Deed) {
    d.Staged? || d.StagedPosix? || d.Cleaned? || d == Ran(None)
  }

  lemma {:induction false} RunsAside(log: seq<Deed>, more: seq<Deed>)
    requires forall d | d in more :: Aside(d)
    ensures RunsOf(log + more) == RunsOf(log)
  {
    if more == [] {
      assert log + more == log;
    } else {
      var most, last := more[..|more| - 1], more[|more| - 1];
      RunsAside(log, most);
      assert log + more == (log + most) + [last] && last in more;
      RunsMore(log + most, last);
    }
  }

  /** The loop goes round again exactly after losing the transport to a live guest that then came back. */
  predicate MayReconnect(r: Run, tty: bool) {
    tty && r.status == 255 && r.stop.None? && !r.shutdown && r.alive && r.back
  }

  /** What the session returns after its last run. */
  predicate Explains(r: Run, status: int) {
    status == if r.stop.Some? then 128 + r.stop.value else if r.shutdown then 0 else r.status
  }

  /** Every id under which a record may have been put into the guest, and those whose removal was confirmed. */
  function Attempted(log: seq<Deed>): set<StageId> {
    set d | d in log && d.Staged? :: d.id
  }

  function Confirmed(log: seq<Deed>): set<StageId> {
    set d | d in log && d.Cleaned? && d.confirmed :: d.id
  }

  lemma SetsOne(log: seq<Deed>, d: Deed)
    ensures Attempted(log + [d]) == Attempted(log) + if d.Staged? then {d.id} else {}
    ensures Confirmed(log + [d]) == Confirmed(log) + if d.Cleaned? && d.confirmed then {d.id} else {}
  {
    assert forall x :: x in log + [d] <==> x in log || x == d;
  }

  /** `pending` are exactly the records that may be in the guest and were not confirmed removed. */
  ghost predicate Books(pending: set<StageId>, log: seq<Deed>, next: StageId, gates: Gates) {
    && pending == Attempted(log) - Confirmed(log)
    && (forall d | d in log && (d.Staged? || d.Cleaned?) :: d.id < next)
    && (forall d | d in log && d.Staged? :: gates == Gates(true, true, true))
  }

  lemma BooksPlain(pending: set<StageId>, log: seq<Deed>, next: StageId, gates: Gates, d: Deed)
    requires Books(pending, log, next, gates) && !d.Staged? && !d.Cleaned?
    ensures Books(pending, log + [d], next, gates)
  {
    SetsOne(log, d);
  }

  /** A new record. */
  lemma BooksStaged(pending: set<StageId>, log: seq<Deed>, next: StageId, gates: Gates, ok: bool)
    requires Books(pending, log, next, gates) && gates == Gates(true, true, true)
    ensures Books(pending + {next}, log + [Staged(next, ok)], next + 1, gates)
  {
    SetsOne(log, Staged(next, ok));
    assert next !in Confirmed(log);
  }

  lemma BooksCleaned(pending: set<StageId>, log: seq<Deed>, next: StageId, gates: Gates, id: StageId, confirmed: bool)
    requires Books(pending, log, next, gates) && id < next
    ensures Books(if confirmed then pending - {id} else pending, log + [Cleaned(id, confirmed)], next, gates)
  {
    SetsOne(log, Cleaned(id, confirmed));
  }

  lemma BooksHave(pending: set<StageId>, log: seq<Deed>, next: StageId, gates: Gates, id: StageId)
    requires Books(pending, log, next, gates) && id in pending
    ensures id < next
  {
  }

  /** The guest was asked once for each of `ids`, and for nothing else. */
  ghost predicate AskedOnce(asks: seq<Deed>, ids: set<StageId>) {
    && (forall d | d in asks :: d.Cleaned? && d.id in ids)
    && (forall i, j | 0 <= i < j < |asks| :: asks[i].id != asks[j].id)
    && (forall id | id in ids :: exists i :: 0 <= i < |asks| && asks[i].id == id)
  }

  /** Deed `i` is a command: its environment was staged right before, and its record is asked for right after. */
  predicate ServedAt(log: seq<Deed>, i: nat, forwarding: bool, windows: bool)
    requires i < |log|
  {
    && (forwarding && windows ==>
          && 0 < i && log[i - 1].Staged? && log[i - 1].ok
          && i + 1 < |log| && log[i + 1].Cleaned? && log[i + 1].id == log[i - 1].id)
    && (forwarding && !windows ==> 0 < i && log[i - 1] == StagedPosix(true))
  }

  ghost predicate Served(log: seq<Deed>, forwarding: bool, windows: bool) {
    forall i | 0 <= i < |log| && log[i].Ran? :: ServedAt(log, i, forwarding, windows)
  }

  lemma ServedMore(a: seq<Deed>, b: seq<Deed>, forwarding: bool, windows: bool)
    requires Served(a, forwarding, windows) && Served(b, forwarding, windows)
    ensures Served(a + b, forwarding, windows)
  {
    forall i | 0 <= i < |a + b| && (a + b)[i].Ran?
      ensures ServedAt(a + b, i, forwarding, windows)
    {
      if i < |a| {
        assert ServedAt(a, i, forwarding, windows);
      } else {
        assert ServedAt(b, i - |a|, forwarding, windows);
      }
    }
  }

  /** From deed `i` to `j` the guest was asked once for each record that was pending at `i`. */
  ghost predicate AskedFrom(log: seq<Deed>, i: nat, j: nat) {
    i < j <= |log| && AskedOnce(log[i + 1..j], Attempted(log[..i]) - Confirmed(log[..i]))
  }

  ghost predicate RetriedAt(log: seq<Deed>, i: nat) {
    exists j :: AskedFrom(log, i, j)
  }

  /** Whenever the guest's SSH came back, the pending records were asked for. */
  ghost predicate Retried(log: seq<Deed>) {
    forall i | 0 <= i < |log| && log[i] == Waited(true) :: RetriedAt(log, i)
  }

  lemma RetriedStays(log: seq<Deed>, more: seq<Deed>, i: nat)
    requires RetriedAt(log, i)
    ensures RetriedAt(log + more, i)
  {
    var j: nat :| AskedFrom(log, i, j);
    assert (log + more)[i + 1..j] == log[i + 1..j] && (log + more)[..i] == log[..i];
    assert AskedFrom(log + more, i, j);
  }

  lemma RetriedMore(log: seq<Deed>, more: seq<Deed>)
    requires Retried(log) && Waited(true) !in more
    ensures Retried(log + more)
  {
    assert forall k | 0 <= k < |more| :: more[k] != Waited(true);
    forall i | 0 <= i < |log + more| && (log + more)[i] == Waited(true)
      ensures RetriedAt(log + more, i)
    {
      RetriedStays(log, more, i);
    }
  }

  lemma RetriedBack(log: seq<Deed>, asks: seq<Deed>)
    requires Retried(log) && AskedOnce(asks, Attempted(log) - Confirmed(log))
    ensures Retried(log + [Waited(true)] + asks)
  {
    var all := log + [Waited(true)];
    assert all[|log| + 1..] == [] && all[..|log|] == log;
    assert forall k | 0 <= k < |asks| :: asks[k].Cleaned?;
    assert (all + asks)[|log| + 1..|all + asks|] == asks && (all + asks)[..|log|] == log;
    assert AskedFrom(all + asks, |log|, |all + asks|);
    assert all + asks == log + ([Waited(true)] + asks);
    forall i | 0 <= i < |all + asks| && (all + asks)[i] == Waited(true)
      ensures RetriedAt(all + asks, i)
    {
      if i < |log| {
        RetriedStays(log, [Waited(true)] + asks, i);
      }
    }
  }

  /** A step that makes the session raise. */
  predicate IsFailure(d: Deed) {
    (d.Staged? && !d.ok) || d == StagedPosix(false) || d == Ran(None)
  }

  predicate Failed(log: seq<Deed>) {
    exists d :: d in log && IsFailure(d)
  }

  class AttachedSession {
    const front: FrontEnd
    const tty: bool
    /** A forwarded environment for a POSIX or for a Windows guest. */
    const forwarding: bool
    const windows: bool
    const gates: Gates
    var pending: set<StageId>
    var nextStage: StageId
    var guestShutdown: bool
    var stop: Option<int>
    /** checkpoint_consistency says that the guest shut itself down. */
    var clean: bool
    ghost var log: seq<Deed>

    constructor (front: FrontEnd, tty: bool, forwarding: bool, windows: bool, gates: Gates)
      requires front.Valid() && front.qemu.Some? && front.qemu.value in front.kernel.children && front.log == []
               && front.Gentle()
      ensures Valid() && !clean && this.front == front && this.tty == tty && this.forwarding == forwarding
              && this.windows == windows && this.gates == gates
      ensures log == []
    {
      this.front, this.tty, this.forwarding, this.windows, this.gates := front, tty, forwarding, windows, gates;
      pending, nextStage, guestShutdown, stop, clean := {}, 0, false, None, false;
      log := [];
    }

    /** The pending records are exactly those that may be in the guest and were not confirmed removed. */
    ghost predicate Accounted()
      reads this
    {
      Books(pending, log, nextStage, gates)
    }

    /** The runs and the records of a session that has come to an end of a round. */
    ghost predicate Kept()
      reads this
    {
      && Accounted() && Served(log, forwarding, windows) && Retried(log)
      && forall i | 0 <= i < |RunsOf(log)| - 1 :: MayReconnect(RunsOf(log)[i], tty)
    }

    ghost predicate Valid()
      reads this, front, front.kernel
    {
      && Kept()
      && front.Valid() && front.qemu.Some? && front.qemu.value in front.kernel.children && front.log == []
      && front.Gentle()
    }

    // ---- The world outside ----------------------------------------------------------------------

    /** Events and signals arrive: neither is ever taken back. */
    method Arrive()
      modifies this`guestShutdown, this`stop
      ensures old(guestShutdown) ==> guestShutdown
      ensures old(stop).Some? ==> stop == old(stop)
    {
      var shut: bool, signal: Option<int> := *, *;
      guestShutdown := guestShutdown || shut;
      if stop.None? {
        stop := signal;
      }
    }

    /** The staging script for a Windows guest; when it fails it may still have left its record. */
    method Stage(id: StageId) returns (ok: bool)
      modifies this`log
      ensures log == old(log) + [Staged(id, ok)]
    {
      ok := *;
      log := log + [Staged(id, ok)];
    }

    method StagePosix() returns (ok: bool)
      modifies this`log
      ensures log == old(log) + [StagedPosix(ok)]
    {
      ok := *;
      log := log + [StagedPosix(ok)];
    }

    /** _cleanup_windows_forwarded_env: was the removal confirmed? */
    method Cleanup(id: StageId) returns (confirmed: bool)
      modifies this`log
      ensures log == old(log) + [Cleaned(id, confirmed)]
    {
      confirmed := *;
      log := log + [Cleaned(id, confirmed)];
    }

    /** _run_ssh: the exit status, or None if SSH could not be started. */
    method RunSsh() returns (status: Option<int>)
      modifies this`guestShutdown, this`stop, this`log
      ensures old(guestShutdown) ==> guestShutdown
      ensures old(stop).Some? ==> stop == old(stop)
      ensures log == old(log) + [Ran(status)]
    {
      Arrive();
      status := *;
      log := log + [Ran(status)];
    }

    /** The event queue is drained and the flags are read. */
    method Look()
      modifies this`guestShutdown, this`stop, this`log
      ensures old(guestShutdown) ==> guestShutdown
      ensures old(stop).Some? ==> stop == old(stop)
      ensures log == old(log) + [Seen(stop, guestShutdown)]
    {
      Arrive();
      log := log + [Seen(stop, guestShutdown)];
    }

    /** _process_alive */
    method IsAlive() returns (alive: bool)
      requires front.Valid() && front.qemu.Some? && front.qemu.value in front.kernel.children
      modifies this`log, front.kernel`procs
      ensures front.Valid() && log == old(log) + [Alive(alive)]
      ensures front.kernel.procs[front.qemu.value] == if alive then Running else Reaped
    {
      var exited := front.kernel.Poll(front.qemu.value);
      alive := !exited;
      log := log + [Alive(alive)];
    }

    /** wait_for_ssh */
    method WaitForSsh() returns (back: bool)
      modifies this`guestShutdown, this`stop, this`log
      ensures log == old(log) + [Waited(back)]
    {
      Arrive();
      back := *;
      log := log + [Waited(back)];
    }

    // ---- The session --------------------------------------------------------------------------

    /**
     _stage_windows_forwarded_env, with the caller's handling of a pending cleanup.
     Nothing is staged behind a closed gate; a record whose staging failed is asked for
     at once, and is pending unless its removal was confirmed.
     */
    method StageWindows() returns (staged: Option<StageId>)
      requires Accounted()
      modifies this`pending, this`nextStage, this`log
      ensures staged.None? ==> Accounted()
      ensures staged.Some? ==>
        && gates == Gates(true, true, true) && staged.value == old(nextStage) && nextStage == old(nextStage) + 1
        && log == old(log) + [Staged(staged.value, true)] && pending == old(pending)
      ensures staged.None? && log == old(log) ==> gates != Gates(true, true, true)
      ensures staged.None? && log != old(log) ==>
        && gates == Gates(true, true, true)
        && exists confirmed :: log == old(log) + [Staged(old(nextStage), false), Cleaned(old(nextStage), confirmed)]
    {
      if !gates.ephemeralKey || !gates.pinned || !gates.verified {
        return None;
      }
      var id := nextStage;
      nextStage := nextStage + 1;
      var ok := Stage(id);
      if ok {
        return Some(id);
      }
      BooksStaged(pending, old(log), id, gates, false);
      ghost var asked := log;
      var confirmed := Cleanup(id);
      BooksCleaned(pending + {id}, asked, nextStage, gates, id, confirmed);
      assert id !in pending;
      assert log == old(log) + [Staged(id, false), Cleaned(id, confirmed)];
      if !confirmed {
        pending := pending + {id};
      }
      return None;
    }

    /** The guest is asked for one pending record. */
    method CleanOne(id: StageId) returns (confirmed: bool)
      requires Accounted() && id in pending
      modifies this`pending, this`log
      ensures Accounted() && log == old(log) + [Cleaned(id, confirmed)]
      ensures pending == if confirmed then old(pending) - {id} else old(pending)
    {
      BooksHave(pending, log, nextStage, gates, id);
      confirmed := Cleanup(id);
      BooksCleaned(pending, old(log), nextStage, gates, id, confirmed);
      if confirmed {
        pending := pending - {id};
      }
    }

    /**
     One round of cleanup: the guest is asked once for each pending record, and
     exactly those that it confirmed are no longer pending.
     */
    method CleanPending()
      requires Accounted()
      modifies this`pending, this`log
      ensures Accounted() && old(log) <= log
      ensures AskedOnce(log[|old(log)|..], old(pending))
      ensures pending == old(pending) - Confirmed(log[|old(log)|..])
    {
      ghost var all, before, asks := pending, log, [];
      var todo := pending;
      assert all - todo == {} && Confirmed(asks) == {};
      while todo != {}
        invariant Accounted() && log == before + asks && AskedSoFar(asks, todo, all, pending)
        decreases todo
      {
        var id :| id in todo;
        AskStep(asks, todo, all, pending, id, true);
        AskStep(asks, todo, all, pending, id, false);
        var confirmed := CleanOne(id);
        asks, todo := asks + [Cleaned(id, confirmed)], todo - {id};
      }
      assert log[|before|..] == asks && all - {} == all;
    }

    /** The Windows half of a round: staged, run, asked for. */
    method ServeWindows() returns (status: Option<int>)
      requires Kept() && forwarding && windows
      modifies this`pending, this`nextStage, this`log, this`guestShutdown, this`stop
      ensures Accounted() && Retried(log)
      ensures RanIn(old(log), log, status, forwarding, windows)
              || (status.None? && log == old(log) && gates != Gates(true, true, true))
    {
      ghost var before, id := log, nextStage;
      var record := StageWindows();
      if record.None? {
        UnservedRound(before, log, id, forwarding, windows);
        return None;
      }
      BooksStaged(pending, before, id, gates, true);
      pending := pending + {record.value};
      ghost var staged := log;
      status := RunSsh();
      BooksPlain(pending, staged, nextStage, gates, Ran(status));
      ghost var ran := log;
      var confirmed := Cleanup(record.value);
      BooksCleaned(pending, ran, nextStage, gates, record.value, confirmed);
      if confirmed {
        pending := pending - {record.value};
      }
      ServedRound(before, log, record.value, status, confirmed, forwarding, windows);
    }

    /** The first half of a round: stage the environment and run the command. */
    method StageAndRun() returns (status: Option<int>)
      requires Kept()
      modifies this`pending, this`nextStage, this`log, this`guestShutdown, this`stop
      ensures Accounted() && Retried(log)
      ensures RanIn(old(log), log, status, forwarding, windows)
              || (status.None? && log == old(log) && forwarding && windows && gates != Gates(true, true, true))
    {
      if forwarding && windows {
        status := ServeWindows();
        return;
      }
      ghost var before := log;
      if forwarding {
        var ok := StagePosix();
        BooksPlain(pending, before, nextStage, gates, StagedPosix(ok));
        RetriedMore(before, [StagedPosix(ok)]);
        if !ok {
          PosixRefused(before, log, forwarding, windows);
          return None;
        }
      }
      ghost var staged := log;
      status := RunSsh();
      BooksPlain(pending, staged, nextStage, gates, Ran(status));
      RetriedMore(staged, [Ran(status)]);
      if forwarding {
        PosixRound(before, log, status, forwarding, windows);
      } else {
        BareRound(before, log, status, forwarding, windows);
      }
    }

    /**
     One round of the loop.  It goes round again exactly if it may reconnect, it
     raises exactly if a step failed or a gate is closed, and otherwise returns what
     explains its run.
     */
    method Round() returns (next: Next)
      requires Valid() && !clean && (RunsOf(log) != [] ==> MayReconnect(RunsOf(log)[|RunsOf(log)| - 1], tty))
      modifies this, front.kernel`procs
      ensures Valid() && old(log) <= log
      ensures next.Raise? ==>
        && RunsOf(log) == RunsOf(old(log)) && !clean
        && (Failed(log[|old(log)|..]) || (forwarding && windows && gates != Gates(true, true, true)))
      ensures !next.Raise? ==>
        && !Failed(log[|old(log)|..])
        && |RunsOf(log)| == |RunsOf(old(log))| + 1
        && (next.Again? <==> MayReconnect(RunsOf(log)[|RunsOf(log)| - 1], tty))
        && (next.Return? ==> Explains(RunsOf(log)[|RunsOf(log)| - 1], next.status))
        && (clean <==> CleanEnd(RunsOf(log)[|RunsOf(log)| - 1]))
    {
      ghost var before := log;
      var status := StageAndRun();
      if status.None? {
        return Raise;
      }
      ghost var r;
      next, r := AfterRun(status.value, before);
      assert RunsOf(log)[..|RunsOf(before)|] == RunsOf(before);
    }

    /** The second half of a round: what is done about the command that ran. */
    method AfterRun(status: int, ghost before: seq<Deed>) returns (next: Next, ghost r: Run)
      requires Accounted() && InRound(before, log, JustRan(status), forwarding, windows) && !clean
      requires Retried(log)
      requires front.Valid() && front.qemu.Some? && front.qemu.value in front.kernel.children
      modifies this`pending, this`log, this`guestShutdown, this`stop, this`clean, front.kernel`procs
      ensures Accounted() && InRound(before, log, r, forwarding, windows) && front.Valid()
      ensures !next.Raise? && (next.Again? <==> MayReconnect(r, tty)) && Retried(log)
      ensures next.Return? ==> Explains(r, next.status)
      ensures clean <==> CleanEnd(r)
    {
      r := JustRan(status);
      ghost var ran := log;
      Look();
      NotedOne(before, ran, r, Seen(stop, guestShutdown), forwarding, windows);
      BooksPlain(pending, ran, nextStage, gates, Seen(stop, guestShutdown));
      RetriedMore(ran, [Seen(stop, guestShutdown)]);
      r := Noting(r, Seen(stop, guestShutdown));
      if stop.Some? {
        return Return(128 + stop.value), r;
      }
      if guestShutdown {
        clean := true;
        return Return(0), r;
      }
      next, r := TryReconnect(status, before, r);
    }

    /** Neither a signal nor a shutdown: the loop goes on if only the transport was lost. */
    method TryReconnect(status: int, ghost before: seq<Deed>, ghost seen: Run) returns (next: Next, ghost r: Run)
      requires Accounted() && InRound(before, log, seen, forwarding, windows) && Retried(log)
      requires seen.status == status && seen.stop.None? && !seen.shutdown && !seen.back
      requires front.Valid() && front.qemu.Some? && front.qemu.value in front.kernel.children
      modifies this`pending, this`log, this`guestShutdown, this`stop, front.kernel`procs
      ensures Accounted() && InRound(before, log, r, forwarding, windows) && front.Valid()
      ensures r.stop.None? && !r.shutdown && !next.Raise? && (next.Again? <==> MayReconnect(r, tty)) && Retried(log)
      ensures next.Return? ==> Explains(r, next.status)
    {
      ghost var entered := log;
      var alive := IsAlive();
      NotedOne(before, entered, seen, Alive(alive), forwarding, windows);
      BooksPlain(pending, entered, nextStage, gates, Alive(alive));
      RetriedMore(entered, [Alive(alive)]);
      r := Noting(seen, Alive(alive));
      if !alive || !tty || status != 255 {
        return Return(status), r;
      }
      var back;
      back, r := AwaitGuest(before, r);
      if !back {
        return Return(status), r;
      }
      return Again, r;
    }

    /** The wait for the guest's SSH; when it is back, the pending records are asked for. */
    method AwaitGuest(ghost before: seq<Deed>, ghost seen: Run) returns (back: bool, ghost r: Run)
      requires Accounted() && InRound(before, log, seen, forwarding, windows) && Retried(log)
      modifies this`pending, this`log, this`guestShutdown, this`stop
      ensures Accounted() && InRound(before, log, r, forwarding, windows) && Retried(log)
      ensures r == seen.(back := back)
    {
      ghost var looked := log;
      back := WaitForSsh();
      NotedOne(before, looked, seen, Waited(back), forwarding, windows);
      BooksPlain(pending, looked, nextStage, gates, Waited(back));
      r := Noting(seen, Waited(back));
      if back {
        ghost var waited := log;
        CleanPending();
        AsksInRound(before, waited, log, r, forwarding, windows);
        SetsOne(looked, Waited(back));
        RetriedBack(looked, log[|waited|..]);
        assert log == waited + log[|waited|..];
      } else {
        RetriedMore(looked, [Waited(back)]);
      }
    }

    /** The reconnect loop, over at most `rounds` rounds; `Again` means that it is still going. */
    method Loop(rounds: nat) returns (next: Next)
      requires Valid() && log == [] && !clean
      modifies this, front.kernel`procs
      ensures Valid()
      ensures next.Again? ==> !clean && !Failed(log) && |RunsOf(log)| == rounds
      ensures next.Again? && RunsOf(log) != [] ==> MayReconnect(RunsOf(log)[|RunsOf(log)| - 1], tty)
      ensures next.Raise? ==> !clean && (Failed(log) || (forwarding && windows && gates != Gates(true, true, true)))
      ensures next.Return? ==>
        && !Failed(log) && RunsOf(log) != []
        && !MayReconnect(RunsOf(log)[|RunsOf(log)| - 1], tty)
        && Explains(RunsOf(log)[|RunsOf(log)| - 1], next.status)
        && (clean <==> CleanEnd(RunsOf(log)[|RunsOf(log)| - 1]))
    {
      next := Again;
      for i := 0 to rounds
        invariant Valid() && (RunsOf(log) != [] ==> MayReconnect(RunsOf(log)[|RunsOf(log)| - 1], tty))
        invariant next.Again? && !clean && !Failed(log) && |RunsOf(log)| == i
      {
        ghost var before := log;
        next := Round();
        FailedMore(before, log);
        if !next.Again? {
          return;
        }
      }
    }

    /** The last part of run_attached_session: every pending record is asked for, and then QEMU's end. */
    method Leave(save: bool) returns (raised: bool)
      requires Valid()
      modifies this`pending, this`log, front, front.kernel
      ensures Kept() && old(log) <= log && AskedOnce(log[|old(log)|..], old(pending))
      ensures RunsOf(log) == RunsOf(old(log)) && (Failed(log) <==> Failed(old(log)))
      ensures EndsWell(front.log, save, clean, raised)
      ensures Went(old(front.kernel.trace), front.kernel.trace, !raised)
      ensures Labelled(front.log, AttachedEnd(front.kernel.trace[|old(front.kernel.trace)|..], clean))
    {
      CleanPending();
      AsksAside(old(log), log, forwarding, windows);
      FailedMore(old(log), log);
      RetriedMore(old(log), log[|old(log)|..]);
      assert log == old(log) + log[|old(log)|..];
      raised := front.FinishAttached(save, clean);
    }

    /**
     run_attached_session from its loop on, for a loop that ends within `rounds`
     rounds; otherwise (Again) it is still in the loop.  `atExit` is the log when the
     loop was left, and `raised` whether the last part raised.
     */
    method Attend(rounds: nat, save: bool)
      returns (next: Next, raised: bool, ghost atExit: seq<Deed>)
      requires Valid() && log == [] && !clean
      modifies this, front, front.kernel
      ensures Kept()
      ensures !tty ==> |RunsOf(log)| <= 1
      ensures next.Return? ==>
        && RunsOf(log) != [] && Explains(RunsOf(log)[|RunsOf(log)| - 1], next.status)
        && (clean <==> CleanEnd(RunsOf(log)[|RunsOf(log)| - 1]))
      ensures clean ==> RunsOf(log) != [] && CleanEnd(RunsOf(log)[|RunsOf(log)| - 1])
      ensures next.Again? ==> front.log == [] && !clean && !Failed(log) && |RunsOf(log)| == rounds
      ensures !next.Again? ==>
        && (next.Raise? ==> raised || Failed(log) || (forwarding && windows && gates != Gates(true, true, true)))
        && (next.Return? ==> !raised && !Failed(log))
        && atExit <= log && AskedOnce(log[|atExit|..], Attempted(atExit) - Confirmed(atExit))
        && RunsOf(log) == RunsOf(atExit)
        && EndsWell(front.log, save, clean, raised)
        && Went(old(front.kernel.trace), front.kernel.trace, !raised)
        && Labelled(front.log, AttachedEnd(front.kernel.trace[|old(front.kernel.trace)|..], clean))
    {
      raised, atExit := false, [];
      next := Loop(rounds);
      assert |RunsOf(log)| > 1 ==> MayReconnect(RunsOf(log)[0], tty);
      if next.Again? {
        return;
      }
      atExit := log;
      raised := Leave(save);
      if raised {
        next := Raise;
      }
    }
  }

  /** The guest shut itself down and nobody had asked the session to stop. */
  predicate CleanEnd(r: Run) {
    r.stop.None? && r.shutdown
  }

  lemma AskedMore(asks: seq<Deed>, ids: set<StageId>, id: StageId, confirmed: bool)
    requires AskedOnce(asks, ids) && id !in ids
    ensures AskedOnce(asks + [Cleaned(id, confirmed)], ids + {id})
  {
    var more := asks + [Cleaned(id, confirmed)];
    forall i | 0 <= i < |asks|
      ensures asks[i].id != id
    {
      assert asks[i] in asks;
    }
    forall x | x in ids
      ensures exists i :: 0 <= i < |more| && more[i].id == x
    {
      var i :| 0 <= i < |asks| && asks[i].id == x;
      assert more[i].id == x;
    }
    assert more[|asks|].id == id;
  }

  /** A round of cleanup that has `todo` left of `all`. */
  ghost predicate AskedSoFar(asks: seq<Deed>, todo: set<StageId>, all: set<StageId>, pending: set<StageId>) {
    && todo <= pending && pending == all - Confirmed(asks)
    && AskedOnce(asks, all - todo)
  }

  lemma AskStep(asks: seq<Deed>, todo: set<StageId>, all: set<StageId>, pending: set<StageId>, id: StageId,
                confirmed: bool)
    requires AskedSoFar(asks, todo, all, pending) && id in todo
    ensures AskedSoFar(asks + [Cleaned(id, confirmed)], todo - {id}, all,
                       if confirmed then pending - {id} else pending)
  {
    SetsOne(asks, Cleaned(id, confirmed));
    AskedMore(asks, all - todo, id, confirmed);
    assert all - (todo - {id}) == (all - todo) + {id};
  }

  /** A staging that failed, or was refused, runs nothing. */
  lemma UnservedRound(before: seq<Deed>, log: seq<Deed>, id: StageId, forwarding: bool, windows: bool)
    requires Served(before, forwarding, windows) && Retried(before)
    requires log == before || exists confirmed :: log == before + [Staged(id, false), Cleaned(id, confirmed)]
    ensures Served(log, forwarding, windows) && before <= log && RunsOf(log) == RunsOf(before)
    ensures Retried(log)
    ensures log != before ==> Failed(log[|before|..])
  {
    if log != before {
      var confirmed :| log == before + [Staged(id, false), Cleaned(id, confirmed)];
      var round := [Staged(id, false), Cleaned(id, confirmed)];
      assert log[|before|..] == round && round[0] in round && IsFailure(round[0]);
      RunsAside(before, round);
      ServedMore(before, round, forwarding, windows);
      RetriedMore(before, round);
    }
  }

  /** The round that began after `before` has run one command, and nothing has failed in it. */
  ghost predicate InRound(before: seq<Deed>, log: seq<Deed>, r: Run, forwarding: bool, windows: bool) {
    && before <= log && Served(log, forwarding, windows)
    && !Failed(log[|before|..])
    && RunsOf(log) == RunsOf(before) + [r]
  }

  /** The round that began after `before` has failed without running a command. */
  ghost predicate OutOfRound(before: seq<Deed>, log: seq<Deed>, forwarding: bool, windows: bool) {
    && before <= log && Served(log, forwarding, windows)
    && Failed(log[|before|..])
    && RunsOf(log) == RunsOf(before)
  }

  /** A command that has just ended. */
  function JustRan(status: int): Run {
    Run(status, None, false, false, false)
  }

  ghost predicate RanIn(before: seq<Deed>, log: seq<Deed>, status: Option<int>, forwarding: bool, windows: bool) {
    if status.Some? then InRound(before, log, JustRan(status.value), forwarding, windows)
    else OutOfRound(before, log, forwarding, windows)
  }

  lemma ServedRound(before: seq<Deed>, log: seq<Deed>, id: StageId, status: Option<int>, confirmed: bool,
                    forwarding: bool, windows: bool)
    requires Served(before, forwarding, windows) && Retried(before) && forwarding && windows
    requires log == before + [Staged(id, true)] + [Ran(status)] + [Cleaned(id, confirmed)]
    ensures RanIn(before, log, status, forwarding, windows) && Retried(log)
  {
    var round := [Staged(id, true), Ran(status), Cleaned(id, confirmed)];
    assert log == before + round && log[|before|..] == round && round[1] in round;
    assert ServedAt(round, 1, forwarding, windows);
    ServedMore(before, round, forwarding, windows);
    RetriedMore(before, round);
    RunsMore(before, Staged(id, true));
    RunsMore(before + [Staged(id, true)], Ran(status));
    RunsMore(before + [Staged(id, true)] + [Ran(status)], Cleaned(id, confirmed));
  }

  /** A round without a Windows record: a POSIX environment whose staging failed, */
  lemma PosixRefused(before: seq<Deed>, log: seq<Deed>, forwarding: bool, windows: bool)
    requires Served(before, forwarding, windows) && log == before + [StagedPosix(false)]
    ensures OutOfRound(before, log, forwarding, windows)
  {
    assert log[|before|..] == [StagedPosix(false)] && StagedPosix(false) in [StagedPosix(false)];
    ServedMore(before, [StagedPosix(false)], forwarding, windows);
    RunsMore(before, StagedPosix(false));
  }

  /** ... one that was staged, */
  lemma PosixRound(before: seq<Deed>, log: seq<Deed>, status: Option<int>, forwarding: bool, windows: bool)
    requires Served(before, forwarding, windows) && !windows
    requires log == before + [StagedPosix(true)] + [Ran(status)]
    ensures RanIn(before, log, status, forwarding, windows)
  {
    var round := [StagedPosix(true), Ran(status)];
    assert log == before + round && log[|before|..] == round && round[1] in round;
    assert ServedAt(round, 1, forwarding, windows);
    ServedMore(before, round, forwarding, windows);
    RunsMore(before, StagedPosix(true));
    RunsMore(before + [StagedPosix(true)], Ran(status));
  }

  /** ... and none at all. */
  lemma BareRound(before: seq<Deed>, log: seq<Deed>, status: Option<int>, forwarding: bool, windows: bool)
    requires Served(before, forwarding, windows) && !forwarding && log == before + [Ran(status)]
    ensures RanIn(before, log, status, forwarding, windows)
  {
    assert log[|before|..] == [Ran(status)] && Ran(status) in [Ran(status)];
    assert ServedAt([Ran(status)], 0, forwarding, windows);
    ServedMore(before, [Ran(status)], forwarding, windows);
    RunsMore(before, Ran(status));
  }

  /** What is noted about the last command. */
  function Noting(r: Run, d: Deed): Run {
    match d
    case Seen(stop, shutdown) => r.(stop := stop, shutdown := shutdown)
    case Alive(alive) => r.(alive := alive)
    case Waited(back) => r.(back := back)
    case _ => r
  }

  /** What is seen after a command. */
  lemma NotedOne(before: seq<Deed>, log: seq<Deed>, r: Run, d: Deed, forwarding: bool, windows: bool)
    requires InRound(before, log, r, forwarding, windows) && (d.Seen? || d.Alive? || d.Waited?)
    ensures InRound(before, log + [d], Noting(r, d), forwarding, windows)
  {
    assert Served([d], forwarding, windows);
    ServedMore(log, [d], forwarding, windows);
    assert (log + [d])[|before|..] == log[|before|..] + [d];
    RunsMore(log, d);
  }

  /** Asking the guest for records runs nothing. */
  lemma AsksAppended(log: seq<Deed>, asks: seq<Deed>, forwarding: bool, windows: bool)
    requires Served(log, forwarding, windows) && forall d | d in asks :: d.Cleaned?
    ensures Served(log + asks, forwarding, windows) && RunsOf(log + asks) == RunsOf(log) && !Failed(asks)
  {
    forall i | 0 <= i < |asks|
      ensures asks[i].Cleaned?
    {
      assert asks[i] in asks;
    }
    RunsAside(log, asks);
    ServedMore(log, asks, forwarding, windows);
  }

  lemma AsksAside(log: seq<Deed>, after: seq<Deed>, forwarding: bool, windows: bool)
    requires log <= after && Served(log, forwarding, windows)
    requires forall d | d in after[|log|..] :: d.Cleaned?
    ensures Served(after, forwarding, windows) && RunsOf(after) == RunsOf(log)
    ensures !Failed(after[|log|..])
  {
    assert after == log + after[|log|..];
    AsksAppended(log, after[|log|..], forwarding, windows);
  }

  lemma AsksInRound(before: seq<Deed>, log: seq<Deed>, after: seq<Deed>, r: Run, forwarding: bool, windows: bool)
    requires InRound(before, log, r, forwarding, windows) && log <= after
    requires forall d | d in after[|log|..] :: d.Cleaned?
    ensures InRound(before, after, r, forwarding, windows)
  {
    AsksAside(log, after, forwarding, windows);
    assert after[|before|..] == log[|before|..] + after[|log|..];
  }

  lemma FailedMore(before: seq<Deed>, log: seq<Deed>)
    requires before <= log
    ensures Failed(log) <==> Failed(before) || Failed(log[|before|..])
  {
    assert log == before + log[|before|..];
  }
}
