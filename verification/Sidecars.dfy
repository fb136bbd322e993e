/** The helper processes of one VM: started all or not at all, stopped in reverse order. */
module Sidecars {
  import opened Prelude
  import opened Processes

  datatype Plan = Plan(name: string)

  datatype Handle = Handle(plan: Plan, pid: Pid)

  function Pids(handles: seq<Handle>): (r: seq<Pid>)
    ensures |r| == |handles| && forall i | 0 <= i < |r| :: r[i] == handles[i].pid
  {
    seq(|handles|, i requires 0 <= i < |handles| => handles[i].pid)
  }

  function Reversed(pids: seq<Pid>): seq<Pid> {
    if pids == [] then [] else Reversed(pids[1..]) + [pids[0]]
  }

  /** The members of `chosen`, in the order of `pids`. */
  function Select(pids: seq<Pid>, chosen: set<Pid>): seq<Pid> {
    if pids == [] then [] else (if pids[0] in chosen then [pids[0]] else []) + Select(pids[1..], chosen)
  }

  /** `sent` is one `signal` to each of `pids`, in order, none of them reaped at that moment. */
  ghost predicate SentTo(sent: seq<Sent>, pids: seq<Pid>, signal: Signal) {
    && |sent| == |pids|
    && forall i | 0 <= i < |sent| :: sent[i].pid == pids[i] && sent[i].signal == signal && sent[i].status != Reaped
  }

  lemma {:induction false} SelectMembers(pids: seq<Pid>, chosen: set<Pid>)
    ensures forall pid :: pid in Select(pids, chosen) <==> pid in pids && pid in chosen
  {
    if pids != [] {
      SelectMembers(pids[1..], chosen);
    }
  }

  lemma {:induction false} ReversedMembers(pids: seq<Pid>)
    ensures |Reversed(pids)| == |pids|
    ensures forall pid :: pid in Reversed(pids) <==> pid in pids
  {
    if pids != [] {
      ReversedMembers(pids[1..]);
    }
  }

  lemma {:induction false} SelectAppend(a: seq<Pid>, b: seq<Pid>, chosen: set<Pid>)
    ensures Select(a + b, chosen) == Select(a, chosen) + Select(b, chosen)
  {
    if a == [] {
      assert a + b == b;
    } else {
      assert (a + b)[1..] == a[1..] + b;
      SelectAppend(a[1..], b, chosen);
      var first: seq<Pid> := if a[0] in chosen then [a[0]] else [];
      assert Select(a, chosen) == first + Select(a[1..], chosen);
      assert Select(a + b, chosen) == first + Select((a + b)[1..], chosen);
    }
  }

  lemma {:induction false} SelectAgrees(pids: seq<Pid>, s: set<Pid>, t: set<Pid>)
    requires forall pid | pid in pids :: pid in s <==> pid in t
    ensures Select(pids, s) == Select(pids, t)
  {
    if pids != [] {
      assert pids[0] in pids && forall pid | pid in pids[1..] :: pid in pids;
      SelectAgrees(pids[1..], s, t);
    }
  }

  lemma {:induction false} SelectWithin(pids: seq<Pid>, s: set<Pid>, t: set<Pid>)
    requires t <= s
    ensures Select(Select(pids, s), t) == Select(pids, t)
  {
    if pids != [] {
      SelectWithin(pids[1..], s, t);
      if pids[0] in s {
        assert Select(pids, s) == [pids[0]] + Select(pids[1..], s);
        assert Select(pids, s)[1..] == Select(pids[1..], s);
      } else {
        assert Select(pids, s) == [] + Select(pids[1..], s) == Select(pids[1..], s);
        assert Select(pids, t) == [] + Select(pids[1..], t) == Select(pids[1..], t);
      }
    }
  }

  /** Looking at one more process before those of `pids`. */
  lemma SelectMore(pids: seq<Pid>, pid: Pid, chosen: set<Pid>)
    requires pid !in pids && pid !in chosen
    ensures Select(Reversed([pid] + pids), chosen + {pid}) == Select(Reversed(pids), chosen) + [pid]
    ensures Select(Reversed([pid] + pids), chosen) == Select(Reversed(pids), chosen)
  {
    assert ([pid] + pids)[1..] == pids && [pid][1..] == [];
    ReversedMembers(pids);
    SelectAppend(Reversed(pids), [pid], chosen + {pid});
    SelectAppend(Reversed(pids), [pid], chosen);
    SelectAgrees(Reversed(pids), chosen, chosen + {pid});
    assert Select([pid], chosen) == [] && Select([pid], chosen + {pid}) == [pid];
  }

  lemma SelectLast(pids: seq<Pid>, pid: Pid, chosen: set<Pid>)
    requires pid !in pids && pid !in chosen
    ensures Select(pids + [pid], chosen + {pid}) == Select(pids, chosen) + [pid]
    ensures Select(pids + [pid], chosen) == Select(pids, chosen)
  {
    assert [pid][1..] == [];
    SelectAppend(pids, [pid], chosen + {pid});
    SelectAppend(pids, [pid], chosen);
    SelectAgrees(pids, chosen, chosen + {pid});
    assert Select([pid], chosen) == [] && Select([pid], chosen + {pid}) == [pid];
  }

  lemma {:induction false} SelectDistinct(pids: seq<Pid>, chosen: set<Pid>)
    requires Distinct(pids)
    ensures Distinct(Select(pids, chosen))
  {
    if pids != [] {
      SelectDistinct(pids[1..], chosen);
      SelectMembers(pids[1..], chosen);
      assert forall pid | pid in pids[1..] :: pid != pids[0];
    }
  }

  lemma {:induction false} ReversedDistinct(pids: seq<Pid>)
    requires Distinct(pids)
    ensures Distinct(Reversed(pids))
  {
    if pids != [] {
      ReversedDistinct(pids[1..]);
      ReversedMembers(pids[1..]);
      assert forall pid | pid in pids[1..] :: pid != pids[0];
      var rest := Reversed(pids[1..]);
      forall i | 0 <= i < |rest|
        ensures rest[i] != pids[0]
      {
        assert rest[i] in rest;
      }
    }
  }

  function Members(pids: seq<Pid>): set<Pid> {
    set pid | pid in pids
  }

  lemma BackStep(pids: seq<Pid>, i: nat)
    requires Distinct(pids) && i < |pids|
    ensures pids[i..] == [pids[i]] + pids[i + 1..]
    ensures Members(pids[i..]) == Members(pids[i + 1..]) + {pids[i]}
    ensures pids[i] in Members(pids) && pids[i] !in pids[i + 1..] && Members(pids[i + 1..]) <= Members(pids)
  {
  }

  lemma FrontStep(pids: seq<Pid>, i: nat)
    requires Distinct(pids) && i < |pids|
    ensures pids[..i + 1] == pids[..i] + [pids[i]]
    ensures Members(pids[..i + 1]) == Members(pids[..i]) + {pids[i]}
    ensures pids[i] in Members(pids) && pids[i] !in pids[..i] && Members(pids[..i]) <= Members(pids)
  {
  }

  /** Of `pids`, exactly those in `alive` have not been reaped. */
  ghost predicate Unreaped(procs: Procs, pids: set<Pid>, alive: set<Pid>) {
    alive <= pids <= procs.Keys && forall pid | pid in pids :: pid in alive <==> procs[pid] != Reaped
  }

  /** Polling one more child. */
  lemma UnreapedMore(children: set<Pid>, p: Procs, p': Procs, pids: set<Pid>, pid: Pid, alive: set<Pid>)
    requires Unreaped(p, pids, alive) && Handled(children, {pid}, p, p') && pids + {pid} <= children && pid !in pids
             && pid in p'
    ensures p'[pid] == Running ==> Unreaped(p', pids + {pid}, alive + {pid})
    ensures p'[pid] == Reaped ==> Unreaped(p', pids + {pid}, alive)
  {
  }

  lemma HandledMore(children: set<Pid>, own: set<Pid>, p: Procs, p': Procs, p'': Procs, pid: Pid)
    requires Handled(children, own, p, p') && Handled(children, {pid}, p', p'') && pid in own
    ensures Handled(children, own, p, p'')
  {
  }

  /** Polling some more after a first poll. */
  lemma UnreapedLater(children: set<Pid>, own: set<Pid>, p: Procs, p': Procs, pids: seq<Pid>, alive: set<Pid>,
                      alive': set<Pid>)
    requires Unreaped(p, Members(pids), alive) && Handled(children, own, p, p')
    requires Unreaped(p', Members(Select(pids, alive)), alive')
    ensures Unreaped(p', Members(pids), alive') && alive' <= alive
    ensures Select(Select(pids, alive), alive') == Select(pids, alive')
  {
    SelectMembers(pids, alive);
    SelectWithin(pids, alive, alive');
  }

  lemma HandledAll(children: set<Pid>, own: set<Pid>, p: Procs, p': Procs, p'': Procs)
    requires Handled(children, own, p, p') && Handled(children, own, p', p'')
    ensures Handled(children, own, p, p'')
  {
  }

  lemma HandledLess(before: set<Pid>, children: set<Pid>, after: set<Pid>, p: Procs, p': Procs, p'': Procs)
    requires before <= children <= after && Handled(before, {}, p, p') && Handled(after, {}, p', p'')
    ensures Handled(before, {}, p, p'')
  {
  }

  /** Reaping one's own new children leaves the earlier ones alone. */
  lemma HandledOthers(before: set<Pid>, children: set<Pid>, own: set<Pid>, p: Procs, p': Procs, p'': Procs)
    requires before <= children && own !! before && Handled(before, {}, p, p') && Handled(children, own, p', p'')
    ensures Handled(before, {}, p, p'')
  {
  }

  /** Children stay unreaped while they are only signalled. */
  lemma UnreapedSame(children: set<Pid>, p: Procs, p': Procs, pids: set<Pid>, alive: set<Pid>)
    requires Unreaped(p, pids, alive) && Later(children, p, p') && pids <= children
    ensures Unreaped(p', pids, alive)
  {
  }

  lemma JoinStopping(before: seq<Sent>, middle: seq<Sent>, after: seq<Sent>, live: seq<Pid>, left: seq<Pid>)
    requires before <= middle <= after
    requires SentTo(middle[|before|..], live, Term) && SentTo(after[|middle|..], left, Kill)
    ensures |live| <= |after[|before|..]|
    ensures SentTo(after[|before|..][..|live|], live, Term) && SentTo(after[|before|..][|live|..], left, Kill)
  {
    assert after[|before|..][..|live|] == middle[|before|..];
    assert after[|before|..][|live|..] == after[|middle|..];
  }

  /** The children now: those before, the recorded ones, and one that was spawned but not recorded. */
  ghost predicate Grown(before: set<Pid>, children: set<Pid>, own: set<Pid>, lost: Option<Pid>) {
    && children == before + own + (if lost.Some? then {lost.value} else {})
    && own !! before
    && (lost.Some? ==> lost.value !in before && lost.value !in own)
  }

  lemma GrownMore(before: set<Pid>, children: set<Pid>, own: seq<Pid>, pid: Pid)
    requires Grown(before, children, Members(own), None) && pid !in children
    ensures Grown(before, children + {pid}, Members(own + [pid]), None)
  {
    assert Members(own + [pid]) == Members(own) + {pid};
  }

  /** The trace has grown, by nothing that failed exactly if `ok`. */
  ghost predicate Extended(before: seq<Effect>, after: seq<Effect>, ok: bool) {
    before <= after && (ok <==> Faultless(after[|before|..]))
  }

  /** One more effect. */
  lemma OneMore(before: seq<Effect>, trace: seq<Effect>, e: Effect)
    requires Extended(before, trace, true)
    ensures Extended(before, trace + [e], !IsFault(e))
  {
    assert (trace + [e])[|before|..] == trace[|before|..] + [e];
  }

  lemma ExtendedMore(a: seq<Effect>, b: seq<Effect>, c: seq<Effect>, ok: bool)
    requires Extended(a, b, true) && Extended(b, c, ok)
    ensures Extended(a, c, ok)
  {
    assert c[|a|..] == b[|a|..] + c[|b|..];
  }

  lemma AnswersMore(pids: seq<Pid>, pid: Pid)
    ensures Answers(pids + [pid]) == Answers(pids) + [Found(pid, true), Looked(pid, true)]
  {
    assert (pids + [pid])[..|pids|] == pids;
  }

  /** The last thing seen was a round in which all of `pids` answered. */
  ghost predicate EndsReady(trace: seq<Effect>, pids: seq<Pid>) {
    |Answers(pids)| <= |trace| && trace[|trace| - |Answers(pids)|..] == Answers(pids)
  }

  lemma LaterEnds(a: seq<Effect>, b: seq<Effect>, c: seq<Effect>, pids: seq<Pid>)
    requires a <= b <= c
    ensures EndsReady(c[|b|..], pids) ==> EndsReady(c[|a|..], pids)
  {
    assert c[|a|..] == b[|a|..] + c[|b|..];
  }

  lemma AnsweredMore(pids: seq<Pid>, i: nat)
    requires i < |pids|
    ensures Answers(pids[..i + 1]) == Answers(pids[..i]) + [Found(pids[i], true), Looked(pids[i], true)]
  {
    assert pids[..i + 1] == pids[..i] + [pids[i]];
    AnswersMore(pids[..i], pids[i]);
  }

  /** The first `i` of one's own children were found running one after the other. */
  ghost predicate SeenRunning(children: set<Pid>, pids: seq<Pid>, i: nat, p: Procs, p': Procs) {
    && i <= |pids| && p'.Keys == p.Keys
    && Handled(children, Members(pids), p, p')
    && Unreaped(p', Members(pids[..i]), Members(pids[..i]))
  }

  lemma SeenMore(children: set<Pid>, pids: seq<Pid>, i: nat, p: Procs, p': Procs, p'': Procs)
    requires Distinct(pids) && Members(pids) <= children && children <= p.Keys && i < |pids|
    requires SeenRunning(children, pids, i, p, p')
    requires Handled(children, {pids[i]}, p', p'') && p''.Keys == p'.Keys
    ensures Handled(children, Members(pids), p, p'')
    ensures p''[pids[i]] == Running ==> SeenRunning(children, pids, i + 1, p, p'')
  {
    FrontStep(pids, i);
    HandledMore(children, Members(pids), p, p', p'', pids[i]);
    UnreapedMore(children, p', p'', Members(pids[..i]), pids[i], Members(pids[..i]));
  }

  class SidecarManager {
    const kernel: Kernel
    const plans: seq<Plan>
    var handles: seq<Handle>

    constructor (kernel: Kernel, plans: seq<Plan>)
      requires kernel.Valid()
      ensures Valid() && this.kernel == kernel && this.plans == plans && handles == []
    {
      this.kernel, this.plans, handles := kernel, plans, [];
    }

    ghost predicate Valid()
      reads this, kernel
    {
      && kernel.Valid()
      && Distinct(Pids(handles))
      && forall pid | pid in Pids(handles) :: pid in kernel.children
    }

    ghost function Own(): set<Pid>
      reads this
    {
      Members(Pids(handles))
    }

    /** The processes, last first, that have not exited; those that have are reaped. */
    method PollBackwards() returns (live: seq<Pid>, ghost alive: set<Pid>)
      requires Valid()
      modifies kernel`procs
      ensures Valid() && kernel.procs.Keys == old(kernel.procs).Keys
      ensures Handled(kernel.children, Own(), old(kernel.procs), kernel.procs)
      ensures live == Select(Reversed(Pids(handles)), alive) && Unreaped(kernel.procs, Own(), alive)
    {
      live, alive := [], {};
      var i := |handles|;
      while i > 0
        invariant 0 <= i <= |handles|
        invariant Valid() && kernel.procs.Keys == old(kernel.procs).Keys
        invariant Handled(kernel.children, Own(), old(kernel.procs), kernel.procs)
        invariant Unreaped(kernel.procs, Members(Pids(handles)[i..]), alive)
        invariant live == Select(Reversed(Pids(handles)[i..]), alive)
      {
        i := i - 1;
        var pid := handles[i].pid;
        BackStep(Pids(handles), i);
        ghost var procs := kernel.procs;
        var exited := kernel.Poll(pid);
        HandledMore(kernel.children, Own(), old(kernel.procs), procs, kernel.procs, pid);
        UnreapedMore(kernel.children, procs, kernel.procs, Members(Pids(handles)[i + 1..]), pid, alive);
        SelectMore(Pids(handles)[i + 1..], pid, alive);
        if !exited {
          alive, live := alive + {pid}, live + [pid];
        }
      }
      assert Pids(handles)[0..] == Pids(handles);
    }

    /** os.killpg for each of `pids`. */
    method SignalAll(pids: seq<Pid>, signal: Signal)
      requires Valid() && forall pid | pid in pids :: pid in Own() && kernel.procs[pid] != Reaped
      modifies kernel`procs, kernel`sent
      ensures Valid() && Later(kernel.children, old(kernel.procs), kernel.procs)
      ensures old(kernel.sent) <= kernel.sent
      ensures SentTo(kernel.sent[|old(kernel.sent)|..], pids, signal)
    {
      ghost var n := |kernel.sent|;
      for i := 0 to |pids|
        invariant Valid() && Later(kernel.children, old(kernel.procs), kernel.procs)
        invariant |kernel.sent| == n + i && kernel.sent[..n] == old(kernel.sent)
        invariant SentTo(kernel.sent[n..], pids[..i], signal)
      {
        assert pids[i] in pids && pids[i] in Pids(handles);
        ghost var before := kernel.sent;
        var found := kernel.Signal(pids[i], signal);
        assert found;
        assert kernel.sent[n..] == before[n..] + [kernel.sent[n + i]];
        assert pids[..i + 1] == pids[..i] + [pids[i]];
      }
      assert pids[..|pids|] == pids;
    }

    /** The processes of `live` that have not exited by now; those that have are reaped. */
    method StillLive(live: seq<Pid>) returns (left: seq<Pid>, ghost alive: set<Pid>)
      requires Valid() && Distinct(live) && Members(live) <= Own()
      modifies kernel`procs
      ensures Valid() && kernel.procs.Keys == old(kernel.procs).Keys
      ensures Handled(kernel.children, Own(), old(kernel.procs), kernel.procs)
      ensures left == Select(live, alive) && Unreaped(kernel.procs, Members(live), alive)
    {
      left, alive := [], {};
      for i := 0 to |live|
        invariant Valid() && kernel.procs.Keys == old(kernel.procs).Keys
        invariant Handled(kernel.children, Own(), old(kernel.procs), kernel.procs)
        invariant Unreaped(kernel.procs, Members(live[..i]), alive)
        invariant left == Select(live[..i], alive)
      {
        var pid := live[i];
        FrontStep(live, i);
        ghost var procs := kernel.procs;
        var exited := kernel.Poll(pid);
        HandledMore(kernel.children, Own(), old(kernel.procs), procs, kernel.procs, pid);
        UnreapedMore(kernel.children, procs, kernel.procs, Members(live[..i]), pid, alive);
        SelectLast(live[..i], pid, alive);
        if !exited {
          alive, left := alive + {pid}, left + [pid];
        }
      }
      assert live[..|live|] == live;
    }

    /** The wait between the two signals; how often it polls before the deadline is up to the clock. */
    method Drain(live: seq<Pid>) returns (left: seq<Pid>, ghost stubborn: set<Pid>)
      requires Valid() && Distinct(live) && forall pid | pid in live :: pid in Own() && kernel.procs[pid] != Reaped
      modifies kernel`procs
      ensures Valid() && kernel.procs.Keys == old(kernel.procs).Keys
      ensures Handled(kernel.children, Own(), old(kernel.procs), kernel.procs)
      ensures left == Select(live, stubborn) && Unreaped(kernel.procs, Members(live), stubborn)
    {
      left, stubborn := live, set pid | pid in live;
      SelectAll(live, stubborn);
      var polls: nat := *;
      while left != [] && polls > 0
        invariant Valid() && kernel.procs.Keys == old(kernel.procs).Keys
        invariant Handled(kernel.children, Own(), old(kernel.procs), kernel.procs)
        invariant left == Select(live, stubborn) && Unreaped(kernel.procs, Members(live), stubborn)
        decreases polls
      {
        SelectDistinct(live, stubborn);
        SelectMembers(live, stubborn);
        ghost var procs := kernel.procs;
        ghost var alive;
        left, alive := StillLive(left);
        UnreapedLater(kernel.children, Own(), procs, kernel.procs, live, stubborn, alive);
        stubborn := alive;
        polls := polls - 1;
      }
    }

    /** The last loop: one bounded wait for every process. */
    method WaitAll()
      requires Valid()
      modifies kernel`procs, kernel`waits
      ensures Valid() && kernel.procs.Keys == old(kernel.procs).Keys
      ensures Handled(kernel.children, Own(), old(kernel.procs), kernel.procs)
      ensures kernel.waits == old(kernel.waits) + Pids(handles)
    {
      for i := 0 to |handles|
        invariant kernel.waits == old(kernel.waits) + Pids(handles)[..i]
        invariant kernel.Valid() && kernel.procs.Keys == old(kernel.procs).Keys
        invariant Handled(kernel.children, Own(), old(kernel.procs), kernel.procs)
      {
        assert Pids(handles)[i] == handles[i].pid && handles[i].pid in Pids(handles);
        var exited := kernel.Wait(handles[i].pid);
        assert Pids(handles)[..i + 1] == Pids(handles)[..i] + [handles[i].pid];
      }
      assert Pids(handles)[..|handles|] == Pids(handles);
    }

    /** SIGTERM, and the wait after it. */
    method TermAndDrain(live: seq<Pid>, ghost alive: set<Pid>) returns (left: seq<Pid>, ghost stubborn: set<Pid>)
      requires Valid() && live == Select(Reversed(Pids(handles)), alive) && Unreaped(kernel.procs, Own(), alive)
      modifies kernel`procs, kernel`sent
      ensures Valid() && kernel.procs.Keys == old(kernel.procs).Keys
      ensures Handled(kernel.children, Own(), old(kernel.procs), kernel.procs)
      ensures old(kernel.sent) <= kernel.sent && SentTo(kernel.sent[|old(kernel.sent)|..], live, Term)
      ensures stubborn <= alive && left == Select(Reversed(Pids(handles)), stubborn)
              && Unreaped(kernel.procs, Own(), stubborn)
      ensures forall pid | pid in left :: pid in Own() && kernel.procs[pid] != Reaped
    {
      ghost var order := Reversed(Pids(handles));
      ReversedDistinct(Pids(handles));
      ReversedMembers(Pids(handles));
      assert Members(order) == Own();
      SelectDistinct(order, alive);
      SelectMembers(order, alive);
      SignalAll(live, Term);
      ghost var procs := kernel.procs;
      UnreapedSame(kernel.children, old(kernel.procs), procs, Own(), alive);
      left, stubborn := Drain(live);
      UnreapedLater(kernel.children, Own(), procs, kernel.procs, order, alive, stubborn);
      SelectMembers(order, stubborn);
    }

    /** The two rounds of signals. */
    method SignalTwice(live: seq<Pid>, ghost alive: set<Pid>) returns (ghost stubborn: set<Pid>)
      requires Valid() && live == Select(Reversed(Pids(handles)), alive) && Unreaped(kernel.procs, Own(), alive)
      modifies kernel`procs, kernel`sent
      ensures Valid() && kernel.procs.Keys == old(kernel.procs).Keys
      ensures Handled(kernel.children, Own(), old(kernel.procs), kernel.procs)
      ensures old(kernel.sent) <= kernel.sent
              && Stopping(kernel.sent[|old(kernel.sent)|..], Pids(handles), alive, stubborn)
      ensures stubborn <= alive && Unreaped(kernel.procs, Own(), stubborn)
    {
      var left;
      left, stubborn := TermAndDrain(live, alive);
      ghost var sent, procs := kernel.sent, kernel.procs;
      SignalAll(left, Kill);
      UnreapedSame(kernel.children, procs, kernel.procs, Own(), stubborn);
      JoinStopping(old(kernel.sent), sent, kernel.sent, live, left);
    }

    /**
     stop_all: SIGTERM to the processes found running, last first, then SIGKILL to
     those still running after the wait, and at last a wait for each.  `alive` and
     `stubborn` are those two sets.
     */
    method StopAll() returns (ghost alive: set<Pid>, ghost stubborn: set<Pid>)
      requires Valid()
      modifies kernel`procs, kernel`sent, kernel`waits
      ensures kernel.waits == old(kernel.waits) + Pids(handles)
      ensures Valid() && kernel.procs.Keys == old(kernel.procs).Keys
      ensures Handled(kernel.children, Own(), old(kernel.procs), kernel.procs)
      ensures stubborn <= alive <= Own() && forall pid | pid in alive :: old(kernel.procs)[pid] != Reaped
      ensures old(kernel.sent) <= kernel.sent
              && Stopping(kernel.sent[|old(kernel.sent)|..], Pids(handles), alive, stubborn)
      ensures forall pid | pid in Own() :: kernel.procs[pid] == Reaped || pid in stubborn
      ensures kernel.sent == old(kernel.sent) <==> alive == {}
      ensures (forall pid | pid in Own() :: old(kernel.procs)[pid] == Reaped) ==> kernel.sent == old(kernel.sent)
    {
      var live;
      live, alive := PollBackwards();
      stubborn := SignalTwice(live, alive);
      StoppingNothing(kernel.sent[|old(kernel.sent)|..], Pids(handles), alive, stubborn);
      WaitAll();
    }

    /** _start: spawn one process and record it; `choice` is what the system does. */
    method StartGiven(plan: Plan, choice: StartChoice) returns (outcome: Start)
      requires Valid()
      modifies this`handles, kernel`procs, kernel`children, kernel`next, kernel`trace
      ensures Valid() && old(kernel.procs).Keys <= kernel.procs.Keys
      ensures Extended(old(kernel.trace), kernel.trace, outcome.Started?)
      ensures Handled(kernel.children, {}, old(kernel.procs), kernel.procs)
      ensures outcome.Refused? <==> choice.Unprepared? || choice.SpawnFails?
      ensures outcome.Lost? <==> choice.CloseFails?
      ensures outcome.Started? ==>
        && |handles| == |old(handles)| + 1
        && kernel.trace == old(kernel.trace) +
             [Did(Prepare, true), Spawned(Some(handles[|old(handles)|].pid)), Did(CloseLog, true)]
      ensures outcome.Started? ==>
        && |handles| == |old(handles)| + 1 && handles == old(handles) + [Handle(plan, handles[|old(handles)|].pid)]
        && kernel.children == old(kernel.children) + {handles[|old(handles)|].pid}
        && handles[|old(handles)|].pid !in old(kernel.children)
      ensures outcome.Refused? ==> handles == old(handles) && kernel.children == old(kernel.children)
      ensures outcome.Lost? ==>
        && handles == old(handles) && kernel.children == old(kernel.children) + {outcome.pid}
        && outcome.pid !in old(kernel.children) && outcome.pid !in Own() && kernel.procs[outcome.pid] == Running
    {
      // Directories, stale sockets, the log file.
      ghost var before := kernel.trace;
      var raised := kernel.DoGiven(Prepare, choice.Unprepared?);
      OneMore(before, before, Did(Prepare, !raised));
      if raised {
        return Refused;
      }
      ghost var procs, children := kernel.procs, kernel.children;
      ghost var trace := kernel.trace;
      var pid := kernel.Spawn(choice.SpawnFails?);
      OneMore(before, trace, Spawned(pid));
      if pid.None? {
        return Refused;
      }
      assert pid.value !in Own();
      // Closing the parent's copy of the log file.
      trace := kernel.trace;
      raised := kernel.DoGiven(CloseLog, choice.CloseFails?);
      OneMore(before, trace, Did(CloseLog, !raised));
      if raised {
        return Lost(pid.value);
      }
      handles := handles + [Handle(plan, pid.value)];
      assert Pids(handles) == Pids(old(handles)) + [pid.value];
      return Started;
    }

    /** _start, whatever the system does. */
    method Start(plan: Plan) returns (outcome: Start)
      requires Valid()
      modifies this`handles, kernel`procs, kernel`children, kernel`next, kernel`trace
      ensures Valid() && old(kernel.procs).Keys <= kernel.procs.Keys
      ensures Extended(old(kernel.trace), kernel.trace, outcome.Started?)
      ensures Handled(kernel.children, {}, old(kernel.procs), kernel.procs)
      ensures outcome.Started? ==>
        && |handles| == |old(handles)| + 1 && handles == old(handles) + [Handle(plan, handles[|old(handles)|].pid)]
        && kernel.children == old(kernel.children) + {handles[|old(handles)|].pid}
        && handles[|old(handles)|].pid !in old(kernel.children)
      ensures outcome.Refused? ==> handles == old(handles) && kernel.children == old(kernel.children)
      ensures outcome.Lost? ==>
        && handles == old(handles) && kernel.children == old(kernel.children) + {outcome.pid}
        && outcome.pid !in old(kernel.children) && outcome.pid !in Own()
    {
      var choice: StartChoice := *;
      outcome := StartGiven(plan, choice);
    }

    /** A look at one process: it must run, and its sockets must answer before the deadline. */
    method ReadyOne(pid: Pid, last: bool) returns (answered: bool, failed: bool)
      requires kernel.Valid() && pid in kernel.children
      modifies kernel`procs, kernel`trace
      ensures kernel.Valid() && kernel.procs.Keys == old(kernel.procs).Keys
      ensures Handled(kernel.children, {pid}, old(kernel.procs), kernel.procs)
      ensures Extended(old(kernel.trace), kernel.trace, !failed)
      ensures !failed ==> kernel.procs[pid] == Running
      ensures answered ==> !failed && kernel.trace == old(kernel.trace) + [Found(pid, true), Looked(pid, true)]
      ensures last ==> answered || failed
    {
      ghost var before := kernel.trace;
      var exited := kernel.Check(pid);
      OneMore(before, before, Found(pid, !exited));
      if exited {
        return false, true;
      }
      ghost var trace := kernel.trace;
      answered := kernel.Look(pid);
      OneMore(before, trace, Looked(pid, answered));
      failed := false;
      if !answered {
        trace := kernel.trace;
        failed := kernel.Deadline(last);
        if failed {
          OneMore(before, trace, TimedOut);
        }
      }
    }

    /** One round of _wait_ready: have all answered? */
    method ReadyRound(last: bool) returns (allReady: bool, failed: bool)
      requires Valid()
      modifies kernel`procs, kernel`trace
      ensures Valid() && kernel.procs.Keys == old(kernel.procs).Keys
      ensures Handled(kernel.children, Own(), old(kernel.procs), kernel.procs)
      ensures Extended(old(kernel.trace), kernel.trace, !failed)
      ensures allReady ==>
        && !failed && Unreaped(kernel.procs, Own(), Own())
        && kernel.trace == old(kernel.trace) + Answers(Pids(handles))
      ensures last ==> allReady || failed
    {
      ghost var pids, p, before := Pids(handles), kernel.procs, kernel.trace;
      allReady := true;
      for i := 0 to |handles|
        invariant Valid()
        invariant SeenRunning(kernel.children, pids, i, p, kernel.procs)
        invariant Extended(before, kernel.trace, true)
        invariant allReady ==> kernel.trace == before + Answers(pids[..i])
        invariant last ==> allReady
      {
        ghost var procs, trace := kernel.procs, kernel.trace;
        var answered;
        answered, failed := ReadyOne(handles[i].pid, last);
        ExtendedMore(before, trace, kernel.trace, !failed);
        SeenMore(kernel.children, pids, i, p, procs, kernel.procs);
        if failed {
          return false, true;
        }
        AnsweredMore(pids, i);
        assert before + Answers(pids[..i + 1]) ==
          before + Answers(pids[..i]) + [Found(pids[i], true), Looked(pids[i], true)];
        allReady := allReady && answered;
      }
      assert pids[..|handles|] == pids;
      failed := false;
    }

    /**
     _wait_ready: it succeeds exactly if no process has exited and no deadline has
     passed, and then only after a round in which every process was found running and
     its sockets answering, one after the other.
     */
    method WaitReady() returns (ready: bool)
      requires Valid()
      modifies kernel`procs, kernel`trace
      ensures Valid() && kernel.procs.Keys == old(kernel.procs).Keys
      ensures Handled(kernel.children, Own(), old(kernel.procs), kernel.procs)
      ensures Extended(old(kernel.trace), kernel.trace, ready)
      ensures ready ==> Unreaped(kernel.procs, Own(), Own())
      ensures ready ==> EndsReady(kernel.trace[|old(kernel.trace)|..], Pids(handles))
    {
      // How often it looks before the deadline is up to the clock.
      var polls: nat := *;
      while true
        invariant Valid() && kernel.procs.Keys == old(kernel.procs).Keys
        invariant Handled(kernel.children, Own(), old(kernel.procs), kernel.procs)
        invariant Extended(old(kernel.trace), kernel.trace, true)
        decreases polls
      {
        ghost var procs, trace := kernel.procs, kernel.trace;
        var allReady, failed := ReadyRound(polls == 0);
        HandledAll(kernel.children, Own(), old(kernel.procs), procs, kernel.procs);
        ExtendedMore(old(kernel.trace), trace, kernel.trace, !failed);
        if allReady {
          ghost var seen := kernel.trace[|old(kernel.trace)|..];
          assert seen == trace[|old(kernel.trace)|..] + Answers(Pids(handles));
          return true;
        }
        if failed {
          return false;
        }
        polls := polls - 1;
      }
    }

    /** The loop that starts the processes; `lost` is one that was spawned but not recorded. */
    method StartEach() returns (ok: bool, ghost lost: Option<Pid>)
      requires Valid() && handles == []
      modifies this`handles, kernel`procs, kernel`children, kernel`next, kernel`trace
      ensures Valid() && Handled(old(kernel.children), {}, old(kernel.procs), kernel.procs)
      ensures Grown(old(kernel.children), kernel.children, Own(), lost)
      ensures Extended(old(kernel.trace), kernel.trace, ok)
      ensures ok ==> lost == None && Planned()
    {
      ok, lost := true, None;
      var i := 0;
      while i < |plans| && ok
        invariant 0 <= i <= |plans| && Valid()
        invariant Handled(old(kernel.children), {}, old(kernel.procs), kernel.procs)
        invariant Grown(old(kernel.children), kernel.children, Own(), lost)
        invariant Extended(old(kernel.trace), kernel.trace, ok)
        invariant ok ==> lost == None && |handles| == i && forall j | 0 <= j < i :: handles[j].plan == plans[j]
      {
        ghost var procs, children, own := kernel.procs, kernel.children, Pids(handles);
        ghost var trace := kernel.trace;
        var outcome := Start(plans[i]);
        ExtendedMore(old(kernel.trace), trace, kernel.trace, outcome.Started?);
        HandledLess(old(kernel.children), children, kernel.children, old(kernel.procs), procs, kernel.procs);
        if outcome.Started? {
          assert Pids(handles) == own + [handles[i].pid];
          GrownMore(old(kernel.children), children, own, handles[i].pid);
        } else {
          ok := false;
          lost := if outcome.Lost? then Some(outcome.pid) else None;
        }
        i := i + 1;
      }
    }

    /**
     start_all.  It succeeds exactly if nothing fails: then every plan's process runs,
     the last thing it saw is that all of them answer, and nothing was signalled.
     Otherwise every process it recorded has ended.
     */
    method StartAll() returns (ok: bool, ghost lost: Option<Pid>)
      requires Valid() && handles == []
      modifies this`handles, kernel`procs, kernel`children, kernel`next, kernel`sent, kernel`trace, kernel`waits
      ensures Valid() && old(kernel.sent) <= kernel.sent
      ensures Extended(old(kernel.trace), kernel.trace, ok)
      ensures ok ==> EndsReady(kernel.trace[|old(kernel.trace)|..], Pids(handles))
      ensures old(kernel.trace) < kernel.trace && Preflighted(kernel.trace[|old(kernel.trace)|])
      ensures Handled(old(kernel.children), {}, old(kernel.procs), kernel.procs)
      ensures Grown(old(kernel.children), kernel.children, Own(), lost)
      ensures ok ==>
        && lost == None && Planned()
        && Unreaped(kernel.procs, Own(), Own()) && kernel.sent == old(kernel.sent)
      ensures !ok ==> Ended(kernel.procs, kernel.sent[|old(kernel.sent)|..], Own())
      ensures Proper(kernel.sent[|old(kernel.sent)|..], Own())
    {
      lost := None;
      var raised := kernel.Do(Preflight);
      OneMore(old(kernel.trace), old(kernel.trace), Did(Preflight, !raised));
      if raised {
        return false, lost;
      }
      ghost var trace := kernel.trace;
      ok, lost := StartEach();
      ExtendedMore(old(kernel.trace), trace, kernel.trace, ok);
      ghost var procs := kernel.procs;
      if ok {
        trace := kernel.trace;
        ok := WaitReady();
        ExtendedMore(old(kernel.trace), trace, kernel.trace, ok);
        LaterEnds(old(kernel.trace), trace, kernel.trace, Pids(handles));
        HandledOthers(old(kernel.children), kernel.children, Own(), old(kernel.procs), procs, kernel.procs);
      }
      if !ok {
        procs := kernel.procs;
        ghost var alive, stubborn;
        alive, stubborn := StopAll();
        HandledOthers(old(kernel.children), kernel.children, Own(), old(kernel.procs), procs, kernel.procs);
        StoppingEnds(kernel.procs, kernel.sent[|old(kernel.sent)|..], Pids(handles), alive, stubborn);
      }
    }

    /** Every plan has its process, in order. */
    ghost predicate Planned()
      reads this
    {
      |handles| == |plans| && forall i | 0 <= i < |plans| :: handles[i].plan == plans[i]
    }
  }

  predicate Preflighted(e: Effect) {
    e.Did? && e.task == Preflight
  }

  /** What the system does about one start. */
  datatype StartChoice = Unprepared | SpawnFails | CloseFails | Succeeds

  /** Lost: the process runs, but was not recorded. */
  datatype Start = Started | Refused | Lost(pid: Pid)

  /** Every one of `pids` has been reaped, or was sent SIGKILL. */
  ghost predicate Ended(procs: Procs, sent: seq<Sent>, pids: set<Pid>) {
    forall pid | pid in pids :: pid in procs && (procs[pid] == Reaped || WasKilled(sent, pid))
  }

  /** Signals went to `pids` only, and to none of them once it was reaped. */
  ghost predicate Proper(sent: seq<Sent>, pids: set<Pid>) {
    forall i | 0 <= i < |sent| :: sent[i].pid in pids && sent[i].status != Reaped
  }

  lemma StoppingEnds(procs: Procs, sent: seq<Sent>, pids: seq<Pid>, alive: set<Pid>, stubborn: set<Pid>)
    requires Stopping(sent, pids, alive, stubborn)
    requires forall pid | pid in pids :: pid in procs && (procs[pid] == Reaped || pid in stubborn)
    ensures Ended(procs, sent, Members(pids)) && Proper(sent, Members(pids))
  {
    var order := Reversed(pids);
    var k := |Select(order, alive)|;
    ReversedMembers(pids);
    SelectMembers(order, alive);
    SelectMembers(order, stubborn);
    forall pid | pid in pids && pid in stubborn
      ensures WasKilled(sent, pid)
    {
      var i :| 0 <= i < |Select(order, stubborn)| && Select(order, stubborn)[i] == pid;
      assert sent[k..][i] == sent[k + i];
    }
    forall i | 0 <= i < |sent|
      ensures sent[i].pid in Members(pids) && sent[i].status != Reaped
    {
      if i < k {
        assert sent[..k][i] == sent[i] && Select(order, alive)[i] in Select(order, alive);
      } else {
        assert sent[k..][i - k] == sent[i] && Select(order, stubborn)[i - k] in Select(order, stubborn);
      }
    }
  }

  /** Stopping sends nothing exactly when no process was found running. */
  lemma StoppingNothing(sent: seq<Sent>, pids: seq<Pid>, alive: set<Pid>, stubborn: set<Pid>)
    requires Stopping(sent, pids, alive, stubborn) && stubborn <= alive <= Members(pids)
    ensures sent == [] <==> alive == {}
  {
    ReversedMembers(pids);
    SelectMembers(Reversed(pids), alive);
    if alive == {} {
      SelectNone(Reversed(pids));
      assert stubborn == {} && sent[0..] == sent;
    } else {
      var pid :| pid in alive;
      assert pid in Select(Reversed(pids), alive);
    }
  }

  lemma {:induction false} SelectNone(pids: seq<Pid>)
    ensures Select(pids, {}) == []
  {
    if pids != [] {
      SelectNone(pids[1..]);
    }
  }

  /** What stop_all sends. */
  ghost predicate Stopping(sent: seq<Sent>, pids: seq<Pid>, alive: set<Pid>, stubborn: set<Pid>) {
    var k := |Select(Reversed(pids), alive)|;
    && k <= |sent|
    && SentTo(sent[..k], Select(Reversed(pids), alive), Term)
    && SentTo(sent[k..], Select(Reversed(pids), stubborn), Kill)
  }

  lemma {:induction false} SelectAll(pids: seq<Pid>, chosen: set<Pid>)
    requires forall pid | pid in pids :: pid in chosen
    ensures Select(pids, chosen) == pids
  {
    if pids != [] {
      SelectAll(pids[1..], chosen);
    }
  }
}
