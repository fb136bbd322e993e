/** Who may wait for ever: what the queue holds once the reader and the drains are done. */
module MonitorWaiters {
  import opened Prelude
  import opened Monitor
  import opened MonitorThreads
  import opened MonitorSafety
  import opened MonitorCalls

  /** The greeting has arrived before any drain took the hello callback. */
  predicate PastHello(s: State) {
    s.resolved != [] && s.resolved[0].Answered?
  }

  predicate DrainRuns(s: State) {
    s.inside.Draining? || s.reader.ReaderDraining? || s.closer.CloserDraining?
  }

  /** No command thread is between its look at the flag and the end of its send. */
  predicate NobodySends(s: State) {
    s.inside.Nobody? || s.inside.Entered?
  }

  // ---- The end-of-file branch ----------------------------------------------------------------

  /** Once the reader has drained, QEMU is gone, and only a thread still inside can hold the queue up. */
  predicate Tended(s: State) {
    && (s.reader.ReaderDraining? || s.reader == ReaderGone(true) ==> s.peerGone)
    && (PastHello(s) && s.reader == ReaderGone(true) ==> s.core.sync == [] || s.inside.Queued? || s.inside.Draining?)
  }

  lemma DrainTended(s: State, a: Action)
    requires Inv(s) && Tended(s) && (a.DrainInside? || a.DrainReader? || a.DrainCloser?)
    ensures Tended(DrainStep(s, a))
  {
    if s.core.sync != [] {
      PopInv(s);
    }
  }

  lemma ReadTended(s: State)
    requires Inv(s) && Tended(s)
    ensures Tended(Step(s, ReadMessage))
  {
    if s.reader.Reading? && s.read < |s.wire| && IsReply(s.wire[s.read]) && s.core.sync != [] {
      HelloGetsGreeting(s);
    }
    if s.read < |s.wire| {
      ReadNextIs(s);
    }
  }

  lemma OtherTended(s: State, a: Action)
    requires Inv(s) && Tended(s) && !a.ReadMessage? && !a.DrainInside? && !a.DrainReader? && !a.DrainCloser?
    ensures Tended(Step(s, a))
  {
  }

  lemma StepTended(s: State, a: Action)
    requires Inv(s) && Tended(s)
    ensures Tended(Step(s, a))
  {
    if a.DrainInside? || a.DrainReader? || a.DrainCloser? {
      DrainTended(s, a);
    } else if a.ReadMessage? {
      ReadTended(s);
    } else {
      OtherTended(s, a);
    }
  }

  lemma {:induction false} ExecTended(acts: seq<Action>)
    ensures Tended(Exec(Init(), acts))
    decreases |acts|
  {
    if acts != [] {
      ExecTended(acts[..|acts| - 1]);
      ExecInv(acts[..|acts| - 1]);
      StepTended(Exec(Init(), acts[..|acts| - 1]), acts[|acts| - 1]);
    }
  }

  /**
   No stranded waiter on a disconnect: past the hello, once the reader has left
   through its end-of-file branch and nobody is inside a send, the queue is empty
   and every callback that was queued has been called exactly once, with its message or
   with nothing, as has every thread that was refused.  It does not matter whether
   close() was called as well.
   */
  lemma NoStrandedWaiter(acts: seq<Action>)
    requires var s := Exec(Init(), acts); PastHello(s) && s.reader == ReaderGone(true) && NobodySends(s)
    ensures var s := Exec(Init(), acts); s.core.sync == [] && |s.resolved| == |s.order|
    ensures CallsAreBooked(acts)
    ensures Who(CallbackCalls(Exec(Init(), acts).core.calls)) ==
              multiset(Exec(Init(), acts).order) + Who(RefusedIn(acts))
  {
    ExecTended(acts);
    ExecInv(acts);
    CallsMatchBooks(acts);
    EachCalledOnce(acts);
  }

  // ---- After any drain -----------------------------------------------------------------------

  /** A thread that passed the flag before the last drain ended is the only one that can have queued since. */
  predicate Late(ended: DrainEnd, queued: nat, inside: Inside) {
    ended.Ended? ==>
      && (!ended.caught ==> queued == ended.queued && !inside.Checked?)
      && (ended.caught ==> queued == ended.queued + if inside.Checked? then 0 else 1)
  }

  predicate Drained(s: State) {
    && Late(s.ended, |s.order|, s.inside)
    && (s.ended.Ended? ==> s.core.closed && 0 < s.ended.queued <= |s.resolved|)
    && (s.ended.Ended? && !s.ended.reading ==> !s.reader.Reading?)
    && (s.core.closed && !DrainRuns(s) ==> s.ended.Ended? || (s.resolved != [] && s.resolved[0].Abandoned?))
    && (s.ended.Ended? && !s.ended.reading && !DrainRuns(s) ==> |s.resolved| == s.ended.queued)
  }

  /** After the last drain only the hello callback could raise, and it has been resolved. */
  lemma DrainOnceDrained(s: State)
    requires Inv(s) && Drained(s)
    ensures s.core.sync == [] ==> |s.resolved| == |s.order|
    ensures s.core.sync != [] && PastHello(s) ==> s.core.sync[0].Waiter?
    ensures s.ended.Ended? && s.core.sync != [] && |s.resolved| > 0 ==> s.core.sync[0].Waiter?
  {
    if s.core.sync != [] {
      PopInv(s);
    }
  }

  lemma DrainDrained(s: State, a: Action)
    requires Inv(s) && Drained(s) && (a.DrainInside? || a.DrainReader? || a.DrainCloser?)
    ensures Drained(DrainStep(s, a))
  {
    DrainOnceDrained(s);
  }

  lemma ReplyDrained(s: State)
    requires Inv(s) && Drained(s) && s.reader.Reading? && s.read < |s.wire| && IsReply(s.wire[s.read])
             && s.core.sync != []
    ensures Drained(ReadNext(s))
  {
    HelloGetsGreeting(s);
    ReadNextIs(s);
  }

  lemma ReadDrained(s: State)
    requires Inv(s) && Drained(s)
    ensures Drained(Step(s, ReadMessage))
  {
    if s.reader.Reading? && s.read < |s.wire| {
      if IsReply(s.wire[s.read]) && s.core.sync != [] {
        ReplyDrained(s);
      } else {
        ReadNextIs(s);
      }
    }
  }

  lemma LockDrained(s: State, a: Action)
    requires Inv(s) && Drained(s) && (a.Enter? || a.Check? || a.Put? || a.Send?)
    ensures Drained(Step(s, a))
  {
  }

  lemma OtherDrained(s: State, a: Action)
    requires Drained(s) && Inv(s)
    requires a.QemuEvent? || a.QemuReply? || a.PeerLeaves? || a.ReadEnd? || a.ReaderDies? || a.ReaderStops?
             || a.Close? || a.AddHandler?
    ensures Drained(Step(s, a))
  {
  }

  lemma StepDrained(s: State, a: Action)
    requires Inv(s) && Drained(s)
    ensures Drained(Step(s, a))
  {
    if a.DrainInside? || a.DrainReader? || a.DrainCloser? {
      DrainDrained(s, a);
    } else if a.ReadMessage? {
      ReadDrained(s);
    } else if a.Enter? || a.Check? || a.Put? || a.Send? {
      LockDrained(s, a);
    } else {
      OtherDrained(s, a);
    }
  }

  lemma {:induction false} ExecDrained(acts: seq<Action>)
    ensures Drained(Exec(Init(), acts))
    decreases |acts|
  {
    if acts != [] {
      ExecDrained(acts[..|acts| - 1]);
      ExecInv(acts[..|acts| - 1]);
      StepDrained(Exec(Init(), acts[..|acts| - 1]), acts[|acts| - 1]);
    }
  }

  // ---- close() and the reader ---------------------------------------------------------------

  /** The hello callback was taken by a drain, which makes that drain raise. */
  predicate HelloTaken(resolved: seq<Outcome>) {
    resolved != [] && resolved[0].Abandoned?
  }

  /** The reader is told to stop exactly by a close() whose drain did not raise. */
  predicate Woken(closer: Closer, stop: bool, resolved: seq<Outcome>) {
    && (stop ==> closer.CloserDone?)
    && (closer.CloserDone? ==> stop || HelloTaken(resolved))
  }

  lemma DrainOnceWoken(s: State)
    requires Inv(s)
    ensures s.core.sync != [] && Raises(s.core.sync[0], None) ==> HelloTaken(DrainOnce(s).resolved)
    ensures HelloTaken(s.resolved) ==> HelloTaken(DrainOnce(s).resolved)
  {
  }

  lemma DrainWoken(s: State, a: Action)
    requires Inv(s) && Woken(s.closer, s.stop, s.resolved) && (a.DrainInside? || a.DrainReader? || a.DrainCloser?)
    ensures var s' := Step(s, a); Woken(s'.closer, s'.stop, s'.resolved)
  {
    DrainOnceWoken(s);
  }

  lemma ReadWoken(s: State)
    requires s.read < |s.wire| && Woken(s.closer, s.stop, s.resolved)
    ensures Woken(ReadNext(s).closer, ReadNext(s).stop, ReadNext(s).resolved)
  {
  }

  lemma OtherWoken(s: State, a: Action)
    requires Woken(s.closer, s.stop, s.resolved)
    requires !a.DrainInside? && !a.DrainReader? && !a.DrainCloser? && !a.ReadMessage?
    ensures var s' := Step(s, a); Woken(s'.closer, s'.stop, s'.resolved)
  {
  }

  /**
   In every run, the reader is told to stop only by close(), after its drain, and by
   every close() that comes to its end, unless a drain met the hello callback.
   */
  lemma {:induction false} CloseWakesReader(acts: seq<Action>)
    ensures var s := Exec(Init(), acts); Woken(s.closer, s.stop, s.resolved)
    decreases |acts|
  {
    if acts != [] {
      CloseWakesReader(acts[..|acts| - 1]);
      ExecInv(acts[..|acts| - 1]);
      var s, a := Exec(Init(), acts[..|acts| - 1]), acts[|acts| - 1];
      if a.DrainInside? || a.DrainReader? || a.DrainCloser? {
        DrainWoken(s, a);
      } else if a.ReadMessage? {
        if s.reader.Reading? && s.read < |s.wire| {
          ReadWoken(s);
        }
      } else {
        OtherWoken(s, a);
      }
    }
  }

  /** Once the flag is set and no drain runs, one has emptied the queue, unless a drain met the hello callback. */
  lemma DrainsEnd(acts: seq<Action>)
    requires var s := Exec(Init(), acts); s.core.closed && !DrainRuns(s)
    ensures var s := Exec(Init(), acts); s.ended.Ended? || (s.resolved != [] && s.resolved[0].Abandoned?)
  {
    ExecDrained(acts);
  }

  /**
   What any disconnect or close() leaves behind.  Once a drain has emptied the
   queue, which every drain past the hello does, no drain runs and nobody is inside a
   send, at most one callback waits: the last one queued, by a thread that had passed
   the flag before the last drain ended and queued after it.  If such a thread was
   caught, it waits unless it got its reply; and if the reader had already stopped
   then, it waits for ever, and the queue is empty exactly if no thread was caught.
   */
  lemma AtMostOneWaits(acts: seq<Action>)
    requires var s := Exec(Init(), acts); s.ended.Ended? || (s.core.closed && PastHello(s))
    requires var s := Exec(Init(), acts); !DrainRuns(s) && NobodySends(s)
    ensures var s := Exec(Init(), acts);
            && s.ended.Ended? && s.core.closed
            && |s.order| == s.ended.queued + (if s.ended.caught then 1 else 0)
            && (s.core.sync == [] || (s.ended.caught && s.core.sync == [s.order[|s.order| - 1]]))
            && (s.core.sync == [] <==> !s.ended.caught || |s.resolved| == |s.order|)
            && (!s.ended.reading ==> (s.core.sync == [] <==> !s.ended.caught))
    ensures CallsAreBooked(acts)
  {
    ExecDrained(acts);
    ExecInv(acts);
    OneWaits(Exec(Init(), acts));
    CallsMatchBooks(acts);
  }

  lemma OneWaits(s: State)
    requires Inv(s) && Drained(s) && s.ended.Ended? && !DrainRuns(s) && NobodySends(s)
    ensures |s.order| == s.ended.queued + (if s.ended.caught then 1 else 0)
    ensures s.core.sync == [] || (s.ended.caught && s.core.sync == [s.order[|s.order| - 1]])
    ensures s.core.sync == [] <==> !s.ended.caught || |s.resolved| == |s.order|
    ensures !s.ended.reading ==> (s.core.sync == [] <==> !s.ended.caught)
  {
  }

  /** With the flag clear nothing was drained: a callback waits exactly if its reply has not come. */
  lemma OpenQueueWaits(acts: seq<Action>)
    requires !Exec(Init(), acts).core.closed
    ensures var s := Exec(Init(), acts);
            && s.read <= |s.wire| && |s.resolved| == Replies(s.wire[..s.read])
            && (s.core.sync == [] <==> Replies(s.wire[..s.read]) == |s.order|)
  {
    ExecInv(acts);
    ExecUndrained(acts);
  }

  // ---- Runs that strand a waiter ---------------------------------------------------------------

  lemma Extend(acts: seq<Action>, a: Action)
    ensures Exec(Init(), acts + [a]) == Step(Exec(Init(), acts), a)
  {
    assert (acts + [a])[..|acts|] == acts;
  }

  /** A run, one action at a time. */
  lemma Then(acts: seq<Action>, s: State, a: Action) returns (acts': seq<Action>, s': State)
    requires Exec(Init(), acts) == s
    ensures acts' == acts + [a] && s' == Step(s, a) && Exec(Init(), acts') == s'
  {
    Extend(acts, a);
    acts', s' := acts + [a], Step(s, a);
  }

  lemma FirstReply()
    ensures Step(Init(), QemuReply) == Init().(wire := [Greeting])
  {
    assert Replies([]) == 0;
  }

  lemma GreetingRead()
    ensures Step(Init().(wire := [Greeting]), ReadMessage) ==
      Init().(core := Core([], [], false, [CalledBack(Hello, Some(Greeting))]),
              resolved := [Answered(0, 0)], wire := [Greeting], read := 1)
  {
    var s := Init().(wire := [Greeting]);
    ReadNextIs(s);
    assert Pop(s.core, Some(Greeting)) == Core([], [], false, [CalledBack(Hello, Some(Greeting))]);
  }

  /** The greeting arrives and the hello callback takes it. */
  lemma Greeted() returns (acts: seq<Action>, s: State)
    ensures Exec(Init(), acts) == s
    ensures s == Init().(core := Core([], [], false, [CalledBack(Hello, Some(Greeting))]),
                         resolved := [Answered(0, 0)], wire := [Greeting], read := 1)
  {
    FirstReply();
    GreetingRead();
    acts, s := Then([], Init(), QemuReply);
    acts, s := Then(acts, s, ReadMessage);
  }

  /** A command is queued and sent. */
  lemma Commanded(acts: seq<Action>, s: State, command: nat) returns (acts': seq<Action>, s': State)
    requires Exec(Init(), acts) == s && s.inside.Nobody? && !s.core.closed && !s.peerGone
    ensures Exec(Init(), acts') == s'
    ensures s' == s.(order := s.order + [Waiter(command)], sent := s.order + [Waiter(command)],
                     core := s.core.(sync := s.core.sync + [Waiter(command)]))
  {
    acts', s' := Then(acts, s, Enter(command));
    acts', s' := Then(acts', s', Check);
    acts', s' := Then(acts', s', Put);
    acts', s' := Then(acts', s', Send(true, false));
  }

  /** A command is sent before the greeting has come. */
  lemma EarlyCommand() returns (acts: seq<Action>, s: State)
    ensures Exec(Init(), acts) == s
    ensures s == Init().(order := [Hello, Waiter(1)], sent := [Hello, Waiter(1)],
                         core := Core([Hello, Waiter(1)], [], false, []))
  {
    acts, s := Then([], Init(), Enter(1));
    acts, s := Then(acts, s, Check);
    acts, s := Then(acts, s, Put);
    acts, s := Then(acts, s, Send(true, false));
  }

  /** A disconnect before the greeting: the hello callback raises out of the drain and strands the next waiter. */
  lemma HelloCanStrand() returns (acts: seq<Action>)
    ensures var s := Exec(Init(), acts);
            s.reader == ReaderGone(true) && NobodySends(s) && !DrainRuns(s) && s.closer.NotClosing?
              && s.core.sync == [Waiter(1)]
  {
    var s;
    acts, s := EarlyCommand();
    acts, s := Then(acts, s, PeerLeaves);
    acts, s := Then(acts, s, ReadEnd);
    acts, s := Then(acts, s, DrainReader);
  }

  /**
   A reader that stops in any other way than at end of file drains nothing: the flag
   stays clear and its waiter waits for ever.
   */
  lemma DeathCanStrand() returns (acts: seq<Action>)
    ensures var s := Exec(Init(), acts);
            PastHello(s) && s.reader == ReaderGone(false) && NobodySends(s) && !s.core.closed
              && s.core.sync == [Waiter(1)]
  {
    var s;
    acts, s := Greeted();
    acts, s := Commanded(acts, s, 1);
    acts, s := Then(acts, s, ReaderDies);
  }

  /** A thread looks at the flag, and then close() drains. */
  lemma ClosedAfterCheck() returns (acts: seq<Action>, s: State)
    ensures Exec(Init(), acts) == s
    ensures s.resolved == [Answered(0, 0)] && s.reader.Reading? && s.stop && !s.peerGone && s.closer.CloserDone?
    ensures s.inside == Checked(Waiter(1)) && s.core.sync == [] && s.core.closed
  {
    acts, s := Greeted();
    acts, s := Then(acts, s, Enter(1));
    acts, s := Then(acts, s, Check);
    acts, s := Then(acts, s, Close(false));
    acts, s := Then(acts, s, DrainCloser);
  }

  /** close() between a thread's look at the flag and its queueing: the command is sent and nobody reads the reply. */
  lemma CloseCanStrand() returns (acts: seq<Action>)
    ensures var s := Exec(Init(), acts);
            PastHello(s) && s.core.closed && !DrainRuns(s) && NobodySends(s) && !s.reader.Reading?
              && s.core.sync == [Waiter(1)]
  {
    var s;
    acts, s := ClosedAfterCheck();
    acts, s := Then(acts, s, Put);
    acts, s := Then(acts, s, Send(true, false));
    acts, s := Then(acts, s, ReaderStops);
  }

  /** A command whose send fails because QEMU has gone, up to the first callback its drain takes. */
  lemma FailingCommand(acts: seq<Action>, s: State, command: nat) returns (acts': seq<Action>, s': State)
    requires Exec(Init(), acts) == s && s.inside.Nobody? && !s.core.closed && s.reader.Reading?
    requires s.core.sync != [] && s.core.sync[0].Waiter? && s.core.handlers == []
    ensures Exec(Init(), acts') == s'
    ensures s'.order == s.order + [Waiter(command)] && s'.resolved == s.resolved + [Abandoned]
    ensures s'.core.sync == (s.core.sync + [Waiter(command)])[1..] && s'.reader.Reading?
    ensures s'.wire == s.wire && s'.read == s.read && s'.dropped == s.dropped
  {
    acts', s' := Then(acts, s, PeerLeaves);
    acts', s' := Then(acts', s', Enter(command));
    acts', s' := Then(acts', s', Check);
    acts', s' := Then(acts', s', Put);
    acts', s' := Then(acts', s', Send(false, false));
    assert s'.core.sync == s.core.sync + [Waiter(command)];
    acts', s' := Then(acts', s', DrainInside);
  }

  /** A drain that races the reader: the second command's callback is given the first command's reply. */
  lemma DrainCanShiftReplies() returns (acts: seq<Action>)
    ensures var s := Exec(Init(), acts);
            && s.order == [Hello, Waiter(1), Waiter(2), Waiter(3)]
            && s.resolved == [Answered(0, 0), Abandoned, Answered(1, 0)]
            && s.wire == [Greeting, Reply(1)]
  {
    var s;
    acts, s := Greeted();
    acts, s := Commanded(acts, s, 1);
    acts, s := Commanded(acts, s, 2);
    assert Replies([Greeting]) == 1 by { assert Replies([Greeting][..0]) == 0; }
    acts, s := Then(acts, s, QemuReply);
    acts, s := FailingCommand(acts, s, 3);
    acts, s := Then(acts, s, ReadMessage);
  }

  /** A handler is added and a command sent; then an event comes before the reply. */
  lemma EventBeforeReply() returns (acts: seq<Action>, s: State)
    ensures Exec(Init(), acts) == s
    ensures s.order == s.sent == [Hello, Waiter(1)] && s.resolved == [Answered(0, 0)] && s.reader.Reading?
            && !s.peerGone
    ensures s.wire == [Greeting, Event("RESET")] && s.read == 1 && s.dropped == 0
    ensures s.core == Core([Waiter(1)], [7], false, [CalledBack(Hello, Some(Greeting))]) && s.registered == map[7 := 1]
  {
    acts, s := Greeted();
    acts, s := Then(acts, s, AddHandler(7, false));
    acts, s := Commanded(acts, s, 1);
    acts, s := Then(acts, s, QemuEvent("RESET"));
  }

  lemma TwoReplies()
    ensures Replies([Greeting]) == 1 && Replies([Greeting, Event("RESET")]) == 1
  {
    assert [Greeting, Event("RESET")][..1] == [Greeting] && [Greeting][..0] == [];
  }

  /** The barrier does happen: a registered handler sees an event, and then a command's own reply comes. */
  lemma BarrierHappens() returns (acts: seq<Action>)
    ensures var s := Exec(Init(), acts);
            && AnsweredBy(s, 1, 1) && !s.core.closed
            && s.core.handlers == [7] && s.registered == map[7 := 1]
            && s.core.calls ==
                [CalledBack(Hello, Some(Greeting)), Handled(7, Some(Event("RESET"))),
                  CalledBack(Waiter(1), Some(Reply(1)))]
  {
    var s;
    acts, s := EventBeforeReply();
    TwoReplies();
    acts, s := Then(acts, s, ReadMessage);
    acts, s := Then(acts, s, QemuReply);
    acts, s := Then(acts, s, ReadMessage);
    OpenRepliesMatch(acts, [], 1);
  }
}
