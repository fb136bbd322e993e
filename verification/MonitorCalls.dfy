/** The monitor's books are true: who was in fact called, with what, and how often. */
module MonitorCalls {
  import opened Prelude
  import opened Monitor
  import opened MonitorThreads
  import opened MonitorSafety

  /** The calls of callbacks, in order, without those of handlers. */
  function CallbackCalls(calls: seq<Call>): seq<Call> {
    if calls == [] then []
    else CallbackCalls(calls[..|calls| - 1]) + (if calls[|calls| - 1].CalledBack? then [calls[|calls| - 1]] else [])
  }

  /** The call that the books claim for one callback. */
  function Claimed(cb: Callback, outcome: Outcome, wire: seq<Message>): Call {
    match outcome
    case Answered(p, _) => CalledBack(cb, if p < |wire| then Some(wire[p]) else None)
    case Abandoned => CalledBack(cb, None)
  }

  /** The calls that the books claim, oldest first. */
  function Booked(order: seq<Callback>, resolved: seq<Outcome>, wire: seq<Message>): seq<Call>
    requires |resolved| <= |order|
  {
    seq(|resolved|, k requires 0 <= k < |resolved| => Claimed(order[k], resolved[k], wire))
  }

  /** A command thread that looks at the flag when it is set is called back with nothing. */
  function Refusal(s: State, a: Action): seq<Call> {
    if a.Check? && s.inside.Entered? && s.core.closed then [CalledBack(s.inside.callback, None)] else []
  }

  function RefusedIn(acts: seq<Action>): seq<Call> {
    if acts == [] then []
    else RefusedIn(acts[..|acts| - 1]) + Refusal(Exec(Init(), acts[..|acts| - 1]), acts[|acts| - 1])
  }

  /** `log` consists of `a` and `b`, each in its order. */
  ghost predicate Merged<T(!new)>(log: seq<T>, a: seq<T>, b: seq<T>)
    decreases |log|
  {
    if log == [] then a == [] && b == []
    else
      var most, last := log[..|log| - 1], log[|log| - 1];
      || (a != [] && a[|a| - 1] == last && Merged(most, a[..|a| - 1], b))
      || (b != [] && b[|b| - 1] == last && Merged(most, a, b[..|b| - 1]))
  }

  lemma MergedMore<T(!new)>(log: seq<T>, a: seq<T>, b: seq<T>, x: T)
    requires Merged(log, a, b)
    ensures Merged(log + [x], a + [x], b) && Merged(log + [x], a, b + [x])
  {
    assert (log + [x])[..|log|] == log && (a + [x])[..|a|] == a && (b + [x])[..|b|] == b;
  }

  lemma CallbackLast(calls: seq<Call>, call: Call)
    ensures CallbackCalls(calls + [call]) == CallbackCalls(calls) + if call.CalledBack? then [call] else []
  {
    assert (calls + [call])[..|calls|] == calls;
  }

  lemma {:induction false} HandlersDoNotCount(calls: seq<Call>, handlers: seq<nat>, m: Option<Message>)
    ensures CallbackCalls(calls + HandleAll(handlers, m)) == CallbackCalls(calls)
  {
    if handlers == [] {
      assert calls + HandleAll(handlers, m) == calls;
    } else {
      var most, last := handlers[..|handlers| - 1], handlers[|handlers| - 1];
      HandlersDoNotCount(calls, most, m);
      assert calls + HandleAll(handlers, m) == (calls + HandleAll(most, m)) + [Handled(last, m)];
      CallbackLast(calls + HandleAll(most, m), Handled(last, m));
    }
  }

  // ---- The books stay true ------------------------------------------------------------------

  /** What was called is what the books claim, and the refusals. */
  ghost predicate Told(calls: seq<Call>, order: seq<Callback>, resolved: seq<Outcome>, wire: seq<Message>,
                       refused: seq<Call>)
  {
    && |resolved| <= |order|
    && (forall k | 0 <= k < |resolved| && resolved[k].Answered? :: resolved[k].position < |wire|)
    && Merged(CallbackCalls(calls), Booked(order, resolved, wire), refused)
  }

  ghost predicate Truthful(s: State, refused: seq<Call>) {
    Told(s.core.calls, s.order, s.resolved, s.wire, refused)
  }

  lemma BookedMore(order: seq<Callback>, resolved: seq<Outcome>, wire: seq<Message>, outcome: Outcome)
    requires |resolved| < |order|
    ensures Booked(order, resolved + [outcome], wire) ==
              Booked(order, resolved, wire) + [Claimed(order[|resolved|], outcome, wire)]
  {
  }

  /** One more queued callback has been called. */
  lemma ToldResolved(calls: seq<Call>, order: seq<Callback>, resolved: seq<Outcome>, wire: seq<Message>,
                     refused: seq<Call>, outcome: Outcome)
    requires Told(calls, order, resolved, wire, refused) && |resolved| < |order|
    requires outcome.Answered? ==> outcome.position < |wire|
    ensures Told(calls + [Claimed(order[|resolved|], outcome, wire)], order, resolved + [outcome], wire, refused)
  {
    var call := Claimed(order[|resolved|], outcome, wire);
    BookedMore(order, resolved, wire, outcome);
    CallbackLast(calls, call);
    MergedMore(CallbackCalls(calls), Booked(order, resolved, wire), refused, call);
  }

  lemma ToldRefused(calls: seq<Call>, order: seq<Callback>, resolved: seq<Outcome>, wire: seq<Message>,
                    refused: seq<Call>, cb: Callback)
    requires Told(calls, order, resolved, wire, refused)
    ensures Told(calls + [CalledBack(cb, None)], order, resolved, wire, refused + [CalledBack(cb, None)])
  {
    CallbackLast(calls, CalledBack(cb, None));
    MergedMore(CallbackCalls(calls), Booked(order, resolved, wire), refused, CalledBack(cb, None));
  }

  lemma ToldHandled(calls: seq<Call>, order: seq<Callback>, resolved: seq<Outcome>, wire: seq<Message>,
                    refused: seq<Call>, handlers: seq<nat>, m: Option<Message>)
    requires Told(calls, order, resolved, wire, refused)
    ensures Told(calls + HandleAll(handlers, m), order, resolved, wire, refused)
  {
    HandlersDoNotCount(calls, handlers, m);
  }

  /** Later callbacks and messages do not change what was claimed. */
  lemma ToldMore(calls: seq<Call>, order: seq<Callback>, resolved: seq<Outcome>, wire: seq<Message>,
                 refused: seq<Call>, order': seq<Callback>, wire': seq<Message>)
    requires Told(calls, order, resolved, wire, refused) && order <= order' && wire <= wire'
    ensures Told(calls, order', resolved, wire', refused)
  {
    assert Booked(order', resolved, wire') == Booked(order, resolved, wire);
  }

  lemma DrainTruthful(s: State, refused: seq<Call>)
    requires Inv(s) && Truthful(s, refused)
    ensures Truthful(DrainOnce(s), refused)
  {
    if s.core.sync != [] {
      PopInv(s);
      ToldResolved(s.core.calls, s.order, s.resolved, s.wire, refused, Abandoned);
    }
  }

  predicate SameBooks(s: State, t: State) {
    s.core.calls == t.core.calls && s.order == t.order && s.resolved == t.resolved && s.wire == t.wire
  }

  lemma DrainStepBooks(s: State, a: Action)
    requires a.DrainInside? || a.DrainReader? || a.DrainCloser?
    ensures SameBooks(Step(s, a), DrainOnce(s)) || SameBooks(Step(s, a), s)
  {
  }

  lemma DrainStepTruthful(s: State, a: Action, refused: seq<Call>)
    requires Inv(s) && Truthful(s, refused) && (a.DrainInside? || a.DrainReader? || a.DrainCloser?)
    ensures Truthful(Step(s, a), refused)
  {
    DrainTruthful(s, refused);
    DrainStepBooks(s, a);
  }

  /** The parts of a state that the books are about, after a message was dispatched. */
  lemma ReadBooks(s: State)
    requires s.read < |s.wire|
    ensures ReadNext(s).order == s.order && ReadNext(s).wire == s.wire
    ensures !IsReply(s.wire[s.read]) ==>
              ReadNext(s).resolved == s.resolved
              && ReadNext(s).core.calls == s.core.calls + HandleAll(s.core.handlers, Some(s.wire[s.read]))
    ensures IsReply(s.wire[s.read]) && s.core.sync == [] ==>
              ReadNext(s).resolved == s.resolved && ReadNext(s).core.calls == s.core.calls
    ensures IsReply(s.wire[s.read]) && s.core.sync != [] ==>
              ReadNext(s).resolved == s.resolved + [Answered(s.read, s.dropped)]
              && ReadNext(s).core.calls == s.core.calls + [CalledBack(s.core.sync[0], Some(s.wire[s.read]))]
  {
    KeptAll(s.core.handlers, s.wire[s.read]);
  }

  lemma ReadTruthful(s: State, refused: seq<Call>)
    requires Inv(s) && Truthful(s, refused) && s.read < |s.wire|
    ensures Truthful(ReadNext(s), refused)
  {
    ReadBooks(s);
    if !IsReply(s.wire[s.read]) {
      ToldHandled(s.core.calls, s.order, s.resolved, s.wire, refused, s.core.handlers, Some(s.wire[s.read]));
    } else if s.core.sync != [] {
      PopInv(s);
      ToldResolved(s.core.calls, s.order, s.resolved, s.wire, refused, Answered(s.read, s.dropped));
    }
  }

  lemma CheckTruthful(s: State, refused: seq<Call>)
    requires Truthful(s, refused)
    ensures s.inside.Entered? && s.core.closed ==>
              Truthful(Step(s, Check), refused + [CalledBack(s.inside.callback, None)])
    ensures !(s.inside.Entered? && s.core.closed) ==> Truthful(Step(s, Check), refused)
  {
    if s.inside.Entered? && s.core.closed {
      ToldRefused(s.core.calls, s.order, s.resolved, s.wire, refused, s.inside.callback);
    }
  }

  /** The other steps only call handlers, queue callbacks or add messages. */
  lemma OtherTruthful(s: State, a: Action, refused: seq<Call>)
    requires Truthful(s, refused) && !a.Check? && !a.ReadMessage?
    requires !a.DrainInside? && !a.DrainReader? && !a.DrainCloser?
    ensures Truthful(Step(s, a), refused)
  {
    var s' := Step(s, a);
    if a.Send? || a.ReadEnd? || a.Close? {
      ToldHandled(s.core.calls, s.order, s.resolved, s.wire, refused, s.core.handlers, None);
    } else {
      ToldMore(s.core.calls, s.order, s.resolved, s.wire, refused, s'.order, s'.wire);
    }
  }

  lemma ReadStepTruthful(s: State, a: Action, refused: seq<Call>)
    requires Inv(s) && Truthful(s, refused) && a.ReadMessage?
    ensures Truthful(Step(s, a), refused)
  {
    if s.reader.Reading? && s.read < |s.wire| {
      ReadTruthful(s, refused);
    }
  }

  /** A step in which nobody can be refused. */
  lemma UncheckedTruthful(s: State, a: Action, refused: seq<Call>)
    requires Inv(s) && Truthful(s, refused) && !a.Check?
    ensures Truthful(Step(s, a), refused)
  {
    if a.ReadMessage? {
      ReadStepTruthful(s, a, refused);
    } else if a.DrainInside? || a.DrainReader? || a.DrainCloser? {
      DrainStepTruthful(s, a, refused);
    } else {
      OtherTruthful(s, a, refused);
    }
  }

  lemma StepTruthful(s: State, a: Action, refused: seq<Call>)
    requires Inv(s) && Truthful(s, refused)
    ensures Truthful(Step(s, a), refused + Refusal(s, a))
  {
    assert refused + [] == refused;
    if a.Check? {
      CheckTruthful(s, refused);
    } else {
      UncheckedTruthful(s, a, refused);
    }
  }

  /** The calls of this run are the ones its books claim, and one with nothing for every refused thread. */
  ghost predicate CallsAreBooked(acts: seq<Action>) {
    var s := Exec(Init(), acts);
    && |s.resolved| <= |s.order|
    && Merged(CallbackCalls(s.core.calls), Booked(s.order, s.resolved, s.wire), RefusedIn(acts))
  }

  lemma {:induction false} ExecTruthful(acts: seq<Action>)
    ensures Truthful(Exec(Init(), acts), RefusedIn(acts))
    decreases |acts|
  {
    if acts != [] {
      ExecTruthful(acts[..|acts| - 1]);
      ExecInv(acts[..|acts| - 1]);
      StepTruthful(Exec(Init(), acts[..|acts| - 1]), acts[|acts| - 1], RefusedIn(acts[..|acts| - 1]));
    }
  }

  /**
   In every run the callbacks were called exactly as the books say: oldest first,
   each answered one once with the message at its position, each abandoned one once
   with nothing, those still queued not at all; and each thread that found the flag set
   was called back once with nothing.
   */
  lemma CallsMatchBooks(acts: seq<Action>)
    ensures CallsAreBooked(acts)
  {
    ExecTruthful(acts);
  }

  function Who(calls: seq<Call>): multiset<Callback> {
    multiset(seq(|calls|, i requires 0 <= i < |calls| => if calls[i].CalledBack? then calls[i].callback else Hello))
  }

  lemma {:induction false} WhoMerged(log: seq<Call>, a: seq<Call>, b: seq<Call>)
    requires Merged(log, a, b)
    ensures Who(log) == Who(a) + Who(b)
    decreases |log|
  {
    if log != [] {
      var most, last := log[..|log| - 1], log[|log| - 1];
      WhoLast(log);
      if a != [] && a[|a| - 1] == last && Merged(most, a[..|a| - 1], b) {
        WhoMerged(most, a[..|a| - 1], b);
        WhoLast(a);
      } else {
        WhoMerged(most, a, b[..|b| - 1]);
        WhoLast(b);
      }
    }
  }

  lemma WhoLast(calls: seq<Call>)
    requires calls != []
    ensures var last := calls[|calls| - 1];
            Who(calls) == Who(calls[..|calls| - 1]) + multiset{if last.CalledBack? then last.callback else Hello}
  {
    var last := calls[|calls| - 1];
    var who := seq(|calls|, i requires 0 <= i < |calls| => if calls[i].CalledBack? then calls[i].callback else Hello);
    assert who == who[..|calls| - 1] + [if last.CalledBack? then last.callback else Hello];
    var most := calls[..|calls| - 1];
    assert who[..|calls| - 1] ==
      seq(|most|, i requires 0 <= i < |most| => if most[i].CalledBack? then most[i].callback else Hello);
  }

  /** Once everything queued is resolved, each callback was called as often as it was queued or refused. */
  lemma EachCalledOnce(acts: seq<Action>)
    requires |Exec(Init(), acts).resolved| == |Exec(Init(), acts).order|
    ensures Who(CallbackCalls(Exec(Init(), acts).core.calls)) ==
              multiset(Exec(Init(), acts).order) + Who(RefusedIn(acts))
  {
    var s := Exec(Init(), acts);
    CallsMatchBooks(acts);
    WhoMerged(CallbackCalls(s.core.calls), Booked(s.order, s.resolved, s.wire), RefusedIn(acts));
    var booked := Booked(s.order, s.resolved, s.wire);
    var who := seq(|booked|, i requires 0 <= i < |booked| =>
      if booked[i].CalledBack? then booked[i].callback else Hello);
    assert who == s.order;
  }

  // ---- The handlers are told of the end -------------------------------------------------------

  /** A handler that was added is still on the list, or has been called with nothing. */
  ghost predicate EndTold(s: State) {
    forall h | h in s.registered :: h in s.core.handlers || Handled(h, None) in s.core.calls
  }

  lemma AllTold(handlers: seq<nat>, h: nat)
    requires h in handlers
    ensures Handled(h, None) in HandleAll(handlers, None)
  {
    var i :| 0 <= i < |handlers| && handlers[i] == h;
    assert HandleAll(handlers, None)[i] == Handled(h, None);
  }

  lemma CloseTold(s: State, a: Action)
    requires EndTold(s) && (a.Send? || a.ReadEnd? || a.Close?)
    ensures EndTold(Step(s, a))
  {
    forall h | h in s.core.handlers
      ensures Handled(h, None) in HandleAll(s.core.handlers, None)
    {
      AllTold(s.core.handlers, h);
    }
  }

  lemma ReadTold(s: State)
    requires EndTold(s) && s.read < |s.wire|
    ensures EndTold(ReadNext(s))
  {
    KeptAll(s.core.handlers, s.wire[s.read]);
    ReadBooks(s);
  }

  lemma DrainTold(s: State, a: Action)
    requires EndTold(s) && (a.DrainInside? || a.DrainReader? || a.DrainCloser?)
    ensures EndTold(DrainStep(s, a))
  {
  }

  lemma OtherTold(s: State, a: Action)
    requires EndTold(s) && !a.Send? && !a.ReadEnd? && !a.Close? && !a.ReadMessage?
    requires !a.DrainInside? && !a.DrainReader? && !a.DrainCloser?
    ensures EndTold(Step(s, a))
  {
  }

  /** In every run, a handler leaves the list only when a drain has called it with nothing. */
  lemma {:induction false} HandlersToldOfEnd(acts: seq<Action>)
    ensures EndTold(Exec(Init(), acts))
    decreases |acts|
  {
    if acts != [] {
      HandlersToldOfEnd(acts[..|acts| - 1]);
      var s, a := Exec(Init(), acts[..|acts| - 1]), acts[|acts| - 1];
      if a.Send? || a.ReadEnd? || a.Close? {
        CloseTold(s, a);
      } else if a.ReadMessage? {
        if s.reader.Reading? && s.read < |s.wire| {
          ReadTold(s);
        }
      } else if a.DrainInside? || a.DrainReader? || a.DrainCloser? {
        DrainTold(s, a);
      } else {
        OtherTold(s, a);
      }
    }
  }
}
