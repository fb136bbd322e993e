/** The barrier: what a registered handler has been run on when a command's reply arrives. */
module MonitorBarrier {
  import opened Prelude
  import opened Monitor
  import opened MonitorThreads
  import opened MonitorSafety

  /** The messages a handler was called with, in order. */
  function HandledBy(calls: seq<Call>, h: nat): seq<Message> {
    if calls == [] then []
    else
      var last := calls[|calls| - 1];
      HandledBy(calls[..|calls| - 1], h) +
      (if last.Handled? && last.handler == h && last.message.Some? then [last.message.value] else [])
  }

  function Events(wire: seq<Message>): seq<Message> {
    if wire == [] then []
    else Events(wire[..|wire| - 1]) + (if IsReply(wire[|wire| - 1]) then [] else [wire[|wire| - 1]])
  }

  lemma {:induction false} HandledByAppend(a: seq<Call>, b: seq<Call>, h: nat)
    ensures HandledBy(a + b, h) == HandledBy(a, h) + HandledBy(b, h)
  {
    if b == [] {
      assert a + b == a;
    } else {
      HandledByAppend(a, b[..|b| - 1], h);
      assert (a + b)[..|a + b| - 1] == a + b[..|b| - 1];
    }
  }

  lemma HandledByOne(c: Call, h: nat)
    ensures HandledBy([c], h) == if c.Handled? && c.handler == h && c.message.Some? then [c.message.value] else []
  {
    assert [c][..0] == [];
  }

  lemma {:induction false} HandleAllOnce(hs: seq<nat>, m: Option<Message>, h: nat)
    requires Distinct(hs)
    ensures HandledBy(HandleAll(hs, m), h) == if h in hs && m.Some? then [m.value] else []
  {
    if hs != [] {
      var most, last := hs[..|hs| - 1], hs[|hs| - 1];
      assert hs == most + [last] && last !in most;
      HandleAllOnce(most, m, h);
      OneMoreHandler(most, last, m, h);
    }
  }

  lemma OneMoreHandler(most: seq<nat>, last: nat, m: Option<Message>, h: nat)
    ensures HandledBy(HandleAll(most + [last], m), h) ==
              HandledBy(HandleAll(most, m), h) + if last == h && m.Some? then [m.value] else []
  {
    HandleAllLast(most, last, m);
    HandledByAppend(HandleAll(most, m), [Handled(last, m)], h);
    HandledByOne(Handled(last, m), h);
  }

  lemma HandleAllLast(hs: seq<nat>, last: nat, m: Option<Message>)
    ensures HandleAll(hs + [last], m) == HandleAll(hs, m) + [Handled(last, m)]
  {
  }

  lemma {:induction false} EventsPrefix(wire: seq<Message>, n: nat)
    requires n <= |wire|
    ensures Events(wire[..n]) <= Events(wire)
    decreases |wire|
  {
    if n < |wire| {
      EventsPrefix(wire[..|wire| - 1], n);
      assert wire[..|wire| - 1][..n] == wire[..n];
    } else {
      assert wire[..n] == wire;
    }
  }

  lemma EventsLast(wire: seq<Message>, last: Message)
    ensures Events(wire + [last]) == Events(wire) + if IsReply(last) then [] else [last]
  {
    assert (wire + [last])[..|wire|] == wire;
  }

  lemma AppendLast<T>(a: seq<T>, b: seq<T>, c: seq<T>)
    ensures a + (b + c) == (a + b) + c
  {
  }

  lemma {:induction false} EventsAppend(a: seq<Message>, b: seq<Message>)
    ensures Events(a + b) == Events(a) + Events(b)
    decreases |b|
  {
    if b == [] {
      assert a + b == a;
    } else {
      var most, last := b[..|b| - 1], b[|b| - 1];
      assert b == most + [last];
      calc {
        Events(a + (most + [last]));
        { AppendLast(a, most, [last]); }
        Events((a + most) + [last]);
        { EventsLast(a + most, last); EventsAppend(a, most); }
        (Events(a) + Events(most)) + if IsReply(last) then [] else [last];
        { AppendLast(Events(a), Events(most), if IsReply(last) then [] else [last]); }
        Events(a) + (Events(most) + if IsReply(last) then [] else [last]);
        { EventsLast(most, last); }
        Events(a) + Events(most + [last]);
      }
    }
  }

  lemma OneEvent(wire: seq<Message>, from: nat, read: nat)
    requires from <= read < |wire|
    ensures Events(wire[from..read + 1]) ==
      Events(wire[from..read]) + if IsReply(wire[read]) then [] else [wire[read]]
  {
    assert wire[from..read + 1][..read - from] == wire[from..read];
  }

  // ---- What the handlers have seen ----------------------------------------------------------

  /** Every handler on the list has been run on exactly the events passed since it was added, and no other was run. */
  ghost predicate Seen(handlers: seq<nat>, registered: map<nat, nat>, calls: seq<Call>, wire: seq<Message>, read: nat) {
    && read <= |wire|
    && Distinct(handlers)
    && (forall h | h in handlers :: h in registered)
    && (forall h | h in registered :: registered[h] <= read)
    && (forall h | h in handlers :: HandledBy(calls, h) == Events(wire[registered[h]..read]))
    && (forall h | h !in registered :: HandledBy(calls, h) == [])
  }

  ghost predicate Attentive(s: State) {
    Seen(s.core.handlers, s.registered, s.core.calls, s.wire, s.read)
  }

  lemma SeenEvent(handlers: seq<nat>, registered: map<nat, nat>, calls: seq<Call>, wire: seq<Message>, read: nat)
    requires Seen(handlers, registered, calls, wire, read) && read < |wire| && !IsReply(wire[read])
    ensures Seen(handlers, registered, calls + HandleAll(handlers, Some(wire[read])), wire, read + 1)
  {
    var more := HandleAll(handlers, Some(wire[read]));
    forall h
      ensures HandledBy(calls + more, h) == HandledBy(calls, h) + if h in handlers then [wire[read]] else []
    {
      HandledByAppend(calls, more, h);
      HandleAllOnce(handlers, Some(wire[read]), h);
    }
    forall h | h in handlers
      ensures Events(wire[registered[h]..read + 1]) == Events(wire[registered[h]..read]) + [wire[read]]
    {
      OneEvent(wire, registered[h], read);
    }
  }

  lemma SeenReply(handlers: seq<nat>, registered: map<nat, nat>, calls: seq<Call>, wire: seq<Message>, read: nat)
    requires Seen(handlers, registered, calls, wire, read) && read < |wire| && IsReply(wire[read])
    ensures Seen(handlers, registered, calls, wire, read + 1)
  {
    forall h | h in handlers
      ensures Events(wire[registered[h]..read + 1]) == Events(wire[registered[h]..read])
    {
      OneEvent(wire, registered[h], read);
    }
  }

  /** Calls of queued or refused callbacks are not the handlers' business. */
  lemma SeenCall(handlers: seq<nat>, registered: map<nat, nat>, calls: seq<Call>, wire: seq<Message>, read: nat,
                 call: Call)
    requires Seen(handlers, registered, calls, wire, read) && !call.Handled?
    ensures Seen(handlers, registered, calls + [call], wire, read)
  {
    forall h
      ensures HandledBy(calls + [call], h) == HandledBy(calls, h)
    {
      HandledByAppend(calls, [call], h);
      HandledByOne(call, h);
    }
  }

  /** A drain calls the handlers with nothing, and takes them off the list or leaves them on it. */
  lemma SeenDrain(handlers: seq<nat>, registered: map<nat, nat>, calls: seq<Call>, wire: seq<Message>, read: nat)
    requires Seen(handlers, registered, calls, wire, read)
    ensures Seen(handlers, registered, calls + HandleAll(handlers, None), wire, read)
    ensures Seen([], registered, calls + HandleAll(handlers, None), wire, read)
  {
    forall h
      ensures HandledBy(calls + HandleAll(handlers, None), h) == HandledBy(calls, h)
    {
      HandledByAppend(calls, HandleAll(handlers, None), h);
      HandleAllOnce(handlers, None, h);
    }
  }

  lemma SeenMore(handlers: seq<nat>, registered: map<nat, nat>, calls: seq<Call>, wire: seq<Message>, read: nat,
                 m: Message)
    requires Seen(handlers, registered, calls, wire, read)
    ensures Seen(handlers, registered, calls, wire + [m], read)
  {
    forall h | h in handlers
      ensures (wire + [m])[registered[h]..read] == wire[registered[h]..read]
    {
    }
  }

  lemma SeenAdded(handlers: seq<nat>, registered: map<nat, nat>, calls: seq<Call>, wire: seq<Message>, read: nat,
                  h: nat)
    requires Seen(handlers, registered, calls, wire, read) && h !in registered
    ensures Seen(handlers + [h], registered[h := read], calls, wire, read)
  {
    assert wire[read..read] == [];
  }

  /** What the handlers can notice of a dispatched message. */
  lemma ReadFields(s: State)
    requires s.read < |s.wire|
    ensures ReadNext(s).core.handlers == s.core.handlers && ReadNext(s).registered == s.registered
    ensures ReadNext(s).wire == s.wire && ReadNext(s).read == s.read + 1
    ensures ReadNext(s).core.calls == s.core.calls + CallsOn(s.core, s.wire[s.read])
  {
    KeptAll(s.core.handlers, s.wire[s.read]);
  }

  /** The calls that one message leads to. */
  function CallsOn(c: Core, m: Message): seq<Call> {
    if !IsReply(m) then HandleAll(c.handlers, Some(m))
    else if c.sync == [] then []
    else [CalledBack(c.sync[0], Some(m))]
  }

  lemma SeenRead(c: Core, registered: map<nat, nat>, wire: seq<Message>, read: nat)
    requires Seen(c.handlers, registered, c.calls, wire, read) && read < |wire|
    ensures Seen(c.handlers, registered, c.calls + CallsOn(c, wire[read]), wire, read + 1)
  {
    if !IsReply(wire[read]) {
      SeenEvent(c.handlers, registered, c.calls, wire, read);
    } else {
      SeenReply(c.handlers, registered, c.calls, wire, read);
      if c.sync == [] {
        assert c.calls + [] == c.calls;
      } else {
        SeenCall(c.handlers, registered, c.calls, wire, read + 1, CalledBack(c.sync[0], Some(wire[read])));
      }
    }
  }

  lemma ReadBy(s: State, t: State)
    requires Attentive(s) && s.read < |s.wire|
    requires t.core.handlers == s.core.handlers && t.registered == s.registered
    requires t.wire == s.wire && t.read == s.read + 1
    requires t.core.calls == s.core.calls + CallsOn(s.core, s.wire[s.read])
    ensures Attentive(t)
  {
    SeenRead(s.core, s.registered, s.wire, s.read);
  }

  lemma ReadAttentive(s: State)
    requires Attentive(s) && s.read < |s.wire|
    ensures Attentive(ReadNext(s))
  {
    ReadFields(s);
    ReadBy(s, ReadNext(s));
  }

  lemma DrainAttentive(s: State)
    requires Attentive(s)
    ensures Attentive(DrainOnce(s))
  {
    if s.core.sync != [] {
      SeenCall(s.core.handlers, s.registered, s.core.calls, s.wire, s.read, CalledBack(s.core.sync[0], None));
    }
  }

  lemma StepAttentive(s: State, a: Action)
    requires Attentive(s)
    ensures Attentive(Step(s, a))
  {
    match a
    case ReadMessage => if s.reader.Reading? && s.read < |s.wire| { ReadAttentive(s); }
    case DrainInside => DrainAttentive(s);
    case DrainReader => DrainAttentive(s);
    case DrainCloser => DrainAttentive(s);
    case Check =>
      if s.inside.Entered? && s.core.closed {
        SeenCall(s.core.handlers, s.registered, s.core.calls, s.wire, s.read, CalledBack(s.inside.callback, None));
      }
    case Send(_, _) => SeenDrain(s.core.handlers, s.registered, s.core.calls, s.wire, s.read);
    case Close(_) => SeenDrain(s.core.handlers, s.registered, s.core.calls, s.wire, s.read);
    case ReadEnd => SeenDrain(s.core.handlers, s.registered, s.core.calls, s.wire, s.read);
    case QemuEvent(name) => SeenMore(s.core.handlers, s.registered, s.core.calls, s.wire, s.read, Event(name));
    case QemuReply =>
      var n := Replies(s.wire);
      SeenMore(s.core.handlers, s.registered, s.core.calls, s.wire, s.read, if n == 0 then Greeting else Reply(n));
    case AddHandler(h, lost) =>
      if !lost && h !in s.registered {
        SeenAdded(s.core.handlers, s.registered, s.core.calls, s.wire, s.read, h);
      }
    case _ =>
  }

  lemma {:induction false} ExecAttentive(acts: seq<Action>)
    ensures Attentive(Exec(Init(), acts))
    decreases |acts|
  {
    if acts != [] {
      ExecAttentive(acts[..|acts| - 1]);
      StepAttentive(Exec(Init(), acts[..|acts| - 1]), acts[|acts| - 1]);
    }
  }

  /** In every run, a handler on the list has been run on exactly the events passed since it was added. */
  lemma HandlersSeeEverything(acts: seq<Action>, h: nat)
    requires h in Exec(Init(), acts).core.handlers
    ensures var s := Exec(Init(), acts);
            && h in s.registered && s.registered[h] <= s.read <= |s.wire|
            && HandledBy(s.core.calls, h) == Events(s.wire[s.registered[h]..s.read])
  {
    ExecAttentive(acts);
  }

  // ---- The barrier --------------------------------------------------------------------------

  lemma StepKeepsHandlers(s: State, a: Action, h: nat)
    requires h in s.registered
    ensures h in Step(s, a).registered && Step(s, a).registered[h] == s.registered[h]
    ensures h in Step(s, a).core.handlers ==> h in s.core.handlers
  {
    if a.ReadMessage? && s.read < |s.wire| {
      ReadFields(s);
    }
  }

  /** A handler that has been added keeps its place, and does not come back once it is off the list. */
  lemma {:induction false} RunKeepsHandlers(acts: seq<Action>, more: seq<Action>, h: nat)
    requires h in Exec(Init(), acts).registered
    ensures var s, later := Exec(Init(), acts), Exec(Init(), acts + more);
            && h in later.registered && later.registered[h] == s.registered[h]
            && (h in later.core.handlers ==> h in s.core.handlers)
    decreases |more|
  {
    if more == [] {
      assert acts + more == acts;
    } else {
      RunKeepsHandlers(acts, more[..|more| - 1], h);
      assert (acts + more)[..|acts + more| - 1] == acts + more[..|more| - 1];
      StepKeepsHandlers(Exec(Init(), acts + more[..|more| - 1]), more[|more| - 1], h);
    }
  }

  lemma SplitEvents(wire: seq<Message>, from: nat, read: nat, end: nat)
    requires from <= read <= end <= |wire|
    ensures Events(wire[from..end]) == Events(wire[from..read]) + Events(wire[read..end])
  {
    EventsAppend(wire[from..read], wire[read..end]);
    assert wire[from..end] == wire[from..read] + wire[read..end];
  }

  /**
   The barrier: a handler was added, then a command's own reply has been
   delivered.  If the handler is on the list at any later time, then when the reply
   was delivered it had been run on every event that came after its registration
   and before the reply; and whatever it is run on from then on came after the reply.
   */
  lemma Barrier(acts: seq<Action>, k: nat, h: nat, more: seq<Action>)
    requires AnsweredBy(Exec(Init(), acts), k, k)
    requires h in Exec(Init(), acts).registered && h in Exec(Init(), acts + more).core.handlers
    ensures var s, later := Exec(Init(), acts), Exec(Init(), acts + more);
            var r, p := s.registered[h], s.resolved[k].position;
            && r <= s.read <= later.read <= |later.wire| && p < s.read
            && IsReply(later.wire[p]) && Replies(later.wire[..p]) == k
            && (r <= p ==> Events(later.wire[r..p]) <= HandledBy(s.core.calls, h))
            && HandledBy(later.core.calls, h) == HandledBy(s.core.calls, h) + Events(later.wire[s.read..later.read])
  {
    var s, later := Exec(Init(), acts), Exec(Init(), acts + more);
    RunKeepsHandlers(acts, more, h);
    RunGrows(acts, more);
    HandlersSeeEverything(acts, h);
    HandlersSeeEverything(acts + more, h);
    BarrierAt(s.wire, later.wire, s.registered[h], s.resolved[k].position, s.read, later.read);
  }

  lemma BarrierAt(wire: seq<Message>, later: seq<Message>, r: nat, p: nat, read: nat, end: nat)
    requires wire <= later && r <= read <= |wire| && p < read <= end <= |later|
    ensures later[..p] == wire[..p] && later[p] == wire[p]
    ensures r <= p ==> Events(later[r..p]) <= Events(wire[r..read])
    ensures Events(later[r..end]) == Events(wire[r..read]) + Events(later[read..end])
  {
    SplitEvents(later, r, read, end);
    assert later[r..read] == wire[r..read];
    if r <= p {
      SplitEvents(later, r, p, read);
    }
  }
}
