/**
 The QMP monitor under every interleaving of command threads, the reader
 thread, registrations, close() and QEMU.

 The write lock admits one command thread at a time; drains, registrations and
 the reader's dispatch do not take it.  `order` is the history of queued
 callbacks, `sent` those whose command QEMU received, and `resolved` what became
 of the queued ones, oldest first: the queue itself is what `order` has beyond
 `resolved`.  `registered` says how many messages the reader had passed when a
 handler was added, and `ended` remembers the last drain that found the queue
 empty.

 One event is dispatched in one step.  The source reads the list of handlers,
 calls them and then stores the list anew.  What happens to the list in between
 is a choice of the overlapping call: an added handler may be lost, and a drain's
 clearing of the list may be undone.
 */
module MonitorThreads {
  import opened Prelude
  import opened Monitor

  /** A queued callback was given the message at a wire position, or None by a drain. */
  datatype Outcome = Answered(position: nat, drops: nat) | Abandoned

  /** The command thread that holds the write lock. */
  datatype Inside = Nobody | Entered(callback: Callback) | Checked(callback: Callback) | Queued | Draining

  /** The reader leaves through its end-of-file branch, which drains, or in some other way. */
  datatype Reader = Reading | ReaderDraining | ReaderGone(drained: bool)

  datatype Closer = NotClosing | CloserDraining | CloserDone

  /**
   The last drain that found the queue empty: how many callbacks had been queued,
   whether a thread stood between its look at the flag and its queueing, and
   whether the reader was still at work.
   */
  datatype DrainEnd = NoDrain | Ended(queued: nat, caught: bool, reading: bool)

  datatype State = State(
    core: Core, order: seq<Callback>, sent: seq<Callback>, resolved: seq<Outcome>,
    wire: seq<Message>, read: nat, dropped: nat,
    peerGone: bool, stop: bool, inside: Inside, reader: Reader, closer: Closer,
    registered: map<nat, nat>, ended: DrainEnd)

  datatype Action =
    | Enter(command: nat)     // a command thread takes the write lock
    | Check                   // it looks at the closed flag
    | Put                     // it queues its callback
    | Send(ok: bool, kept: bool)    // its send succeeds, or raises and a drain begins
    | DrainInside             // its drain pops one callback or finds the queue empty
    | QemuEvent(name: string)
    | QemuReply               // QEMU greets, or answers its oldest unanswered command
    | PeerLeaves              // QEMU closes the socket
    | ReadMessage             // the reader dispatches the next message
    | ReadEnd                 // the reader sees end of file or an error
    | ReaderDies              // select, the decoder or a message of no use raises
    | DrainReader             // the reader's drain pops one callback or finds the queue empty
    | ReaderStops             // the reader is woken by close()
    | Close(kept: bool)       // close() sets the flag and calls the handlers
    | AddHandler(handler: nat, lost: bool)
    | DrainCloser             // close()'s drain pops one callback or finds the queue empty

  predicate IsReply(m: Message) {
    !m.Event?
  }

  function Replies(wire: seq<Message>): nat {
    if wire == [] then 0 else Replies(wire[..|wire| - 1]) + (if IsReply(wire[|wire| - 1]) then 1 else 0)
  }

  function AbandonedIn(rs: seq<Outcome>): nat {
    if rs == [] then 0 else AbandonedIn(rs[..|rs| - 1]) + (if rs[|rs| - 1].Abandoned? then 1 else 0)
  }

  /** A drain begins; a dispatch it overlaps may store the handlers again after it. */
  function CloseFlag(c: Core, kept: bool): Core {
    DrainHandlers(c).(closed := true, handlers := if kept then c.handlers else [])
  }

  /** One iteration of a drain's loop over the queue. */
  function DrainOnce(s: State): State {
    if s.core.sync == [] then s.(ended := Ended(|s.order|, s.inside.Checked?, s.reader.Reading?))
    else s.(core := Pop(s.core, None), resolved := s.resolved + [Abandoned])
  }

  /** The drain ends when the queue is empty or the callback it called raised. */
  predicate DrainOver(s: State) {
    s.core.sync == [] || Raises(s.core.sync[0], None)
  }

  /** Both event handlers that the source registers ask to be kept. */
  predicate Retained(h: nat, m: Message) {
    true
  }

  /** The message the reader dispatches next. */
  function ReadNext(s: State): State
    requires s.read < |s.wire|
  {
    var m := s.wire[s.read];
    var done := Dispatch(s.core, m, Retained);
    var next := s.(core := done.0, read := s.read + 1, reader := if done.1 then ReaderGone(false) else s.reader);
    if !IsReply(m) then next
    else if s.core.sync == [] then next.(dropped := s.dropped + 1)
    else next.(resolved := s.resolved + [Answered(s.read, s.dropped)])
  }

  /** The three places a drain runs; only close() goes on to wake the reader, unless its drain raised. */
  function DrainStep(s: State, a: Action): State
    requires a.DrainInside? || a.DrainReader? || a.DrainCloser?
  {
    if a.DrainInside? && s.inside.Draining? then
      DrainOnce(s).(inside := if DrainOver(s) then Nobody else s.inside)
    else if a.DrainReader? && s.reader.ReaderDraining? then
      DrainOnce(s).(reader := if DrainOver(s) then ReaderGone(true) else s.reader)
    else if a.DrainCloser? && s.closer.CloserDraining? then
      DrainOnce(s).(closer := if DrainOver(s) then CloserDone else s.closer, stop := s.core.sync == [] || s.stop)
    else s
  }

  function Step(s: State, a: Action): State {
    match a
    case Enter(command) => if s.inside.Nobody? then s.(inside := Entered(Waiter(command))) else s
    case Check =>
      if !s.inside.Entered? then s
      else if s.core.closed then
        s.(inside := Nobody, core := s.core.(calls := s.core.calls + [CalledBack(s.inside.callback, None)]))
      else s.(inside := Checked(s.inside.callback))
    case Put =>
      if !s.inside.Checked? then s
      else s.(inside := Queued, order := s.order + [s.inside.callback],
              core := s.core.(sync := s.core.sync + [s.inside.callback]))
    case Send(ok, kept) =>
      if !s.inside.Queued? then s
      else if ok && !s.peerGone then s.(inside := Nobody, sent := s.order)
      else s.(inside := Draining, core := CloseFlag(s.core, kept))
    case DrainInside => DrainStep(s, a)
    case QemuEvent(name) => if s.peerGone then s else s.(wire := s.wire + [Event(name)])
    case QemuReply =>
      var n := Replies(s.wire);
      if s.peerGone || n >= |s.sent| then s
      else s.(wire := s.wire + [if n == 0 then Greeting else Reply(n)])
    case PeerLeaves => s.(peerGone := true)
    case ReadMessage => if s.reader.Reading? && s.read < |s.wire| then ReadNext(s) else s
    case ReadEnd =>
      if s.reader.Reading? && s.peerGone then s.(reader := ReaderDraining, core := CloseFlag(s.core, false)) else s
    case ReaderDies => if s.reader.Reading? then s.(reader := ReaderGone(false)) else s
    case DrainReader => DrainStep(s, a)
    case ReaderStops => if s.reader.Reading? && s.stop then s.(reader := ReaderGone(false)) else s
    case Close(kept) =>
      if s.closer.NotClosing? then s.(closer := CloserDraining, core := CloseFlag(s.core, kept)) else s
    case DrainCloser => DrainStep(s, a)
    case AddHandler(h, lost) =>
      if lost || h in s.registered then s
      else s.(core := s.core.(handlers := s.core.handlers + [h]), registered := s.registered[h := s.read])
  }

  function Exec(s: State, acts: seq<Action>): State
    decreases |acts|
  {
    if acts == [] then s else Step(Exec(s, acts[..|acts| - 1]), acts[|acts| - 1])
  }

  /** A new monitor: the hello callback is queued, its greeting is owed, nobody has registered. */
  function Init(): State {
    State(Core([Hello], [], false, []), [Hello], [Hello], [], [], 0, 0,
          false, false, Nobody, Reading, NotClosing, map[], NoDrain)
  }

  // ---- The invariant ----------------------------------------------------------------------

  /** An answered callback has the reply whose number is its own, shifted by what drains took and what was dropped. */
  predicate AnswerOk(rs: seq<Outcome>, wire: seq<Message>, read: nat, k: nat)
    requires k < |rs|
  {
    rs[k].Answered? ==>
      && rs[k].position < read <= |wire|
      && IsReply(wire[rs[k].position])
      && Replies(wire[..rs[k].position]) + AbandonedIn(rs[..k]) == k + rs[k].drops
      && rs[k].drops <= AbandonedIn(rs[..k])
  }

  /** The histories agree with each other. */
  predicate Books(rs: seq<Outcome>, wire: seq<Message>, read: nat, dropped: nat) {
    && read <= |wire|
    && Replies(wire[..read]) + AbandonedIn(rs) == |rs| + dropped
    && dropped <= AbandonedIn(rs)
    && (forall k | 0 <= k < |rs| :: AnswerOk(rs, wire, read, k))
    && (forall j, k | 0 <= j < k < |rs| && rs[j].Answered? && rs[k].Answered? :: rs[j].position < rs[k].position)
    && (forall p | 0 <= p < |wire| && IsReply(wire[p]) && Replies(wire[..p]) == 0 :: wire[p] == Greeting)
  }

  /** The queue is what the histories say, and the first callback is the hello. */
  predicate Queue(c: Core, order: seq<Callback>, sent: seq<Callback>, resolved: seq<Outcome>, wire: seq<Message>) {
    && |resolved| <= |order|
    && c.sync == order[|resolved|..]
    && sent <= order
    && Replies(wire) <= |sent|
    && |order| > 0 && order[0] == Hello
    && (forall k | 0 < k < |order| :: order[k].Waiter?)
  }

  predicate Inv(s: State) {
    && Books(s.resolved, s.wire, s.read, s.dropped)
    && Queue(s.core, s.order, s.sent, s.resolved, s.wire)
    && (s.inside.Entered? || s.inside.Checked? ==> s.inside.callback.Waiter?)
    && (s.inside.Queued? ==> |s.order| == |s.sent| + 1)
    && (s.inside.Checked? || (!s.core.closed && !s.inside.Queued?) ==> s.order == s.sent)
    && (s.inside.Draining? || s.reader.ReaderDraining? || s.reader == ReaderGone(true) ==> s.core.closed)
    && (!s.closer.NotClosing? || s.stop ==> s.core.closed)
  }
}
