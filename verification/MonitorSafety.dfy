/** Which reply answers which command, over every interleaving. */
module MonitorSafety {
  import opened Prelude
  import opened Monitor
  import opened MonitorThreads

  // ---- The histories ----------------------------------------------------------------------

  lemma DrainBooks(rs: seq<Outcome>, wire: seq<Message>, read: nat, dropped: nat)
    requires Books(rs, wire, read, dropped)
    ensures Books(rs + [Abandoned], wire, read, dropped)
  {
    var rs' := rs + [Abandoned];
    assert rs'[..|rs|] == rs;
    forall k | 0 <= k < |rs'|
      ensures AnswerOk(rs', wire, read, k)
    {
      if k < |rs| {
        assert AnswerOk(rs, wire, read, k);
        assert rs'[..k] == rs[..k];
      }
    }
  }

  lemma EventBooks(rs: seq<Outcome>, wire: seq<Message>, read: nat, dropped: nat)
    requires Books(rs, wire, read, dropped) && read < |wire| && !IsReply(wire[read])
    ensures Books(rs, wire, read + 1, dropped)
  {
    var next := read + 1;
    assert wire[..next][..read] == wire[..read];
    forall k | 0 <= k < |rs|
      ensures AnswerOk(rs, wire, next, k)
    {
      assert AnswerOk(rs, wire, read, k);
    }
  }

  /** A reply can only be dropped when drains have taken more callbacks than were dropped so far. */
  lemma DropBooks(rs: seq<Outcome>, wire: seq<Message>, read: nat, dropped: nat)
    requires Books(rs, wire, read, dropped) && read < |wire| && IsReply(wire[read]) && Replies(wire) <= |rs|
    ensures Books(rs, wire, read + 1, dropped + 1)
  {
    var next := read + 1;
    assert wire[..next][..read] == wire[..read];
    RepliesPrefix(wire, next);
    forall k | 0 <= k < |rs|
      ensures AnswerOk(rs, wire, next, k)
    {
      assert AnswerOk(rs, wire, read, k);
    }
  }

  lemma ReplyBooks(rs: seq<Outcome>, wire: seq<Message>, read: nat, dropped: nat)
    requires Books(rs, wire, read, dropped) && read < |wire| && IsReply(wire[read])
    ensures Books(rs + [Answered(read, dropped)], wire, read + 1, dropped)
  {
    var rs' := rs + [Answered(read, dropped)];
    var next := read + 1;
    assert wire[..next][..read] == wire[..read];
    assert rs'[..|rs|] == rs;
    forall k | 0 <= k < |rs'|
      ensures AnswerOk(rs', wire, next, k)
    {
      if k < |rs| {
        assert AnswerOk(rs, wire, read, k);
        assert rs'[..k] == rs[..k];
      }
    }
    forall j, k | 0 <= j < k < |rs'| && rs'[j].Answered? && rs'[k].Answered?
      ensures rs'[j].position < rs'[k].position
    {
      assert AnswerOk(rs, wire, read, j);
    }
  }

  /** QEMU adds a message to the wire; its first reply is the greeting. */
  lemma WireBooks(rs: seq<Outcome>, wire: seq<Message>, read: nat, dropped: nat, m: Message)
    requires Books(rs, wire, read, dropped) && (IsReply(m) && Replies(wire) == 0 ==> m == Greeting)
    ensures Books(rs, wire + [m], read, dropped)
  {
    var wire' := wire + [m];
    assert wire'[..|wire|] == wire;
    assert wire'[..read] == wire[..read];
    forall k | 0 <= k < |rs|
      ensures AnswerOk(rs, wire', read, k)
    {
      assert AnswerOk(rs, wire, read, k);
      if rs[k].Answered? {
        assert wire'[..rs[k].position] == wire[..rs[k].position];
      }
    }
    forall p | 0 <= p < |wire'| && IsReply(wire'[p]) && Replies(wire'[..p]) == 0
      ensures wire'[p] == Greeting
    {
      assert wire'[..p] == wire[..p];
    }
  }

  lemma {:induction false} RepliesPrefix(wire: seq<Message>, n: nat)
    requires n <= |wire|
    ensures Replies(wire[..n]) <= Replies(wire)
    decreases |wire|
  {
    if n < |wire| {
      RepliesPrefix(wire[..|wire| - 1], n);
      assert wire[..|wire| - 1][..n] == wire[..n];
    } else {
      assert wire[..n] == wire;
    }
  }

  // ---- The steps --------------------------------------------------------------------------

  lemma PopInv(s: State)
    requires Inv(s) && s.core.sync != []
    ensures s.order[|s.resolved|] == s.core.sync[0]
    ensures s.core.sync[1..] == s.order[|s.resolved| + 1..]
  {
  }

  lemma DrainInv(s: State)
    requires Inv(s)
    ensures Inv(DrainOnce(s)) && DrainOnce(s).core.closed == s.core.closed
  {
    if s.core.sync != [] {
      DrainBooks(s.resolved, s.wire, s.read, s.dropped);
      PopInv(s);
    }
  }

  lemma DrainInsideInv(s: State)
    requires Inv(s)
    ensures Inv(DrainStep(s, DrainInside))
  {
    DrainInv(s);
  }

  lemma DrainReaderInv(s: State)
    requires Inv(s)
    ensures Inv(DrainStep(s, DrainReader))
  {
    DrainInv(s);
  }

  lemma DrainCloserInv(s: State)
    requires Inv(s)
    ensures Inv(DrainStep(s, DrainCloser))
  {
    DrainInv(s);
  }

  lemma {:induction false} KeptAll(hs: seq<nat>, m: Message)
    ensures Kept(hs, m, Retained) == hs
  {
    if hs != [] {
      KeptAll(hs[1..], m);
      assert hs == [hs[0]] + hs[1..];
    }
  }

  /** What dispatching one message does, case by case. */
  lemma ReadNextIs(s: State)
    requires s.read < |s.wire|
    ensures var m := s.wire[s.read];
            ReadNext(s) ==
              if !IsReply(m) then
                s.(core := s.core.(calls := s.core.calls + HandleAll(s.core.handlers, Some(m))), read := s.read + 1)
              else if s.core.sync == [] then s.(read := s.read + 1, dropped := s.dropped + 1)
              else s.(core := Pop(s.core, Some(m)), read := s.read + 1,
                      resolved := s.resolved + [Answered(s.read, s.dropped)],
                      reader := if Raises(s.core.sync[0], Some(m)) then ReaderGone(false) else s.reader)
  {
    KeptAll(s.core.handlers, s.wire[s.read]);
  }

  lemma PassInv(s: State)
    requires Inv(s) && s.read < |s.wire| && (IsReply(s.wire[s.read]) ==> s.core.sync == [])
    ensures Inv(ReadNext(s))
  {
    ReadNextIs(s);
    if IsReply(s.wire[s.read]) {
      DropBooks(s.resolved, s.wire, s.read, s.dropped);
    } else {
      EventBooks(s.resolved, s.wire, s.read, s.dropped);
    }
  }

  /** The hello callback can only be given the greeting, and does not raise. */
  lemma HelloGetsGreeting(s: State)
    requires Inv(s) && s.read < |s.wire| && IsReply(s.wire[s.read]) && s.core.sync != []
    ensures !Raises(s.core.sync[0], Some(s.wire[s.read]))
  {
    PopInv(s);
  }

  lemma ReplyInv(s: State)
    requires Inv(s) && s.read < |s.wire| && IsReply(s.wire[s.read]) && s.core.sync != []
    ensures Inv(ReadNext(s))
  {
    ReadNextIs(s);
    HelloGetsGreeting(s);
    ReplyBooks(s.resolved, s.wire, s.read, s.dropped);
    PopInv(s);
  }

  lemma ReadInv(s: State)
    requires Inv(s)
    ensures Inv(Step(s, ReadMessage))
  {
    if s.reader.Reading? && s.read < |s.wire| {
      if IsReply(s.wire[s.read]) && s.core.sync != [] {
        ReplyInv(s);
      } else {
        PassInv(s);
      }
    }
  }

  /** QEMU adds one message, a reply only while it owes one. */
  lemma WireInv(s: State, m: Message)
    requires Inv(s) && (IsReply(m) ==> Replies(s.wire) < |s.sent| && (Replies(s.wire) == 0 ==> m == Greeting))
    ensures Inv(s.(wire := s.wire + [m]))
  {
    assert (s.wire + [m])[..|s.wire|] == s.wire;
    WireBooks(s.resolved, s.wire, s.read, s.dropped, m);
  }

  lemma QemuInv(s: State, a: Action)
    requires Inv(s) && (a.QemuEvent? || a.QemuReply?)
    ensures Inv(Step(s, a))
  {
    var n := Replies(s.wire);
    if !s.peerGone && a.QemuEvent? {
      WireInv(s, Event(a.name));
    } else if !s.peerGone && n < |s.sent| {
      WireInv(s, if n == 0 then Greeting else Reply(n));
    }
  }

  lemma LockInv(s: State, a: Action)
    requires Inv(s) && (a.Enter? || a.Check? || a.Put? || a.Send?)
    ensures Inv(Step(s, a))
  {
  }

  lemma CloseInv(s: State, a: Action)
    requires Inv(s) && (a.ReadEnd? || a.Close?)
    ensures Inv(Step(s, a))
  {
  }

  lemma OtherInv(s: State, a: Action)
    requires Inv(s) && (a.PeerLeaves? || a.ReaderDies? || a.ReaderStops? || a.AddHandler?)
    ensures Inv(Step(s, a))
  {
  }

  lemma StepInv(s: State, a: Action)
    requires Inv(s)
    ensures Inv(Step(s, a))
  {
    if a.DrainInside? {
      DrainInsideInv(s);
    } else if a.DrainReader? {
      DrainReaderInv(s);
    } else if a.DrainCloser? {
      DrainCloserInv(s);
    } else if a.Enter? || a.Check? || a.Put? || a.Send? {
      LockInv(s, a);
    } else if a.ReadMessage? {
      ReadInv(s);
    } else if a.QemuEvent? || a.QemuReply? {
      QemuInv(s, a);
    } else if a.ReadEnd? || a.Close? {
      CloseInv(s, a);
    } else {
      OtherInv(s, a);
    }
  }

  lemma InitInv()
    ensures Inv(Init())
  {
  }

  lemma {:induction false} ExecInv(acts: seq<Action>)
    ensures Inv(Exec(Init(), acts))
    decreases |acts|
  {
    if acts == [] {
      InitInv();
    } else {
      ExecInv(acts[..|acts| - 1]);
      StepInv(Exec(Init(), acts[..|acts| - 1]), acts[|acts| - 1]);
    }
  }

  // ---- Reply matching -----------------------------------------------------------------------

  /** `number` is the number of the reply that answered the k-th queued callback. */
  ghost predicate AnsweredBy(s: State, k: nat, number: nat) {
    && k < |s.resolved| && s.resolved[k].Answered?
    && s.resolved[k].position < s.read <= |s.wire|
    && IsReply(s.wire[s.resolved[k].position])
    && number == Replies(s.wire[..s.resolved[k].position])
    && number < |s.sent| <= |s.order| && s.sent[number] == s.order[number]
  }

  /**
   Reply matching, exactly: the reply that answered the k-th queued callback
   has number k, less the callbacks that drains took before, plus the replies
   that were dropped before.
   */
  lemma ReplyMatching(acts: seq<Action>, k: nat)
    requires k < |Exec(Init(), acts).resolved| && Exec(Init(), acts).resolved[k].Answered?
    ensures var s := Exec(Init(), acts);
            && s.resolved[k].drops <= AbandonedIn(s.resolved[..k]) <= k + s.resolved[k].drops
            && AnsweredBy(s, k, k + s.resolved[k].drops - AbandonedIn(s.resolved[..k]))
  {
    ExecInv(acts);
    MatchingOf(Exec(Init(), acts), k);
  }

  lemma MatchingOf(s: State, k: nat)
    requires Inv(s) && k < |s.resolved| && s.resolved[k].Answered?
    ensures s.resolved[k].drops <= AbandonedIn(s.resolved[..k]) <= k + s.resolved[k].drops
    ensures AnsweredBy(s, k, k + s.resolved[k].drops - AbandonedIn(s.resolved[..k]))
  {
    assert AnswerOk(s.resolved, s.wire, s.read, k);
    var p := s.resolved[k].position;
    assert s.wire[..p + 1][..p] == s.wire[..p];
    RepliesPrefix(s.wire, p + 1);
  }

  /** No reply is given to two callbacks, and every queued callback is resolved at most once, oldest first. */
  lemma RepliesAreNotShared(acts: seq<Action>, j: nat, k: nat)
    requires j < k < |Exec(Init(), acts).resolved|
    requires var rs := Exec(Init(), acts).resolved; rs[j].Answered? && rs[k].Answered?
    ensures var s := Exec(Init(), acts);
            && |s.resolved| <= |s.order|
            && s.resolved[j].position < s.resolved[k].position
            && s.core.sync == s.order[|s.resolved|..]
  {
    ExecInv(acts);
  }

  // ---- While the closed flag is clear --------------------------------------------------------

  /** No drain has taken a callback, and no reply was dropped, while the flag is clear. */
  predicate Undrained(s: State) {
    s.core.closed || AbandonedIn(s.resolved) == 0
  }

  lemma ReadUndrained(s: State)
    requires Undrained(s) && s.read < |s.wire|
    ensures Undrained(ReadNext(s))
  {
    ReadNextIs(s);
    assert (s.resolved + [Answered(s.read, s.dropped)])[..|s.resolved|] == s.resolved;
  }

  lemma DrainUndrained(s: State, a: Action)
    requires Inv(s) && Undrained(s) && (a.DrainInside? || a.DrainReader? || a.DrainCloser?)
    ensures Undrained(DrainStep(s, a))
  {
    assert s.core.closed || DrainStep(s, a) == s;
  }

  lemma OtherUndrained(s: State, a: Action)
    requires Undrained(s) && !a.ReadMessage? && !a.DrainInside? && !a.DrainReader? && !a.DrainCloser?
    ensures Undrained(Step(s, a))
  {
    assert Step(s, a).resolved == s.resolved && (s.core.closed ==> Step(s, a).core.closed);
  }

  lemma StepUndrained(s: State, a: Action)
    requires Inv(s) && Undrained(s)
    ensures Undrained(Step(s, a))
  {
    if a.ReadMessage? {
      if s.reader.Reading? && s.read < |s.wire| {
        ReadUndrained(s);
      }
    } else if a.DrainInside? || a.DrainReader? || a.DrainCloser? {
      DrainUndrained(s, a);
    } else {
      OtherUndrained(s, a);
    }
  }

  lemma {:induction false} ExecUndrained(acts: seq<Action>)
    ensures Undrained(Exec(Init(), acts))
    decreases |acts|
  {
    if acts != [] {
      ExecUndrained(acts[..|acts| - 1]);
      ExecInv(acts[..|acts| - 1]);
      StepUndrained(Exec(Init(), acts[..|acts| - 1]), acts[|acts| - 1]);
    }
  }

  lemma {:induction false} NoneAbandoned(rs: seq<Outcome>, k: nat)
    requires AbandonedIn(rs) == 0 && k < |rs|
    ensures rs[k].Answered? && AbandonedIn(rs[..k]) == 0
    decreases |rs|
  {
    var most := rs[..|rs| - 1];
    if k < |most| {
      NoneAbandoned(most, k);
      assert most[..k] == rs[..k];
    }
  }

  /** `later` has everything that `s` has on record. */
  predicate Grows(s: State, later: State) {
    && s.resolved <= later.resolved
    && s.wire <= later.wire
    && s.read <= later.read
    && (s.core.closed ==> later.core.closed)
  }

  lemma ReadGrows(s: State)
    requires s.read < |s.wire|
    ensures Grows(s, ReadNext(s))
  {
    ReadNextIs(s);
  }

  lemma DrainGrows(s: State, a: Action)
    requires a.DrainInside? || a.DrainReader? || a.DrainCloser?
    ensures Grows(s, DrainStep(s, a))
  {
  }

  lemma StepGrows(s: State, a: Action)
    ensures Grows(s, Step(s, a))
  {
    if a.ReadMessage? {
      if s.reader.Reading? && s.read < |s.wire| {
        ReadGrows(s);
      }
    } else if a.DrainInside? || a.DrainReader? || a.DrainCloser? {
      DrainGrows(s, a);
    }
  }

  /** What was resolved stays resolved in the same way, and a set flag stays set. */
  lemma {:induction false} RunGrows(acts: seq<Action>, more: seq<Action>)
    ensures Grows(Exec(Init(), acts), Exec(Init(), acts + more))
    decreases |more|
  {
    if more == [] {
      assert acts + more == acts;
    } else {
      RunGrows(acts, more[..|more| - 1]);
      assert (acts + more)[..|acts + more| - 1] == acts + more[..|more| - 1];
      StepGrows(Exec(Init(), acts + more[..|more| - 1]), more[|more| - 1]);
    }
  }

  /**
   Every callback that was resolved while the closed flag was clear was given
   its own reply, whatever happens afterwards.
   */
  lemma OpenRepliesMatch(acts: seq<Action>, more: seq<Action>, k: nat)
    requires !Exec(Init(), acts).core.closed && k < |Exec(Init(), acts).resolved|
    ensures var s, later := Exec(Init(), acts), Exec(Init(), acts + more);
            AnsweredBy(s, k, k) && k < |later.resolved| && later.resolved[k] == s.resolved[k]
  {
    var s := Exec(Init(), acts);
    ExecInv(acts);
    ExecUndrained(acts);
    NoneAbandoned(s.resolved, k);
    MatchingOf(s, k);
    RunGrows(acts, more);
  }
}
