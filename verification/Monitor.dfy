/** Lines of a text stream, however it is cut into reads. */
module Framing {
  import opened Prelude
  import Text

  /** The text after the last newline. */
  function Remainder(s: string): string {
    var parts := Text.Split(s, '\n');
    parts[|parts| - 1]
  }

  /** The lines that a newline has ended. */
  function Complete(s: string): seq<string> {
    var parts := Text.Split(s, '\n');
    parts[..|parts| - 1]
  }

  /** Blank and undecodable lines carry no message. */
  function Decode<M>(lines: seq<string>, parse: string -> Option<M>): seq<M> {
    if lines == [] then [] else DecodeLine(lines[0], parse) + Decode(lines[1..], parse)
  }

  function Messages<M>(s: string, parse: string -> Option<M>): seq<M> {
    Decode(Complete(s), parse)
  }

  function Concat(chunks: seq<string>): string {
    if chunks == [] then "" else Concat(chunks[..|chunks| - 1]) + chunks[|chunks| - 1]
  }

  /** What a reader has dispatched, and still holds, after one chunk at a time. */
  function Fed<M>(chunks: seq<string>, parse: string -> Option<M>): (seq<M>, string) {
    if chunks == [] then ([], "")
    else
      var (messages, buffer) := Fed(chunks[..|chunks| - 1], parse);
      var s := buffer + chunks[|chunks| - 1];
      (messages + Messages(s, parse), Remainder(s))
  }

  /** Two lists of parts, glued where the texts meet. */
  function Glue(p: seq<string>, q: seq<string>): seq<string>
    requires p != [] && q != []
  {
    p[..|p| - 1] + [p[|p| - 1] + q[0]] + q[1..]
  }

  lemma {:induction false} SplitAppend(a: string, b: string)
    ensures Text.Split(a + b, '\n') == Glue(Text.Split(a, '\n'), Text.Split(b, '\n'))
  {
    var q := Text.Split(b, '\n');
    if a == "" {
      assert a + b == b;
      GlueNothing(q);
    } else {
      SplitAppend(a[1..], b);
      var p := Text.Split(a[1..], '\n');
      assert (a + b)[0] == a[0] && (a + b)[1..] == a[1..] + b;
      if a[0] == '\n' {
        GlueAfter("", p, q);
      } else {
        GlueFirst(a[0], p, q);
      }
    }
  }

  lemma GlueNothing(q: seq<string>)
    requires q != []
    ensures Glue([""], q) == q
  {
    assert "" + q[0] == q[0];
  }

  lemma GlueAfter(x: string, p: seq<string>, q: seq<string>)
    requires p != [] && q != []
    ensures Glue([x] + p, q) == [x] + Glue(p, q)
  {
  }

  /** Only the last of the first parts is still open. */
  lemma GlueLast(p: seq<string>, q: seq<string>)
    requires p != [] && q != []
    ensures Glue(p, q) == p[..|p| - 1] + Glue([p[|p| - 1]], q)
    ensures |Glue([p[|p| - 1]], q)| == |q|
  {
  }

  lemma GlueFirst(c: char, p: seq<string>, q: seq<string>)
    requires p != [] && q != []
    ensures [[c] + Glue(p, q)[0]] + Glue(p, q)[1..] == Glue([[c] + p[0]] + p[1..], q)
  {
    if |p| == 1 {
      assert [c] + (p[0] + q[0]) == [c] + p[0] + q[0];
    }
  }

  function DecodeLine<M>(raw: string, parse: string -> Option<M>): seq<M> {
    var line := Text.Strip(raw);
    if line == "" then []
    else match parse(line) case Some(m) => [m] case None => []
  }

  lemma {:induction false} DecodeAppend<M>(a: seq<string>, b: seq<string>, parse: string -> Option<M>)
    ensures Decode(a + b, parse) == Decode(a, parse) + Decode(b, parse)
  {
    if a == [] {
      assert a + b == b;
    } else {
      assert (a + b)[0] == a[0] && (a + b)[1..] == a[1..] + b;
      calc {
        Decode(a + b, parse);
        DecodeLine(a[0], parse) + Decode(a[1..] + b, parse);
        { DecodeAppend(a[1..], b, parse); }
        DecodeLine(a[0], parse) + (Decode(a[1..], parse) + Decode(b, parse));
        (DecodeLine(a[0], parse) + Decode(a[1..], parse)) + Decode(b, parse);
      }
    }
  }

  /** Reading more text completes the held line first. */
  lemma LinesAppend(a: string, b: string)
    ensures Complete(a + b) == Complete(a) + Complete(Remainder(a) + b)
    ensures Remainder(a + b) == Remainder(Remainder(a) + b)
  {
    var p, q := Text.Split(a, '\n'), Text.Split(b, '\n');
    SplitAppend(a, b);
    Text.SplitWhole(Remainder(a), '\n');
    SplitAppend(Remainder(a), b);
    GlueLast(p, q);
    DropLast(p[..|p| - 1], Glue([Remainder(a)], q));
  }

  lemma DropLast(x: seq<string>, y: seq<string>)
    requires y != []
    ensures (x + y)[..|x + y| - 1] == x + y[..|y| - 1] && (x + y)[|x + y| - 1] == y[|y| - 1]
  {
  }

  lemma MessagesAppend<M>(a: string, b: string, parse: string -> Option<M>)
    ensures Messages(a + b, parse) == Messages(a, parse) + Messages(Remainder(a) + b, parse)
  {
    LinesAppend(a, b);
    DecodeAppend(Complete(a), Complete(Remainder(a) + b), parse);
  }

  /** Framing does not depend on where the stream was cut. */
  lemma {:induction false} ChunkingDoesNotMatter<M>(chunks: seq<string>, parse: string -> Option<M>)
    ensures Fed(chunks, parse) == (Messages(Concat(chunks), parse), Remainder(Concat(chunks)))
  {
    if chunks != [] {
      ChunkingDoesNotMatter(chunks[..|chunks| - 1], parse);
      MessagesAppend(Concat(chunks[..|chunks| - 1]), chunks[|chunks| - 1], parse);
      LinesAppend(Concat(chunks[..|chunks| - 1]), chunks[|chunks| - 1]);
    }
  }
}

/** The QMP monitor object: its fields and what one thread does with them. */
module Monitor {
  import opened Prelude
  import Framing
  import Text

  datatype Message = Event(name: string) | Greeting | Reply(number: nat)

  datatype Callback = Hello | Waiter(command: nat)

  /** A call the monitor made, in order; `None` stands for Python's None. */
  datatype Call =
    | CalledBack(callback: Callback, message: Option<Message>)
    | Handled(handler: nat, message: Option<Message>)

  datatype Core = Core(sync: seq<Callback>, handlers: seq<nat>, closed: bool, calls: seq<Call>)

  /** _handle_hello raises on a disconnect and on anything but a greeting. */
  predicate Raises(cb: Callback, m: Option<Message>) {
    cb.Hello? && m != Some(Greeting)
  }

  function HandleAll(handlers: seq<nat>, m: Option<Message>): seq<Call> {
    seq(|handlers|, i requires 0 <= i < |handlers| => Handled(handlers[i], m))
  }

  function Kept(handlers: seq<nat>, m: Message, keeps: (nat, Message) -> bool): seq<nat>
    decreases |handlers|
  {
    if handlers == [] then []
    else (if keeps(handlers[0], m) then [handlers[0]] else []) + Kept(handlers[1..], m, keeps)
  }

  lemma NextHandler(handlers: seq<nat>, i: nat, m: Option<Message>)
    requires i < |handlers|
    ensures HandleAll(handlers, m)[..i + 1] == HandleAll(handlers, m)[..i] + [Handled(handlers[i], m)]
  {
  }

  lemma NextKept(handlers: seq<nat>, i: nat, m: Message, keeps: (nat, Message) -> bool, kept: seq<nat>)
    requires i < |handlers|
    ensures kept + Kept(handlers[i..], m, keeps) ==
      (if keeps(handlers[i], m) then kept + [handlers[i]] else kept) + Kept(handlers[i + 1..], m, keeps)
  {
    assert handlers[i..][1..] == handlers[i + 1..];
  }

  function Pop(c: Core, m: Option<Message>): Core
    requires c.sync != []
  {
    c.(sync := c.sync[1..], calls := c.calls + [CalledBack(c.sync[0], m)])
  }

  /** One message: an event goes to the handlers, a reply to the oldest waiting callback. */
  function Dispatch(c: Core, m: Message, keeps: (nat, Message) -> bool): (Core, bool) {
    if m.Event? then
      (c.(handlers := Kept(c.handlers, m, keeps), calls := c.calls + HandleAll(c.handlers, Some(m))), false)
    else if c.sync == [] then (c, false)
    else (Pop(c, Some(m)), Raises(c.sync[0], Some(m)))
  }

  function DispatchAll(c: Core, ms: seq<Message>, keeps: (nat, Message) -> bool): (Core, bool)
    decreases |ms|
  {
    if ms == [] then (c, false)
    else
      var (next, raised) := Dispatch(c, ms[0], keeps);
      if raised then (next, true) else DispatchAll(next, ms[1..], keeps)
  }

  /** Handlers first, then the waiting callbacks, oldest first, until one raises. */
  function DrainHandlers(c: Core): Core {
    c.(handlers := [], calls := c.calls + HandleAll(c.handlers, None))
  }

  function DrainSync(c: Core): (Core, bool)
    decreases |c.sync|
  {
    if c.sync == [] then (c, false)
    else if Raises(c.sync[0], None) then (Pop(c, None), true)
    else DrainSync(Pop(c, None))
  }

  /** A drain that does not meet the hello callback calls every waiter once, with None, and empties the queue. */
  lemma {:induction false} DrainResolvesAll(c: Core)
    ensures var (end, raised) := DrainSync(c);
            && (raised <==> Hello in c.sync)
            && end.closed == c.closed && end.handlers == c.handlers
            && (Hello !in c.sync ==>
                  end.sync == []
                  && end.calls == c.calls + seq(|c.sync|, i requires 0 <= i < |c.sync| => CalledBack(c.sync[i], None)))
    decreases |c.sync|
  {
    if c.sync != [] && !Raises(c.sync[0], None) {
      DrainResolvesAll(Pop(c, None));
      assert c.sync == [c.sync[0]] + c.sync[1..];
    }
  }

  class QemuMonitor {
    var syncCb: seq<Callback>
    var asyncCb: seq<nat>
    var databuff: string
    var closed: bool
    var calls: seq<Call>
    const keeps: (nat, Message) -> bool
    const parse: string -> Option<Message>

    function View(): Core
      reads this
    {
      Core(syncCb, asyncCb, closed, calls)
    }

    constructor (keeps: (nat, Message) -> bool, parse: string -> Option<Message>)
      ensures View() == Core([Hello], [], false, []) && databuff == ""
      ensures this.keeps == keeps && this.parse == parse
    {
      this.keeps, this.parse := keeps, parse;
      syncCb, asyncCb, databuff, closed, calls := [Hello], [], "", false, [];
    }

    method AddEventHandler(handler: nat)
      modifies this`asyncCb
      ensures asyncCb == old(asyncCb) + [handler]
    {
      asyncCb := asyncCb + [handler];
    }

    /** The event branch: every handler is called, and the list is stored anew. */
    method DispatchEvent(m: Message)
      modifies this`asyncCb, this`calls
      ensures calls == old(calls) + HandleAll(old(asyncCb), Some(m))
      ensures asyncCb == Kept(old(asyncCb), m, keeps)
    {
      var kept := [];
      var i := 0;
      ghost var before := asyncCb;
      while i < |asyncCb|
        invariant i <= |asyncCb| && asyncCb == before
        invariant calls == old(calls) + HandleAll(before, Some(m))[..i]
        invariant kept + Kept(before[i..], m, keeps) == Kept(before, m, keeps)
      {
        NextHandler(before, i, Some(m));
        NextKept(before, i, m, keeps, kept);
        calls := calls + [Handled(asyncCb[i], Some(m))];
        if keeps(asyncCb[i], m) {
          kept := kept + [asyncCb[i]];
        }
        i := i + 1;
      }
      assert HandleAll(before, Some(m))[..|before|] == HandleAll(before, Some(m));
      assert before[|before|..] == [] && kept + [] == kept;
      asyncCb := kept;
    }

    method DispatchOne(m: Message) returns (raised: bool)
      modifies this`syncCb, this`asyncCb, this`calls
      ensures (View(), raised) == Dispatch(old(View()), m, keeps)
    {
      raised := false;
      if m.Event? {
        DispatchEvent(m);
      } else if syncCb != [] {
        var cb := syncCb[0];
        syncCb := syncCb[1..];
        calls := calls + [CalledBack(cb, Some(m))];
        raised := Raises(cb, Some(m));
      }
    }

    /** _dispatch_messages: line by line, until no newline is left or a callback raises. */
    method DispatchMessages() returns (raised: bool)
      modifies this`syncCb, this`asyncCb, this`calls, this`databuff
      ensures (View(), raised) == DispatchAll(old(View()), Framing.Messages(old(databuff), parse), keeps)
      ensures !raised ==> databuff == Framing.Remainder(old(databuff))
    {
      ghost var goal := DispatchAll(View(), Framing.Messages(databuff, parse), keeps);
      raised := false;
      while '\n' in databuff
        invariant !raised
        invariant DispatchAll(View(), Framing.Messages(databuff, parse), keeps) == goal
        invariant Framing.Remainder(databuff) == Framing.Remainder(old(databuff))
        invariant closed == old(closed)
        decreases |databuff|
      {
        var k := IndexOf(databuff, '\n');
        var line := Text.Strip(databuff[..k]);
        ghost var later := Framing.Messages(databuff[k + 1..], parse);
        FirstLine(databuff, k, parse);
        databuff := databuff[k + 1..];
        assert [] + later == later;
        if line != "" {
          match parse(line) {
            case None =>
            case Some(m) =>
              assert ([m] + later)[1..] == later;
              raised := DispatchOne(m);
              if raised {
                return;
              }
          }
        }
      }
      Text.SplitWhole(databuff, '\n');
    }

    /** The reader thread takes one chunk from the socket. */
    method Receive(chunk: string) returns (raised: bool)
      modifies this`syncCb, this`asyncCb, this`calls, this`databuff
      ensures var s := old(databuff) + chunk;
              && (View(), raised) == DispatchAll(old(View()), Framing.Messages(s, parse), keeps)
              && (!raised ==> databuff == Framing.Remainder(s))
    {
      databuff := databuff + chunk;
      raised := DispatchMessages();
    }

    /** _drain_callbacks(None), run without another thread in between. */
    method DrainCallbacks() returns (raised: bool)
      modifies this`syncCb, this`asyncCb, this`calls
      ensures (View(), raised) == DrainSync(DrainHandlers(old(View())))
    {
      ghost var goal := DrainSync(DrainHandlers(View()));
      var i := 0;
      while i < |asyncCb|
        invariant i <= |asyncCb| && asyncCb == old(asyncCb) && syncCb == old(syncCb)
        invariant calls == old(calls) + HandleAll(asyncCb, None)[..i]
      {
        assert HandleAll(asyncCb, None)[..i + 1] == HandleAll(asyncCb, None)[..i] + [Handled(asyncCb[i], None)];
        calls := calls + [Handled(asyncCb[i], None)];
        i := i + 1;
      }
      assert HandleAll(asyncCb, None)[..|asyncCb|] == HandleAll(asyncCb, None);
      asyncCb := [];
      assert View() == DrainHandlers(old(View()));
      raised := false;
      while syncCb != []
        invariant !raised && DrainSync(View()) == goal && closed == old(closed)
        decreases |syncCb|
      {
        var cb := syncCb[0];
        syncCb := syncCb[1..];
        calls := calls + [CalledBack(cb, None)];
        if Raises(cb, None) {
          return true;
        }
      }
    }

    /** _exec_async for a command whose send succeeds or fails. */
    method ExecAsync(cb: Callback, sent: bool) returns (raised: bool)
      modifies this`syncCb, this`asyncCb, this`calls, this`closed
      ensures old(closed) ==> View() == old(View()).(calls := old(calls) + [CalledBack(cb, None)]) && !raised
      ensures !old(closed) && sent ==> View() == old(View()).(sync := old(syncCb) + [cb]) && !raised
      ensures !old(closed) && !sent ==>
                (View(), raised) == DrainSync(DrainHandlers(old(View()).(sync := old(syncCb) + [cb], closed := true)))
    {
      raised := false;
      if closed {
        calls := calls + [CalledBack(cb, None)];
        return;
      }
      syncCb := syncCb + [cb];
      if !sent {
        closed := true;
        raised := DrainCallbacks();
      }
    }
  }

  method IndexOf(s: string, c: char) returns (k: nat)
    requires c in s
    ensures k < |s| && s[k] == c && c !in s[..k]
  {
    k := 0;
    while s[k] != c
      invariant k < |s| && c !in s[..k]
      invariant c in s[k..]
      decreases |s| - k
    {
      assert s[k..] == [s[k]] + s[k + 1..];
      k := k + 1;
    }
  }

  /** The messages of a buffer are those of its first line, then those of the rest. */
  lemma FirstLine(s: string, k: nat, parse: string -> Option<Message>)
    requires k < |s| && s[k] == '\n' && '\n' !in s[..k]
    ensures Framing.Messages(s, parse) == Framing.DecodeLine(s[..k], parse) + Framing.Messages(s[k + 1..], parse)
    ensures Framing.Remainder(s) == Framing.Remainder(s[k + 1..])
  {
    var line, rest := s[..k], s[k + 1..];
    assert s == line + ("\n" + rest);
    Text.SplitWhole(line, '\n');
    Framing.SplitAppend(line, "\n" + rest);
    assert ("\n" + rest)[1..] == rest;
    var parts := Text.Split(rest, '\n');
    assert line + "" == line;
    assert Framing.Glue([line], [""] + parts) == [line] + parts;
    assert Framing.Complete(s) == [line] + Framing.Complete(rest);
  }
}
