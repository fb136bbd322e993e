/**
 The Windows SSH credential handoff: rotate the well-known bootstrap key to a
 per-launch key, prove the rotation, and only then stage an environment.

 The host program, the guest (its key file, its live sessions, the rotation
 scripts running in them) and the QMP stream take steps in any order.  Anyone
 may log in with a key the guest accepts; the guest may reset at any time, and
 a reset may lose key-file writes that were not flushed.
 */
module Handoff {
  import opened Prelude

  datatype Key = Bootstrap | PerLaunch

  datatype Event = Event(name: string, reason: Option<string>)

  /** _is_guest_reboot_qmp_event */
  predicate IsGuestReboot(e: Event) {
    (e.name == "RESET" || e.name == "SHUTDOWN") && e.reason == Some("guest-reset")
  }

  /** _is_host_reset_qmp_event */
  predicate IsHostReset(e: Event) {
    e.name == "RESET" && e.reason == Some("host-qmp-system-reset")
  }

  datatype Message = Happened(event: Event) | BarrierReply

  /** How far the fixed rotation script has come inside its session. */
  datatype Script = Connected | Truncated | Written | Flushed | Marked

  datatype Session = Session(key: Key, script: Option<Script>)

  /** `accepted` is the key file as sshd reads it, `mayRead` what a reset may leave of it. */
  datatype Guest = Guest(
    accepted: set<Key>, mayRead: set<set<Key>>, sessions: map<nat, Session>, nextId: nat, markers: set<nat>)

  datatype Barrier = Unasked | Asked | OnWire | Answered

  /** The messages QEMU has sent and the reader has not yet dispatched. */
  datatype Qmp = Qmp(wire: seq<Message>, barrier: Barrier)

  datatype Pc =
    | Rotating | Attempt(id: Option<nat>)
    | MarkerBarrier | AwaitReboot | ProbeAfterReboot
    | LostProbe | LostBarrier | ForceReset | AwaitForced | ProbeAfterForced
    | Ready | Verify1 | Verify2 | Verify3 | Launched | Failed

  /** The host: two Event flags the QMP handler sets, and the gates in the VM metadata. */
  datatype Host = Host(
    pc: Pc, rebootObserved: bool, forcedObserved: bool,
    ephemeralKey: bool, pinned: bool, verified: bool, staged: nat)

  datatype State = State(host: Host, guest: Guest, qmp: Qmp)

  datatype Probe = Authenticated | Rejected | Indeterminate

  datatype Action =
    | Open(key: Key)                              // anyone logs in
    | End(id: nat)                                // a session ends
    | RunScript(id: nat)                          // the rotation script's next statement
    | GuestReset(name: string, left: set<Key>)    // the guest reboots itself
    | HostReset(left: set<Key>)                   // QEMU resets the guest on a QMP command
    | OtherEvent(event: Event)                    // any event that is not a reset
    | Answer                                      // QEMU answers query-status
    | Deliver                                     // the reader thread dispatches one message
    | Connect                                     // the host starts a rotation attempt
    | Outcome(marker: bool, retry: bool)          // that attempt's ssh ends or is killed
    | Proceed                                     // the host passes a wait or a synchronous call
    | Login(probe: Probe)                         // the host probes with the key its code names
    | GiveUp                                      // a deadline, an error or a failed command
    | Stage                                       // the session stages an environment record

  function OpenSession(g: Guest, key: Key, script: Option<Script>): Guest {
    g.(sessions := g.sessions[g.nextId := Session(key, script)], nextId := g.nextId + 1)
  }

  /** Truncate, write, flush, compare and print the marker, then ask for a reboot. */
  function ScriptStep(g: Guest, id: nat): Guest
    requires id in g.sessions && g.sessions[id].script.Some?
  {
    var s := g.sessions[id];
    match s.script.value
    case Connected =>
      g.(accepted := {}, mayRead := g.mayRead + {{}}, sessions := g.sessions[id := s.(script := Some(Truncated))])
    case Truncated =>
      g.(accepted := {PerLaunch}, mayRead := g.mayRead + {{PerLaunch}},
         sessions := g.sessions[id := s.(script := Some(Written))])
    case Written => g.(mayRead := {g.accepted}, sessions := g.sessions[id := s.(script := Some(Flushed))])
    case Flushed =>
      if g.accepted == {PerLaunch} then
        g.(markers := g.markers + {id}, sessions := g.sessions[id := s.(script := Some(Marked))])
      else g.(sessions := g.sessions - {id})
    case Marked => g
  }

  /** Every session dies, and the key file is whatever reached the disk. */
  function Reset(g: Guest, left: set<Key>): Guest {
    g.(accepted := left, mayRead := {left}, sessions := map[])
  }

  function Send(q: Qmp, e: Event): Qmp {
    q.(wire := q.wire + [Happened(e)])
  }

  function Dispatch(s: State): State {
    if s.qmp.wire == [] then s
    else
      var rest := s.qmp.(wire := s.qmp.wire[1..]);
      match s.qmp.wire[0]
      case BarrierReply => s.(qmp := rest.(barrier := Answered))
      case Happened(e) =>
        s.(qmp := rest,
           host := s.host.(rebootObserved := s.host.rebootObserved || IsGuestReboot(e),
                           forcedObserved := s.host.forcedObserved || IsHostReset(e)))
  }

  /** The host passes the wait it stands at, if what it waits for has come. */
  function Pass(s: State): State {
    var h := s.host;
    match h.pc
    case MarkerBarrier =>
      if s.qmp.barrier.Answered? then s.(host := h.(rebootObserved := false, pc := AwaitReboot)) else s
    case AwaitReboot => if h.rebootObserved then s.(host := h.(pc := ProbeAfterReboot)) else s
    case LostBarrier =>
      if s.qmp.barrier.Answered? then s.(host := h.(forcedObserved := false, pc := ForceReset)) else s
    case ForceReset => s.(host := h.(pc := AwaitForced))
    case AwaitForced => if h.forcedObserved then s.(host := h.(pc := ProbeAfterForced)) else s
    case _ => s
  }

  /** The key each probe of the host offers. */
  function ProbedKey(pc: Pc): Key {
    if pc.Verify2? then Bootstrap else PerLaunch
  }

  /** An authentication or a rejection tells the truth about the key file; anything may be indeterminate. */
  predicate Truthful(g: Guest, key: Key, p: Probe) {
    && (p.Authenticated? ==> key in g.accepted)
    && (p.Rejected? ==> key !in g.accepted)
  }

  /** What the host does with a probe's result. */
  function Probed(s: State, p: Probe): State {
    var h := s.host;
    match h.pc
    case ProbeAfterReboot => if p.Authenticated? then s.(host := h.(pc := Ready)) else s
    case LostProbe =>
      if p.Authenticated? then
        s.(host := h.(forcedObserved := false, pc := LostBarrier), qmp := s.qmp.(barrier := Asked))
      else s
    case ProbeAfterForced => if p.Authenticated? then s.(host := h.(pc := Ready)) else s
    case Ready => if p.Authenticated? then s.(host := h.(pc := Verify1)) else s
    case Verify1 => s.(host := h.(pc := if p.Authenticated? then Verify2 else Failed))
    case Verify2 => s.(host := h.(pc := if p.Rejected? then Verify3 else Failed))
    case Verify3 =>
      if p.Authenticated? then s.(host := h.(pc := Launched, verified := true)) else s.(host := h.(pc := Failed))
    case _ => s
  }

  function AttemptEnds(s: State, marker: bool, retry: bool): State {
    var h := s.host;
    if !h.pc.Attempt? then s
    else if marker && h.pc.id.Some? && h.pc.id.value in s.guest.markers then
      s.(host := h.(pc := MarkerBarrier), qmp := s.qmp.(barrier := Asked))
    else if h.rebootObserved then s.(host := h.(pc := LostProbe))
    else s.(host := h.(pc := if retry then Rotating else Failed))
  }

  function Step(s: State, a: Action): State {
    match a
    case Open(key) => if key in s.guest.accepted then s.(guest := OpenSession(s.guest, key, None)) else s
    case End(id) => s.(guest := s.guest.(sessions := s.guest.sessions - {id}))
    case RunScript(id) =>
      if id in s.guest.sessions && s.guest.sessions[id].script.Some?
      then s.(guest := ScriptStep(s.guest, id)) else s
    case GuestReset(name, left) =>
      if left in s.guest.mayRead && (name == "RESET" || name == "SHUTDOWN") then
        s.(guest := Reset(s.guest, left), qmp := Send(s.qmp, Event(name, Some("guest-reset"))))
      else s
    case HostReset(left) =>
      if left in s.guest.mayRead then
        s.(guest := Reset(s.guest, left), qmp := Send(s.qmp, Event("RESET", Some("host-qmp-system-reset"))))
      else s
    case OtherEvent(e) =>
      if IsGuestReboot(e) || IsHostReset(e) then s else s.(qmp := Send(s.qmp, e))
    case Answer =>
      if s.qmp.barrier.Asked? then s.(qmp := Qmp(s.qmp.wire + [BarrierReply], OnWire)) else s
    case Deliver => Dispatch(s)
    case Connect =>
      if !s.host.pc.Rotating? then s
      else if Bootstrap in s.guest.accepted then
        s.(guest := OpenSession(s.guest, Bootstrap, Some(Connected)),
           host := s.host.(pc := Attempt(Some(s.guest.nextId))))
      else s.(host := s.host.(pc := Attempt(None)))
    case Outcome(marker, retry) => AttemptEnds(s, marker, retry)
    case Proceed => Pass(s)
    case Login(p) => if Truthful(s.guest, ProbedKey(s.host.pc), p) then Probed(s, p) else s
    case GiveUp => if s.host.pc.Launched? then s else s.(host := s.host.(pc := Failed))
    case Stage =>
      // The gates of _stage_windows_forwarded_env read the metadata alone.
      if s.host.ephemeralKey && s.host.pinned && s.host.verified
      then s.(host := s.host.(staged := s.host.staged + 1)) else s
  }

  function Exec(s: State, acts: seq<Action>): State {
    if acts == [] then s else Step(Exec(s, acts[..|acts| - 1]), acts[|acts| - 1])
  }

  /**
   The rotation begins: the guest accepts the bootstrap key, flushed; sessions
   opened with it and undelivered events of any kind may exist already; the
   observation flag has just been cleared and nothing is verified or staged.
   */
  predicate Init(s: State) {
    && s.guest.accepted == {Bootstrap} && s.guest.mayRead == {{Bootstrap}}
    && (forall id | id in s.guest.sessions :: s.guest.sessions[id].script.None? && id < s.guest.nextId)
    && s.guest.markers == {}
    && s.host.pc.Rotating? && !s.host.rebootObserved && !s.host.verified && s.host.staged == 0
    && s.qmp.barrier.Unasked? && BarrierReply !in s.qmp.wire
  }

  // ---- The invariant ----------------------------------------------------------------------

  predicate Known(k: set<Key>) {
    k == {Bootstrap} || k == {} || k == {PerLaunch}
  }

  /** The bootstrap key is gone for good, whatever a reset loses. */
  predicate Revoked(g: Guest) {
    Bootstrap !in g.accepted && forall k | k in g.mayRead :: Bootstrap !in k
  }

  predicate NoBootstrapSession(g: Guest) {
    forall id | id in g.sessions :: g.sessions[id].key != Bootstrap
  }

  /** No rotation script runs, the key file is on disk, and old sessions are gone if the old key is. */
  predicate Quiet(g: Guest) {
    && (forall id | id in g.sessions :: g.sessions[id].script.None?)
    && g.mayRead == {g.accepted}
    && (Bootstrap !in g.accepted ==> NoBootstrapSession(g))
  }

  /** Only the per-launch key opens a session, and no session was opened with another. */
  predicate HandedOver(g: Guest) {
    Quiet(g) && g.accepted == {PerLaunch} && NoBootstrapSession(g)
  }

  predicate GuestOk(g: Guest) {
    && g.accepted in g.mayRead
    && (forall k | k in g.mayRead :: Known(k))
    && (forall id | id in g.sessions :: id < g.nextId)
    && (forall id | id in g.markers :: id < g.nextId)
    && (forall id | id in g.sessions && g.sessions[id].script.Some? ::
          && (!g.sessions[id].script.value.Connected? ==> Bootstrap !in g.accepted)
          && (g.sessions[id].script.value.Flushed? || g.sessions[id].script.value.Marked? ==> Revoked(g)))
    && (g.markers != {} ==> Revoked(g))
  }

  /** The messages that QEMU sent after it answered the barrier. */
  function Newer(q: Qmp): seq<Message> {
    match q.barrier
    case Unasked => []
    case Asked => []
    case Answered => q.wire
    case OnWire => AfterReply(q.wire)
  }

  function AfterReply(wire: seq<Message>): seq<Message> {
    if wire == [] then [] else if wire[0].BarrierReply? then wire[1..] else AfterReply(wire[1..])
  }

  /** A reset event: of the guest's own making, or commanded by the host. */
  predicate IsReset(m: Message, guest: bool) {
    m.Happened? && if guest then IsGuestReboot(m.event) else IsHostReset(m.event)
  }

  predicate Saw(wire: seq<Message>, guest: bool) {
    exists m | m in wire :: IsReset(m, guest)
  }

  /** At most one answer is on the wire. */
  predicate BarrierOk(q: Qmp) {
    (BarrierReply in q.wire <==> q.barrier.OnWire?) && BarrierReply !in AfterReply(q.wire)
  }

  predicate Inv(s: State) {
    var g, h, q := s.guest, s.host, s.qmp;
    && GuestOk(g)
    && BarrierOk(q)
    && (h.pc.MarkerBarrier? ==> Revoked(g) && !q.barrier.Unasked? && (Saw(Newer(q), true) ==> Quiet(g)))
    && (h.pc.AwaitReboot? ==>
          Revoked(g) && q.barrier.Answered? && (Saw(q.wire, true) || h.rebootObserved ==> Quiet(g)))
    && (h.pc.ProbeAfterReboot? ==> Revoked(g) && Quiet(g))
    && (h.pc.LostBarrier? ==> !q.barrier.Unasked? && (Saw(Newer(q), false) ==> Quiet(g)))
    && (h.pc.ForceReset? || h.pc.AwaitForced? ==>
          q.barrier.Answered? && (Saw(q.wire, false) || h.forcedObserved ==> Quiet(g)))
    && (h.pc.ProbeAfterForced? ==> Quiet(g))
    && (h.pc.Ready? || h.pc.Verify1? || h.pc.Verify2? || h.pc.Verify3? || h.pc.Launched? ==> HandedOver(g))
    && (h.verified ==> h.pc.Launched?)
    && (h.staged > 0 ==> h.verified)
    && (h.pc.Rotating? || h.pc.Attempt? || h.pc.LostProbe? ==> q.barrier.Unasked?)
  }
}
