/**
 One IPsec attempt of the privileged helper as a step system (`helper/service.py`): the connecting
 thread, the charon reader that ends in the exit callback, the bring-up worker and any number of
 disconnect requests interleave freely, one lock-protected section or outside effect at a time. The
 attempt starts when the teardown flag is reset.
 */
module Session {
  import opened Wrappers

  /** The steps of the teardown body. */
  datatype Act = RestoredDns | RestoredRoute | Wiped

  /** How often each action was taken, and whether none came after a later one. */
  datatype Tally = Tally(dns: nat, route: nat, wipes: nat, inOrder: bool)

  function Count(t: Tally, a: Act): Tally {
    match a
    case RestoredDns => t.(dns := t.dns + 1, inOrder := t.inOrder && t.route == 0 && t.wipes == 0)
    case RestoredRoute => t.(route := t.route + 1, inOrder := t.inOrder && t.wipes == 0)
    case Wiped => t.(wipes := t.wipes + 1)
  }

  const UNTOUCHED := Tally(0, 0, 0, true)

  /** Who sent a startup error. */
  datatype Origin = FromExit | FromWorker

  /** Who holds the right to send the one startup error; it is tracked for the proof. */
  datatype Claim = NotClaimed | Held(tid: nat) | Spent(sender: nat)

  /** Where a thread goes on after the teardown. */
  datatype Cont = AfterExit(shouldFail: bool) | AfterStop | AfterDisconnect | AfterFailedStart

  /** Inside the teardown: `target` is whether there are files, `route` whether there is a route to restore. */
  datatype Stage =
    | Enter | Check | Choose | ReadFile | Dns(target: bool, route: bool)
    | Route(route: bool, failed: bool) | Wipe(failed: bool) | Leave(failed: bool)

  /** Whose output lines a thread handles: the daemon's, or those of a command it ran itself. */
  datatype Source = Daemon | LoadCommand | InitiateCommand | TerminateCommand

  /** What applies the DNS overlay: a line naming a server, the first line saying connected, or the worker. */
  datatype Applier = NoteLine(source: Source) | ConnectedLine(source: Source) | Worker

  datatype Pc =
    | ConnectStart | ConnectStore | ConnectClear
    | Lines(source: Source) | LineTested(source: Source)
    | ApplyRead(who: Applier) | ApplyRecord(who: Applier) | ApplyOverlay(who: Applier) | ApplyMark(who: Applier)
    | Announce(who: Applier)
    | ExitStart | ExitReport(shouldFail: bool) | ExitLast | ExitReturned
    | BringUpStart | BringUpLoaded | BringUpInitiated | BringUpClaim | BringUpReport | WorkerTest | WorkerTested
    | DisconnectStart | DisconnectRead | DisconnectClear | Stopping(given: bool)
    | Teardown(stage: Stage, given: bool, cont: Cont)
    | Finished | Died

  /** Everything the threads share, and what happened so far. */
  datatype Shared = Shared(
    files: bool, gatewayRoute: bool, process: bool, exited: bool,
    connected: bool, cancelled: bool, errorFlag: bool, dnsApplied: bool,
    lock: Option<nat>, done: bool,
    overlay: bool, dnsFile: bool,
    body: Tally, errors: seq<Origin>,
    captured: bool, connector: nat, reader: Option<nat>, claim: Claim, observed: Option<bool>)

  datatype State = State(threads: map<nat, Pc>, g: Shared)

  /** What the surroundings decide at a step, and an unused id for a thread it may start. */
  datatype Choice = Choice(yes: bool, also: bool, newThread: nat)

  /** A step of one thread, or a new disconnect request. */
  datatype Move = Run(tid: nat, choice: Choice) | Request(tid: nat)

  /** The attempt begins with the runtime files written and a route captured or not. */
  function Start(connecting: nat, gatewayRoute: bool): State {
    State(map[connecting := ConnectStart],
          Shared(true, gatewayRoute, false, false, false, false, false, false, None, false, false, false,
                 UNTOUCHED, [], gatewayRoute, connecting, None, NotClaimed, None))
  }

  /** What a step makes of its thread and of the shared state, and the thread it starts, if any. */
  datatype Effect = Effect(pc: Pc, g: Shared, spawned: Option<Pc>)

  function Moves(pc: Pc, g: Shared): Effect { Effect(pc, g, None) }

  /** The thread passed the tests of `_apply_ipsec_dns` and has yet to write the overlay. */
  predicate Writing(pc: Pc) { pc.ApplyRecord? || pc.ApplyOverlay? }

  /** The step touches neither the overlay, its record nor the teardown flag, and nobody sets out to write an overlay. */
  predicate Untied(g: Shared, e: Effect) {
    && e.g.overlay == g.overlay && e.g.dnsFile == g.dnsFile && e.g.done == g.done
    && !Writing(e.pc) && (e.spawned.Some? ==> !Writing(e.spawned.value))
  }

  /** What is set once stays set in this attempt, and a route once restored counts. */
  predicate Lasts(g: Shared, h: Shared) {
    && (g.done ==> h.done) && (g.cancelled ==> h.cancelled) && (g.errorFlag ==> h.errorFlag)
    && g.body.route <= h.body.route
  }

  /** The exit callback has set out to report the failed start and has not yet. */
  predicate OwesExit(pc: Pc) {
    match pc
    case Teardown(_, _, cont) => cont.AfterExit? && cont.shouldFail
    case ExitReport(shouldFail) => shouldFail
    case _ => false
  }

  predicate Owes(pc: Pc) { OwesExit(pc) || pc.BringUpReport? }

  function OriginOf(pc: Pc): Origin { if OwesExit(pc) then FromExit else FromWorker }

  /** The step sends nothing; what the thread owes it goes on owing, unless it dies. */
  predicate OwesOn(pc: Pc, g: Shared, e: Effect) {
    && e.g.claim == g.claim && e.g.errors == g.errors && e.spawned.None?
    && ((e.pc.Died? && pc.Teardown?) || (Owes(e.pc) == Owes(pc) && OwesExit(e.pc) == OwesExit(pc)))
  }

  /**
   A thread that owes an error goes on owing it, dies, or sends just this error; one that owes none sends
   none, and sets out to send one only when the flag is clear.
   */
  predicate Reports(tid: nat, pc: Pc, g: Shared, e: Effect) {
    && (e.spawned.Some? ==> !Owes(e.spawned.value))
    && if Owes(pc) then
         || OwesOn(pc, g, e)
         || (e.g.claim == Spent(tid) && e.g.errors == g.errors + [OriginOf(pc)] && !Owes(e.pc))
       else
         && e.g.errors == g.errors
         && (if Owes(e.pc) then !g.errorFlag && e.g.claim == Held(tid) else e.g.claim == g.claim)
  }

  /** Where a step of the teardown leads: on in the teardown, out of it, or into an exception. */
  predicate WithinTeardown(cont: Cont, pc: Pc) {
    match pc
    case Teardown(_, _, next) => next == cont
    case Died => true
    case _ => pc == Resume(cont)
  }

  // ----- the threads -----

  function ConnectStep(tid: nat, pc: Pc, g: Shared, c: Choice): (r: Option<Effect>)
    ensures r.Some? ==> Lasts(g, r.value.g)
    ensures r.Some? ==> Untied(g, r.value)
    ensures r.Some? ==> r.value.g.errors == g.errors && r.value.g.claim == g.claim
    ensures r.Some? ==> !Owes(pc) && !Owes(r.value.pc)
    ensures r.Some? && r.value.spawned.Some? ==> !Owes(r.value.spawned.value)
  {
    match pc
    case ConnectStart =>
      if !c.yes then Some(Moves(Teardown(Enter, true, AfterFailedStart), g))
      else Some(Effect(ConnectStore, g.(reader := Some(c.newThread)), Some(Lines(Daemon))))
    case ConnectStore => Some(Effect(Finished, g.(process := true), Some(BringUpStart)))
    case ConnectClear => Some(Moves(Died, g.(files := false)))
    case _ => None
  }

  /** Where a thread goes when there are no more lines; the reader goes into the exit callback. */
  function AfterLines(source: Source): Pc {
    match source
    case Daemon => ExitStart
    case LoadCommand => BringUpLoaded
    case InitiateCommand => BringUpInitiated
    case TerminateCommand => DisconnectRead
  }

  /** One line after another: some name a DNS server, and the first that says connected is remembered. */
  function LineStep(pc: Pc, g: Shared, c: Choice): (r: Option<Effect>)
    ensures r.Some? ==> Lasts(g, r.value.g)
    ensures r.Some? ==> Untied(g, r.value)
    ensures r.Some? ==> r.value.g.errors == g.errors && r.value.g.claim == g.claim
    ensures r.Some? ==> !Owes(pc) && !Owes(r.value.pc)
    ensures r.Some? && r.value.spawned.Some? ==> !Owes(r.value.spawned.value)
  {
    match pc
    case Lines(source) =>
      if c.yes then Some(Moves(AfterLines(source), g.(exited := g.exited || source == Daemon)))
      else if c.also then Some(Moves(if g.connected then ApplyRead(NoteLine(source)) else Lines(source), g))
      else Some(Moves(if g.connected then Lines(source) else LineTested(source), g))
    case LineTested(source) => Some(Moves(ApplyRead(ConnectedLine(source)), g.(connected := true)))
    case _ => None
  }

  /** A line that names a server on a connected session leads to an apply. */
  lemma NoteApplies(source: Source, g: Shared, c: Choice)
    requires g.connected && c.also && !c.yes
    ensures LineStep(Lines(source), g, c).Some? && LineStep(Lines(source), g, c).value.pc == ApplyRead(NoteLine(source))
  {}

  function AfterApply(who: Applier): Pc {
    match who case NoteLine(source) => Lines(source) case _ => Announce(who)
  }

  /** Writing the overlay; when that fails the record goes. */
  function WriteStep(who: Applier, g: Shared, c: Choice): (e: Effect)
    ensures Lasts(g, e.g) && e.g.errors == g.errors && e.g.claim == g.claim && e.spawned.None?
    ensures !Owes(e.pc)
    ensures e.g.overlay || !e.g.dnsFile
  {
    if c.yes then Moves(ApplyMark(who), g.(overlay := true)) else Moves(AfterApply(who), g.(dnsFile := false))
  }

  /** Applying the overlay: the flag is tested and set in different sections. */
  function ApplyStep(pc: Pc, g: Shared, c: Choice): (r: Option<Effect>)
    ensures r.Some? ==> Lasts(g, r.value.g)
    ensures r.Some? ==> r.value.g.errors == g.errors && r.value.g.claim == g.claim
    ensures r.Some? ==> !Owes(pc) && !Owes(r.value.pc)
    ensures r.Some? && r.value.spawned.Some? ==> !Owes(r.value.spawned.value)
    ensures pc.ApplyRead? && g.dnsApplied ==> r.Some? && !Writing(r.value.pc)
  {
    match pc
    case ApplyRead(who) => Some(Moves(if g.dnsApplied || !g.files || !c.yes then AfterApply(who) else ApplyRecord(who), g))
    case ApplyRecord(who) => Some(Moves(ApplyOverlay(who), g.(dnsFile := true)))
    case ApplyOverlay(who) => Some(WriteStep(who, g, c))
    case ApplyMark(who) => Some(Moves(AfterApply(who), g.(dnsApplied := true)))
    case Announce(who) => Some(Moves(match who case Worker => Finished case NoteLine(x) => Lines(x) case ConnectedLine(x) => Lines(x), g))
    case _ => None
  }

  /** The daemon ended before the session was up, nobody cancelled, and nobody reported it yet. */
  predicate StartFailed(g: Shared) { g.files && !g.connected && !g.cancelled && !g.errorFlag }

  function ProcessGone(g: Shared): Shared {
    g.(process := false, dnsApplied := false, observed := Some(g.connected || g.cancelled))
  }

  /** The exit callback: one section reads and sets the flags, then the teardown, then the reports. */
  function ExitStep(tid: nat, pc: Pc, g: Shared): (r: Option<Effect>)
    ensures r.Some? ==> Lasts(g, r.value.g)
    ensures r.Some? ==> Untied(g, r.value)
    ensures r.Some? ==> Reports(tid, pc, g, r.value)
  {
    match pc
    case ExitStart =>
      if StartFailed(g) then
        Some(Moves(Teardown(Enter, g.files, AfterExit(true)), ProcessGone(g).(errorFlag := true, claim := Held(tid))))
      else Some(Moves(Teardown(Enter, g.files, AfterExit(false)), ProcessGone(g)))
    case ExitReport(shouldFail) =>
      if shouldFail then Some(Moves(ExitLast, g.(errors := g.errors + [FromExit], claim := Spent(tid))))
      else Some(Moves(ExitLast, g))
    case ExitLast => Some(Moves(ExitReturned, g))
    case _ => None
  }

  /** The worker waits for the daemon, loads the configuration and initiates; a cancellation is noticed before each command. */
  function LaunchStep(pc: Pc, g: Shared, c: Choice): (r: Option<Effect>)
    ensures r.Some? ==> Lasts(g, r.value.g)
    ensures r.Some? ==> Untied(g, r.value)
    ensures r.Some? ==> r.value.g.errors == g.errors && r.value.g.claim == g.claim
    ensures r.Some? ==> !Owes(pc) && !Owes(r.value.pc)
    ensures r.Some? && r.value.spawned.Some? ==> !Owes(r.value.spawned.value)
  {
    match pc
    case BringUpStart =>
      if g.cancelled || (g.exited && c.yes) then Some(Moves(Finished, g))
      else if !c.yes then Some(Moves(Lines(LoadCommand), g))
      else if c.also then Some(Moves(BringUpClaim, g))
      else Some(Moves(DisconnectStart, g))
    case BringUpLoaded =>
      if !c.yes then Some(Moves(DisconnectStart, g))
      else if g.cancelled then Some(Moves(Finished, g))
      else Some(Moves(Lines(InitiateCommand), g))
    case BringUpInitiated => if c.yes then Some(Moves(WorkerTest, g)) else Some(Moves(BringUpClaim, g))
    case _ => None
  }

  /** A failure of the daemon or of the initiation is reported once, and then disconnects. */
  function ReportStep(tid: nat, pc: Pc, g: Shared): (r: Option<Effect>)
    ensures r.Some? ==> Lasts(g, r.value.g)
    ensures r.Some? ==> Untied(g, r.value)
    ensures r.Some? ==> Reports(tid, pc, g, r.value)
  {
    match pc
    case BringUpClaim =>
      if g.errorFlag then Some(Moves(DisconnectStart, g))
      else Some(Moves(BringUpReport, g.(errorFlag := true, claim := Held(tid))))
    case BringUpReport => Some(Moves(DisconnectStart, g.(errors := g.errors + [FromWorker], claim := Spent(tid))))
    case _ => None
  }

  /** The worker's own connected message, when no line was first. */
  function EstablishStep(pc: Pc, g: Shared): (r: Option<Effect>)
    ensures r.Some? ==> Lasts(g, r.value.g)
    ensures r.Some? ==> Untied(g, r.value)
    ensures r.Some? ==> r.value.g.errors == g.errors && r.value.g.claim == g.claim
    ensures r.Some? ==> !Owes(pc) && !Owes(r.value.pc)
    ensures r.Some? && r.value.spawned.Some? ==> !Owes(r.value.spawned.value)
  {
    match pc
    case WorkerTest => if g.connected then Some(Moves(Finished, g)) else Some(Moves(WorkerTested, g))
    case WorkerTested => Some(Moves(ApplyRead(Worker), g.(connected := true)))
    case _ => None
  }

  /** A disconnect cancels first, and then looks for a process to stop. */
  function DisconnectStep(pc: Pc, g: Shared, c: Choice): (r: Option<Effect>)
    ensures r.Some? ==> Lasts(g, r.value.g)
    ensures r.Some? ==> Untied(g, r.value)
    ensures r.Some? ==> r.value.g.errors == g.errors && r.value.g.claim == g.claim
    ensures r.Some? ==> !Owes(pc) && !Owes(r.value.pc)
    ensures r.Some? && r.value.spawned.Some? ==> !Owes(r.value.spawned.value)
  {
    match pc
    case DisconnectStart => Some(Moves(Lines(TerminateCommand), g.(cancelled := true)))
    case DisconnectRead =>
      if !g.process then Some(Moves(Teardown(Enter, g.files, AfterDisconnect), g))
      else if c.yes then Some(Moves(Stopping(g.files), g))
      else Some(Effect(Finished, g, Some(Stopping(g.files))))
    case _ => None
  }

  /** Stopping the process, and what a disconnect without one does after the teardown. */
  function StopStep(pc: Pc, g: Shared): (r: Option<Effect>)
    ensures r.Some? ==> Lasts(g, r.value.g)
    ensures r.Some? ==> Untied(g, r.value)
    ensures r.Some? ==> r.value.g.errors == g.errors && r.value.g.claim == g.claim
    ensures r.Some? ==> !Owes(pc) && !Owes(r.value.pc)
    ensures r.Some? && r.value.spawned.Some? ==> !Owes(r.value.spawned.value)
  {
    match pc
    case DisconnectClear => Some(Moves(Finished, g.(files := false)))
    case Stopping(given) => Some(Moves(Teardown(Enter, given, AfterStop), g))
    case _ => None
  }

  /** What a thread does after the teardown returned. */
  function Resume(cont: Cont): Pc {
    match cont
    case AfterExit(shouldFail) => ExitReport(shouldFail)
    case AfterStop => Finished
    case AfterDisconnect => DisconnectClear
    case AfterFailedStart => ConnectClear
  }

  predicate InBody(pc: Pc) { pc.Teardown? && (pc.stage.Dns? || pc.stage.Route? || pc.stage.Wipe?) }

  /** The DNS restore: unless it raises, the record is used up and the overlay it describes is gone. */
  function AfterDns(g: Shared, raises: bool): (h: Shared)
    ensures Lasts(g, h) && h.claim == g.claim && h.errors == g.errors
    ensures h.dnsFile ==> g.dnsFile && h.overlay == g.overlay
  {
    var undone := !raises && g.dnsFile;
    g.(dnsApplied := false, body := Count(g.body, RestoredDns),
       overlay := if undone then false else g.overlay, dnsFile := if raises then g.dnsFile else false)
  }

  function AfterRoute(g: Shared): (h: Shared)
    ensures Lasts(g, h) && h.claim == g.claim && h.errors == g.errors
    ensures h.dnsFile == g.dnsFile && h.overlay == g.overlay
  {
    g.(body := Count(g.body, RestoredRoute))
  }

  function AfterWipe(g: Shared): (h: Shared)
    ensures Lasts(g, h) && h.claim == g.claim && h.errors == g.errors
    ensures !h.dnsFile
  {
    g.(body := Count(g.body, Wiped), dnsFile := false)
  }

  /** The three actions of the body; the first two may raise, and the next one follows all the same. */
  function BodyStep(pc: Pc, g: Shared, c: Choice): (e: Effect)
    requires InBody(pc)
    ensures Lasts(g, e.g)
    ensures e.g.claim == g.claim && e.g.errors == g.errors && e.spawned.None?
    ensures e.g.dnsFile ==> g.dnsFile && e.g.overlay == g.overlay
    ensures WithinTeardown(pc.cont, e.pc)
  {
    match pc.stage
    case Dns(target, route) =>
      if !target then Moves(pc.(stage := Route(route, false)), g)
      else
        Moves(pc.(stage := Route(route, c.yes)), AfterDns(g, c.yes))
    case Route(route, failed) =>
      if !route then Moves(pc.(stage := Wipe(failed)), g)
      else Moves(pc.(stage := Wipe(failed || c.yes)), AfterRoute(g))
    case Wipe(failed) => Moves(pc.(stage := Leave(failed)), AfterWipe(g))
  }

  /** Taking the lock, when it is free. */
  function EnterStep(tid: nat, pc: Pc, g: Shared): (r: Option<Effect>)
    requires pc.Teardown?
    ensures r.Some? ==> r.value.g.claim == g.claim && r.value.g.errors == g.errors && r.value.spawned.None?
    ensures r.Some? ==> r.value.pc.Teardown? && r.value.pc.cont == pc.cont
    ensures r.Some? ==> Lasts(g, r.value.g) && r.value.g.overlay == g.overlay && r.value.g.dnsFile == g.dnsFile
  {
    if g.lock.Some? then None else Some(Moves(Teardown(Check, pc.given, pc.cont), g.(lock := Some(tid))))
  }

  /** Leaving at once when the teardown is done. */
  function CheckStep(pc: Pc, g: Shared): (e: Effect)
    requires pc.Teardown?
    ensures e.g.claim == g.claim && e.g.errors == g.errors && e.spawned.None?
    ensures WithinTeardown(pc.cont, e.pc)
    ensures Lasts(g, e.g) && e.g.overlay == g.overlay && e.g.dnsFile == g.dnsFile
  {
    if g.done then Moves(Resume(pc.cont), g.(lock := None)) else Moves(Teardown(Choose, pc.given, pc.cont), g)
  }

  /** What to restore: the captured route, or else the one in the file. */
  function ChooseStep(pc: Pc, g: Shared): (e: Effect)
    requires pc.Teardown?
    ensures e.g == g && e.spawned.None?
    ensures e.pc.Teardown? && e.pc.cont == pc.cont && (e.pc.stage.ReadFile? || e.pc.stage.Dns?)
  {
    var target := pc.given || g.files;
    Moves(Teardown(if !g.gatewayRoute && target then ReadFile else Dns(target, g.gatewayRoute), pc.given, pc.cont), g)
  }

  /** Reading the route file can raise before anything was done. */
  function ReadStep(pc: Pc, g: Shared, c: Choice): (e: Effect)
    requires pc.Teardown?
    ensures Lasts(g, e.g)
    ensures e.g.overlay == g.overlay && e.g.dnsFile == g.dnsFile
    ensures e.g.claim == g.claim && e.g.errors == g.errors && e.spawned.None? && e.g.done == g.done && e.g.body == g.body
    ensures if c.yes then e.pc.Died? else e.pc.Teardown? && e.pc.cont == pc.cont && e.pc.stage.Dns?
  {
    if c.yes then Moves(Died, g.(lock := None)) else Moves(Teardown(Dns(true, c.also), pc.given, pc.cont), g)
  }

  /** The end of the section: the teardown is done, and an exception goes on. */
  function LeaveStep(pc: Pc, g: Shared): (e: Effect)
    requires pc.Teardown? && pc.stage.Leave?
    ensures Lasts(g, e.g)
    ensures e.g.overlay == g.overlay && e.g.dnsFile == g.dnsFile
    ensures e.g.claim == g.claim && e.g.errors == g.errors && e.spawned.None?
    ensures WithinTeardown(pc.cont, e.pc)
  {
    Moves(if pc.stage.failed then Died else Resume(pc.cont), g.(lock := None, done := true, files := false, gatewayRoute := false))
  }

  /** The teardown under its lock; the DNS and route steps can raise too, and the rest of the body still runs. */
  function TeardownStep(tid: nat, pc: Pc, g: Shared, c: Choice): (r: Option<Effect>)
    requires pc.Teardown?
    ensures r.Some? ==> Lasts(g, r.value.g)
    ensures r.Some? ==> r.value.g.claim == g.claim && r.value.g.errors == g.errors && r.value.spawned.None?
    ensures r.Some? ==> WithinTeardown(pc.cont, r.value.pc)
  {
    if pc.stage.Enter? then EnterStep(tid, pc, g)
    else if pc.stage.Check? then Some(CheckStep(pc, g))
    else if pc.stage.Choose? then Some(ChooseStep(pc, g))
    else if pc.stage.ReadFile? then Some(ReadStep(pc, g, c))
    else if pc.stage.Leave? then Some(LeaveStep(pc, g))
    else Some(BodyStep(pc, g, c))
  }

  /** One step of a thread; a finished thread has none. */
  function Step(tid: nat, pc: Pc, g: Shared, c: Choice): Option<Effect> {
    if pc.Teardown? then TeardownStep(tid, pc, g, c)
    else if pc.ConnectStart? || pc.ConnectStore? || pc.ConnectClear? then ConnectStep(tid, pc, g, c)
    else if pc.Lines? || pc.LineTested? then LineStep(pc, g, c)
    else if Applies(pc) then ApplyStep(pc, g, c)
    else if pc.ExitStart? || pc.ExitReport? || pc.ExitLast? then ExitStep(tid, pc, g)
    else if pc.DisconnectStart? || pc.DisconnectRead? then DisconnectStep(pc, g, c)
    else if pc.DisconnectClear? || pc.Stopping? then StopStep(pc, g)
    else if pc.BringUpStart? || pc.BringUpLoaded? || pc.BringUpInitiated? then LaunchStep(pc, g, c)
    else if pc.BringUpClaim? || pc.BringUpReport? then ReportStep(tid, pc, g)
    else EstablishStep(pc, g)
  }

  function Next(s: State, m: Move): Option<State> {
    match m
    case Request(tid) => if tid in s.threads then None else Some(s.(threads := s.threads[tid := DisconnectStart]))
    case Run(tid, c) =>
      if tid !in s.threads || c.newThread in s.threads then None
      else
        match Step(tid, s.threads[tid], s.g, c)
        case None => None
        case Some(e) =>
          var moved := s.threads[tid := e.pc];
          Some(State(if e.spawned.Some? then moved[c.newThread := e.spawned.value] else moved, e.g))
  }

  // ----- the invariant -----

  /** The thread is inside the section guarded by the teardown lock. */
  predicate Holding(pc: Pc) { pc.Teardown? && !pc.stage.Enter? }

  /** DNS was restored once, then the route at most once, and once for sure when one was captured. */
  predicate Restored(t: Tally, captured: bool) {
    t.inOrder && t.dns == 1 && t.route <= 1 && (captured ==> t.route == 1)
  }

  predicate Complete(t: Tally, captured: bool) { Restored(t, captured) && t.wipes == 1 }

  /** What the holder of the lock has done so far. */
  predicate BodyAt(stage: Stage, t: Tally, done: bool, captured: bool) {
    match stage
    case Enter => true
    case Check => done || t == UNTOUCHED
    case Choose => !done && t == UNTOUCHED
    case ReadFile => !done && t == UNTOUCHED && !captured
    case Dns(target, route) => !done && t == UNTOUCHED && target && (captured ==> route)
    case Route(route, _) => !done && t == Tally(1, 0, 0, true) && (captured ==> route)
    case Wipe(_) => !done && Restored(t, captured) && t.wipes == 0
    case Leave(_) => !done && Complete(t, captured)
  }

  predicate Applies(pc: Pc) {
    pc.ApplyRead? || pc.ApplyRecord? || pc.ApplyOverlay? || pc.ApplyMark? || pc.Announce?
  }

  /** The daemon's reader, before it becomes the exit callback. */
  predicate ReaderOk(tid: nat, g: Shared) { g.reader == Some(tid) && g.observed == None }

  /** The exit callback after its first section; when it set out to report it holds the claim. */
  predicate ExitOk(tid: nat, g: Shared, shouldFail: bool) {
    g.reader == Some(tid) && (shouldFail ==> g.claim == Held(tid) && g.observed == Some(false))
  }

  predicate ApplierOk(tid: nat, who: Applier, g: Shared) {
    match who
    case Worker => true
    case NoteLine(source) => source.Daemon? ==> ReaderOk(tid, g)
    case ConnectedLine(source) => source.Daemon? ==> ReaderOk(tid, g)
  }

  /** Only the teardown after its entry holds the lock. */
  predicate LockOk(tid: nat, pc: Pc, g: Shared) { Holding(pc) <==> g.lock == Some(tid) }

  /** What holds of a thread between its steps. */
  predicate ThreadOk(tid: nat, pc: Pc, g: Shared) {
    && LockOk(tid, pc, g)
    && (pc.Teardown? ==> BodyAt(pc.stage, g.body, g.done, g.captured))
    && (pc.Teardown? && pc.cont.AfterExit? ==> ExitOk(tid, g, pc.cont.shouldFail))
    && (pc.ConnectStart? ==> tid == g.connector && g.reader == None)
    && ((pc.Lines? || pc.LineTested?) && pc.source.Daemon? ==> ReaderOk(tid, g))
    && (Applies(pc) ==> ApplierOk(tid, pc.who, g))
    && (pc.ExitStart? ==> ReaderOk(tid, g))
    && (pc.ExitReport? ==> g.done && ExitOk(tid, g, pc.shouldFail))
    && (pc.ExitLast? || pc.ExitReturned? ==> g.done && g.reader == Some(tid))
    && (pc.ConnectClear? || pc.DisconnectClear? ==> g.done)
    && (pc.BringUpReport? ==> g.claim == Held(tid))
  }

  /** What holds of the shared state: the flag and the errors follow the claim, and the body follows the flag. */
  predicate SharedOk(g: Shared) {
    match g.claim
    case NotClaimed => TallyOk(g) && !g.errorFlag && g.errors == []
    case Held(_) => TallyOk(g) && g.errorFlag && g.errors == []
    case Spent(_) => TallyOk(g) && g.errorFlag && |g.errors| == 1 && (g.errors[0] == FromExit ==> g.observed == Some(false))
  }

  predicate TallyOk(g: Shared) {
    && (g.done ==> Complete(g.body, g.captured) && !g.files && !g.gatewayRoute)
    && (!g.done ==> g.files && g.gatewayRoute == g.captured)
    && (!g.done && g.lock == None ==> g.body == UNTOUCHED)
    && (g.reader == None ==> g.observed == None)
  }

  ghost predicate Inv(s: State) {
    && SharedOk(s.g)
    && (s.g.lock.Some? ==> s.g.lock.value in s.threads)
    && (forall t | t in s.threads :: ThreadOk(t, s.threads[t], s.g))
  }

  lemma StartIsOk(connecting: nat, gatewayRoute: bool)
    ensures Inv(Start(connecting, gatewayRoute))
  {}

  /** What one thread may change of the shared state while the others stand still. */
  predicate Change(tid: nat, g: Shared, h: Shared) {
    match g.lock
    case None => (h.lock == None || h.lock == Some(tid)) && h.body == g.body && h.done == g.done && Others(tid, g, h)
    case Some(holder) =>
      if holder == tid then (h.lock == g.lock || h.lock == None) && (g.done ==> h.done) && Others(tid, g, h)
      else h.lock == g.lock && h.body == g.body && h.done == g.done && Others(tid, g, h)
  }

  predicate Others(tid: nat, g: Shared, h: Shared) {
    && (h.claim == g.claim || g.claim == NotClaimed || g.claim == Held(tid))
    && (h.observed == g.observed || g.reader == Some(tid))
    && h.connector == g.connector && h.captured == g.captured
    && (h.reader == g.reader || (g.reader == None && g.connector == tid))
  }

  /** A thread that stands still stays as it should be. */
  lemma OtherKeeps(tid: nat, other: nat, pc: Pc, g: Shared, h: Shared)
    requires other != tid && ThreadOk(other, pc, g) && Change(tid, g, h)
    ensures ThreadOk(other, pc, h)
  {}

  /** A step keeps the shared part and leaves its thread, and the one it starts, as they should be. */
  predicate Good(tid: nat, g: Shared, e: Effect, newThread: nat) {
    && SharedOk(e.g) && Change(tid, g, e.g) && ThreadOk(tid, e.pc, e.g)
    && match e.spawned case None => true case Some(pc) => ThreadOk(newThread, pc, e.g)
  }

  lemma StartFailsKeeps(tid: nat, pc: Pc, g: Shared, c: Choice, e: Effect)
    requires SharedOk(g) && ThreadOk(tid, pc, g) && ConnectStep(tid, pc, g, c) == Some(e)
    requires pc.ConnectStart? && !c.yes
    ensures Good(tid, g, e, c.newThread)
  {}

  lemma SpawnKeeps(tid: nat, pc: Pc, g: Shared, c: Choice, e: Effect)
    requires SharedOk(g) && ThreadOk(tid, pc, g) && ConnectStep(tid, pc, g, c) == Some(e) && g.lock != Some(c.newThread) && c.newThread != tid
    requires pc.ConnectStart? && c.yes
    ensures Good(tid, g, e, c.newThread)
  {}

  lemma StoreKeeps(tid: nat, pc: Pc, g: Shared, c: Choice, e: Effect)
    requires SharedOk(g) && ThreadOk(tid, pc, g) && ConnectStep(tid, pc, g, c) == Some(e) && g.lock != Some(c.newThread) && c.newThread != tid
    requires pc.ConnectStore? || pc.ConnectClear?
    ensures Good(tid, g, e, c.newThread)
  {}

  lemma ConnectKeeps(tid: nat, pc: Pc, g: Shared, c: Choice, e: Effect)
    requires SharedOk(g) && ThreadOk(tid, pc, g) && g.lock != Some(c.newThread) && c.newThread != tid
    requires ConnectStep(tid, pc, g, c) == Some(e)
    ensures Good(tid, g, e, c.newThread)
  {
    if !pc.ConnectStart? {
      StoreKeeps(tid, pc, g, c, e);
    } else if c.yes {
      SpawnKeeps(tid, pc, g, c, e);
    } else {
      StartFailsKeeps(tid, pc, g, c, e);
    }
  }

  lemma LineKeeps(tid: nat, pc: Pc, g: Shared, c: Choice, e: Effect)
    requires SharedOk(g) && ThreadOk(tid, pc, g) && LineStep(pc, g, c) == Some(e)
    ensures Good(tid, g, e, c.newThread)
  {}

  lemma RecordingKeeps(tid: nat, pc: Pc, g: Shared, c: Choice, e: Effect)
    requires SharedOk(g) && ThreadOk(tid, pc, g) && ApplyStep(pc, g, c) == Some(e)
    requires pc.ApplyRead? || pc.ApplyRecord?
    ensures Good(tid, g, e, c.newThread)
  {}

  /** Only the outside effects, the applied flag and the tally of the body may differ. */
  predicate SameBookkeeping(g: Shared, h: Shared) {
    && h.files == g.files && h.gatewayRoute == g.gatewayRoute && h.captured == g.captured
    && h.lock == g.lock && h.done == g.done
    && h.errorFlag == g.errorFlag && h.errors == g.errors && h.claim == g.claim
    && h.observed == g.observed && h.reader == g.reader && h.connector == g.connector
  }

  lemma AppliedKeeps(tid: nat, who: Applier, g: Shared, h: Shared)
    requires SharedOk(g) && g.lock != Some(tid) && ApplierOk(tid, who, g)
    requires SameBookkeeping(g, h) && h.body == g.body
    ensures SharedOk(h) && Change(tid, g, h) && ThreadOk(tid, AfterApply(who), h)
  {}

  lemma Unrecorded(g: Shared)
    ensures SameBookkeeping(g, g.(dnsFile := false))
  {}

  lemma OverlayWritten(tid: nat, pc: Pc, g: Shared, c: Choice, e: Effect)
    requires SharedOk(g) && ThreadOk(tid, pc, g) && ApplyStep(pc, g, c) == Some(e)
    requires pc.ApplyOverlay? && c.yes
    ensures Good(tid, g, e, c.newThread)
  {}

  lemma OverlayRefused(tid: nat, pc: Pc, g: Shared, c: Choice, e: Effect)
    requires SharedOk(g) && ThreadOk(tid, pc, g) && ApplyStep(pc, g, c) == Some(e)
    requires pc.ApplyOverlay? && !c.yes
    ensures Good(tid, g, e, c.newThread)
  {
    Unrecorded(g);
    AppliedKeeps(tid, pc.who, g, g.(dnsFile := false));
  }

  lemma OverlayKeeps(tid: nat, pc: Pc, g: Shared, c: Choice, e: Effect)
    requires SharedOk(g) && ThreadOk(tid, pc, g) && ApplyStep(pc, g, c) == Some(e)
    requires pc.ApplyOverlay?
    ensures Good(tid, g, e, c.newThread)
  {
    if c.yes {
      OverlayWritten(tid, pc, g, c, e);
    } else {
      OverlayRefused(tid, pc, g, c, e);
    }
  }

  lemma MarkKeeps(tid: nat, pc: Pc, g: Shared, c: Choice, e: Effect)
    requires SharedOk(g) && ThreadOk(tid, pc, g) && ApplyStep(pc, g, c) == Some(e)
    requires pc.ApplyMark?
    ensures Good(tid, g, e, c.newThread)
  {}

  lemma AnnounceKeeps(tid: nat, pc: Pc, g: Shared, c: Choice, e: Effect)
    requires SharedOk(g) && ThreadOk(tid, pc, g) && ApplyStep(pc, g, c) == Some(e)
    requires pc.Announce?
    ensures Good(tid, g, e, c.newThread)
  {}

  lemma ExitReadKeeps(tid: nat, pc: Pc, g: Shared, e: Effect, newThread: nat)
    requires SharedOk(g) && ThreadOk(tid, pc, g) && ExitStep(tid, pc, g) == Some(e)
    requires pc.ExitStart?
    ensures Good(tid, g, e, newThread)
  {}

  lemma ExitReportKeeps(tid: nat, pc: Pc, g: Shared, e: Effect, newThread: nat)
    requires SharedOk(g) && ThreadOk(tid, pc, g) && ExitStep(tid, pc, g) == Some(e)
    requires pc.ExitReport?
    ensures Good(tid, g, e, newThread)
  {}

  lemma ExitLastKeeps(tid: nat, pc: Pc, g: Shared, e: Effect, newThread: nat)
    requires SharedOk(g) && ThreadOk(tid, pc, g) && ExitStep(tid, pc, g) == Some(e)
    requires pc.ExitLast?
    ensures Good(tid, g, e, newThread)
  {}

  lemma ExitKeeps(tid: nat, pc: Pc, g: Shared, c: Choice, e: Effect)
    requires SharedOk(g) && ThreadOk(tid, pc, g) && ExitStep(tid, pc, g) == Some(e)
    ensures Good(tid, g, e, c.newThread)
  {
    if pc.ExitStart? {
      ExitReadKeeps(tid, pc, g, e, c.newThread);
    } else if pc.ExitReport? {
      ExitReportKeeps(tid, pc, g, e, c.newThread);
    } else {
      ExitLastKeeps(tid, pc, g, e, c.newThread);
    }
  }

  lemma LaunchKeeps(tid: nat, pc: Pc, g: Shared, c: Choice, e: Effect)
    requires SharedOk(g) && ThreadOk(tid, pc, g) && LaunchStep(pc, g, c) == Some(e)
    ensures Good(tid, g, e, c.newThread)
  {}

  lemma ReportKeeps(tid: nat, pc: Pc, g: Shared, c: Choice, e: Effect)
    requires SharedOk(g) && ThreadOk(tid, pc, g) && ReportStep(tid, pc, g) == Some(e)
    ensures Good(tid, g, e, c.newThread)
  {}

  lemma EstablishKeeps(tid: nat, pc: Pc, g: Shared, c: Choice, e: Effect)
    requires SharedOk(g) && ThreadOk(tid, pc, g) && EstablishStep(pc, g) == Some(e)
    ensures Good(tid, g, e, c.newThread)
  {}

  lemma CancelKeeps(tid: nat, pc: Pc, g: Shared, c: Choice, e: Effect)
    requires SharedOk(g) && ThreadOk(tid, pc, g) && DisconnectStep(pc, g, c) == Some(e)
    requires pc.DisconnectStart?
    ensures Good(tid, g, e, c.newThread)
  {}

  lemma FindKeeps(tid: nat, pc: Pc, g: Shared, c: Choice, e: Effect)
    requires SharedOk(g) && ThreadOk(tid, pc, g) && DisconnectStep(pc, g, c) == Some(e) && g.lock != Some(c.newThread) && c.newThread != tid
    requires pc.DisconnectRead?
    ensures Good(tid, g, e, c.newThread)
  {}

  lemma StopKeeps(tid: nat, pc: Pc, g: Shared, newThread: nat, e: Effect)
    requires SharedOk(g) && ThreadOk(tid, pc, g) && StopStep(pc, g) == Some(e)
    ensures Good(tid, g, e, newThread)
  {}

  lemma LockingKeeps(tid: nat, pc: Pc, g: Shared, c: Choice, e: Effect)
    requires SharedOk(g) && ThreadOk(tid, pc, g) && pc.Teardown? && TeardownStep(tid, pc, g, c) == Some(e)
    requires pc.stage.Enter? || pc.stage.Check?
    ensures Good(tid, g, e, c.newThread)
  {}

  lemma ChoosingKeeps(tid: nat, pc: Pc, g: Shared, c: Choice, e: Effect)
    requires SharedOk(g) && ThreadOk(tid, pc, g) && pc.Teardown? && TeardownStep(tid, pc, g, c) == Some(e)
    requires pc.stage.Choose? || pc.stage.ReadFile?
    ensures Good(tid, g, e, c.newThread)
  {}

  /** A step of the body: on to a later stage with the tally that stage asks for, and nothing else changed. */
  predicate Onward(pc: Pc, g: Shared, e: Effect) {
    && pc.Teardown? && e.pc.Teardown? && e.pc.cont == pc.cont
    && !e.pc.stage.Enter? && BodyAt(e.pc.stage, e.g.body, false, g.captured)
    && e.spawned.None? && SameBookkeeping(g, e.g)
  }

  lemma BodyStepKeeps(tid: nat, pc: Pc, g: Shared, next: Pc, h: Shared)
    requires SharedOk(g) && ThreadOk(tid, pc, g) && InBody(pc) && !g.done
    requires SameBookkeeping(g, h) && next.Teardown? && next.cont == pc.cont
    requires !next.stage.Enter? && BodyAt(next.stage, h.body, false, g.captured)
    ensures SharedOk(h) && Change(tid, g, h) && ThreadOk(tid, next, h)
  {}

  lemma BodyHolds(tid: nat, pc: Pc, g: Shared)
    requires ThreadOk(tid, pc, g) && InBody(pc)
    ensures !g.done && BodyAt(pc.stage, g.body, false, g.captured)
  {}

  lemma DnsEffects(g: Shared, raises: bool)
    ensures SameBookkeeping(g, AfterDns(g, raises))
  {}

  lemma RouteEffects(g: Shared)
    ensures SameBookkeeping(g, AfterRoute(g))
  {}

  lemma WipeEffects(g: Shared)
    ensures SameBookkeeping(g, AfterWipe(g))
  {}

  lemma DnsRestored(pc: Pc, g: Shared, c: Choice)
    requires InBody(pc) && pc.stage.Dns? && BodyAt(pc.stage, g.body, false, g.captured)
    ensures Onward(pc, g, BodyStep(pc, g, c))
  {
    DnsEffects(g, c.yes);
  }

  lemma RouteSkipped(pc: Pc, g: Shared, c: Choice)
    requires InBody(pc) && pc.stage.Route? && BodyAt(pc.stage, g.body, false, g.captured) && !pc.stage.route
    ensures Onward(pc, g, BodyStep(pc, g, c))
  {}

  lemma RouteRestored(pc: Pc, g: Shared, c: Choice)
    requires InBody(pc) && pc.stage.Route? && BodyAt(pc.stage, g.body, false, g.captured) && pc.stage.route
    ensures Onward(pc, g, BodyStep(pc, g, c))
  {
    RouteEffects(g);
  }

  lemma WipeOnward(pc: Pc, g: Shared, c: Choice)
    requires InBody(pc) && pc.stage.Wipe? && BodyAt(pc.stage, g.body, false, g.captured)
    ensures Onward(pc, g, BodyStep(pc, g, c))
  {
    WipeEffects(g);
  }

  lemma OnwardKeeps(tid: nat, pc: Pc, g: Shared, e: Effect, newThread: nat)
    requires SharedOk(g) && ThreadOk(tid, pc, g) && InBody(pc) && !g.done && Onward(pc, g, e)
    ensures Good(tid, g, e, newThread)
  {
    BodyStepKeeps(tid, pc, g, e.pc, e.g);
  }

  lemma BodyKeeps(tid: nat, pc: Pc, g: Shared, c: Choice)
    requires SharedOk(g) && ThreadOk(tid, pc, g) && InBody(pc)
    ensures Good(tid, g, BodyStep(pc, g, c), c.newThread)
  {
    BodyHolds(tid, pc, g);
    match pc.stage {
      case Dns(_, _) => DnsRestored(pc, g, c);
      case Route(route, _) => if route { RouteRestored(pc, g, c); } else { RouteSkipped(pc, g, c); }
      case Wipe(_) => WipeOnward(pc, g, c);
    }
    OnwardKeeps(tid, pc, g, BodyStep(pc, g, c), c.newThread);
  }

  lemma LeaveKeeps(tid: nat, pc: Pc, g: Shared, c: Choice, e: Effect)
    requires SharedOk(g) && ThreadOk(tid, pc, g) && pc.Teardown? && TeardownStep(tid, pc, g, c) == Some(e)
    requires pc.stage.Leave?
    ensures Good(tid, g, e, c.newThread)
  {}

  lemma TeardownKeeps(tid: nat, pc: Pc, g: Shared, c: Choice, e: Effect)
    requires SharedOk(g) && ThreadOk(tid, pc, g) && pc.Teardown? && TeardownStep(tid, pc, g, c) == Some(e)
    ensures Good(tid, g, e, c.newThread)
  {
    match pc.stage
    case Enter => LockingKeeps(tid, pc, g, c, e);
    case Check => LockingKeeps(tid, pc, g, c, e);
    case Choose => ChoosingKeeps(tid, pc, g, c, e);
    case ReadFile => ChoosingKeeps(tid, pc, g, c, e);
    case Dns(_, _) => BodyKeeps(tid, pc, g, c);
    case Route(_, _) => BodyKeeps(tid, pc, g, c);
    case Wipe(_) => BodyKeeps(tid, pc, g, c);
    case Leave(_) => LeaveKeeps(tid, pc, g, c, e);
  }

  lemma StepKeeps(tid: nat, pc: Pc, g: Shared, c: Choice, e: Effect)
    requires SharedOk(g) && ThreadOk(tid, pc, g) && g.lock != Some(c.newThread) && c.newThread != tid
    requires Step(tid, pc, g, c) == Some(e)
    ensures Good(tid, g, e, c.newThread)
  {
    if pc.Teardown? {
      TeardownKeeps(tid, pc, g, c, e);
    } else if pc.ConnectStart? || pc.ConnectStore? || pc.ConnectClear? {
      ConnectKeeps(tid, pc, g, c, e);
    } else if pc.Lines? || pc.LineTested? {
      LineKeeps(tid, pc, g, c, e);
    } else if pc.ApplyRead? || pc.ApplyRecord? {
      RecordingKeeps(tid, pc, g, c, e);
    } else if pc.ApplyOverlay? {
      OverlayKeeps(tid, pc, g, c, e);
    } else if pc.ApplyMark? {
      MarkKeeps(tid, pc, g, c, e);
    } else if pc.Announce? {
      AnnounceKeeps(tid, pc, g, c, e);
    } else if pc.ExitStart? || pc.ExitReport? || pc.ExitLast? {
      ExitKeeps(tid, pc, g, c, e);
    } else if pc.DisconnectStart? {
      CancelKeeps(tid, pc, g, c, e);
    } else if pc.DisconnectRead? {
      FindKeeps(tid, pc, g, c, e);
    } else if pc.DisconnectClear? || pc.Stopping? {
      StopKeeps(tid, pc, g, c.newThread, e);
    } else if pc.BringUpStart? || pc.BringUpLoaded? || pc.BringUpInitiated? {
      LaunchKeeps(tid, pc, g, c, e);
    } else if pc.BringUpClaim? || pc.BringUpReport? {
      ReportKeeps(tid, pc, g, c, e);
    } else {
      EstablishKeeps(tid, pc, g, c, e);
    }
  }

  /** Every move keeps the invariant. */
  lemma MoveKeeps(s: State, m: Move)
    requires Inv(s) && Next(s, m).Some?
    ensures Inv(Next(s, m).value) && Next(s, m).value.g.captured == s.g.captured
  {
    var t := Next(s, m).value;
    if m.Run? {
      StepKeeps(m.tid, s.threads[m.tid], s.g, m.choice, Step(m.tid, s.threads[m.tid], s.g, m.choice).value);
      forall x | x in t.threads ensures ThreadOk(x, t.threads[x], t.g) {
        if x in s.threads && x != m.tid { OtherKeeps(m.tid, x, s.threads[x], s.g, t.g); }
      }
    }
  }

  // ----- whole runs -----

  /** A run from the start of an attempt. */
  ghost predicate IsRun(run: seq<State>) {
    && run != []
    && (exists connecting, gatewayRoute :: run[0] == Start(connecting, gatewayRoute))
    && forall i: nat | i < |run| - 1 :: Linked(run, i)
  }

  ghost predicate Linked(run: seq<State>, i: nat)
    requires i + 1 < |run|
  {
    Follows(run[i], run[i + 1])
  }

  ghost predicate Follows(s: State, t: State) { exists m :: Next(s, m) == Some(t) }

  lemma FollowsBefore(run: seq<State>, j: nat)
    requires IsRun(run) && 0 < j < |run|
    ensures Follows(run[j - 1], run[j])
  {
    assert Linked(run, j - 1);
  }

  lemma FollowsKeeps(s: State, t: State)
    requires Inv(s) && Follows(s, t)
    ensures Inv(t) && t.g.captured == s.g.captured
  {
    var m :| Next(s, m) == Some(t);
    MoveKeeps(s, m);
  }

  lemma {:induction false} RunKeeps(run: seq<State>, i: nat)
    requires IsRun(run) && i < |run|
    ensures Inv(run[i]) && run[i].g.captured == run[0].g.gatewayRoute
  {
    if i == 0 {
      var connecting, gatewayRoute :| run[0] == Start(connecting, gatewayRoute);
      StartIsOk(connecting, gatewayRoute);
    } else {
      RunKeeps(run, i - 1);
      FollowsBefore(run, i);
      FollowsKeeps(run[i - 1], run[i]);
    }
  }

  /**
   In every interleaving each teardown action happens at most once, and none after a later one of DNS,
   route, wipe. Outside the lock the body has run as a whole or not at all; when the flag is set, DNS was
   restored, then the route if one was captured before the attempt, and then the files were wiped.
   */
  lemma TeardownOnceInOrder(run: seq<State>, i: nat)
    requires IsRun(run) && i < |run|
    ensures var t := run[i].g.body; t.inOrder && t.dns <= 1 && t.route <= 1 && t.wipes <= 1
    ensures !run[i].g.done && run[i].g.lock == None ==> run[i].g.body == UNTOUCHED
    ensures run[i].g.done ==> run[i].g.body.dns == 1 && run[i].g.body.wipes == 1
    ensures run[i].g.done && run[0].g.gatewayRoute ==> run[i].g.body.route == 1
    ensures run[i].g.done ==> !run[i].g.files && !run[i].g.gatewayRoute
  {
    RunKeeps(run, i);
    var s := run[i];
    if s.g.lock.Some? {
      var holder := s.g.lock.value;
      assert ThreadOk(holder, s.threads[holder], s.g);
    }
  }

  /** When the exit callback returns, the whole body has run; the only other way out of it is an exception. */
  lemma ExitMeansDone(run: seq<State>, i: nat, tid: nat)
    requires IsRun(run) && i < |run| && tid in run[i].threads && run[i].threads[tid].ExitReturned?
    ensures run[i].g.done && Complete(run[i].g.body, run[0].g.gatewayRoute)
  {
    RunKeeps(run, i);
    assert ThreadOk(tid, run[i].threads[tid], run[i].g);
  }

  /** A step that keeps the lock, or leaves with the teardown done, or nothing restored. */
  lemma BodyStays(pc: Pc, g: Shared, c: Choice)
    requires InBody(pc)
    ensures Holding(BodyStep(pc, g, c).pc)
  {}

  lemma LockStays(pc: Pc, g: Shared, e: Effect)
    requires pc.Teardown? && pc.stage.Check? && CheckStep(pc, g) == e
    ensures Holding(e.pc) || (g.done && e.g.done)
  {}

  lemma ChooseStays(pc: Pc, g: Shared)
    requires pc.Teardown?
    ensures Holding(ChooseStep(pc, g).pc)
  {}

  lemma ReadLeaves(pc: Pc, g: Shared, c: Choice)
    requires pc.Teardown?
    ensures Holding(ReadStep(pc, g, c).pc) <==> !c.yes
  {}

  lemma LeaveIsDone(pc: Pc, g: Shared)
    requires pc.Teardown? && pc.stage.Leave?
    ensures LeaveStep(pc, g).g.done
  {}

  lemma TeardownSkipped(tid: nat, pc: Pc, g: Shared, c: Choice, e: Effect)
    requires ThreadOk(tid, pc, g) && Holding(pc) && TeardownStep(tid, pc, g, c) == Some(e)
    ensures !Holding(e.pc) && !e.g.done <==> pc.stage.ReadFile? && c.yes
    ensures pc.stage.ReadFile? ==> e.g.body == UNTOUCHED
  {
    match pc.stage
    case Check => LockStays(pc, g, e);
    case Choose => ChooseStays(pc, g);
    case ReadFile => ReadLeaves(pc, g, c);
    case Leave(_) => LeaveIsDone(pc, g);
    case _ => BodyStays(pc, g, c);
  }

  /** A thread leaves the teardown without its having been done exactly when reading the route file raises. */
  lemma OnlyTheRouteFileSkipsIt(s: State, tid: nat, c: Choice, e: Effect)
    requires Inv(s) && tid in s.threads && Holding(s.threads[tid])
    requires TeardownStep(tid, s.threads[tid], s.g, c) == Some(e)
    ensures !Holding(e.pc) && !e.g.done <==> s.threads[tid].stage.ReadFile? && c.yes
    ensures !Holding(e.pc) && !e.g.done ==> e.g.body == UNTOUCHED
  {
    assert ThreadOk(tid, s.threads[tid], s.g);
    TeardownSkipped(tid, s.threads[tid], s.g, c, e);
  }

  /** With a route captured before the attempt the file is never read, so nothing skips the body. */
  lemma CapturedReadsNoFile(run: seq<State>, i: nat, tid: nat)
    requires IsRun(run) && i < |run| && run[0].g.gatewayRoute
    requires tid in run[i].threads && run[i].threads[tid].Teardown?
    ensures !run[i].threads[tid].stage.ReadFile?
  {
    RunKeeps(run, i);
    assert ThreadOk(tid, run[i].threads[tid], run[i].g);
  }

  /** The flagged emitters send at most one startup error between them. */
  lemma AtMostOneStartupError(run: seq<State>, i: nat)
    requires IsRun(run) && i < |run|
    ensures |run[i].g.errors| <= 1
  {
    RunKeeps(run, i);
  }

  /** The exit callback sends none once it saw the session connected or cancelled. */
  lemma NoErrorAfterConnectedOrCancelled(run: seq<State>, i: nat)
    requires IsRun(run) && i < |run| && run[i].g.observed == Some(true)
    ensures FromExit !in run[i].g.errors
  {
    RunKeeps(run, i);
  }

  // ----- every startup failure is reported -----

  lemma WithinOwes(pc: Pc, next: Pc)
    requires pc.Teardown? && WithinTeardown(pc.cont, next)
    ensures next.Died? || (Owes(next) == Owes(pc) && OwesExit(next) == OwesExit(pc))
  {}

  lemma StepReports(tid: nat, pc: Pc, g: Shared, c: Choice, e: Effect)
    requires Step(tid, pc, g, c) == Some(e)
    ensures Reports(tid, pc, g, e)
  {
    if pc.Teardown? { WithinOwes(pc, e.pc); }
  }

  /** The thread still owes the error and nothing was sent, or died owing it, or exactly this error was sent. */
  predicate Due(s: State, tid: nat, o: Origin) {
    || (tid in s.threads && s.g.claim == Held(tid) && s.g.errors == []
        && ((Owes(s.threads[tid]) && OriginOf(s.threads[tid]) == o) || (s.threads[tid].Died? && o == FromExit)))
    || (s.g.claim == Spent(tid) && s.g.errors == [o])
  }

  /** Only the holder of the claim owes an error, and a dead thread owes none that another could send. */
  ghost predicate OnlyHolder(s: State) {
    forall t | t in s.threads && Owes(s.threads[t]) :: s.g.claim == Held(t)
  }

  lemma DueKept(s: State, m: Move, tid: nat, o: Origin)
    requires Inv(s) && OnlyHolder(s) && Due(s, tid, o) && Next(s, m).Some?
    ensures Due(Next(s, m).value, tid, o)
  {
    if m.Run? {
      StepReports(m.tid, s.threads[m.tid], s.g, m.choice, Step(m.tid, s.threads[m.tid], s.g, m.choice).value);
    }
  }

  lemma HolderKept(s: State, m: Move)
    requires Inv(s) && OnlyHolder(s) && Next(s, m).Some?
    ensures OnlyHolder(Next(s, m).value)
  {
    if m.Run? {
      StepReports(m.tid, s.threads[m.tid], s.g, m.choice, Step(m.tid, s.threads[m.tid], s.g, m.choice).value);
    }
  }

  lemma StartHolds(connecting: nat, gatewayRoute: bool)
    ensures OnlyHolder(Start(connecting, gatewayRoute))
  {}

  lemma FollowsHolds(s: State, t: State)
    requires Inv(s) && OnlyHolder(s) && Follows(s, t)
    ensures OnlyHolder(t)
    ensures forall tid, o | Due(s, tid, o) :: Due(t, tid, o)
  {
    var m :| Next(s, m) == Some(t);
    HolderKept(s, m);
    forall tid, o | Due(s, tid, o) ensures Due(t, tid, o) { DueKept(s, m, tid, o); }
  }

  lemma {:induction false} RunHolds(run: seq<State>, i: nat)
    requires IsRun(run) && i < |run|
    ensures OnlyHolder(run[i])
  {
    if i == 0 {
      var connecting, gatewayRoute :| run[0] == Start(connecting, gatewayRoute);
      StartHolds(connecting, gatewayRoute);
    } else {
      RunHolds(run, i - 1);
      RunKeeps(run, i - 1);
      FollowsBefore(run, i);
      FollowsHolds(run[i - 1], run[i]);
    }
  }

  lemma {:induction false} DueStays(run: seq<State>, i: nat, j: nat, tid: nat, o: Origin)
    requires IsRun(run) && i <= j < |run| && Due(run[i], tid, o)
    ensures Due(run[j], tid, o)
  {
    if i < j {
      DueStays(run, i, j - 1, tid, o);
      RunHolds(run, j - 1);
      RunKeeps(run, j - 1);
      FollowsBefore(run, j);
      FollowsHolds(run[j - 1], run[j]);
    }
  }

  /** The thread makes this step from `run[i]` to `run[i + 1]`. */
  predicate Takes(run: seq<State>, i: nat, tid: nat, c: Choice)
    requires i + 1 < |run|
  {
    Next(run[i], Run(tid, c)) == Some(run[i + 1])
  }

  lemma ExitSetsOut(s: State, tid: nat, c: Choice, t: State)
    requires Inv(s) && tid in s.threads && s.threads[tid].ExitStart? && StartFailed(s.g) && Next(s, Run(tid, c)) == Some(t)
    ensures Due(t, tid, FromExit)
  {}

  lemma WorkerSetsOut(s: State, tid: nat, c: Choice, t: State)
    requires Inv(s) && tid in s.threads && s.threads[tid].BringUpClaim? && !s.g.errorFlag && Next(s, Run(tid, c)) == Some(t)
    ensures Due(t, tid, FromWorker)
  {}

  /**
   When the exit callback finds that the start failed, with nobody connected, cancelled or already
   reporting, then by the time it returns exactly its own error was sent; before that it is in the
   teardown or about to send, unless an exception ended it.
   */
  lemma FailedStartIsReported(run: seq<State>, i: nat, j: nat, tid: nat, c: Choice)
    requires IsRun(run) && i < j < |run| && Takes(run, i, tid, c)
    requires tid in run[i].threads && run[i].threads[tid].ExitStart?
    requires var g := run[i].g; g.files && !g.connected && !g.cancelled && !g.errorFlag
    ensures run[j].g.errors == [FromExit] || (run[j].g.errors == [] && tid in run[j].threads)
    ensures tid in run[j].threads && (run[j].threads[tid].ExitLast? || run[j].threads[tid].ExitReturned?) ==>
              run[j].g.errors == [FromExit]
    ensures tid in run[j].threads && run[j].g.errors == [] ==>
              var pc := run[j].threads[tid]; pc.Teardown? || pc.ExitReport? || pc.Died?
  {
    RunKeeps(run, i);
    ExitSetsOut(run[i], tid, c, run[i + 1]);
    DueStays(run, i + 1, j, tid, FromExit);
  }

  /** When the worker finds a failure that nobody has reported, exactly its own error is sent as its next step. */
  lemma FailedBringUpIsReported(run: seq<State>, i: nat, j: nat, tid: nat, c: Choice)
    requires IsRun(run) && i < j < |run| && Takes(run, i, tid, c)
    requires tid in run[i].threads && run[i].threads[tid].BringUpClaim? && !run[i].g.errorFlag
    ensures run[j].g.errors == [FromWorker] || (run[j].g.errors == [] && tid in run[j].threads && run[j].threads[tid].BringUpReport?)
  {
    RunKeeps(run, i);
    WorkerSetsOut(run[i], tid, c, run[i + 1]);
    DueStays(run, i + 1, j, tid, FromWorker);
  }

  /** Once somebody cancelled the worker starts no further command: each of its steps then ends it or takes it to a failure. */
  lemma CancelledStartsNothing(run: seq<State>, i: nat, tid: nat, c: Choice)
    requires IsRun(run) && i + 1 < |run| && run[i].g.cancelled && Takes(run, i, tid, c)
    requires tid in run[i].threads && (run[i].threads[tid].BringUpStart? || run[i].threads[tid].BringUpLoaded?)
    ensures tid in run[i + 1].threads
    ensures var pc := run[i + 1].threads[tid]; pc == Finished || (pc == DisconnectStart && run[i].threads[tid].BringUpLoaded?)
  {}

  // ----- what a thread sets out to do -----

  /** What a thread is bound to reach: the teardown, the cancellation, the flag of a startup error, or the route's restore. */
  datatype Aim = TornDown | Cancelled | Flagged | Routed

  /** It is reached, or the thread is still on its way there; an exception may end it in the teardown. */
  predicate Bound(aim: Aim, pc: Pc, g: Shared) {
    match aim
    case TornDown => g.done || pc.Teardown? || pc.Stopping? || pc.Died?
    case Cancelled => g.cancelled || pc.BringUpClaim? || pc.BringUpReport? || pc.DisconnectStart?
    case Flagged => g.errorFlag || pc.BringUpClaim?
    case Routed => g.body.route > 0 || (pc.Teardown? && HasRoute(pc.stage))
  }

  predicate HasRoute(stage: Stage) {
    match stage
    case Dns(_, route) => route
    case Route(route, _) => route
    case _ => false
  }

  lemma RouteBound(tid: nat, pc: Pc, g: Shared, c: Choice, e: Effect)
    requires pc.Teardown? && HasRoute(pc.stage) && TeardownStep(tid, pc, g, c) == Some(e)
    ensures Bound(Routed, e.pc, e.g)
  {}

  lemma StepLasts(tid: nat, pc: Pc, g: Shared, c: Choice, e: Effect)
    requires Step(tid, pc, g, c) == Some(e)
    ensures Lasts(g, e.g)
  {}

  lemma TeardownBound(tid: nat, pc: Pc, g: Shared, c: Choice, e: Effect)
    requires pc.Teardown? && TeardownStep(tid, pc, g, c) == Some(e)
    ensures Bound(TornDown, e.pc, e.g)
  {
    match pc.stage
    case Enter =>
    case Check =>
    case Choose =>
    case ReadFile =>
    case Leave(_) => LeaveIsDone(pc, g);
    case _ => BodyStays(pc, g, c);
  }

  lemma FailureBound(tid: nat, pc: Pc, g: Shared, e: Effect)
    requires ReportStep(tid, pc, g) == Some(e)
    ensures Bound(Cancelled, e.pc, e.g) && Bound(Flagged, e.pc, e.g) == (g.errorFlag || pc.BringUpClaim?)
  {}

  lemma StepBound(aim: Aim, tid: nat, pc: Pc, g: Shared, c: Choice, e: Effect)
    requires Step(tid, pc, g, c) == Some(e) && Bound(aim, pc, g)
    ensures Bound(aim, e.pc, e.g)
  {
    StepLasts(tid, pc, g, c, e);
    match pc
    case Teardown(stage, _, _) =>
      TeardownBound(tid, pc, g, c, e);
      if HasRoute(stage) { RouteBound(tid, pc, g, c, e); }
    case BringUpClaim => FailureBound(tid, pc, g, e);
    case BringUpReport => FailureBound(tid, pc, g, e);
    case _ =>
  }

  /** In this state the thread is bound for it. */
  predicate BoundIn(s: State, aim: Aim, tid: nat) { tid in s.threads && Bound(aim, s.threads[tid], s.g) }

  lemma MoveBound(s: State, m: Move, aim: Aim, tid: nat)
    requires BoundIn(s, aim, tid) && Next(s, m).Some?
    ensures BoundIn(Next(s, m).value, aim, tid)
  {
    if m.Run? {
      var e := Step(m.tid, s.threads[m.tid], s.g, m.choice).value;
      StepLasts(m.tid, s.threads[m.tid], s.g, m.choice, e);
      if m.tid == tid { StepBound(aim, tid, s.threads[tid], s.g, m.choice, e); }
    }
  }

  lemma FollowsBound(s: State, t: State, aim: Aim, tid: nat)
    requires BoundIn(s, aim, tid) && Follows(s, t)
    ensures BoundIn(t, aim, tid)
  {
    var m :| Next(s, m) == Some(t);
    MoveBound(s, m, aim, tid);
  }

  lemma {:induction false} BoundStays(run: seq<State>, i: nat, j: nat, aim: Aim, tid: nat)
    requires IsRun(run) && i <= j < |run| && BoundIn(run[i], aim, tid)
    ensures BoundIn(run[j], aim, tid)
  {
    if i < j {
      BoundStays(run, i, j - 1, aim, tid);
      FollowsBefore(run, j);
      FollowsBound(run[j - 1], run[j], aim, tid);
    }
  }

  /** The thread has to see to the teardown: the daemon ended or did not start, or there is nobody to wait for. */
  predicate MustTearDown(pc: Pc, g: Shared, c: Choice) {
    pc.ExitStart? || pc.Stopping? || (pc.ConnectStart? && !c.yes) || (pc.DisconnectRead? && (!g.process || c.yes))
  }

  lemma SetsOut(s: State, tid: nat, c: Choice, t: State)
    requires tid in s.threads && MustTearDown(s.threads[tid], s.g, c) && Next(s, Run(tid, c)) == Some(t)
    ensures BoundIn(t, TornDown, tid)
  {}

  lemma StopperSetsOut(s: State, tid: nat, c: Choice, t: State)
    requires tid in s.threads && s.threads[tid].DisconnectRead? && s.g.process && !c.yes && Next(s, Run(tid, c)) == Some(t)
    ensures BoundIn(t, TornDown, c.newThread)
  {}

  /**
   A thread that has to see to the teardown is on its way there until it is done, or an exception ends
   it; a disconnect that does not wait leaves that to the thread it starts.
   */
  lemma SetOutTearsDown(run: seq<State>, i: nat, j: nat, tid: nat, c: Choice)
    requires IsRun(run) && i < j < |run| && Takes(run, i, tid, c) && tid in run[i].threads
    requires MustTearDown(run[i].threads[tid], run[i].g, c) || run[i].threads[tid].DisconnectRead?
    ensures var who := if MustTearDown(run[i].threads[tid], run[i].g, c) then tid else c.newThread;
            && who in run[j].threads
            && (run[j].g.done || run[j].threads[who].Teardown? || run[j].threads[who].Stopping? || run[j].threads[who].Died?)
  {
    if MustTearDown(run[i].threads[tid], run[i].g, c) {
      SetsOut(run[i], tid, c, run[i + 1]);
      BoundStays(run, i + 1, j, TornDown, tid);
    } else {
      StopperSetsOut(run[i], tid, c, run[i + 1]);
      BoundStays(run, i + 1, j, TornDown, c.newThread);
    }
  }

  lemma FoundRouteSetsOut(s: State, tid: nat, c: Choice, t: State)
    requires tid in s.threads && s.threads[tid].Teardown? && s.threads[tid].stage.ReadFile? && !c.yes && c.also
    requires Next(s, Run(tid, c)) == Some(t)
    ensures BoundIn(t, Routed, tid)
  {}

  /** A route found in the file is restored by the time the teardown is done, as a captured one is. */
  lemma FoundRouteIsRestored(run: seq<State>, i: nat, j: nat, tid: nat, c: Choice)
    requires IsRun(run) && i < j < |run| && Takes(run, i, tid, c) && tid in run[i].threads
    requires run[i].threads[tid].Teardown? && run[i].threads[tid].stage.ReadFile? && !c.yes && c.also
    ensures run[j].g.done ==> run[j].g.body.route == 1
  {
    FoundRouteSetsOut(run[i], tid, c, run[i + 1]);
    BoundStays(run, i + 1, j, Routed, tid);
    RunKeeps(run, j);
    assert ThreadOk(tid, run[j].threads[tid], run[j].g);
    if run[j].g.done { NoRouteLeft(tid, run[j].threads[tid], run[j].g); }
  }

  lemma NoRouteLeft(tid: nat, pc: Pc, g: Shared)
    requires SharedOk(g) && ThreadOk(tid, pc, g) && g.done && Bound(Routed, pc, g)
    ensures g.body.route == 1
  {}

  /** The worker's step finds a failure: the daemon is not ready in time, or a command fails. */
  predicate WorkerFails(pc: Pc, g: Shared, c: Choice) {
    match pc
    case BringUpStart => !g.cancelled && !g.exited && c.yes
    case BringUpLoaded => !c.yes
    case BringUpInitiated => !c.yes
    case _ => false
  }

  /** A failure the worker reports itself; the daemon and the loading have reported theirs. */
  predicate WorkerReports(pc: Pc, c: Choice) { pc.BringUpInitiated? || (pc.BringUpStart? && c.also) }

  lemma WorkerBound(s: State, tid: nat, c: Choice, t: State)
    requires tid in s.threads && WorkerFails(s.threads[tid], s.g, c) && Next(s, Run(tid, c)) == Some(t)
    ensures BoundIn(t, Cancelled, tid)
    ensures WorkerReports(s.threads[tid], c) ==> BoundIn(t, Flagged, tid)
  {}

  /** A worker that failed cancels the attempt; before that it reports what is its own to report. */
  lemma FailedWorkerCancels(run: seq<State>, i: nat, j: nat, tid: nat, c: Choice)
    requires IsRun(run) && i < j < |run| && Takes(run, i, tid, c)
    requires tid in run[i].threads && WorkerFails(run[i].threads[tid], run[i].g, c)
    ensures tid in run[j].threads
    ensures var pc := run[j].threads[tid]; run[j].g.cancelled || pc.BringUpClaim? || pc.BringUpReport? || pc.DisconnectStart?
    ensures WorkerReports(run[i].threads[tid], c) ==> run[j].g.errorFlag || run[j].threads[tid].BringUpClaim?
  {
    WorkerBound(run[i], tid, c, run[i + 1]);
    BoundStays(run, i + 1, j, Cancelled, tid);
    if WorkerReports(run[i].threads[tid], c) { BoundStays(run, i + 1, j, Flagged, tid); }
  }

  // ----- every attempt is torn down -----

  predicate ByReader(who: Applier) { who == NoteLine(Daemon) || who == ConnectedLine(Daemon) }

  /** The connecting thread before the daemon, then the daemon's reader, on the way to the teardown. */
  predicate SeesToIt(pc: Pc, g: Shared) {
    || Bound(TornDown, pc, g) || pc.ConnectStart? || pc.ExitStart?
    || ((pc.Lines? || pc.LineTested?) && pc.source.Daemon?)
    || (Applies(pc) && ByReader(pc.who))
  }

  ghost predicate Attended(s: State) { exists t :: t in s.threads && SeesToIt(s.threads[t], s.g) }

  lemma SightLasts(pc: Pc, g: Shared, h: Shared)
    requires SeesToIt(pc, g) && Lasts(g, h)
    ensures SeesToIt(pc, h)
  {}

  lemma LineSees(pc: Pc, g: Shared, c: Choice, e: Effect)
    requires SeesToIt(pc, g) && LineStep(pc, g, c) == Some(e)
    ensures SeesToIt(e.pc, e.g)
  {}

  lemma ApplySees(pc: Pc, g: Shared, c: Choice, e: Effect)
    requires SeesToIt(pc, g) && ApplyStep(pc, g, c) == Some(e)
    ensures SeesToIt(e.pc, e.g)
  {}

  lemma ConnectSees(tid: nat, pc: Pc, g: Shared, c: Choice, e: Effect)
    requires SeesToIt(pc, g) && ConnectStep(tid, pc, g, c) == Some(e)
    ensures SeesToIt(e.pc, e.g) || (e.spawned.Some? && SeesToIt(e.spawned.value, e.g))
  {}

  lemma DoneSees(pc: Pc, g: Shared)
    requires g.done
    ensures SeesToIt(pc, g)
  {}

  lemma StepSees(tid: nat, pc: Pc, g: Shared, c: Choice, e: Effect)
    requires SeesToIt(pc, g) && Step(tid, pc, g, c) == Some(e)
    ensures SeesToIt(e.pc, e.g) || (e.spawned.Some? && SeesToIt(e.spawned.value, e.g))
  {
    StepLasts(tid, pc, g, c, e);
    if g.done {
      DoneSees(e.pc, e.g);
    } else if pc.ConnectStart? {
      ConnectSees(tid, pc, g, c, e);
    } else if pc.Lines? || pc.LineTested? {
      LineSees(pc, g, c, e);
    } else if Applies(pc) {
      ApplySees(pc, g, c, e);
    } else if !pc.ExitStart? {
      StepBound(TornDown, tid, pc, g, c, e);
      BoundSees(e.pc, e.g);
    }
  }

  lemma BoundSees(pc: Pc, g: Shared)
    requires Bound(TornDown, pc, g)
    ensures SeesToIt(pc, g)
  {}

  lemma MoveAttended(s: State, m: Move)
    requires Attended(s) && Next(s, m).Some?
    ensures Attended(Next(s, m).value)
  {
    var t :| t in s.threads && SeesToIt(s.threads[t], s.g);
    var next := Next(s, m).value;
    if m.Run? {
      var e := Step(m.tid, s.threads[m.tid], s.g, m.choice).value;
      StepLasts(m.tid, s.threads[m.tid], s.g, m.choice, e);
      if m.tid == t {
        StepSees(t, s.threads[t], s.g, m.choice, e);
        assert SeesToIt(next.threads[t], next.g) || SeesToIt(next.threads[m.choice.newThread], next.g);
      } else {
        SightLasts(s.threads[t], s.g, e.g);
        assert SeesToIt(next.threads[t], next.g);
      }
    } else {
      assert SeesToIt(next.threads[t], next.g);
    }
  }

  lemma FollowsAttended(s: State, t: State)
    requires Attended(s) && Follows(s, t)
    ensures Attended(t)
  {
    var m :| Next(s, m) == Some(t);
    MoveAttended(s, m);
  }

  lemma {:induction false} RunAttended(run: seq<State>, i: nat)
    requires IsRun(run) && i < |run|
    ensures Attended(run[i])
  {
    if i == 0 {
      var connecting, gatewayRoute :| run[0] == Start(connecting, gatewayRoute);
      assert SeesToIt(run[0].threads[connecting], run[0].g);
    } else {
      RunAttended(run, i - 1);
      FollowsBefore(run, i);
      FollowsAttended(run[i - 1], run[i]);
    }
  }

  /** No thread has a step left. */
  ghost predicate AtRest(s: State) {
    forall t | t in s.threads :: s.threads[t].Finished? || s.threads[t].ExitReturned? || s.threads[t].Died?
  }

  /** However an attempt went, when every thread has come to rest it was torn down, unless an exception ended one of them. */
  lemma RestMeansTornDown(run: seq<State>, i: nat)
    requires IsRun(run) && i < |run| && AtRest(run[i])
    ensures run[i].g.done || exists t :: t in run[i].threads && run[i].threads[t].Died?
  {
    RunAttended(run, i);
    var t :| t in run[i].threads && SeesToIt(run[i].threads[t], run[i].g);
  }

  // ----- a record without an overlay -----

  /** A record of the link without an overlay is there only while somebody is about to write the overlay. */
  ghost predicate RecordAwaited(s: State) {
    s.g.dnsFile && !s.g.overlay ==> exists t :: t in s.threads && s.threads[t].ApplyOverlay?
  }

  predicate Awaits(pc: Pc, g: Shared, e: Effect) {
    e.g.dnsFile && !e.g.overlay ==> e.pc.ApplyOverlay? || (g.dnsFile && !g.overlay && !pc.ApplyOverlay?)
  }

  lemma TeardownAwaits(tid: nat, pc: Pc, g: Shared, c: Choice, e: Effect)
    requires pc.Teardown? && TeardownStep(tid, pc, g, c) == Some(e)
    ensures Awaits(pc, g, e)
  {}

  lemma RecordedAwaits(pc: Pc, g: Shared, c: Choice, e: Effect)
    requires pc.ApplyRecord? && ApplyStep(pc, g, c) == Some(e)
    ensures e.pc.ApplyOverlay?
  {}

  lemma WrittenAwaits(pc: Pc, g: Shared, c: Choice, e: Effect)
    requires pc.ApplyOverlay? && ApplyStep(pc, g, c) == Some(e)
    ensures e.g.overlay || !e.g.dnsFile
  {}

  lemma ApplyAwaits(pc: Pc, g: Shared, c: Choice, e: Effect)
    requires ApplyStep(pc, g, c) == Some(e)
    ensures Awaits(pc, g, e)
  {
    match pc
    case ApplyRecord(_) => RecordedAwaits(pc, g, c, e);
    case ApplyOverlay(_) => WrittenAwaits(pc, g, c, e);
    case _ => UnrecordedStep(pc, g, c, e);
  }

  lemma UnrecordedStep(pc: Pc, g: Shared, c: Choice, e: Effect)
    requires !Writing(pc) && ApplyStep(pc, g, c) == Some(e)
    ensures e.g.overlay == g.overlay && e.g.dnsFile == g.dnsFile
  {}

  lemma StepAwaits(tid: nat, pc: Pc, g: Shared, c: Choice, e: Effect)
    requires Step(tid, pc, g, c) == Some(e)
    ensures Awaits(pc, g, e)
  {
    if pc.Teardown? { TeardownAwaits(tid, pc, g, c, e); }
    else if Applies(pc) { ApplyAwaits(pc, g, c, e); }
  }

  lemma MoveAwaited(s: State, m: Move)
    requires RecordAwaited(s) && Next(s, m).Some?
    ensures RecordAwaited(Next(s, m).value)
  {
    var next := Next(s, m).value;
    if m.Run? {
      StepAwaits(m.tid, s.threads[m.tid], s.g, m.choice, Step(m.tid, s.threads[m.tid], s.g, m.choice).value);
      assert m.tid in next.threads;
    }
    if s.g.dnsFile && !s.g.overlay {
      var t :| t in s.threads && s.threads[t].ApplyOverlay?;
      assert t in next.threads;
    }
  }

  lemma FollowsAwaited(s: State, t: State)
    requires RecordAwaited(s) && Follows(s, t)
    ensures RecordAwaited(t)
  {
    var m :| Next(s, m) == Some(t);
    MoveAwaited(s, m);
  }

  /** So a failed apply leaves no record behind, and neither does the teardown. */
  lemma {:induction false} RecordIsAwaited(run: seq<State>, i: nat)
    requires IsRun(run) && i < |run|
    ensures RecordAwaited(run[i])
  {
    if i > 0 {
      RecordIsAwaited(run, i - 1);
      FollowsBefore(run, i);
      FollowsAwaited(run[i - 1], run[i]);
    }
  }

  /** Once the teardown is done no overlay can be started: whoever wants to apply finds no files. */
  lemma NoApplyStartsAfterTeardown(run: seq<State>, i: nat, tid: nat, c: Choice)
    requires IsRun(run) && i < |run| && run[i].g.done
    requires tid in run[i].threads && run[i].threads[tid].ApplyRead?
    ensures Step(tid, run[i].threads[tid], run[i].g, c) == Some(Moves(AfterApply(run[i].threads[tid].who), run[i].g))
  {
    RunKeeps(run, i);
  }

  // ----- when the overlay stays off after the teardown -----

  ghost predicate NobodyWrites(s: State) { forall t | t in s.threads :: !Writing(s.threads[t]) }

  lemma OnlyChecks(stage: Stage, g: Shared)
    requires g.done && BodyAt(stage, g.body, g.done, g.captured)
    ensures stage.Enter? || stage.Check?
  {}

  lemma QuietTeardown(tid: nat, pc: Pc, g: Shared, c: Choice, e: Effect)
    requires g.done && pc.Teardown? && (pc.stage.Enter? || pc.stage.Check?) && TeardownStep(tid, pc, g, c) == Some(e)
    ensures Untied(g, e)
  {}

  lemma QuietApply(pc: Pc, g: Shared, c: Choice, e: Effect)
    requires g.done && !g.files && !Writing(pc) && ApplyStep(pc, g, c) == Some(e)
    ensures Untied(g, e)
  {
    match pc
    case ApplyRead(_) => assert Untied(g, e);
    case ApplyMark(_) => assert Untied(g, e);
    case Announce(_) => assert Untied(g, e);
    case _ =>
  }

  lemma QuietStep(tid: nat, pc: Pc, g: Shared, c: Choice, e: Effect)
    requires SharedOk(g) && ThreadOk(tid, pc, g) && g.done && !Writing(pc) && Step(tid, pc, g, c) == Some(e)
    ensures Untied(g, e)
  {
    if pc.Teardown? {
      OnlyChecks(pc.stage, g);
      QuietTeardown(tid, pc, g, c, e);
    } else if Applies(pc) {
      QuietApply(pc, g, c, e);
    }
  }

  lemma QuietMove(s: State, m: Move)
    requires Inv(s) && s.g.done && NobodyWrites(s) && Next(s, m).Some?
    ensures var t := Next(s, m).value; t.g.done && NobodyWrites(t) && t.g.overlay == s.g.overlay
  {
    if m.Run? { QuietStep(m.tid, s.threads[m.tid], s.g, m.choice, Step(m.tid, s.threads[m.tid], s.g, m.choice).value); }
  }

  lemma QuietFollows(s: State, t: State)
    requires Inv(s) && s.g.done && NobodyWrites(s) && Follows(s, t)
    ensures t.g.done && NobodyWrites(t) && t.g.overlay == s.g.overlay
  {
    var m :| Next(s, m) == Some(t);
    QuietMove(s, m);
  }

  lemma QuietNext(run: seq<State>, j: nat)
    requires IsRun(run) && 0 < j < |run| && run[j - 1].g.done && NobodyWrites(run[j - 1])
    ensures run[j].g.done && NobodyWrites(run[j]) && run[j].g.overlay == run[j - 1].g.overlay
  {
    RunKeeps(run, j - 1);
    FollowsBefore(run, j);
    QuietFollows(run[j - 1], run[j]);
  }

  /** Once the teardown is done and no overlay is under way, the link is not overlaid in the rest of any run unless it already is. */
  lemma {:induction false} OverlayStaysOff(run: seq<State>, i: nat, j: nat)
    requires IsRun(run) && i <= j < |run|
    requires run[i].g.done && NobodyWrites(run[i])
    ensures run[j].g.done && NobodyWrites(run[j]) && run[j].g.overlay == run[i].g.overlay
  {
    if i < j {
      OverlayStaysOff(run, i, j - 1);
      QuietNext(run, j);
    }
  }

  lemma {:induction false} IdBeyond(ids: set<nat>) returns (id: nat)
    ensures forall x | x in ids :: x < id
  {
    if ids == {} {
      id := 0;
    } else {
      var x :| x in ids;
      var rest := IdBeyond(ids - {x});
      id := if x < rest then rest else x + 1;
      assert forall y | y in ids :: y == x || y in ids - {x};
    }
  }

  /** A run in which a thread writes the overlay it has set out to write, at most two moves later. */
  lemma LateWrite(run: seq<State>, tid: nat) returns (longer: seq<State>)
    requires IsRun(run) && tid in Last(run).threads && Writing(Last(run).threads[tid])
    ensures IsRun(longer) && run <= longer && |longer| <= |run| + 2 && Last(longer).g.overlay
  {
    var id := IdBeyond(Last(run).threads.Keys);
    var choice := Choice(true, true, id);
    longer := run;
    if Last(run).threads[tid].ApplyRecord? {
      longer := StepOn(run, tid, choice, Moves(ApplyOverlay(Last(run).threads[tid].who), Last(run).g.(dnsFile := true)));
    }
    longer := StepOn(longer, tid, choice, Moves(ApplyMark(Last(longer).threads[tid].who), Last(longer).g.(overlay := true)));
  }

  /** After the teardown an overlay can come back exactly when one was under way. */
  lemma OverlayReturnsWhen(run: seq<State>)
    requires IsRun(run) && Last(run).g.done && !Last(run).g.overlay
    ensures (exists longer :: IsRun(longer) && run <= longer && Last(longer).g.overlay) <==> !NobodyWrites(Last(run))
  {
    if NobodyWrites(Last(run)) {
      forall longer | IsRun(longer) && run <= longer ensures !Last(longer).g.overlay {
        assert longer[|run| - 1] == Last(run);
        OverlayStaysOff(longer, |run| - 1, |longer| - 1);
      }
    } else {
      var tid :| tid in Last(run).threads && Writing(Last(run).threads[tid]);
      var longer := LateWrite(run, tid);
    }
  }

  // ----- extending a run -----

  function Last(run: seq<State>): State
    requires run != []
  {
    run[|run| - 1]
  }

  const YES := Choice(true, true, 9)
  const NO := Choice(false, false, 9)

  lemma Advance(run: seq<State>, m: Move) returns (longer: seq<State>)
    requires IsRun(run) && Next(run[|run| - 1], m).Some?
    ensures IsRun(longer) && run <= longer && |longer| == |run| + 1 && longer[|longer| - 1] == Next(run[|run| - 1], m).value
  {
    longer := run + [Next(run[|run| - 1], m).value];
    assert longer[0] == run[0];
    forall i: nat | i < |longer| - 1 ensures Linked(longer, i) {
      if i < |run| - 1 {
        assert Linked(run, i) && longer[i] == run[i] && longer[i + 1] == run[i + 1];
      } else {
        assert Next(longer[i], m) == Some(longer[i + 1]);
      }
    }
  }

  /** A run goes on with a step of one thread that starts no other. */
  lemma StepOn(run: seq<State>, tid: nat, c: Choice, e: Effect) returns (longer: seq<State>)
    requires IsRun(run) && tid in Last(run).threads && c.newThread !in Last(run).threads
    requires Step(tid, Last(run).threads[tid], Last(run).g, c) == Some(e) && e.spawned == None
    ensures IsRun(longer) && run <= longer && |longer| == |run| + 1 && Last(longer) == State(Last(run).threads[tid := e.pc], e.g)
  {
    longer := Advance(run, Run(tid, c));
  }

  /** A run goes on with a step that starts a thread. */
  lemma SpawnOn(run: seq<State>, tid: nat, c: Choice, e: Effect) returns (longer: seq<State>)
    requires IsRun(run) && tid in Last(run).threads && c.newThread !in Last(run).threads
    requires Step(tid, Last(run).threads[tid], Last(run).g, c) == Some(e) && e.spawned.Some?
    ensures IsRun(longer) && run <= longer && |longer| == |run| + 1 && Last(longer) == State(Last(run).threads[tid := e.pc][c.newThread := e.spawned.value], e.g)
  {
    longer := Advance(run, Run(tid, c));
  }

  // ----- runs that show the limits -----

  /** The process started and the reader handles lines. */
  lemma ReaderStarted(gatewayRoute: bool) returns (run: seq<State>)
    ensures IsRun(run) && Last(run).threads == map[0 := ConnectStore, 1 := Lines(Daemon)]
    ensures Last(run).g == Start(0, gatewayRoute).g.(reader := Some(1))
  {
    run := [Start(0, gatewayRoute)];
    run := SpawnOn(run, 0, Choice(true, false, 1), Effect(ConnectStore, Last(run).g.(reader := Some(1)), Some(Lines(Daemon))));
  }

  /** The worker started as well. */
  lemma BothStarted() returns (run: seq<State>)
    ensures IsRun(run) && Last(run).threads == map[0 := Finished, 1 := Lines(Daemon), 2 := BringUpStart]
    ensures var g := Last(run).g;
            && g.files && g.gatewayRoute && g.process && !g.connected && !g.dnsApplied && g.lock == None && !g.done
            && !g.cancelled && !g.exited && g.errors == [] && g.body == UNTOUCHED
  {
    run := ReaderStarted(true);
    run := SpawnOn(run, 0, Choice(true, false, 2), Effect(Finished, Last(run).g.(process := true), Some(BringUpStart)));
  }

  /** The worker is at `pc` while the reader waits for lines. */
  predicate Working(s: State, pc: Pc, g: Shared) {
    s == State(map[0 := Finished, 1 := Lines(Daemon), 2 := pc], g)
  }

  lemma WorkerGoes(start: seq<State>, pc: Pc, g: Shared, c: Choice, next: Pc, h: Shared) returns (run: seq<State>)
    requires IsRun(start) && Working(Last(start), pc, g) && c.newThread == 9
    requires Step(2, pc, g, c) == Some(Moves(next, h))
    ensures IsRun(run) && Working(Last(run), next, h)
  {
    run := StepOn(start, 2, c, Moves(next, h));
  }

  lemma LaunchSteps(g: Shared)
    requires !g.cancelled && !g.exited
    ensures Step(2, BringUpStart, g, NO) == Some(Moves(Lines(LoadCommand), g))
    ensures Step(2, BringUpLoaded, g, YES) == Some(Moves(Lines(InitiateCommand), g))
    ensures Step(2, BringUpInitiated, g, YES) == Some(Moves(WorkerTest, g))
  {}

  lemma CommandSteps(g: Shared)
    ensures Step(2, Lines(LoadCommand), g, YES) == Some(Moves(BringUpLoaded, g))
    ensures Step(2, Lines(InitiateCommand), g, YES) == Some(Moves(BringUpInitiated, g))
  {
    assert g.(exited := g.exited) == g;
  }

  lemma WorkerInitiates(start: seq<State>, g: Shared) returns (run: seq<State>)
    requires IsRun(start) && Working(Last(start), BringUpStart, g) && !g.cancelled && !g.exited
    ensures IsRun(run) && Working(Last(run), WorkerTest, g)
  {
    LaunchSteps(g);
    CommandSteps(g);
    run := WorkerGoes(start, BringUpStart, g, NO, Lines(LoadCommand), g);
    run := WorkerGoes(run, Lines(LoadCommand), g, YES, BringUpLoaded, g);
    run := WorkerGoes(run, BringUpLoaded, g, YES, Lines(InitiateCommand), g);
    run := WorkerGoes(run, Lines(InitiateCommand), g, YES, BringUpInitiated, g);
    run := WorkerGoes(run, BringUpInitiated, g, YES, WorkerTest, g);
  }

  lemma TestSteps(g: Shared)
    requires !g.connected
    ensures Step(2, WorkerTest, g, YES) == Some(Moves(WorkerTested, g))
    ensures Step(2, WorkerTested, g, YES) == Some(Moves(ApplyRead(Worker), g.(connected := true)))
  {}

  lemma ApplySteps(g: Shared)
    requires !g.dnsApplied && g.files
    ensures Step(2, ApplyRead(Worker), g, YES) == Some(Moves(ApplyRecord(Worker), g))
    ensures Step(2, ApplyRecord(Worker), g, YES) == Some(Moves(ApplyOverlay(Worker), g.(dnsFile := true)))
    ensures Step(2, ApplyOverlay(Worker), g, YES) == Some(Moves(ApplyMark(Worker), g.(overlay := true)))
    ensures Step(2, ApplyMark(Worker), g, YES) == Some(Moves(Announce(Worker), g.(dnsApplied := true)))
  {}

  lemma AnnounceStep(g: Shared)
    ensures Step(2, Announce(Worker), g, YES) == Some(Moves(Finished, g))
  {}

  lemma WorkerApplies(start: seq<State>, g: Shared) returns (run: seq<State>)
    requires IsRun(start) && Working(Last(start), WorkerTest, g) && !g.connected && !g.dnsApplied && g.files
    ensures IsRun(run) && Working(Last(run), Finished, g.(connected := true, dnsFile := true, overlay := true, dnsApplied := true))
  {
    TestSteps(g);
    run := WorkerGoes(start, WorkerTest, g, YES, WorkerTested, g);
    run := WorkerGoes(run, WorkerTested, g, YES, ApplyRead(Worker), g.(connected := true));
    run := OverlayGoesUp(run, g.(connected := true));
  }

  lemma OverlayGoesUp(start: seq<State>, g: Shared) returns (run: seq<State>)
    requires IsRun(start) && Working(Last(start), ApplyRead(Worker), g) && !g.dnsApplied && g.files
    ensures IsRun(run) && Working(Last(run), Finished, g.(dnsFile := true, overlay := true, dnsApplied := true))
  {
    var h := g.(dnsFile := true);
    var k := h.(overlay := true);
    ApplySteps(g);
    ApplySteps(h);
    ApplySteps(k);
    AnnounceStep(k.(dnsApplied := true));
    run := WorkerGoes(start, ApplyRead(Worker), g, YES, ApplyRecord(Worker), g);
    run := WorkerGoes(run, ApplyRecord(Worker), g, YES, ApplyOverlay(Worker), h);
    run := WorkerGoes(run, ApplyOverlay(Worker), h, YES, ApplyMark(Worker), k);
    run := WorkerGoes(run, ApplyMark(Worker), k, YES, Announce(Worker), k.(dnsApplied := true));
    run := WorkerGoes(run, Announce(Worker), k.(dnsApplied := true), YES, Finished, k.(dnsApplied := true));
  }

  /** The worker loads, initiates and connects by itself: the overlay is written and marked, and nothing is torn down. */
  lemma WorkerConnects() returns (run: seq<State>)
    ensures IsRun(run) && Last(run).threads == map[0 := Finished, 1 := Lines(Daemon), 2 := Finished]
    ensures var g := Last(run).g;
            && g.connected && g.overlay && g.dnsFile && g.dnsApplied && !g.cancelled && !g.done && g.errors == []
            && g.process && g.files && g.gatewayRoute && g.lock == None && g.body == UNTOUCHED
  {
    run := BothStarted();
    var g := Last(run).g;
    run := WorkerInitiates(run, g);
    run := WorkerApplies(run, g);
  }

  /** The reader is at `pc`, everybody else has finished. */
  predicate Exiting(s: State, pc: Pc, g: Shared) {
    s == State(map[0 := Finished, 1 := pc, 2 := Finished], g)
  }

  lemma ReaderGoes(start: seq<State>, pc: Pc, g: Shared, c: Choice, next: Pc, h: Shared) returns (run: seq<State>)
    requires IsRun(start) && Exiting(Last(start), pc, g) && c.newThread == 9
    requires Step(1, pc, g, c) == Some(Moves(next, h))
    ensures IsRun(run) && Exiting(Last(run), next, h)
  {
    run := StepOn(start, 1, c, Moves(next, h));
  }

  /** The continuation of an exit callback that has nothing to report. */
  const QUIET := AfterExit(false)

  lemma ExitSteps(g: Shared)
    requires g.files && g.connected && !g.done && g.lock == None
    ensures Step(1, Lines(Daemon), g, YES) == Some(Moves(ExitStart, g.(exited := true)))
    ensures Step(1, ExitStart, g, NO)
            == Some(Moves(Teardown(Enter, true, QUIET), g.(process := false, dnsApplied := false, observed := Some(true))))
  {}

  lemma LockSteps(g: Shared)
    requires g.lock == None
    ensures Step(1, Teardown(Enter, true, QUIET), g, NO) == Some(Moves(Teardown(Check, true, QUIET), g.(lock := Some(1))))
  {}

  lemma RestoreSteps(g: Shared)
    requires g.dnsFile && g.body == UNTOUCHED
    ensures Step(1, Teardown(Dns(true, true), true, QUIET), g, NO)
            == Some(Moves(Teardown(Route(true, false), true, QUIET),
                          g.(dnsApplied := false, body := Tally(1, 0, 0, true), overlay := false, dnsFile := false)))
  {}

  lemma RouteSteps(g: Shared)
    ensures g.body == Tally(1, 0, 0, true) ==>
              Step(1, Teardown(Route(true, false), true, QUIET), g, NO)
              == Some(Moves(Teardown(Wipe(false), true, QUIET), g.(body := Tally(1, 1, 0, true))))
    ensures g.body == Tally(1, 1, 0, true) ==>
              Step(1, Teardown(Wipe(false), true, QUIET), g, NO)
              == Some(Moves(Teardown(Leave(false), true, QUIET), g.(body := Tally(1, 1, 1, true), dnsFile := false)))
  {}

  lemma LeaveSteps(g: Shared)
    ensures Step(1, Teardown(Leave(false), true, QUIET), g, NO)
            == Some(Moves(ExitReport(false), g.(lock := None, done := true, files := false, gatewayRoute := false)))
    ensures Step(1, ExitReport(false), g, NO) == Some(Moves(ExitLast, g))
    ensures Step(1, ExitLast, g, NO) == Some(Moves(ExitReturned, g))
  {}

  lemma ExitTakesLock(start: seq<State>, g: Shared) returns (run: seq<State>, h: Shared)
    requires IsRun(start) && Exiting(Last(start), Lines(Daemon), g)
    requires g.files && g.connected && !g.done && g.lock == None && g.gatewayRoute
    ensures h == g.(exited := true, process := false, dnsApplied := false, observed := Some(true), lock := Some(1))
    ensures IsRun(run) && Exiting(Last(run), Teardown(Check, true, QUIET), h)
  {
    var e := g.(exited := true);
    h := e.(process := false, dnsApplied := false, observed := Some(true));
    ExitSteps(g);
    ExitSteps(e);
    LockSteps(h);
    run := ReaderGoes(start, Lines(Daemon), g, YES, ExitStart, e);
    run := ReaderGoes(run, ExitStart, e, NO, Teardown(Enter, true, QUIET), h);
    run := ReaderGoes(run, Teardown(Enter, true, QUIET), h, NO, Teardown(Check, true, QUIET), h.(lock := Some(1)));
    h := h.(lock := Some(1));
  }

  lemma ChooseSteps(g: Shared)
    requires g.gatewayRoute && !g.done
    ensures Step(1, Teardown(Check, true, QUIET), g, NO) == Some(Moves(Teardown(Choose, true, QUIET), g))
    ensures Step(1, Teardown(Choose, true, QUIET), g, NO) == Some(Moves(Teardown(Dns(true, true), true, QUIET), g))
  {}

  lemma ExitRestores(start: seq<State>, g: Shared) returns (run: seq<State>, h: Shared)
    requires IsRun(start) && Exiting(Last(start), Teardown(Check, true, QUIET), g)
    requires g.gatewayRoute && !g.done && g.dnsFile && g.body == UNTOUCHED
    ensures h == g.(dnsApplied := false, body := Tally(1, 1, 0, true), overlay := false, dnsFile := false)
    ensures IsRun(run) && Exiting(Last(run), Teardown(Wipe(false), true, QUIET), h)
  {
    var d := g.(dnsApplied := false, body := Tally(1, 0, 0, true), overlay := false, dnsFile := false);
    h := d.(body := Tally(1, 1, 0, true));
    ChooseSteps(g);
    RestoreSteps(g);
    RouteSteps(d);
    run := ReaderGoes(start, Teardown(Check, true, QUIET), g, NO, Teardown(Choose, true, QUIET), g);
    run := ReaderGoes(run, Teardown(Choose, true, QUIET), g, NO, Teardown(Dns(true, true), true, QUIET), g);
    run := ReaderGoes(run, Teardown(Dns(true, true), true, QUIET), g, NO, Teardown(Route(true, false), true, QUIET), d);
    run := ReaderGoes(run, Teardown(Route(true, false), true, QUIET), d, NO, Teardown(Wipe(false), true, QUIET), h);
  }

  lemma ExitLeaves(start: seq<State>, g: Shared) returns (run: seq<State>, h: Shared)
    requires IsRun(start) && Exiting(Last(start), Teardown(Wipe(false), true, QUIET), g) && g.body == Tally(1, 1, 0, true)
    ensures h == g.(body := Tally(1, 1, 1, true), dnsFile := false, lock := None, done := true, files := false, gatewayRoute := false)
    ensures IsRun(run) && Exiting(Last(run), ExitReturned, h)
  {
    var w := g.(body := Tally(1, 1, 1, true), dnsFile := false);
    h := w.(lock := None, done := true, files := false, gatewayRoute := false);
    RouteSteps(g);
    LeaveSteps(w);
    LeaveSteps(h);
    run := ReaderGoes(start, Teardown(Wipe(false), true, QUIET), g, NO, Teardown(Leave(false), true, QUIET), w);
    run := ReaderGoes(run, Teardown(Leave(false), true, QUIET), w, NO, ExitReport(false), h);
    run := ReaderGoes(run, ExitReport(false), h, NO, ExitLast, h);
    run := ReaderGoes(run, ExitLast, h, NO, ExitReturned, h);
  }

  /** A session that connected and ends: DNS, route and files are restored and wiped, and nothing is reported. */
  lemma ConnectedThenExits() returns (run: seq<State>)
    ensures IsRun(run) && Last(run).threads == map[0 := Finished, 1 := ExitReturned, 2 := Finished]
    ensures var g := Last(run).g;
            && g.done && g.body == Tally(1, 1, 1, true) && !g.overlay && !g.dnsFile && !g.dnsApplied
            && !g.process && !g.files && !g.gatewayRoute && g.lock == None && g.errors == []
  {
    run := WorkerConnects();
    var g := Last(run).g;
    run, g := ExitTakesLock(run, g);
    run, g := ExitRestores(run, g);
    run, g := ExitLeaves(run, g);
  }

  /** The reader saw the session connect and is about to write the DNS record. */
  lemma AboutToApply() returns (run: seq<State>)
    ensures IsRun(run)
    ensures Last(run).threads == map[0 := Finished, 1 := ApplyRecord(ConnectedLine(Daemon)), 2 := BringUpStart]
    ensures var g := Last(run).g; g.files && g.gatewayRoute && g.process && g.lock == None && !g.done
  {
    run := BothStarted();
    run := StepOn(run, 1, NO, Moves(LineTested(Daemon), Last(run).g));
    run := StepOn(run, 1, NO, Moves(ApplyRead(ConnectedLine(Daemon)), Last(run).g.(connected := true)));
    run := StepOn(run, 1, YES, Moves(ApplyRecord(ConnectedLine(Daemon)), Last(run).g));
  }

  /** Thread 3 is at `pc` while the reader waits to write its record. */
  predicate Waiting(s: State, pc: Pc) {
    s.threads == map[0 := Finished, 1 := ApplyRecord(ConnectedLine(Daemon)), 2 := BringUpStart, 3 := pc]
  }

  lemma DisconnectComesIn(start: seq<State>) returns (run: seq<State>)
    requires IsRun(start)
    requires Last(start).threads == map[0 := Finished, 1 := ApplyRecord(ConnectedLine(Daemon)), 2 := BringUpStart]
    requires Last(start).g.process && Last(start).g.files
    ensures IsRun(run) && Waiting(Last(run), Stopping(true)) && Last(run).g == Last(start).g.(cancelled := true)
  {
    run := Advance(start, Request(3));
    run := StepOn(run, 3, NO, Moves(Lines(TerminateCommand), Last(run).g.(cancelled := true)));
    run := CommandEnds(run);
    run := FindsProcess(run);
  }

  lemma CommandEnds(start: seq<State>) returns (run: seq<State>)
    requires IsRun(start) && Waiting(Last(start), Lines(TerminateCommand))
    ensures IsRun(run) && Waiting(Last(run), DisconnectRead) && Last(run).g == Last(start).g
  {
    var g := Last(start).g;
    assert g.(exited := g.exited) == g;
    run := StepOn(start, 3, YES, Moves(DisconnectRead, g));
  }

  lemma FindsProcess(start: seq<State>) returns (run: seq<State>)
    requires IsRun(start) && Waiting(Last(start), DisconnectRead) && Last(start).g.process && Last(start).g.files
    ensures IsRun(run) && Waiting(Last(run), Stopping(true)) && Last(run).g == Last(start).g
  {
    run := StepOn(start, 3, YES, Moves(Stopping(true), Last(start).g));
  }

  lemma TakesLock(start: seq<State>) returns (run: seq<State>)
    requires IsRun(start) && Waiting(Last(start), Stopping(true))
    requires var g := Last(start).g; g.gatewayRoute && g.lock == None && !g.done
    ensures IsRun(run) && Waiting(Last(run), Teardown(Check, true, AfterStop))
    ensures Last(run).g == Last(start).g.(lock := Some(3))
  {
    run := StepOn(start, 3, NO, Moves(Teardown(Enter, true, AfterStop), Last(start).g));
    run := StepOn(run, 3, NO, Moves(Teardown(Check, true, AfterStop), Last(run).g.(lock := Some(3))));
  }

  lemma TeardownBegins(start: seq<State>) returns (run: seq<State>)
    requires IsRun(start) && Waiting(Last(start), Teardown(Check, true, AfterStop))
    requires Last(start).g.gatewayRoute && !Last(start).g.done
    ensures IsRun(run) && Waiting(Last(run), Teardown(Dns(true, true), true, AfterStop)) && !Last(run).g.done
  {
    run := StepOn(start, 3, NO, Moves(Teardown(Choose, true, AfterStop), Last(start).g));
    run := StepOn(run, 3, NO, Moves(Teardown(Dns(true, true), true, AfterStop), Last(run).g));
  }

  lemma RestoresBoth(start: seq<State>) returns (run: seq<State>)
    requires IsRun(start) && Waiting(Last(start), Teardown(Dns(true, true), true, AfterStop))
    ensures IsRun(run) && Waiting(Last(run), Teardown(Wipe(false), true, AfterStop))
  {
    run := Advance(start, Run(3, NO));
    run := Advance(run, Run(3, NO));
  }

  lemma TeardownEnds(start: seq<State>) returns (run: seq<State>)
    requires IsRun(start) && Waiting(Last(start), Teardown(Wipe(false), true, AfterStop))
    ensures IsRun(run) && Waiting(Last(run), Finished) && Last(run).g.done
  {
    run := Advance(start, Run(3, NO));
    run := Advance(run, Run(3, NO));
  }

  lemma WriteSteps(who: Applier, g: Shared)
    ensures Step(1, ApplyRecord(who), g, YES) == Some(Moves(ApplyOverlay(who), g.(dnsFile := true)))
    ensures Step(1, ApplyOverlay(who), g, YES) == Some(Moves(ApplyMark(who), g.(overlay := true)))
  {}

  lemma WritesOverlay(start: seq<State>, who: Applier) returns (run: seq<State>)
    requires IsRun(start) && 1 in Last(start).threads && Last(start).threads[1] == ApplyRecord(who)
    requires YES.newThread !in Last(start).threads
    ensures IsRun(run) && Last(run).g.done == Last(start).g.done && Last(run).g.overlay && Last(run).g.dnsFile
  {
    var g := Last(start).g;
    WriteSteps(who, g);
    WriteSteps(who, g.(dnsFile := true));
    run := StepOn(start, 1, YES, Moves(ApplyOverlay(who), g.(dnsFile := true)));
    run := StepOn(run, 1, YES, Moves(ApplyMark(who), g.(dnsFile := true, overlay := true)));
  }

  /** An overlay that was under way outlives the teardown: the link keeps the VPN servers after everything is done. */
  lemma LateOverlayRemains() returns (run: seq<State>)
    ensures IsRun(run) && Last(run).g.done && Last(run).g.overlay && Last(run).g.dnsFile
  {
    run := AboutToApply();
    run := DisconnectComesIn(run);
    run := TakesLock(run);
    run := TeardownBegins(run);
    run := RestoresBoth(run);
    run := TeardownEnds(run);
    run := WritesOverlay(run, ConnectedLine(Daemon));
  }

  /** A route file that cannot be read as an object ends the exit callback with nothing restored. */
  lemma RouteFileStopsTeardown() returns (run: seq<State>)
    ensures IsRun(run) && Last(run).threads == map[0 := ConnectStore, 1 := Died]
    ensures !Last(run).g.done && Last(run).g.body == UNTOUCHED && Last(run).g.files
  {
    run := ExitBegins();
    var cont := AfterExit(true);
    run := StepOn(run, 1, NO, Moves(Teardown(Check, true, cont), Last(run).g.(lock := Some(1))));
    run := StepOn(run, 1, NO, Moves(Teardown(Choose, true, cont), Last(run).g));
    run := StepOn(run, 1, NO, Moves(Teardown(ReadFile, true, cont), Last(run).g));
    run := StepOn(run, 1, YES, Moves(Died, Last(run).g.(lock := None)));
  }

  lemma ExitBegins() returns (run: seq<State>)
    ensures IsRun(run) && Last(run).threads == map[0 := ConnectStore, 1 := Teardown(Enter, true, AfterExit(true))]
    ensures var g := Last(run).g; g.files && !g.gatewayRoute && g.lock == None && !g.done && g.body == UNTOUCHED
  {
    run := ReaderStarted(false);
    run := StepOn(run, 1, YES, Moves(ExitStart, Last(run).g.(exited := true)));
    run := StepOn(run, 1, NO, Moves(Teardown(Enter, true, AfterExit(true)),
                                    Last(run).g.(errorFlag := true, claim := Held(1), observed := Some(false))));
  }
}
