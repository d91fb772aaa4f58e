/**
 The temporary DNS overlay on one link: snapshot, state file, overlay, restore and verification
 (`helper/ipsec_dns.py`). Every command may fail, and a failed command may or may not have taken
 effect; `trail` records the world after each atomic action, so it is what a crash can leave behind.
 */
module LinkDns {
  import opened Wrappers
  import opened Sequences

  const ROUTING_ALL := "~."

  /** What systemd-resolved holds for the link. */
  datatype Settings = Settings(servers: seq<string>, domains: seq<string>, defaultRoute: bool)

  /** What an inspection reports; the default route may be unreadable. */
  datatype Snapshot = Snapshot(servers: seq<string>, domains: seq<string>, defaultRoute: Option<bool>)

  const NOTHING := Snapshot([], [], None)

  /** The recorded overlay and what was there before it. */
  datatype State = State(servers: seq<string>, preVpn: Option<Snapshot>, nmManaged: bool)

  datatype File = Missing | Unreadable | Holds(state: State)

  datatype World = World(link: Settings, file: File)

  /** How a command ends: it returns zero, returns an error, or gives no answer in time. */
  datatype Outcome = Done | Refused(took: bool) | NoAnswer(took: bool)

  predicate Took(o: Outcome) { o.Done? || o.took }

  /** How writing the record ends: it could not be opened, was cut short, or could not be made private afterwards. */
  datatype Writing = Stored | NotOpened | CutShort | NotProtected

  /** Which of the three queries of an inspection answer. */
  datatype Queries = Queries(servers: bool, domains: bool, route: bool)

  function Reading(s: Settings, q: Queries): Snapshot {
    Snapshot(if q.servers then s.servers else [], if q.domains then s.domains else [],
             if q.route then Some(s.defaultRoute) else None)
  }

  datatype ApplyEnv = ApplyEnv(dns: Outcome, domain: Outcome, route: Outcome)

  /** The three commands that write a snapshot back. */
  datatype SnapshotEnv = SnapshotEnv(dns: Outcome, domain: Outcome, route: Outcome)

  /** The first attempt, what NetworkManager makes of a reapply, and the second attempt. */
  datatype RestoreEnv = RestoreEnv(first: SnapshotEnv, reapply: Outcome, reapplied: Settings, firstLook: Queries,
                                   second: SnapshotEnv, secondLook: Queries, unlinkOk: bool)

  // ----- the state file -----

  predicate Tokens(s: seq<string>) { "" !in s }

  function NonEmpty(s: seq<string>): (r: seq<string>)
    ensures Tokens(s) ==> r == s
  {
    FilterAll((x: string) => x != "", s);
    assert Tokens(s) ==> forall x | x in s :: x != "";
    Filter((x: string) => x != "", s)
  }

  /** Reading the file back: empty texts are dropped, and a state without servers counts as none. */
  function ReadState(f: File): Option<State> {
    match f
    case Holds(st) =>
      if NonEmpty(st.servers) == [] then None
      else
        Some(State(NonEmpty(st.servers),
                   if st.preVpn.Some? then
                     Some(Snapshot(NonEmpty(st.preVpn.value.servers), NonEmpty(st.preVpn.value.domains), st.preVpn.value.defaultRoute))
                   else None,
                   st.nmManaged))
    case _ => None
  }

  /** What is read back of any file: its non-empty texts in their order, the default route and the flag as they are. */
  lemma ReadStateKeeps(st: State)
    ensures ReadState(Holds(st)).Some? <==> exists x :: x in st.servers && x != ""
    ensures ReadState(Holds(st)).Some? ==> var r := ReadState(Holds(st)).value;
              && Picked(x => x != "", st.servers, r.servers) && r.nmManaged == st.nmManaged && r.preVpn.Some? == st.preVpn.Some?
              && (st.preVpn.Some? ==>
                    && Picked(x => x != "", st.preVpn.value.servers, r.preVpn.value.servers)
                    && Picked(x => x != "", st.preVpn.value.domains, r.preVpn.value.domains)
                    && r.preVpn.value.defaultRoute == st.preVpn.value.defaultRoute)
  {
    NonEmptyPicks(st.servers);
    if st.preVpn.Some? {
      NonEmptyPicks(st.preVpn.value.servers);
      NonEmptyPicks(st.preVpn.value.domains);
    }
    if NonEmpty(st.servers) != [] { assert NonEmpty(st.servers)[0] in NonEmpty(st.servers); }
  }

  lemma NonEmptyPicks(s: seq<string>)
    ensures Picked(x => x != "", s, NonEmpty(s)) && forall x :: x in NonEmpty(s) <==> x in s && x != ""
  {
    var keep := (x: string) => x != "";
    var picks := FilterPicks(keep, s);
    assert PickedAt(x => x != "", s, NonEmpty(s), picks);
  }

  // ----- verification -----

  /** Servers of the overlay that are still there although they were not before. */
  predicate LeftoverServer(current: Snapshot, pre: Snapshot, vpn: seq<string>) {
    exists i | 0 <= i < |vpn| :: vpn[i] in current.servers && vpn[i] !in pre.servers
  }

  predicate Verify(current: Snapshot, pre: Snapshot, vpn: seq<string>, allowEmpty: bool) {
    && !LeftoverServer(current, pre, vpn)
    && !(ROUTING_ALL in current.domains && ROUTING_ALL !in pre.domains)
    && (current.servers == [] ==> allowEmpty)
  }

  /** The link shows no trace of the overlay, and has a server unless it may be without. */
  predicate CleanLink(s: Settings, pre: Snapshot, vpn: seq<string>, allowEmpty: bool) {
    && (forall v | v in vpn && v in s.servers :: v in pre.servers)
    && (ROUTING_ALL in s.domains ==> ROUTING_ALL in pre.domains)
    && (s.servers == [] ==> allowEmpty)
  }

  /** A verification that looked at the link means what it says. */
  lemma VerifiedIsClean(s: Settings, q: Queries, pre: Snapshot, vpn: seq<string>, allowEmpty: bool)
    requires q.servers && q.domains
    ensures Verify(Reading(s, q), pre, vpn, allowEmpty) <==> CleanLink(s, pre, vpn, allowEmpty)
  {}

  /**
   The answers a verification needs. Without the servers it must be bound to fail, or no server be
   from the VPN alone; without the domains the catch-all must have been there before, or it must be
   bound to fail.
   */
  predicate Informative(q: Queries, pre: Snapshot, vpn: seq<string>, allowEmpty: bool) {
    && (q.servers || !allowEmpty || forall v | v in vpn :: v in pre.servers)
    && (q.domains || ROUTING_ALL in pre.domains || (!q.servers && !allowEmpty))
  }

  lemma InformativeIsClean(s: Settings, q: Queries, pre: Snapshot, vpn: seq<string>, allowEmpty: bool)
    requires Informative(q, pre, vpn, allowEmpty) && Verify(Reading(s, q), pre, vpn, allowEmpty)
    ensures CleanLink(s, pre, vpn, allowEmpty)
  {
    forall v | v in vpn && v in s.servers ensures v in pre.servers {
      var i :| 0 <= i < |vpn| && vpn[i] == v;
    }
  }

  lemma {:induction false} Unlisted(list: seq<string>) returns (x: string)
    ensures x !in list && forall y | y in list :: |y| < |x|
  {
    if list == [] {
      x := "";
    } else {
      var rest := Unlisted(list[1..]);
      x := seq(|rest| + |list[0]| + 1, _ => 'x');
      assert forall y | y in list :: y == list[0] || y in list[1..];
    }
  }

  /** Otherwise some link is accepted although it is not clean. */
  lemma OtherwiseDeceived(q: Queries, pre: Snapshot, vpn: seq<string>, allowEmpty: bool) returns (s: Settings)
    requires !Informative(q, pre, vpn, allowEmpty)
    ensures Verify(Reading(s, q), pre, vpn, allowEmpty) && !CleanLink(s, pre, vpn, allowEmpty)
  {
    if q.servers || !allowEmpty || forall v | v in vpn :: v in pre.servers {
      var other := Unlisted(vpn);
      s := Settings([other], [ROUTING_ALL], true);
      assert ROUTING_ALL in s.domains;
    } else {
      var v :| v in vpn && v !in pre.servers;
      s := Settings([v], [], true);
      assert v in s.servers;
    }
  }

  /** For these answers, and for no others, every link that is accepted is clean. */
  lemma VerifiedMeansClean(q: Queries, pre: Snapshot, vpn: seq<string>, allowEmpty: bool)
    ensures (forall s :: Verify(Reading(s, q), pre, vpn, allowEmpty) ==> CleanLink(s, pre, vpn, allowEmpty))
            <==> Informative(q, pre, vpn, allowEmpty)
  {
    if Informative(q, pre, vpn, allowEmpty) {
      forall s | Verify(Reading(s, q), pre, vpn, allowEmpty) ensures CleanLink(s, pre, vpn, allowEmpty) {
        InformativeIsClean(s, q, pre, vpn, allowEmpty);
      }
    } else {
      var s := OtherwiseDeceived(q, pre, vpn, allowEmpty);
    }
  }

  // ----- the snapshot written back -----

  function Written(s: Settings, snapshot: Snapshot, env: SnapshotEnv): Settings {
    Settings(if Took(env.dns) then snapshot.servers else s.servers,
             if Took(env.domain) then snapshot.domains else s.domains,
             if snapshot.defaultRoute.Some? && Took(env.route) then snapshot.defaultRoute.value else s.defaultRoute)
  }

  predicate AllTook(env: SnapshotEnv) { Took(env.dns) && Took(env.domain) && Took(env.route) }

  /** The state records what the link had before: the default route at least when it could be read. */
  predicate TrueRecord(st: State, pre: Settings) {
    && st.preVpn.Some?
    && st.preVpn.value.servers == pre.servers && st.preVpn.value.domains == pre.domains
    && (st.preVpn.value.defaultRoute.Some? ==> st.preVpn.value.defaultRoute.value == pre.defaultRoute)
  }

  /** After a crash here the link is untouched, or the file says how to restore it; the file never says anything else. */
  predicate Recoverable(w: World, pre: Settings) {
    && (w.link == pre || w.file.Holds?)
    && (w.file.Holds? ==> TrueRecord(w.file.state, pre) && Readable(w.file.state))
  }

  /** The file gives back this state as it was written. */
  predicate Readable(st: State) {
    && st.servers != [] && Tokens(st.servers)
    && (st.preVpn.Some? ==> Tokens(st.preVpn.value.servers) && Tokens(st.preVpn.value.domains))
  }

  lemma ReadBack(st: State)
    requires Readable(st)
    ensures ReadState(Holds(st)) == Some(st)
  {}

  /** The link is as it was; its default route at least when the record has it. */
  predicate BackTo(link: Settings, pre: Settings, st: State) {
    && link.servers == pre.servers && link.domains == pre.domains
    && (st.preVpn.Some? && st.preVpn.value.defaultRoute.Some? ==> link.defaultRoute == pre.defaultRoute)
  }

  function OverlayDomains(domains: seq<string>, catchAll: bool): seq<string> {
    if catchAll then [ROUTING_ALL] else Filter((d: string) => d != "" && d != ROUTING_ALL && d != ".", domains)
  }

  /** A negotiated domain that is passed on: not empty, and no catch-all. */
  predicate PassedOn(d: string) { d != "" && d != "~." && d != "." }

  /** With the catch-all exactly that domain is asked for; without it the domains that are passed on, in their order. */
  lemma DomainsAskedFor(domains: seq<string>)
    ensures OverlayDomains(domains, true) == ["~."]
    ensures Picked(PassedOn, domains, OverlayDomains(domains, false))
  {
    var keep := (d: string) => d != "" && d != ROUTING_ALL && d != ".";
    var picks := FilterPicks(keep, domains);
    assert PickedAt(PassedOn, domains, OverlayDomains(domains, false), picks);
  }

  lemma OverlayTokens(domains: seq<string>, catchAll: bool)
    requires Tokens(domains)
    ensures Tokens(OverlayDomains(domains, catchAll))
  {}

  /** The link while the VPN is up. */
  function Overlay(pre: Settings, servers: seq<string>, domains: seq<string>, catchAll: bool): Settings {
    Settings(servers, OverlayDomains(domains, catchAll), if catchAll then pre.defaultRoute else false)
  }

  // ----- what the commands make of the link -----

  /** Applying fails when a command reports an error, or the first gives no answer. */
  predicate ApplySucceeds(servers: seq<string>, domains: seq<string>, catchAll: bool, env: ApplyEnv) {
    && servers != [] && env.dns.Done?
    && (env.domain.Refused? ==> !catchAll && OverlayDomains(domains, catchAll) == [])
    && (env.route.Refused? ==> catchAll)
  }

  /** The link after applying, whether it succeeded or not. */
  function Applied(s: Settings, servers: seq<string>, domains: seq<string>, catchAll: bool, env: ApplyEnv): Settings {
    if servers == [] || !Took(env.dns) then s
    else if !env.dns.Done? then s.(servers := servers)
    else
      var arguments := OverlayDomains(domains, catchAll);
      var routed := !catchAll && !(env.domain.Refused? && arguments != []) && Took(env.route);
      Settings(servers, if Took(env.domain) then arguments else s.domains, if routed then false else s.defaultRoute)
  }

  /** The overlay a caller sees, told without the way it is made. */
  ghost predicate GoesUp(before: Settings, servers: seq<string>, domains: seq<string>, catchAll: bool, env: ApplyEnv, after: Settings) {
    && after.servers == servers
    && (env.domain.Done? && catchAll ==> after.domains == ["~."])
    && (env.domain.Done? && !catchAll ==> Picked(PassedOn, domains, after.domains))
    && (catchAll ==> after.defaultRoute == before.defaultRoute)
    && (env.route.Done? && !catchAll ==> !after.defaultRoute)
  }

  /** An apply succeeds exactly when no command that has something to set reports an error, and the first gives an answer. */
  lemma SucceedsWithoutError(servers: seq<string>, domains: seq<string>, catchAll: bool, env: ApplyEnv)
    ensures ApplySucceeds(servers, domains, catchAll, env) <==>
              && servers != [] && env.dns.Done?
              && ((catchAll || exists d :: d in domains && PassedOn(d)) ==> !env.domain.Refused?)
              && (!catchAll ==> !env.route.Refused?)
  {
    DomainsAskedFor(domains);
    PickedMembers(PassedOn, domains, OverlayDomains(domains, false));
    var asked := OverlayDomains(domains, false);
    assert asked != [] ==> asked[0] in domains && PassedOn(asked[0]);
  }

  /** So a domain is on a split tunnel's link exactly when it was negotiated and is passed on. */
  lemma SplitDomains(before: Settings, servers: seq<string>, domains: seq<string>, env: ApplyEnv, after: Settings)
    requires GoesUp(before, servers, domains, false, env, after) && env.domain.Done?
    ensures forall d :: d in after.domains <==> d in domains && PassedOn(d)
  {
    PickedMembers(PassedOn, domains, after.domains);
  }

  lemma AppliedGoesUp(s: Settings, servers: seq<string>, domains: seq<string>, catchAll: bool, env: ApplyEnv)
    requires ApplySucceeds(servers, domains, catchAll, env)
    ensures GoesUp(s, servers, domains, catchAll, env, Applied(s, servers, domains, catchAll, env))
  {
    DomainsAskedFor(domains);
  }

  lemma AppliedWhenDone(s: Settings, servers: seq<string>, domains: seq<string>, catchAll: bool, env: ApplyEnv)
    requires servers != [] && env.dns.Done? && env.domain.Done? && env.route.Done?
    ensures ApplySucceeds(servers, domains, catchAll, env)
    ensures Applied(s, servers, domains, catchAll, env) == Overlay(s, servers, domains, catchAll)
  {}

  /** What a restore aims at. */
  function Effective(st: State): Snapshot { if st.preVpn.Some? then st.preVpn.value else NOTHING }

  predicate AllowsEmpty(st: State) { st.preVpn.Some? && st.preVpn.value.servers == [] }

  /** The link after the first attempt: the snapshot, or what NetworkManager puts over it. */
  function FirstTry(s: Settings, st: State, env: RestoreEnv): Settings {
    if (st.nmManaged || st.preVpn.None?) && Took(env.reapply) then env.reapplied
    else if st.preVpn.Some? then Written(s, st.preVpn.value, env.first)
    else s
  }

  predicate Accepted(s: Settings, q: Queries, st: State) {
    Verify(Reading(s, q), Effective(st), st.servers, AllowsEmpty(st))
  }

  /** The first attempt was not accepted, so there is a second one. */
  predicate Retried(s: Settings, st: State, env: RestoreEnv) { !Accepted(FirstTry(s, st, env), env.firstLook, st) }

  function Restored(s: Settings, st: State, env: RestoreEnv): Settings {
    if Retried(s, st, env) then Written(FirstTry(s, st, env), Effective(st), env.second) else FirstTry(s, st, env)
  }

  /** The reading the verdict rests on. */
  function LastLook(s: Settings, st: State, env: RestoreEnv): Queries {
    if Retried(s, st, env) then env.secondLook else env.firstLook
  }

  /** The link after restoring from whatever the file holds. */
  function Recovered(w: World, env: RestoreEnv): Settings {
    match ReadState(w.file)
    case Some(st) => Restored(w.link, st, env)
    case None => w.link
  }

  /**
   Restoring a true record with commands that take effect puts everything back, unless NetworkManager
   put its own settings on the link and these were accepted.
   */
  lemma RestoredBack(s: Settings, st: State, pre: Settings, env: RestoreEnv)
    requires TrueRecord(st, pre) && AllTook(env.first) && AllTook(env.second)
    ensures if st.nmManaged && Took(env.reapply) && !Retried(s, st, env) then Restored(s, st, env) == env.reapplied
            else BackTo(Restored(s, st, env), pre, st)
  {}

  /** Which outcomes bring each setting back: through the first attempt or NetworkManager, or through the second attempt. */
  /** When NetworkManager puts its own settings back and they are clean, they stay. */
  lemma ManagerComesFirst(s: Settings, st: State, env: RestoreEnv)
    requires (st.nmManaged || st.preVpn.None?) && env.reapply.Done? && env.firstLook.servers && env.firstLook.domains
    requires CleanLink(env.reapplied, if st.preVpn.Some? then st.preVpn.value else Snapshot([], [], None), st.servers, AllowsEmpty(st))
    ensures Restored(s, st, env) == env.reapplied
  {
    VerifiedIsClean(env.reapplied, env.firstLook, Effective(st), st.servers, AllowsEmpty(st));
  }

  /** So a link that NetworkManager knows comes back whole, its default route included, whatever became of it. */
  lemma ManagedLinkComesBack(pre: Settings, q: Queries, servers: seq<string>, s: Settings, env: RestoreEnv)
    requires CanBeRead(pre, q) && env.reapply.Done? && env.reapplied == pre && env.firstLook.servers && env.firstLook.domains
    ensures Restored(s, Captured(pre, q, servers, true), env) == pre
  {
    ManagerComesFirst(s, Captured(pre, q, servers, true), env);
  }

  /** Without a snapshot and without NetworkManager an overlaid link is emptied by the second attempt. */
  lemma WithoutSnapshotEmptied(s: Settings, st: State, env: RestoreEnv)
    requires st.preVpn.None? && !Took(env.reapply) && st.servers != [] && s.servers == st.servers
    requires Took(env.second.dns) && Took(env.second.domain)
    ensures Restored(s, st, env) == Settings([], [], s.defaultRoute)
  {
    assert st.servers[0] in s.servers;
  }

  predicate ServersBack(s: Settings, st: State, pre: Settings, env: RestoreEnv) {
    || (Retried(s, st, env) && Took(env.second.dns))
    || (if st.nmManaged && Took(env.reapply) then env.reapplied.servers == pre.servers
        else Took(env.first.dns) || s.servers == pre.servers)
  }

  predicate DomainsBack(s: Settings, st: State, pre: Settings, env: RestoreEnv) {
    || (Retried(s, st, env) && Took(env.second.domain))
    || (if st.nmManaged && Took(env.reapply) then env.reapplied.domains == pre.domains
        else Took(env.first.domain) || s.domains == pre.domains)
  }

  predicate RouteBack(s: Settings, st: State, pre: Settings, env: RestoreEnv)
    requires st.preVpn.Some?
  {
    var known := st.preVpn.value.defaultRoute.Some?;
    || (Retried(s, st, env) && known && Took(env.second.route))
    || (if st.nmManaged && Took(env.reapply) then env.reapplied.defaultRoute == pre.defaultRoute
        else (known && Took(env.first.route)) || s.defaultRoute == pre.defaultRoute)
  }

  /** A true record puts the link back exactly with these outcomes. */
  lemma BackWhen(s: Settings, st: State, pre: Settings, env: RestoreEnv)
    requires TrueRecord(st, pre)
    ensures Restored(s, st, env) == pre <==>
            ServersBack(s, st, pre, env) && DomainsBack(s, st, pre, env) && RouteBack(s, st, pre, env)
  {}

  /** The record an apply makes. */
  function Captured(link: Settings, q: Queries, servers: seq<string>, nmManaged: bool): State {
    State(servers, Some(Reading(link, q)), nmManaged)
  }

  /** What a caller can test: the query for each setting was answered, or there was nothing to read. */
  predicate CanBeRead(pre: Settings, q: Queries) {
    (q.servers || pre.servers == []) && (q.domains || pre.domains == [])
  }

  /** The record is true exactly then. */
  lemma CapturedTrue(pre: Settings, q: Queries, servers: seq<string>, nmManaged: bool)
    ensures TrueRecord(Captured(pre, q, servers, nmManaged), pre) <==> CanBeRead(pre, q)
  {}

  /** A world an apply passes through: nothing was touched, the file holds the record, or the record was deleted at the end. */
  predicate OnTheWay(w: World, before: World, state: State, how: Writing, last: bool) {
    match w.file
    case Holds(st) => st == state || (how.NotOpened? && w == before)
    case Unreadable => w.link == before.link || (how.NotOpened? && w == before)
    case Missing => last || (how.NotOpened? && w == before)
  }

  ghost predicate Way(trail: seq<World>, start: nat, before: World, state: State, how: Writing) {
    forall i | start <= i < |trail| :: OnTheWay(trail[i], before, state, how, i == |trail| - 1)
  }

  /** Until the file can be deleted it holds the record. */
  predicate RecordKept(trail: seq<World>, from: nat, state: State, ok: bool) {
    from <= |trail| && forall i | from <= i < |trail| - (if ok then 0 else 1) :: trail[i].file == Holds(state)
  }

  lemma WayOfFailure(trail: seq<World>, start: nat, before: World, state: State, how: Writing)
    requires start < |trail| && !how.Stored?
    requires match how
             case NotOpened => trail[start..] == [before]
             case CutShort => trail[start..] == [World(before.link, Unreadable)]
             case _ => trail[start..] == [World(before.link, Unreadable), World(before.link, Holds(state))]
    ensures Way(trail, start, before, state, how)
  {
    forall i | start <= i < |trail| ensures OnTheWay(trail[i], before, state, how, i == |trail| - 1) {
      assert trail[i] == trail[start..][i - start];
    }
  }

  lemma WayOfOverlay(trail: seq<World>, start: nat, before: World, state: State, ok: bool, unlinked: bool)
    requires start + 2 <= |trail| && trail[start] == World(before.link, Unreadable) && trail[start + 1] == World(before.link, Holds(state))
    requires RecordKept(trail, start + 2, state, ok) && (!ok ==> start + 2 < |trail|)
    requires !ok ==> trail[|trail| - 1].file == if unlinked then Missing else Holds(state)
    ensures Way(trail, start, before, state, Stored)
  {
    forall i | start <= i < |trail| ensures OnTheWay(trail[i], before, state, Stored, i == |trail| - 1) {
      if i >= start + 2 && (ok || i < |trail| - 1) { assert trail[i].file == Holds(state); }
    }
  }

  /** A restore after a successful apply stays on the way. */
  lemma WayExtends(applied: seq<World>, trail: seq<World>, start: nat, before: World, state: State)
    requires Way(applied, start, before, state, Stored) && start < |applied| < |trail| && applied <= trail
    requires applied[|applied| - 1].file == Holds(state)
    requires forall i | |applied| <= i < |trail| - 1 :: trail[i].file == Holds(state)
    requires trail[|trail| - 1].file == Missing || trail[|trail| - 1].file == Holds(state)
    ensures Way(trail, start, before, state, Stored)
  {
    forall i | start <= i < |trail| ensures OnTheWay(trail[i], before, state, Stored, i == |trail| - 1) {
      if i < |applied| {
        assert trail[i] == applied[i] && OnTheWay(applied[i], before, state, Stored, i == |applied| - 1);
      }
    }
  }

  lemma WayRecoverable(trail: seq<World>, start: nat, before: World, q: Queries, servers: seq<string>, nmManaged: bool, how: Writing)
    requires Tokens(servers) && servers != [] && Tokens(before.link.servers) && Tokens(before.link.domains) && !how.NotOpened?
    requires Way(trail, start, before, Captured(before.link, q, servers, nmManaged), how)
    ensures forall i | start <= i < |trail| ::
              Recoverable(trail[i], before.link) <==>
              if trail[i].file.Holds? then CanBeRead(before.link, q) else trail[i].link == before.link
  {
    var state := Captured(before.link, q, servers, nmManaged);
    CapturedTrue(before.link, q, servers, nmManaged);
    forall i | start <= i < |trail|
      ensures Recoverable(trail[i], before.link) <==>
              if trail[i].file.Holds? then CanBeRead(before.link, q) else trail[i].link == before.link
    {
      assert OnTheWay(trail[i], before, state, how, i == |trail| - 1);
    }
  }

  /** The link after an apply with its undo. */
  function AfterApply(pre: Settings, st: State, domains: seq<string>, catchAll: bool, env: ApplyEnv, undo: RestoreEnv): Settings {
    var applied := Applied(pre, st.servers, domains, catchAll, env);
    if ApplySucceeds(st.servers, domains, catchAll, env) then applied else Recovered(World(applied, Holds(st)), undo)
  }

  class Resolver {
    var link: Settings
    var file: File
    ghost var trail: seq<World>

    ghost predicate Recorded()
      reads this
    {
      trail != [] && trail[|trail| - 1] == World(link, file)
    }

    /** The actions since `from` left the file alone. */
    ghost predicate SameFileSince(from: nat, f: File)
      reads this
    {
      from <= |trail| && forall i | from <= i < |trail| :: trail[i].file == f
    }

    constructor (link: Settings, file: File)
      ensures Recorded() && this.link == link && this.file == file && |trail| == 1
    {
      this.link, this.file, this.trail := link, file, [World(link, file)];
    }

    method SetServers(servers: seq<string>, o: Outcome)
      requires Recorded()
      modifies this
      ensures Recorded() && file == old(file) && trail == old(trail) + [World(link, file)]
      ensures link == if Took(o) then old(link).(servers := servers) else old(link)
    {
      if Took(o) {
        link := link.(servers := servers);
      }
      trail := trail + [World(link, file)];
    }

    method SetDomains(domains: seq<string>, o: Outcome)
      requires Recorded()
      modifies this
      ensures Recorded() && file == old(file) && trail == old(trail) + [World(link, file)]
      ensures link == if Took(o) then old(link).(domains := domains) else old(link)
    {
      if Took(o) {
        link := link.(domains := domains);
      }
      trail := trail + [World(link, file)];
    }

    method SetDefaultRoute(value: bool, o: Outcome)
      requires Recorded()
      modifies this
      ensures Recorded() && file == old(file) && trail == old(trail) + [World(link, file)]
      ensures link == if Took(o) then old(link).(defaultRoute := value) else old(link)
    {
      if Took(o) {
        link := link.(defaultRoute := value);
      }
      trail := trail + [World(link, file)];
    }

    /** NetworkManager puts its own settings on the link. */
    method Reapply(result: Settings, o: Outcome)
      requires Recorded()
      modifies this
      ensures Recorded() && file == old(file) && trail == old(trail) + [World(link, file)]
      ensures link == if Took(o) then result else old(link)
    {
      if Took(o) {
        link := result;
      }
      trail := trail + [World(link, file)];
    }

    /** The file is truncated before it is written; one that cannot be opened stays as it is. */
    method WriteState(state: State, how: Writing)
      requires Recorded()
      modifies this
      ensures Recorded() && link == old(link)
      ensures file == match how case NotOpened => old(file) case CutShort => Unreadable case _ => Holds(state)
      ensures how.NotOpened? ==> trail == old(trail) + [World(link, file)]
      ensures how.CutShort? ==> trail == old(trail) + [World(link, Unreadable)]
      ensures how.Stored? || how.NotProtected? ==> trail == old(trail) + [World(link, Unreadable), World(link, Holds(state))]
    {
      if !how.NotOpened? {
        file := Unreadable;
      }
      trail := trail + [World(link, file)];
      if how.Stored? || how.NotProtected? {
        file := Holds(state);
        trail := trail + [World(link, file)];
      }
    }

    method Unlink(ok: bool)
      requires Recorded()
      modifies this
      ensures Recorded() && link == old(link)
      ensures file == if ok then Missing else old(file)
      ensures trail == old(trail) + [World(link, file)]
    {
      if ok {
        file := Missing;
      }
      trail := trail + [World(link, file)];
    }

    /** Overlays the VPN servers; it fails when a command reports an error, not when one gives no answer. */
    method ApplyResolvedDns(servers: seq<string>, domains: seq<string>, catchAll: bool, env: ApplyEnv) returns (ok: bool)
      requires Recorded()
      modifies this
      ensures Recorded() && file == old(file)
      ensures old(trail) <= trail && SameFileSince(old(|trail|), file)
      ensures ok == ApplySucceeds(servers, domains, catchAll, env)
      ensures link == Applied(old(link), servers, domains, catchAll, env)
      ensures ok ==> GoesUp(old(link), servers, domains, catchAll, env, link)
    {
      if ApplySucceeds(servers, domains, catchAll, env) {
        AppliedGoesUp(link, servers, domains, catchAll, env);
      }
      if servers == [] {
        return false;
      }
      SetServers(servers, env.dns);
      if !env.dns.Done? {
        return false;
      }
      if catchAll {
        SetDomains([ROUTING_ALL], env.domain);
        return !env.domain.Refused?;
      }
      var arguments := OverlayDomains(domains, false);
      SetDomains(arguments, env.domain);
      if arguments != [] && env.domain.Refused? {
        return false;
      }
      SetDefaultRoute(false, env.route);
      ok := !env.route.Refused?;
    }

    method ApplySnapshot(snapshot: Snapshot, env: SnapshotEnv)
      requires Recorded()
      modifies this
      ensures Recorded() && file == old(file) && link == Written(old(link), snapshot, env)
      ensures old(trail) <= trail && SameFileSince(old(|trail|), file)
    {
      SetServers(snapshot.servers, env.dns);
      SetDomains(snapshot.domains, env.domain);
      if snapshot.defaultRoute.Some? {
        SetDefaultRoute(snapshot.defaultRoute.value, env.route);
      }
    }

    /** Restores, verifies, and tries the snapshot once more when the verification fails. */
    method RestoreDnsState(state: State, env: RestoreEnv) returns (verified: bool, ghost looked: Queries)
      requires Recorded()
      modifies this
      ensures Recorded() && file == old(file)
      ensures old(trail) <= trail && SameFileSince(old(|trail|), file)
      ensures link == Restored(old(link), state, env) && looked == LastLook(old(link), state, env)
      ensures verified == Accepted(link, looked, state)
      ensures verified && Informative(looked, Effective(state), state.servers, AllowsEmpty(state)) ==>
                CleanLink(link, Effective(state), state.servers, AllowsEmpty(state))
    {
      var effective := if state.preVpn.Some? then state.preVpn.value else NOTHING;
      var allowEmpty := state.preVpn.Some? && effective.servers == [];
      if state.preVpn.Some? {
        ApplySnapshot(state.preVpn.value, env.first);
      }
      if state.nmManaged || state.preVpn.None? {
        Reapply(env.reapplied, env.reapply);
      }
      looked := env.firstLook;
      var current := Reading(link, env.firstLook);
      verified := Verify(current, effective, state.servers, allowEmpty);
      if !verified {
        ApplySnapshot(effective, env.second);
        looked := env.secondLook;
        current := Reading(link, env.secondLook);
        verified := Verify(current, effective, state.servers, allowEmpty);
      }
      if verified && Informative(looked, effective, state.servers, allowEmpty) {
        InformativeIsClean(link, looked, effective, state.servers, allowEmpty);
      }
    }

    /**
     Restores what the file records and deletes the file, whether or not the restore worked. Until
     then every world can be recovered from; afterwards exactly when the file could not be deleted or
     the link is back.
     */
    method RestoreFromStatePath(env: RestoreEnv) returns (r: Option<bool>)
      requires Recorded()
      modifies this
      ensures Recorded() && old(trail) <= trail && |trail| > old(|trail|)
      ensures r.Some? <==> ReadState(old(file)).Some?
      ensures r.Some? ==> var st := ReadState(old(file)).value; r.value == Accepted(link, LastLook(old(link), st, env), st)
      ensures forall i | old(|trail|) <= i < |trail| - 1 :: trail[i].file == old(file)
      ensures file == if env.unlinkOk then Missing else old(file)
      ensures link == Recovered(World(old(link), old(file)), env)
      ensures forall pre | Recoverable(World(old(link), old(file)), pre) ::
                && (forall i | old(|trail|) <= i < |trail| - 1 :: Recoverable(trail[i], pre))
                && (Recoverable(World(link, file), pre) <==> link == pre || (old(file).Holds? && !env.unlinkOk))
    {
      var state := ReadState(file);
      r := None;
      if state.Some? {
        var verified, _ := RestoreDnsState(state.value, env);
        r := Some(verified);
      }
      Unlink(env.unlinkOk);
    }

    /** The overlay of a recorded state; a failure restores from the file and deletes it. */
    method OverlayOrUndo(state: State, domains: seq<string>, catchAll: bool, env: ApplyEnv, undo: RestoreEnv, ghost pre: Settings)
        returns (ok: bool)
      requires Recorded() && file == Holds(state) && link == pre
      modifies this
      ensures Recorded() && old(trail) <= trail && (!ok ==> old(|trail|) < |trail|)
      ensures ok == ApplySucceeds(state.servers, domains, catchAll, env)
      ensures link == AfterApply(pre, state, domains, catchAll, env, undo)
      ensures file == if ok || !undo.unlinkOk then Holds(state) else Missing
      ensures RecordKept(trail, old(|trail|), state, ok)
    {
      ok := ApplyResolvedDns(state.servers, domains, catchAll, env);
      if !ok {
        var _ := RestoreFromStatePath(undo);
      }
    }

    /** A record that could be written, and the overlay of it. */
    method StoreAndOverlay(state: State, domains: seq<string>, catchAll: bool, env: ApplyEnv, undo: RestoreEnv) returns (ok: bool)
      requires Recorded()
      modifies this
      ensures Recorded() && old(trail) <= trail && old(|trail|) + 2 <= |trail| && (!ok ==> old(|trail|) + 2 < |trail|)
      ensures ok == ApplySucceeds(state.servers, domains, catchAll, env)
      ensures link == AfterApply(old(link), state, domains, catchAll, env, undo)
      ensures file == if ok || !undo.unlinkOk then Holds(state) else Missing
      ensures trail[old(|trail|) + 1].file == Holds(state)
      ensures Way(trail, old(|trail|), World(old(link), old(file)), state, Stored)
    {
      ghost var before, start := World(link, file), |trail|;
      WriteState(state, Stored);
      ok := OverlayOrUndo(state, domains, catchAll, env, undo, link);
      WayOfOverlay(trail, start, before, state, ok, undo.unlinkOk);
    }

    /**
     Records what the link has, then overlays it; a query that gives no answer does not stop it. A world
     on the way can be recovered from exactly when the record it holds is true, or the link is untouched
     if it holds none.
     */
    method ApplyTemporaryVpnDns(servers: seq<string>, domains: seq<string>, catchAll: bool, queries: Queries, nmManaged: bool,
                                how: Writing, env: ApplyEnv, undo: RestoreEnv) returns (r: Option<State>)
      requires Recorded() && Tokens(servers) && Tokens(link.servers) && Tokens(link.domains)
      modifies this
      ensures Recorded() && old(trail) <= trail && |trail| > old(|trail|)
      ensures var state := Captured(old(link), queries, servers, nmManaged);
              if how.Stored? && ApplySucceeds(servers, domains, catchAll, env) then r == Some(state) && file == Holds(state)
              else
                && r == None
                && file == match how
                           case Stored => if undo.unlinkOk then Missing else Holds(state)
                           case NotOpened => old(file)
                           case CutShort => Unreadable
                           case NotProtected => Holds(state)
      ensures var state := Captured(old(link), queries, servers, nmManaged);
              link == if how.Stored? then AfterApply(old(link), state, domains, catchAll, env, undo) else old(link)
      ensures var state := Captured(old(link), queries, servers, nmManaged);
              Way(trail, old(|trail|), World(old(link), old(file)), state, how)
      ensures how.Stored? ==>
                && old(|trail|) + 1 < |trail| && trail[old(|trail|) + 1].file == Holds(Captured(old(link), queries, servers, nmManaged))
                && (r.None? ==> old(|trail|) + 2 < |trail|)
      ensures !how.NotOpened? && servers != [] ==>
                forall i | old(|trail|) <= i < |trail| ::
                  Recoverable(trail[i], old(link)) <==>
                  if trail[i].file.Holds? then CanBeRead(old(link), queries) else trail[i].link == old(link)
    {
      var state := Captured(link, queries, servers, nmManaged);
      ghost var before, start := World(link, file), |trail|;
      r := None;
      if how.Stored? {
        var ok := StoreAndOverlay(state, domains, catchAll, env, undo);
        r := if ok then Some(state) else None;
      } else {
        WriteState(state, how);
        WayOfFailure(trail, start, before, state, how);
      }
      if !how.NotOpened? && servers != [] {
        WayRecoverable(trail, start, before, queries, servers, nmManaged, how);
      }
    }
  }

  // ----- across calls -----

  /** A link NetworkManager manages may keep what that put on it, when it was accepted. */
  predicate BackOrReapplied(link: Settings, s: Settings, pre: Settings, st: State, env: RestoreEnv) {
    if st.nmManaged && Took(env.reapply) && !Retried(s, st, env) then link == env.reapplied else BackTo(link, pre, st)
  }

  /** From any recoverable world, restoring puts the link back when its commands take effect; a second crash does no harm. */
  method RecoverAfterCrash(w: World, pre: Settings, env: RestoreEnv) returns (resolver: Resolver)
    requires Recoverable(w, pre)
    requires AllTook(env.first) && AllTook(env.second)
    ensures fresh(resolver) && resolver.Recorded()
    ensures w.file.Holds? ==> BackOrReapplied(resolver.link, w.link, pre, w.file.state, env)
    ensures !w.file.Holds? ==> resolver.link == pre
    ensures env.unlinkOk ==> resolver.file == Missing
    ensures forall i | 0 <= i < |resolver.trail| - 1 :: Recoverable(resolver.trail[i], pre)
  {
    resolver := new Resolver(w.link, w.file);
    if w.file.Holds? {
      ReadBack(w.file.state);
      RestoredBack(w.link, w.file.state, pre, env);
    }
    var _ := resolver.RestoreFromStatePath(env);
  }

  /** What recovering from `w` with commands that take effect leads to. */
  ghost predicate Recovers(w: World, pre: Settings) {
    forall env: RestoreEnv | AllTook(env.first) && AllTook(env.second) ::
      match ReadState(w.file)
      case Some(st) => BackOrReapplied(Recovered(w, env), w.link, pre, st, env)
      case None => w.link == pre
  }

  lemma RecoverableRecovers(w: World, pre: Settings)
    requires Recoverable(w, pre)
    ensures Recovers(w, pre)
  {
    if w.file.Holds? {
      ReadBack(w.file.state);
      forall env: RestoreEnv | AllTook(env.first) && AllTook(env.second)
        ensures BackOrReapplied(Recovered(w, env), w.link, pre, w.file.state, env)
      {
        RestoredBack(w.link, w.file.state, pre, env);
      }
    }
  }

  const FINE := SnapshotEnv(Done, Done, Done)
  const ANSWERED := Queries(true, true, true)

  /** Commands that take effect, while NetworkManager does nothing. */
  function Smooth(link: Settings): RestoreEnv {
    RestoreEnv(FINE, Refused(false), link, ANSWERED, FINE, ANSWERED, true)
  }

  /** A world with a readable record recovers exactly when the record is true. */
  lemma RecordRecovers(link: Settings, st: State, pre: Settings)
    requires Readable(st) && st.preVpn.Some?
    ensures Recovers(World(link, Holds(st)), pre) <==> TrueRecord(st, pre)
  {
    var w := World(link, Holds(st));
    ReadBack(st);
    if TrueRecord(st, pre) {
      forall env: RestoreEnv | AllTook(env.first) && AllTook(env.second)
        ensures BackOrReapplied(Recovered(w, env), link, pre, st, env)
      {
        RestoredBack(link, st, pre, env);
      }
    }
    if Recovers(w, pre) {
      assert BackOrReapplied(Recovered(w, Smooth(link)), link, pre, st, Smooth(link));
    }
  }

  /** A world without one recovers exactly when the link is as it was. */
  lemma NoRecordRecovers(w: World, pre: Settings)
    requires ReadState(w.file).None?
    ensures Recovers(w, pre) <==> w.link == pre
  {
    if Recovers(w, pre) {
      assert AllTook(Smooth(w.link).first) && AllTook(Smooth(w.link).second);
    }
  }

  /** Recovery leads back from this world exactly when its record could be read at capture, or without one when the link is back. */
  predicate RecoversWhen(w: World, pre: Settings, q: Queries) {
    if ReadState(w.file).Some? then CanBeRead(pre, q) else w.link == pre
  }

  lemma WayRecovers(w: World, before: World, q: Queries, servers: seq<string>, nmManaged: bool, how: Writing, last: bool)
    requires Tokens(servers) && Tokens(before.link.servers) && Tokens(before.link.domains) && !how.NotOpened?
    requires OnTheWay(w, before, Captured(before.link, q, servers, nmManaged), how, last)
    ensures Recovers(w, before.link) <==> RecoversWhen(w, before.link, q)
  {
    var state := Captured(before.link, q, servers, nmManaged);
    CapturedTrue(before.link, q, servers, nmManaged);
    if w.file.Holds? && servers != [] {
      ReadBack(state);
      RecordRecovers(w.link, state, before.link);
    } else {
      NoRecordRecovers(w, before.link);
    }
  }

  /** Connecting, and disconnecting if that succeeded. */
  method ApplyAndRestore(resolver: Resolver, servers: seq<string>, domains: seq<string>, catchAll: bool, queries: Queries,
                         nmManaged: bool, how: Writing, env: ApplyEnv, undo: RestoreEnv, later: RestoreEnv)
    requires resolver.Recorded() && Tokens(servers) && Tokens(resolver.link.servers) && Tokens(resolver.link.domains)
    modifies resolver
    ensures resolver.Recorded() && old(|resolver.trail|) < |resolver.trail|
    ensures Way(resolver.trail, old(|resolver.trail|), World(old(resolver.link), old(resolver.file)),
                Captured(old(resolver.link), queries, servers, nmManaged), how)
    ensures how.Stored? ==>
              && old(|resolver.trail|) + 2 < |resolver.trail|
              && resolver.trail[old(|resolver.trail|) + 1].file == Holds(Captured(old(resolver.link), queries, servers, nmManaged))
    ensures how.NotOpened? ==> resolver.link == old(resolver.link) && resolver.file == old(resolver.file)
  {
    var state := resolver.ApplyTemporaryVpnDns(servers, domains, catchAll, queries, nmManaged, how, env, undo);
    if state.Some? {
      RestoreOnTheWay(resolver, old(|resolver.trail|), World(old(resolver.link), old(resolver.file)), state.value, later);
    }
  }

  /** Disconnecting after a successful apply. */
  method RestoreOnTheWay(resolver: Resolver, ghost start: nat, ghost before: World, ghost state: State, later: RestoreEnv)
    requires resolver.Recorded() && resolver.file == Holds(state) && start < |resolver.trail|
    requires Way(resolver.trail, start, before, state, Stored)
    modifies resolver
    ensures resolver.Recorded() && old(resolver.trail) <= resolver.trail && old(|resolver.trail|) < |resolver.trail|
    ensures Way(resolver.trail, start, before, state, Stored)
  {
    ghost var applied := resolver.trail;
    var _ := resolver.RestoreFromStatePath(later);
    WayExtends(applied, resolver.trail, start, before, state);
  }

  lemma WaysRecover(trail: seq<World>, start: nat, before: World, q: Queries, servers: seq<string>, nmManaged: bool, how: Writing)
    requires Tokens(servers) && Tokens(before.link.servers) && Tokens(before.link.domains) && !how.NotOpened?
    requires Way(trail, start, before, Captured(before.link, q, servers, nmManaged), how)
    ensures forall i | start <= i < |trail| :: Recovers(trail[i], before.link) <==> RecoversWhen(trail[i], before.link, q)
  {
    forall i | start <= i < |trail| ensures Recovers(trail[i], before.link) <==> RecoversWhen(trail[i], before.link, q) {
      WayRecovers(trail[i], before, q, servers, nmManaged, how, i == |trail| - 1);
    }
  }

  lemma AllButLastRecover(trail: seq<World>, start: nat, before: World, q: Queries, servers: seq<string>, nmManaged: bool)
    requires Tokens(servers) && servers != [] && Tokens(before.link.servers) && Tokens(before.link.domains)
    requires Way(trail, start, before, Captured(before.link, q, servers, nmManaged), Stored)
    requires start + 2 < |trail| && trail[start + 1].file == Holds(Captured(before.link, q, servers, nmManaged))
    ensures (forall i | start <= i < |trail| - 1 :: Recovers(trail[i], before.link)) <==> CanBeRead(before.link, q)
  {
    ReadBack(Captured(before.link, q, servers, nmManaged));
    WaysRecover(trail, start, before, q, servers, nmManaged, Stored);
    assert RecoversWhen(trail[start + 1], before.link, q) <==> CanBeRead(before.link, q);
    forall i | start <= i < |trail| - 1 ensures CanBeRead(before.link, q) ==> RecoversWhen(trail[i], before.link, q) {
      assert OnTheWay(trail[i], before, Captured(before.link, q, servers, nmManaged), Stored, false);
    }
  }

  /**
   Write-ahead safety: apply, and restore if that succeeded, with any commands failing, any queries
   unanswered and a crash anywhere. Recovery leads back from a world exactly when what its record says
   could be read at capture, or when it has no record and the link is back. So it leads back from every
   world but the last exactly when the capture could be read; a file that could not be opened leaves
   everything as it was.
   */
  method CrashAnywhere(resolver: Resolver, servers: seq<string>, domains: seq<string>, catchAll: bool, queries: Queries,
                       nmManaged: bool, how: Writing, env: ApplyEnv, undo: RestoreEnv, later: RestoreEnv)
    requires resolver.Recorded() && Tokens(servers) && Tokens(resolver.link.servers) && Tokens(resolver.link.domains)
    modifies resolver
    ensures resolver.Recorded() && old(|resolver.trail|) < |resolver.trail|
    ensures !how.NotOpened? ==>
              forall i | old(|resolver.trail|) <= i < |resolver.trail| ::
                Recovers(resolver.trail[i], old(resolver.link)) <==> RecoversWhen(resolver.trail[i], old(resolver.link), queries)
    ensures how.Stored? && servers != [] ==>
              ((forall i | old(|resolver.trail|) <= i < |resolver.trail| - 1 :: Recovers(resolver.trail[i], old(resolver.link)))
               <==> CanBeRead(old(resolver.link), queries))
    ensures how.NotOpened? ==> resolver.link == old(resolver.link) && resolver.file == old(resolver.file)
  {
    ghost var before, start := World(resolver.link, resolver.file), |resolver.trail|;
    ApplyAndRestore(resolver, servers, domains, catchAll, queries, nmManaged, how, env, undo, later);
    if !how.NotOpened? {
      WaysRecover(resolver.trail, start, before, queries, servers, nmManaged, how);
    }
    if how.Stored? && servers != [] {
      AllButLastRecover(resolver.trail, start, before, queries, servers, nmManaged);
    }
  }

  /**
   A verified restore whose last reading of the servers was answered leaves a server on a link that had
   one, whatever the commands did, exactly when the servers were read at capture or there were none.
   */
  lemma VerifiedKeepsServerWhen(pre: Settings, q: Queries, vpn: seq<string>, nmManaged: bool)
    ensures (forall s, env :: VerifiedWithServers(s, Captured(pre, q, vpn, nmManaged), env) ==>
                                Restored(s, Captured(pre, q, vpn, nmManaged), env).servers != [] || pre.servers == [])
            <==> q.servers || pre.servers == []
  {
    var st := Captured(pre, q, vpn, nmManaged);
    if !q.servers && pre.servers != [] {
      assert VerifiedWithServers(pre, st, Smooth(pre));
      assert Restored(pre, st, Smooth(pre)).servers == [];
    }
  }

  /** The restore of `s` is verified, and by a reading in which the servers were answered. */
  predicate VerifiedWithServers(s: Settings, st: State, env: RestoreEnv) {
    LastLook(s, st, env).servers && Accepted(Restored(s, st, env), LastLook(s, st, env), st)
  }

  /** At capture one query gave no answer, everything else works and is answered: verified, and the link has lost its server. */
  method UnreadCaptureLosesServer() returns (resolver: Resolver, verified: Option<bool>)
    ensures resolver.Recorded() && resolver.trail != [] && resolver.trail[0] == World(Settings(["1.1.1.1"], [], true), Missing)
    ensures verified == Some(true) && resolver.link.servers == [] && resolver.file == Missing
  {
    var pre := Settings(["1.1.1.1"], [], true);
    resolver := new Resolver(pre, Missing);
    var state := resolver.ApplyTemporaryVpnDns(["10.0.0.1"], [], true, Queries(false, true, true), false, Stored,
                                               ApplyEnv(Done, Done, Done), Smooth(pre));
    ReadBack(state.value);
    verified := resolver.RestoreFromStatePath(Smooth(pre));
  }

  lemma OverlayStays(pre: Settings, env: ApplyEnv, undo: RestoreEnv)
    requires env.dns == Refused(true) && undo.first == undo.second == SnapshotEnv(Refused(false), Refused(false), Refused(false))
    requires Tokens(pre.servers) && Tokens(pre.domains)
    ensures AfterApply(pre, Captured(pre, ANSWERED, ["10.0.0.1"], false), [], true, env, undo) == pre.(servers := ["10.0.0.1"])
    ensures !ApplySucceeds(["10.0.0.1"], [], true, env)
  {
    ReadBack(Captured(pre, ANSWERED, ["10.0.0.1"], false));
  }

  /** A failed apply whose undo had no effect either: the VPN's server stays and nothing says how to restore. */
  method FailedApplyLosesRecord() returns (resolver: Resolver)
    ensures resolver.Recorded() && resolver.link.servers == ["10.0.0.1"] && resolver.file == Missing
    ensures resolver.trail[0] == World(Settings(["1.1.1.1"], [], true), Missing)
    ensures !Recovers(World(resolver.link, resolver.file), Settings(["1.1.1.1"], [], true))
  {
    var pre := Settings(["1.1.1.1"], [], true);
    resolver := new Resolver(pre, Missing);
    var none := Refused(false);
    var env := ApplyEnv(Refused(true), none, none);
    var failing := SnapshotEnv(none, none, none);
    var undo := RestoreEnv(failing, none, pre, ANSWERED, failing, ANSWERED, true);
    OverlayStays(pre, env, undo);
    var _ := resolver.ApplyTemporaryVpnDns(["10.0.0.1"], [], true, ANSWERED, false, Stored, env, undo);
    assert resolver.link.servers[0] != pre.servers[0];
    NoRecordRecovers(World(resolver.link, resolver.file), pre);
  }

  /** An apply whose commands all work. */
  method ApplyDone(resolver: Resolver, servers: seq<string>, domains: seq<string>, catchAll: bool, queries: Queries,
                   env: ApplyEnv, undo: RestoreEnv) returns (state: State)
    requires resolver.Recorded() && Tokens(servers) && Tokens(resolver.link.servers) && Tokens(resolver.link.domains)
    requires servers != [] && env.dns.Done? && env.domain.Done? && env.route.Done?
    modifies resolver
    ensures resolver.Recorded() && old(resolver.trail) <= resolver.trail
    ensures state == Captured(old(resolver.link), queries, servers, false) && resolver.file == Holds(state)
    ensures resolver.link == Overlay(old(resolver.link), servers, domains, catchAll)
    ensures GoesUp(old(resolver.link), servers, domains, catchAll, env, resolver.link)
  {
    AppliedWhenDone(resolver.link, servers, domains, catchAll, env);
    AppliedGoesUp(resolver.link, servers, domains, catchAll, env);
    var applied := resolver.ApplyTemporaryVpnDns(servers, domains, catchAll, queries, false, Stored, env, undo);
    state := applied.value;
  }

  /** A disconnect whose commands all take effect puts back what was captured. */
  method RestoreDone(resolver: Resolver, state: State, undo: RestoreEnv)
    requires resolver.Recorded() && resolver.file == Holds(state) && Readable(state) && state.preVpn.Some? && !state.nmManaged
    requires AllTook(undo.first) && AllTook(undo.second) && undo.unlinkOk
    modifies resolver
    ensures resolver.Recorded() && old(resolver.trail) <= resolver.trail && resolver.file == Missing
    ensures var captured := state.preVpn.value;
            resolver.link == Settings(captured.servers, captured.domains,
              if captured.defaultRoute.Some? then captured.defaultRoute.value else old(resolver.link.defaultRoute))
  {
    ReadBack(state);
    var _ := resolver.RestoreFromStatePath(undo);
  }

  /** Connecting and disconnecting with working commands leaves the link as it was exactly when it could be read before. */
  method ApplyThenRestore(resolver: Resolver, servers: seq<string>, domains: seq<string>, catchAll: bool, queries: Queries,
                          env: ApplyEnv, undo: RestoreEnv)
    requires resolver.Recorded() && Tokens(servers) && Tokens(resolver.link.servers) && Tokens(resolver.link.domains)
    requires servers != []
    requires env.dns.Done? && env.domain.Done? && env.route.Done?
    requires AllTook(undo.first) && AllTook(undo.second) && undo.unlinkOk
    modifies resolver
    ensures resolver.link.servers == old(resolver.link.servers) && resolver.link.domains == old(resolver.link.domains) <==>
            CanBeRead(old(resolver.link), queries)
    ensures CanBeRead(old(resolver.link), queries) && (queries.route || catchAll) ==> resolver.link == old(resolver.link)
    ensures !queries.route && !catchAll ==> !resolver.link.defaultRoute
    ensures resolver.file == Missing
  {
    var state := ApplyDone(resolver, servers, domains, catchAll, queries, env, undo);
    RestoreDone(resolver, state, undo);
  }

  /** The link shows what a record says was there before the VPN: what a caller can test before a second apply. */
  predicate StillAsBefore(link: Settings, queries: Queries, pre: Settings) {
    var now := Reading(link, queries);
    now.servers == pre.servers && now.domains == pre.domains && (queries.route ==> link.defaultRoute == pre.defaultRoute)
  }

  /** A second record is true of the link before the first apply exactly when that test holds. */
  lemma SecondRecordTrue(link: Settings, queries: Queries, pre: Settings, servers: seq<string>, nmManaged: bool)
    ensures TrueRecord(Captured(link, queries, servers, nmManaged), pre) <==> StillAsBefore(link, queries, pre)
  {}

  /**
   Two overlays in a row. The second record is true exactly when the first overlay still shows what was
   there; the restore puts back what could be read of the first overlay, so the servers from before are
   lost whenever they differ.
   */
  method ApplyTwice(resolver: Resolver, servers: seq<string>, again: seq<string>, domains: seq<string>, catchAll: bool,
                    queries: Queries, env: ApplyEnv, undo: RestoreEnv) returns (second: State)
    requires resolver.Recorded() && Tokens(servers) && Tokens(again) && Tokens(domains)
    requires Tokens(resolver.link.servers) && Tokens(resolver.link.domains)
    requires servers != [] && again != []
    requires env.dns.Done? && env.domain.Done? && env.route.Done?
    requires AllTook(undo.first) && AllTook(undo.second) && undo.unlinkOk
    modifies resolver
    ensures resolver.Recorded() && old(resolver.trail) <= resolver.trail && resolver.file == Missing
    ensures resolver.link.servers == (if queries.servers then servers else [])
    ensures resolver.link.domains == (if queries.domains then OverlayDomains(domains, catchAll) else [])
    ensures TrueRecord(second, old(resolver.link)) <==>
              StillAsBefore(Overlay(old(resolver.link), servers, domains, catchAll), queries, old(resolver.link))
  {
    var first := ApplyDone(resolver, servers, domains, catchAll, queries, env, undo);
    OverlayTokens(domains, catchAll);
    SecondRecordTrue(resolver.link, queries, old(resolver.link), again, false);
    second := ApplyDone(resolver, again, domains, catchAll, queries, env, undo);
    RestoreDone(resolver, second, undo);
  }

  /** Such a run: the VPN's server stays on the link for good. */
  method ApplyTwiceLosesSnapshot() returns (resolver: Resolver)
    ensures fresh(resolver) && resolver.Recorded() && resolver.trail != []
    ensures resolver.trail[0].link.servers == ["1.1.1.1"] && resolver.link.servers == ["10.0.0.1"] && resolver.file == Missing
    ensures resolver.link.servers != resolver.trail[0].link.servers
  {
    resolver := new Resolver(Settings(["1.1.1.1"], [], true), Missing);
    var _ := ApplyTwice(resolver, ["10.0.0.1"], ["10.0.0.1"], [], true, ANSWERED, ApplyEnv(Done, Done, Done), Smooth(resolver.link));
    assert resolver.link.servers[0] != "1.1.1.1";
  }
}
