/**
 Preserving the host route to the VPN endpoint: snapshot, state file and the repair loop
 (`helper/ipsec_gateway_route.py`). Only /32 routes of the main table matter here, so the table maps
 a destination to its next hop.
 */
module GatewayRoute {
  import opened Wrappers

  datatype Hop = Hop(device: string, via: Option<string>)

  datatype Route = Route(destination: string, hop: Hop)

  type Table = map<string, Hop>

  function Find(t: Table, destination: string): Option<Hop> {
    if destination in t then Some(t[destination]) else None
  }

  /** How a replace ends. A replace that returned zero may still be undone at once by someone else. */
  datatype Outcome = Done(took: bool) | Failed(took: bool) | NoAnswer(took: bool)

  /** Which of the three queries of a reading answer. */
  type Answers = seq<bool>

  predicate SomeAnswer(a: Answers) { exists i | 0 <= i < |a| && i < 3 :: a[i] }

  /** One pass of the repair loop. */
  datatype Attempt = Attempt(before: Answers, replace: Outcome, after: Answers)

  datatype Restored = Restored(attempted: bool, restored: bool, verified: bool)

  /** The rules for texts in the state file. */
  datatype Rules = Rules(isIpv4: string -> bool, safeDevice: string -> bool)

  /** The three queries are asked in their order. */
  lemma ThreeQueries(a: Answers)
    ensures SomeAnswer(a) <==> (|a| > 0 && a[0]) || (|a| > 1 && a[1]) || (|a| > 2 && a[2])
  {
    assert |a| > 0 && a[0] ==> 0 < 3;
  }

  predicate ValidRoute(rules: Rules, r: Route) {
    && rules.isIpv4(r.destination) && r.hop.device != "" && rules.safeDevice(r.hop.device)
    && (r.hop.via.Some? ==> rules.isIpv4(r.hop.via.value))
  }

  // ----- the state file -----

  /** A member of a JSON object: a text, or anything else. */
  datatype Member = Text(s: string) | OtherMember

  datatype Contents = NotAnObject | Object(destination: Member, device: Member, via: Member)

  /** A missing or unparsable file reads as nothing; a document that is not an object raises. */
  datatype File = Missing | Unparsable | Holds(contents: Contents)

  datatype ReadResult = Raised | Read(route: Option<Route>)

  function Written(r: Route): Contents {
    Object(Text(r.destination), Text(r.hop.device), if r.hop.via.Some? then Text(r.hop.via.value) else OtherMember)
  }

  function ReadRoute(rules: Rules, f: File): ReadResult {
    match f
    case Holds(NotAnObject) => Raised
    case Holds(Object(destination, device, via)) =>
      if !destination.Text? || !device.Text? || device.s == "" then Read(None)
      else if !rules.isIpv4(destination.s) || !rules.safeDevice(device.s) then Read(None)
      else Read(Some(Route(destination.s, Hop(device.s, if via.Text? && rules.isIpv4(via.s) then Some(via.s) else None))))
    case _ => Read(None)
  }

  /** The file gives back the route that was written, and only valid routes come out of any file. */
  lemma ReadOfWrite(rules: Rules, r: Route, f: File)
    ensures ValidRoute(rules, r) ==> ReadRoute(rules, Holds(Written(r))) == Read(Some(r))
    ensures ReadRoute(rules, f).Read? && ReadRoute(rules, f).route.Some? ==> ValidRoute(rules, ReadRoute(rules, f).route.value)
  {}

  // ----- the table -----

  class RouteTable {
    var hosts: Table
    /** The replace commands issued so far. */
    ghost var issued: seq<Route>

    constructor (hosts: Table)
      ensures this.hosts == hosts && issued == []
    {
      this.hosts, this.issued := hosts, [];
    }

    /** Asks in three ways and takes the first answer that shows the route. */
    method ReadExact(destination: string, answers: Answers) returns (hop: Option<Hop>)
      ensures hop == if SomeAnswer(answers) then Find(hosts, destination) else None
    {
      for i := 0 to 3
        invariant forall j | 0 <= j < i && j < |answers| :: answers[j] ==> destination !in hosts
      {
        if i < |answers| && answers[i] && destination in hosts {
          return Some(hosts[destination]);
        }
      }
      hop := None;
    }

    method Replace(r: Route, o: Outcome)
      modifies this
      ensures hosts == if o.took then old(hosts)[r.destination := r.hop] else old(hosts)
      ensures issued == old(issued) + [r]
    {
      if o.took {
        hosts := hosts[r.destination := r.hop];
      }
      issued := issued + [r];
    }

    /** Someone else changes the route to one destination. */
    method Meddle(destination: string, hop: Option<Hop>)
      modifies this`hosts
      ensures Find(hosts, destination) == hop && forall d | d != destination :: Find(hosts, d) == Find(old(hosts), d)
    {
      hosts := if hop.Some? then hosts[destination := hop.value] else hosts - {destination};
    }
  }

  /** No other destination's route differs. */
  ghost predicate SameElsewhere(before: Table, after: Table, destination: string) {
    forall d | d != destination :: Find(after, d) == Find(before, d)
  }

  ghost predicate AllSame(s: seq<Route>, r: Route) { forall i | 0 <= i < |s| :: s[i] == r }

  predicate Matches(t: Table, r: Route) { Find(t, r.destination) == Some(r.hop) }

  function Attempts(retries: int): nat { (if retries > 0 then retries else 0) + 1 }

  /** How many replacements the loop issues from pass `i` on, when the table has the route or not. */
  function IssuedFrom(matched: bool, env: nat -> Attempt, i: nat, attempts: nat): (n: nat)
    ensures i + n <= attempts || n == 0
    decreases attempts - i
  {
    if i >= attempts || (matched && SomeAnswer(env(i).before)) then 0
    else
      var now := matched || env(i).replace.took;
      if !env(i).replace.Done? || (now && SomeAnswer(env(i).after)) then 1
      else 1 + IssuedFrom(now, env, i + 1, attempts)
  }

  /** The replacements up to this one succeed; this one stays and can be read back. */
  predicate Settles(env: nat -> Attempt, i: nat) {
    (forall j: nat | j < i :: env(j).replace.Done?) && Stayed(env(i))
  }

  predicate Stayed(e: Attempt) { e.replace == Done(true) && SomeAnswer(e.after) }

  /** The first `n` replacements succeeded, and none of them settled the matter. */
  predicate Unsettled(env: nat -> Attempt, n: nat) {
    forall i: nat | i < n :: env(i).replace.Done? && !Stayed(env(i))
  }

  lemma NothingSettles(env: nat -> Attempt, n: nat, attempts: nat)
    requires Unsettled(env, n) && (n < attempts ==> !env(n).replace.Done?)
    ensures forall i: nat | i < attempts :: !Settles(env, i)
  {}

  /** Some of the first `n` replacements took effect. */
  predicate SomeTook(env: nat -> Attempt, n: nat) { exists i: nat | i < n :: env(i).replace.took }

  /** How one pass of the loop ends. */
  datatype Pass = Found | ReplaceFailed | ReplacedAndSeen | ReplacedUnseen

  /** One pass: reads the route, and when it does not see it, replaces it and reads again. */
  method RepairOnce(table: RouteTable, wanted: Route, e: Attempt) returns (p: Pass)
    modifies table
    ensures p == Found <==> Matches(old(table.hosts), wanted) && SomeAnswer(e.before)
    ensures p == Found ==> table.hosts == old(table.hosts) && table.issued == old(table.issued)
    ensures p != Found ==> table.issued == old(table.issued) + [wanted] && (p == ReplaceFailed <==> !e.replace.Done?)
    ensures p != Found ==> (Matches(table.hosts, wanted) <==> Matches(old(table.hosts), wanted) || e.replace.took)
    ensures p != Found && p != ReplaceFailed ==> (p == ReplacedAndSeen <==> Matches(table.hosts, wanted) && SomeAnswer(e.after))
    ensures SameElsewhere(old(table.hosts), table.hosts, wanted.destination)
  {
    var current := table.ReadExact(wanted.destination, e.before);
    if current == Some(wanted.hop) {
      return Found;
    }
    table.Replace(wanted, e.replace);
    if !e.replace.Done? {
      return ReplaceFailed;
    }
    current := table.ReadExact(wanted.destination, e.after);
    p := if current == Some(wanted.hop) then ReplacedAndSeen else ReplacedUnseen;
  }

  /**
   The repair loop: at most `retries` + 1 replacements, each of exactly this route, and `verified`
   only when the table has it.
   */
  method RestoreAndVerify(table: RouteTable, route: Option<Route>, retries: int, env: nat -> Attempt) returns (r: Restored)
    modifies table
    ensures route.None? ==> r == Restored(false, false, false) && table.hosts == old(table.hosts) && table.issued == old(table.issued)
    ensures route.Some? ==> r.attempted
    ensures old(table.issued) <= table.issued && |table.issued| <= |old(table.issued)| + (if retries > 0 then retries + 1 else 1)
    ensures route.Some? ==> AllSame(table.issued[|old(table.issued)|..], route.value)
    ensures route.Some? ==> SameElsewhere(old(table.hosts), table.hosts, route.value.destination)
    ensures r.verified ==> route.Some? && Matches(table.hosts, route.value)
    ensures r.restored ==> |table.issued| > |old(table.issued)|
    ensures route.Some? && Matches(old(table.hosts), route.value) && SomeAnswer(env(0).before) ==>
              r == Restored(true, false, true) && table.hosts == old(table.hosts) && table.issued == old(table.issued)
    ensures route.Some? ==> forall i: nat | i == 0 || i <= retries :: Settles(env, i) ==> r.verified
    ensures route.Some? ==> var n := IssuedFrom(Matches(old(table.hosts), route.value), env, 0, Attempts(retries));
              && |table.issued| == |old(table.issued)| + n
              && (Matches(table.hosts, route.value) <==> Matches(old(table.hosts), route.value) || SomeTook(env, n))
  {
    if route.None? {
      return Restored(false, false, false);
    }
    var wanted := route.value;
    var lastOk := false;
    ghost var start := table.issued;
    ghost var had := Matches(table.hosts, wanted);
    ghost var total := IssuedFrom(had, env, 0, Attempts(retries));
    for index := 0 to Attempts(retries)
      invariant |table.issued| == |start| + index && start <= table.issued && AllSame(table.issued[|start|..], wanted)
      invariant SameElsewhere(old(table.hosts), table.hosts, wanted.destination)
      invariant index == 0 ==> table.hosts == old(table.hosts) && table.issued == start
      invariant lastOk <==> index > 0
      invariant Unsettled(env, index)
      invariant Matches(table.hosts, wanted) <==> had || SomeTook(env, index)
      invariant index + IssuedFrom(Matches(table.hosts, wanted), env, index, Attempts(retries)) == total
      invariant index > 0 ==> !(had && SomeAnswer(env(0).before))
    {
      ghost var before := table.issued;
      var pass := RepairOnce(table, wanted, env(index));
      if pass == Found {
        return Restored(true, lastOk, true);
      }
      assert table.issued[|start|..] == before[|start|..] + [wanted];
      if pass == ReplaceFailed {
        NothingSettles(env, index, Attempts(retries));
        return Restored(true, false, false);
      }
      lastOk := true;
      if pass == ReplacedAndSeen {
        return Restored(true, true, true);
      }
    }
    NothingSettles(env, Attempts(retries), Attempts(retries));
    r := Restored(true, lastOk, false);
  }

  /** The route to the endpoint when there is one before the daemon starts. */
  method SnapshotRoute(table: RouteTable, destination: Option<string>, answers: Answers) returns (route: Option<Route>)
    ensures route.Some? ==> destination.Some? && route.value.destination == destination.value && Matches(table.hosts, route.value)
    ensures destination.Some? && SomeAnswer(answers) && destination.value in table.hosts ==> route.Some?
  {
    if destination.None? {
      return None;
    }
    var hop := table.ReadExact(destination.value, answers);
    route := if hop.Some? then Some(Route(destination.value, hop.value)) else None;
  }

  /** Restores from the file; the file goes only after a verified restore or when it holds no route. */
  method RestoreFromPath(table: RouteTable, rules: Rules, file: File, env: nat -> Attempt, unlinkOk: bool)
      returns (r: Option<Restored>, left: File)
    modifies table
    ensures r.None? <==> ReadRoute(rules, file).Raised?
    ensures r.None? ==> table.hosts == old(table.hosts) && left == file
    ensures r.Some? ==> var route := ReadRoute(rules, file).route;
              && (r.value.verified ==> route.Some? && Matches(table.hosts, route.value))
              && (left != file ==> left == Missing && (r.value.verified || route.None?))
              && (unlinkOk && (r.value.verified || route.None?) ==> left == Missing)
              && (route.Some? && (Settles(env, 0) || Settles(env, 1)) ==> r.value.verified)
              && (forall d | route.None? || d != route.value.destination :: Find(table.hosts, d) == Find(old(table.hosts), d))
  {
    left := file;
    var read := ReadRoute(rules, file);
    if read.Raised? {
      return None, file;
    }
    var result := RestoreAndVerify(table, read.route, 1, env);
    if (result.verified || read.route.None?) && unlinkOk {
      left := Missing;
    }
    r := Some(result);
  }

  /**
   Whatever happens to the endpoint's route while the VPN is up, the route captured before is back
   afterwards, and no other route was touched.
   */
  method CapturedRouteComesBack(table: RouteTable, rules: Rules, destination: string, answers: Answers, meddled: Option<Hop>, env: nat -> Attempt)
      returns (left: File)
    requires destination in table.hosts && SomeAnswer(answers) && ValidRoute(rules, Route(destination, table.hosts[destination]))
    requires env(0).replace == Done(true) && SomeAnswer(env(0).after)
    modifies table
    ensures forall d :: Find(table.hosts, d) == Find(old(table.hosts), d)
    ensures left == Missing
  {
    var route := SnapshotRoute(table, Some(destination), answers);
    var file := Holds(Written(route.value));
    ReadOfWrite(rules, route.value, file);
    table.Meddle(destination, meddled);
    var r, f := RestoreFromPath(table, rules, file, env, true);
    left := f;
  }
}
