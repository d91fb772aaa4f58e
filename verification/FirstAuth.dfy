/**
 The rewriting of the first IKE_AUTH request (RFC 7296, section 1.2): six steps that unlink and
 append payloads of the message in place.
 */
module FirstAuth {
  import opened Wrappers
  import opened Sequences
  import opened IkeMessage

  const INITIAL_CONTACT := 16384
  const EAP_ONLY := 16417
  const MSG_ID_SYNC := 16420
  const LICENSE := 61696

  /** The sixteen attribute types of the request, in order. */
  const CP_TYPES: seq<nat> := [1, 2, 7, 3, 4, 13, 8, 10, 11, 15, 25, 21516, 28678, 21514, 21515, 28673]

  // ----- kinds of payloads -----

  type Kind = Payload -> bool

  predicate IsNotify(p: Payload, code: nat) { p.Notify? && p.code == code }

  predicate IsRequest(p: Payload) { p.Configuration? && p.cfg == CfgRequest }

  /** The place of a payload in the repositioned message; everything else comes last. */
  function Rank(p: Payload): (r: nat)
    ensures r <= LAST
  {
    match p
    case IdInitiator(_) => ID_INITIATOR
    case Notify(code, _) => if code == INITIAL_CONTACT then CONTACT else if code == LICENSE then LICENSED else LAST
    case Auth(_) => AUTH
    case Configuration(_, _) => CP
    case SecurityAssociation(_) => SA
    case TsInitiator(_) => TSI
    case TsResponder(_) => TSR
    case _ => LAST
  }

  const ID_INITIATOR: nat := 0
  const CONTACT: nat := 1
  const LICENSED: nat := 2
  const AUTH: nat := 3
  const CP: nat := 4
  const SA: nat := 5
  const TSI: nat := 6
  const TSR: nat := 7
  const LAST: nat := 8

  function Ranked(r: nat): Kind { p => Rank(p) == r }

  function From(r: nat): Kind { p => Rank(p) >= r }

  function Compat(): Kind { p => IsNotify(p, EAP_ONLY) || IsNotify(p, MSG_ID_SYNC) }

  function Request(): Kind { p => IsRequest(p) }

  function Not(k: Kind): Kind { p => !k(p) }

  function Count(k: Kind, s: seq<Payload>): nat { |Filter(k, s)| }

  /** An enumeration at position `i`, which has dealt with the first `done` of the given payloads and unlinked some. */
  ghost predicate Enumerating(k: Kind, given: seq<Payload>, done: nat, items: seq<Payload>, i: nat) {
    && i <= |items| && done <= |given|
    && items[i..] == given[done..]
    && items[..i] == Filter(Not(k), given[..done])
  }

  lemma EnumerateStep(k: Kind, given: seq<Payload>, done: nat, items: seq<Payload>, i: nat)
    requires Enumerating(k, given, done, items, i) && i < |items|
    ensures done < |given|
    ensures k(items[i]) ==> Enumerating(k, given, done + 1, items[..i] + items[i + 1..], i)
    ensures !k(items[i]) ==> Enumerating(k, given, done + 1, items, i + 1)
    ensures Filter(k, given[..done + 1]) == if k(items[i]) then Filter(k, given[..done]) + [items[i]] else Filter(k, given[..done])
  {
    var p := items[i];
    assert p == items[i..][0] && items[i + 1..] == items[i..][1..] && given[done + 1..] == given[done..][1..];
    assert given[..done + 1] == given[..done] + [p] && items[..i + 1] == items[..i] + [p];
    FilterAppend(Not(k), given[..done], p);
    FilterAppend(k, given[..done], p);
    var rest := items[..i] + items[i + 1..];
    assert rest[..i] == items[..i] && rest[i..] == items[i + 1..];
  }

  /** The same while the unlinked payloads are appended to `out`, which held `start`. */
  ghost predicate Moving(k: Kind, given: seq<Payload>, done: nat, items: seq<Payload>, i: nat, start: seq<Payload>, out: seq<Payload>) {
    Enumerating(k, given, done, items, i) && out == start + Filter(k, given[..done])
  }

  lemma MoveStep(k: Kind, given: seq<Payload>, done: nat, items: seq<Payload>, i: nat, start: seq<Payload>, out: seq<Payload>)
    requires Moving(k, given, done, items, i, start, out) && i < |items|
    ensures k(items[i]) ==> Moving(k, given, done + 1, items[..i] + items[i + 1..], i, start, out + [items[i]])
    ensures !k(items[i]) ==> Moving(k, given, done + 1, items, i + 1, start, out)
  {
    EnumerateStep(k, given, done, items, i);
    Appended(start, Filter(k, given[..done]), items[i]);
  }

  lemma Appended(s: seq<Payload>, t: seq<Payload>, p: Payload)
    ensures s + (t + [p]) == (s + t) + [p]
  {}

  lemma EnumerateEnd(k: Kind, given: seq<Payload>, done: nat, items: seq<Payload>, i: nat)
    requires Enumerating(k, given, done, items, i) && i >= |items|
    ensures items == Filter(Not(k), given) && given[..done] == given
  {
    assert |items[i..]| == 0;
    assert items[..i] == items && given[..done] == given;
  }

  /** The list of payloads of a message, or a plain list of them. */
  class PayloadList {
    var items: seq<Payload>

    constructor (items: seq<Payload>)
      ensures this.items == items
    {
      this.items := items;
    }

    /** `remove_at` while enumerating: everything of one kind is unlinked. */
    method RemoveAll(k: Kind)
      modifies this
      ensures items == Filter(Not(k), old(items))
    {
      var i := 0;
      ghost var given := items;
      ghost var done: nat := 0;
      while i < |items|
        invariant Enumerating(k, given, done, items, i)
        decreases |items| - i
      {
        EnumerateStep(k, given, done, items, i);
        if k(items[i]) {
          items := items[..i] + items[i + 1..];
        } else {
          i := i + 1;
        }
        done := done + 1;
      }
      EnumerateEnd(k, given, done, items, i);
    }

    /** Whether some payload is of one kind. */
    method Has(k: Kind) returns (found: bool)
      ensures found <==> Count(k, items) > 0
    {
      found := false;
      for i := 0 to |items|
        invariant forall j | 0 <= j < i :: !k(items[j])
      {
        if k(items[i]) {
          assert items[i] in Filter(k, items);
          return true;
        }
      }
      assert forall p | p in Filter(k, items) :: p in items && k(p);
      FilterNone(k, items);
    }

    method CountOf(k: Kind) returns (n: nat)
      ensures n == Count(k, items)
    {
      n := 0;
      for i := 0 to |items|
        invariant n == Count(k, items[..i])
      {
        assert items[..i + 1] == items[..i] + [items[i]];
        FilterAppend(k, items[..i], items[i]);
        if k(items[i]) {
          n := n + 1;
        }
      }
      assert items[..|items|] == items;
    }

    /** Unlinks the first payload of one kind. */
    method RemoveFirst(k: Kind) returns (removed: Option<Payload>)
      modifies this
      ensures items == WithoutFirst(k, old(items))
      ensures removed.Some? <==> Count(k, old(items)) > 0
    {
      for i := 0 to |items|
        invariant items == old(items)
        invariant forall j | 0 <= j < i :: !k(items[j])
      {
        if k(items[i]) {
          removed := Some(items[i]);
          FirstAt(k, items, i);
          assert items[i] in Filter(k, items);
          items := items[..i] + items[i + 1..];
          return;
        }
      }
      NoFirst(k, items);
      FilterNone(k, items);
      removed := None;
    }
  }

  /** The list without its first element of one kind. */
  function WithoutFirst(k: Kind, s: seq<Payload>): seq<Payload> {
    if s == [] then [] else if k(s[0]) then s[1..] else [s[0]] + WithoutFirst(k, s[1..])
  }

  lemma {:induction false} FirstAt(k: Kind, s: seq<Payload>, i: nat)
    requires i < |s| && k(s[i]) && forall j | 0 <= j < i :: !k(s[j])
    ensures WithoutFirst(k, s) == s[..i] + s[i + 1..]
  {
    if i > 0 {
      FirstAt(k, s[1..], i - 1);
      assert [s[0]] + s[1..][..i - 1] == s[..i] && s[1..][i..] == s[i + 1..];
    }
  }

  lemma {:induction false} NoFirst(k: Kind, s: seq<Payload>)
    requires forall j | 0 <= j < |s| :: !k(s[j])
    ensures WithoutFirst(k, s) == s
  {
    if s != [] { NoFirst(k, s[1..]); }
  }

  // ----- moving payloads between lists -----

  /** `append_payloads_of_type` and `append_notifies_of_type`: one kind goes to the end of the message, in order. */
  method MoveAll(message: PayloadList, list: PayloadList, k: Kind)
    requires message != list
    modifies message, list
    ensures message.items == old(message.items) + Filter(k, old(list.items))
    ensures list.items == Filter(Not(k), old(list.items))
  {
    var i := 0;
    ghost var given, start := list.items, message.items;
    ghost var done: nat := 0;
    while i < |list.items|
      invariant Moving(k, given, done, list.items, i, start, message.items)
      decreases |list.items| - i
    {
      MoveStep(k, given, done, list.items, i, start, message.items);
      var p := list.items[i];
      if k(p) {
        list.items := list.items[..i] + list.items[i + 1..];
        message.items := message.items + [p];
      } else {
        i := i + 1;
      }
      done := done + 1;
    }
    EnumerateEnd(k, given, done, list.items, i);
  }

  /** `restore_payloads`: everything left goes to the end of the message, in order. */
  method Restore(message: PayloadList, list: PayloadList)
    requires message != list
    modifies message, list
    ensures message.items == old(message.items) + old(list.items) && list.items == []
  {
    while list.items != []
      invariant message.items + list.items == old(message.items) + old(list.items)
      decreases |list.items|
    {
      var p := list.items[0];
      assert list.items == [p] + list.items[1..];
      list.items := list.items[1..];
      message.items := message.items + [p];
    }
  }

  // ----- the order of the repositioned message -----

  /** The payloads of the ranks below `n`, rank by rank. */
  function ByRank(s: seq<Payload>, n: nat): seq<Payload> {
    if n == 0 then [] else ByRank(s, n - 1) + Filter(Ranked(n - 1), s)
  }

  /** Taking out rank `n` leaves the ranks above it. */
  lemma NextRank(s: seq<Payload>, n: nat)
    ensures Filter(Ranked(n), Filter(From(n), s)) == Filter(Ranked(n), s)
    ensures Filter(Not(Ranked(n)), Filter(From(n), s)) == Filter(From(n + 1), s)
  {
    FilterTwice(Ranked(n), From(n), Ranked(n), s);
    FilterTwice(Not(Ranked(n)), From(n), From(n + 1), s);
  }

  lemma AllFromZero(s: seq<Payload>)
    ensures Filter(From(0), s) == s
  {
    FilterAll(From(0), s);
  }

  lemma OnlyLast(s: seq<Payload>)
    ensures Filter(From(LAST), s) == Filter(Ranked(LAST), s)
  {
    FilterTwice(From(LAST), From(LAST), Ranked(LAST), s);
    FilterAll(From(LAST), Filter(From(LAST), s));
  }

  /** What the repositioning needs: one license notify and the payloads it is placed between. */
  predicate Ready(s: seq<Payload>) {
    && Count(Ranked(LICENSED), s) == 1 && Count(Ranked(CONTACT), s) >= 1 && Count(Ranked(ID_INITIATOR), s) >= 1
    && Count(Ranked(AUTH), s) >= 1 && Count(Ranked(CP), s) >= 1
  }

  function Repositioned(s: seq<Payload>): seq<Payload> {
    if Ready(s) then ByRank(s, LAST + 1) else s
  }

  /** One step of the repositioning. */
  method MoveRank(message: PayloadList, list: PayloadList, ghost s: seq<Payload>, r: nat)
    requires message != list && message.items == ByRank(s, r) && list.items == Filter(From(r), s)
    modifies message, list
    ensures message.items == ByRank(s, r + 1) && list.items == Filter(From(r + 1), s)
  {
    NextRank(s, r);
    MoveAll(message, list, Ranked(r));
  }

  /** The payloads that get a place before AUTH. */
  method MoveFirstRanks(message: PayloadList, list: PayloadList, ghost s: seq<Payload>)
    requires message != list && message.items == [] && list.items == s
    modifies message, list
    ensures message.items == ByRank(s, AUTH) && list.items == Filter(From(AUTH), s)
  {
    AllFromZero(s);
    MoveRank(message, list, s, ID_INITIATOR);
    MoveRank(message, list, s, CONTACT);
    MoveRank(message, list, s, LICENSED);
  }

  /** Rebuilds the message rank by rank. */
  method MoveRanks(message: PayloadList, list: PayloadList)
    requires message != list && message.items == []
    modifies message, list
    ensures message.items == ByRank(old(list.items), LAST + 1)
  {
    ghost var s := list.items;
    MoveFirstRanks(message, list, s);
    MoveRank(message, list, s, AUTH);
    MoveRank(message, list, s, CP);
    MoveRank(message, list, s, SA);
    MoveRank(message, list, s, TSI);
    MoveRank(message, list, s, TSR);
    OnlyLast(s);
    Restore(message, list);
  }

  /** Moves the license notify between INITIAL_CONTACT and the rest, or restores the message. */
  method Reposition(message: PayloadList) returns (sorted: bool)
    modifies message
    ensures message.items == Repositioned(old(message.items))
    ensures sorted == !Ready(old(message.items))
  {
    ghost var s := message.items;
    var list := new PayloadList([]);
    Restore(list, message);
    assert [] + s == s;
    var licenses := list.CountOf(Ranked(LICENSED));
    var contacts := list.CountOf(Ranked(CONTACT));
    var ids := list.CountOf(Ranked(ID_INITIATOR));
    var auths := list.CountOf(Ranked(AUTH));
    var cps := list.CountOf(Ranked(CP));
    if licenses != 1 || contacts < 1 || ids < 1 || auths < 1 || cps < 1 {
      Restore(message, list);
      return true;
    }
    MoveRanks(message, list);
    sorted := false;
  }

  // ----- the other steps -----

  /** What the surroundings supply: the license file, and whether the two notifies can be allocated. */
  datatype Env = Env(license: Option<seq<byte>>, contactMade: bool, licenseMade: bool)

  /** Whether the configuration payload and each of its attributes can be allocated. */
  datatype CpEnv = CpEnv(cpMade: bool, attributeMade: nat -> bool)

  const LICENSE_MAX := 8192

  /** The license blob, or nothing when the file is missing, empty or too large. */
  function LicenseInfo(file: Option<seq<byte>>): seq<byte> {
    if file.None? || |file.value| >= LICENSE_MAX then [] else file.value
  }

  const CONTACT_NOTIFY := Notify(INITIAL_CONTACT, [])

  function AddedContact(env: Env, s: seq<Payload>): seq<Payload> {
    if Count(Ranked(CONTACT), s) > 0 || !env.contactMade then [] else [CONTACT_NOTIFY]
  }

  function AddedLicense(env: Env, s: seq<Payload>): seq<Payload> {
    if Count(Ranked(LICENSED), s) > 0 || LicenseInfo(env.license) == [] || !env.licenseMade then []
    else [Notify(LICENSE, LicenseInfo(env.license))]
  }

  predicate CpAllocated(env: CpEnv) { env.cpMade && forall i: nat | i < |CP_TYPES| :: env.attributeMade(i) }

  /** The request asks for the sixteen attributes, each empty. */
  function EmptyAttributes(n: nat): (a: seq<Attribute>)
    requires n <= |CP_TYPES|
    ensures |a| == n && forall i | 0 <= i < n :: a[i] == Attribute(CP_TYPES[i], [])
  {
    seq(n, i requires 0 <= i < n => Attribute(CP_TYPES[i], []))
  }

  /** The new request, or nothing when an allocation fails. */
  function NewCp(env: CpEnv): seq<Payload> {
    if CpAllocated(env) then [Configuration(CfgRequest, EmptyAttributes(|CP_TYPES|))] else []
  }

  /** At most one payload, a request. */
  predicate IsNewCp(cp: seq<Payload>) { cp == [] || (|cp| == 1 && IsRequest(cp[0])) }

  method AddInitialContact(message: PayloadList, env: Env)
    modifies message
    ensures message.items == old(message.items) + AddedContact(env, old(message.items))
  {
    var present := message.Has(Ranked(CONTACT));
    if present || !env.contactMade {
      assert message.items + [] == message.items;
      return;
    }
    message.items := message.items + [CONTACT_NOTIFY];
  }

  method AddLicenseNotify(message: PayloadList, env: Env)
    modifies message
    ensures message.items == old(message.items) + AddedLicense(env, old(message.items))
  {
    assert message.items + [] == message.items;
    var present := message.Has(Ranked(LICENSED));
    if present {
      return;
    }
    var data := LicenseInfo(env.license);
    if data == [] || !env.licenseMade {
      return;
    }
    message.items := message.items + [Notify(LICENSE, data)];
  }

  /** Replaces the first CFG_REQUEST by a new one; when an allocation fails the old one is lost. */
  method RewriteCpRequest(message: PayloadList, env: CpEnv)
    modifies message
    ensures message.items == WithoutFirst(Request(), old(message.items)) + NewCp(env)
  {
    var _ := message.RemoveFirst(Request());
    assert message.items + [] == message.items;
    if !env.cpMade {
      return;
    }
    var attributes: seq<Attribute> := [];
    for i := 0 to |CP_TYPES|
      invariant attributes == EmptyAttributes(i)
      invariant forall j: nat | j < i :: env.attributeMade(j)
    {
      if !env.attributeMade(i) {
        return;
      }
      attributes := attributes + [Attribute(CP_TYPES[i], [])];
    }
    message.items := message.items + [Configuration(CfgRequest, attributes)];
  }

  // ----- the whole rewriting -----

  /** The message after the first four steps. */
  function Prepared(env: Env, cp: seq<Payload>, s: seq<Payload>): seq<Payload> {
    var plain := Filter(Not(Compat()), s);
    var contacted := plain + AddedContact(env, plain);
    var licensed := contacted + AddedLicense(env, contacted);
    WithoutFirst(Request(), licensed) + cp
  }

  function Rewritten(env: Env, cp: seq<Payload>, s: seq<Payload>): seq<Payload> {
    Filter(Not(Ranked(AUTH)), Repositioned(Prepared(env, cp, s)))
  }

  /** The six steps on the first IKE_AUTH. */
  method RewriteFirstAuth(message: PayloadList, env: Env, cpEnv: CpEnv) returns (sorted: bool)
    modifies message
    ensures message.items == Rewritten(env, NewCp(cpEnv), old(message.items))
    ensures sorted == !Ready(Prepared(env, NewCp(cpEnv), old(message.items)))
  {
    message.RemoveAll(Compat());
    AddInitialContact(message, env);
    AddLicenseNotify(message, env);
    RewriteCpRequest(message, cpEnv);
    sorted := Reposition(message);
    message.RemoveAll(Ranked(AUTH));
  }

  // ----- nothing is lost or made up -----

  lemma {:induction false} FilterSplits(k: Kind, s: seq<Payload>)
    ensures multiset(Filter(k, s)) + multiset(Filter(Not(k), s)) == multiset(s)
  {
    if s != [] {
      var m := |s| - 1;
      assert s == s[..m] + [s[m]];
      FilterSplits(k, s[..m]);
      FilterAppend(k, s[..m], s[m]);
      FilterAppend(Not(k), s[..m], s[m]);
    }
  }

  /** The ranks below `n` and the rest make up the whole list. */
  ghost predicate Accounted(s: seq<Payload>, n: nat) {
    multiset(ByRank(s, n)) + multiset(Filter(From(n), s)) == multiset(s)
  }

  lemma RankStepKeeps(s: seq<Payload>, n: nat)
    requires Accounted(s, n)
    ensures Accounted(s, n + 1)
  {
    var mine, rest := Filter(Ranked(n), s), Filter(From(n), s);
    NextRank(s, n);
    FilterSplits(Ranked(n), rest);
    Regrouped(ByRank(s, n), mine, rest, Filter(From(n + 1), s), s);
    assert ByRank(s, n + 1) == ByRank(s, n) + mine;
  }

  lemma NoRanksYet(s: seq<Payload>)
    ensures Accounted(s, 0)
  {
    AllFromZero(s);
  }

  lemma ByRankKeeps(s: seq<Payload>, n: nat)
    ensures Accounted(s, n)
  {
    NoRanksYet(s);
    for i := 0 to n
      invariant Accounted(s, i)
    {
      RankStepKeeps(s, i);
    }
  }

  lemma Regrouped(a: seq<Payload>, b: seq<Payload>, rest: seq<Payload>, c: seq<Payload>, all: seq<Payload>)
    requires multiset(a) + multiset(rest) == multiset(all)
    requires multiset(b) + multiset(c) == multiset(rest)
    ensures multiset(a + b) + multiset(c) == multiset(all)
  {}

  lemma NothingBeyond(s: seq<Payload>)
    ensures Filter(From(LAST + 1), s) == []
  {
    FilterNone(From(LAST + 1), s);
  }

  /** Repositioning permutes the payloads. */
  lemma RepositionedPermutes(s: seq<Payload>)
    ensures multiset(Repositioned(s)) == multiset(s)
  {
    ByRankKeeps(s, LAST + 1);
    NothingBeyond(s);
  }

  /** The first payload of one kind, if any. */
  function First(k: Kind, s: seq<Payload>): seq<Payload> {
    if s == [] then [] else if k(s[0]) then [s[0]] else First(k, s[1..])
  }

  lemma {:induction false} FirstSplits(k: Kind, s: seq<Payload>)
    ensures multiset(First(k, s)) + multiset(WithoutFirst(k, s)) == multiset(s)
  {
    if s != [] {
      assert s == [s[0]] + s[1..];
      if !k(s[0]) { FirstSplits(k, s[1..]); }
    }
  }

  lemma {:induction false} WithoutFirstOfConcat(k: Kind, s: seq<Payload>, t: seq<Payload>)
    requires forall p | p in t :: !k(p)
    ensures WithoutFirst(k, s + t) == WithoutFirst(k, s) + t && First(k, s + t) == First(k, s)
  {
    if s == [] {
      assert s + t == t;
      NoFirst(k, t);
      NoneFirst(k, t);
    } else {
      assert (s + t)[1..] == s[1..] + t;
      if !k(s[0]) {
        WithoutFirstOfConcat(k, s[1..], t);
        assert [s[0]] + (WithoutFirst(k, s[1..]) + t) == ([s[0]] + WithoutFirst(k, s[1..])) + t;
      }
    }
  }

  lemma {:induction false} NoneFirst(k: Kind, s: seq<Payload>)
    requires forall p | p in s :: !k(p)
    ensures First(k, s) == []
  {
    if s != [] { NoneFirst(k, s[1..]); }
  }

  /** The payloads the rewriting appends. */
  function Added(env: Env, cp: seq<Payload>, s: seq<Payload>): seq<Payload> {
    var plain := Filter(Not(Compat()), s);
    AddedContact(env, plain) + AddedLicense(env, plain + AddedContact(env, plain)) + cp
  }

  /** What is kept of the given payloads before AUTH is taken out: in their original order. */
  function Survivors(s: seq<Payload>): seq<Payload> { WithoutFirst(Request(), Filter(Not(Compat()), s)) }

  /** The prepared message is the survivors in their order, then the added payloads. */
  lemma PreparedShape(env: Env, cp: seq<Payload>, s: seq<Payload>)
    ensures Prepared(env, cp, s) == Survivors(s) + Added(env, cp, s)
  {
    var plain := Filter(Not(Compat()), s);
    var contact := AddedContact(env, plain);
    var license := AddedLicense(env, plain + contact);
    var two := contact + license;
    Associate(plain, contact, license);
    assert forall p | p in two :: !IsRequest(p);
    WithoutFirstOfConcat(Request(), plain, two);
    Associate(Survivors(s), two, cp);
  }

  lemma RewrittenBag(env: Env, cp: seq<Payload>, s: seq<Payload>)
    ensures multiset(Rewritten(env, cp, s))
              + (multiset(Filter(Compat(), s)) + multiset(First(Request(), Filter(Not(Compat()), s)))
                 + multiset(Filter(Ranked(AUTH), Prepared(env, cp, s))))
            == multiset(s) + multiset(Added(env, cp, s))
  {
    var prepared, plain := Prepared(env, cp, s), Filter(Not(Compat()), s);
    FilterSplits(Compat(), s);
    FirstSplits(Request(), plain);
    PreparedBag(env, cp, s);
    RepositionedPermutes(prepared);
    FilterSplits(Ranked(AUTH), Repositioned(prepared));
    AuthSame(prepared);
    Balance(multiset(s), multiset(Filter(Compat(), s)), multiset(plain), multiset(First(Request(), plain)),
            multiset(Survivors(s)), multiset(Added(env, cp, s)), multiset(prepared),
            multiset(Filter(Ranked(AUTH), prepared)), multiset(Rewritten(env, cp, s)));
  }

  lemma PreparedBag(env: Env, cp: seq<Payload>, s: seq<Payload>)
    ensures multiset(Prepared(env, cp, s)) == multiset(Survivors(s)) + multiset(Added(env, cp, s))
  {
    PreparedShape(env, cp, s);
  }

  lemma Balance(all: multiset<Payload>, compat: multiset<Payload>, plain: multiset<Payload>, first: multiset<Payload>,
                survivors: multiset<Payload>, added: multiset<Payload>, prepared: multiset<Payload>,
                auth: multiset<Payload>, result: multiset<Payload>)
    requires compat + plain == all && first + survivors == plain
    requires survivors + added == prepared && auth + result == prepared
    ensures result + (compat + first + auth) == all + added
  {
    forall p ensures (result + (compat + first + auth))[p] == (all + added)[p] {
      assert (compat + plain)[p] == all[p] && (first + survivors)[p] == plain[p];
      assert (survivors + added)[p] == prepared[p] && (auth + result)[p] == prepared[p];
    }
  }

  lemma ByRankSplits(s: seq<Payload>, n: nat, k: Kind)
    ensures Filter(k, ByRank(s, n + 1)) == Filter(k, ByRank(s, n)) + Filter(k, Filter(Ranked(n), s))
  {
    FilterConcat(k, ByRank(s, n), Filter(Ranked(n), s));
    assert ByRank(s, n + 1) == ByRank(s, n) + Filter(Ranked(n), s);
  }

  lemma NothingAdded(s: seq<Payload>)
    ensures s + [] == s && [] + s == s
  {}

  lemma SameRank(s: seq<Payload>, r: nat)
    ensures Filter(Ranked(r), Filter(Ranked(r), s)) == Filter(Ranked(r), s)
  {
    FilterAll(Ranked(r), Filter(Ranked(r), s));
  }

  lemma OtherRank(s: seq<Payload>, n: nat, r: nat)
    requires r != n
    ensures Filter(Ranked(r), Filter(Ranked(n), s)) == []
  {
    FilterNone(Ranked(r), Filter(Ranked(n), s));
  }

  lemma {:induction false} RanksBelow(s: seq<Payload>, n: nat)
    ensures forall p | p in ByRank(s, n) :: Rank(p) < n
  {
    if n > 0 { RanksBelow(s, n - 1); }
  }

  lemma NotYet(s: seq<Payload>, n: nat, r: nat)
    requires n <= r
    ensures Filter(Ranked(r), ByRank(s, n)) == []
  {
    RanksBelow(s, n);
    FilterNone(Ranked(r), ByRank(s, n));
  }

  lemma InItsTurn(s: seq<Payload>, r: nat)
    ensures Filter(Ranked(r), ByRank(s, r + 1)) == Filter(Ranked(r), s)
  {
    NotYet(s, r, r);
    SameRank(s, r);
    ByRankSplits(s, r, Ranked(r));
    NothingAdded(Filter(Ranked(r), s));
  }

  lemma LaterUnchanged(s: seq<Payload>, n: nat, r: nat)
    requires r < n
    ensures Filter(Ranked(r), ByRank(s, n + 1)) == Filter(Ranked(r), ByRank(s, n))
  {
    OtherRank(s, n, r);
    ByRankSplits(s, n, Ranked(r));
    NothingAdded(Filter(Ranked(r), ByRank(s, n)));
  }

  /** Every rank keeps its payloads and their order. */
  ghost predicate StableAt(s: seq<Payload>, n: nat, r: nat) {
    Filter(Ranked(r), ByRank(s, n)) == Filter(Ranked(r), s)
  }

  lemma StableFirst(s: seq<Payload>, r: nat)
    ensures StableAt(s, r + 1, r)
  {
    InItsTurn(s, r);
  }

  lemma StableLater(s: seq<Payload>, n: nat, r: nat)
    requires r < n && StableAt(s, n, r)
    ensures StableAt(s, n + 1, r)
  {
    LaterUnchanged(s, n, r);
  }

  lemma ByRankStable(s: seq<Payload>, n: nat, r: nat)
    requires r < n
    ensures StableAt(s, n, r)
  {
    StableFirst(s, r);
    for m := r + 1 to n
      invariant StableAt(s, m, r)
    {
      StableLater(s, m, r);
    }
  }

  lemma RepositionedStable(s: seq<Payload>, r: nat)
    requires r <= LAST
    ensures Filter(Ranked(r), Repositioned(s)) == Filter(Ranked(r), s)
  {
    ByRankStable(s, LAST + 1, r);
  }

  lemma AuthSame(s: seq<Payload>)
    ensures Filter(Ranked(AUTH), Repositioned(s)) == Filter(Ranked(AUTH), s)
  {
    RepositionedStable(s, AUTH);
  }

  // ----- the order that results -----

  lemma RankKept(s: seq<Payload>, r: nat)
    requires r != AUTH
    ensures Filter(Not(Ranked(AUTH)), Filter(Ranked(r), s)) == Filter(Ranked(r), s)
  {
    FilterAll(Not(Ranked(AUTH)), Filter(Ranked(r), s));
  }

  lemma AuthDropped(s: seq<Payload>)
    ensures Filter(Not(Ranked(AUTH)), Filter(Ranked(AUTH), s)) == []
  {
    FilterNone(Not(Ranked(AUTH)), Filter(Ranked(AUTH), s));
  }

  /** Without AUTH the ranks below `n` are those before it and those after it. */
  ghost predicate AuthCutOut(s: seq<Payload>, n: nat) {
    Filter(Not(Ranked(AUTH)), ByRank(s, n)) == ByRank(s, AUTH) + Between(s, AUTH + 1, n)
  }

  lemma CutOutAt(s: seq<Payload>)
    ensures AuthCutOut(s, AUTH + 1)
  {
    FilterConcat(Not(Ranked(AUTH)), ByRank(s, AUTH), Filter(Ranked(AUTH), s));
    BelowKept(s, AUTH);
    AuthDropped(s);
  }

  lemma CutOutStep(s: seq<Payload>, n: nat)
    requires n > AUTH && AuthCutOut(s, n)
    ensures AuthCutOut(s, n + 1)
  {
    FilterConcat(Not(Ranked(AUTH)), ByRank(s, n), Filter(Ranked(n), s));
    RankKept(s, n);
    Associate(ByRank(s, AUTH), Between(s, AUTH + 1, n), Filter(Ranked(n), s));
  }

  lemma ByRankWithoutAuth(s: seq<Payload>, n: nat)
    requires n > AUTH
    ensures AuthCutOut(s, n)
  {
    CutOutAt(s);
    for i := AUTH + 1 to n
      invariant AuthCutOut(s, i)
    {
      CutOutStep(s, i);
    }
  }

  /** The payloads of the ranks from `m` to below `n`, rank by rank. */
  function Between(s: seq<Payload>, m: nat, n: nat): seq<Payload> {
    if n <= m then [] else Between(s, m, n - 1) + Filter(Ranked(n - 1), s)
  }

  lemma BelowKept(s: seq<Payload>, n: nat)
    requires n <= AUTH
    ensures Filter(Not(Ranked(AUTH)), ByRank(s, n)) == ByRank(s, n)
  {
    RanksBelow(s, n);
    FilterAll(Not(Ranked(AUTH)), ByRank(s, n));
  }

  /**
   When everything needed is there the message reads IDi, INITIAL_CONTACT, the license notify, CP,
   SA, TSi, TSr, then the rest, each in its original order.
   */
  lemma ReadyOrder(env: Env, cp: seq<Payload>, s: seq<Payload>)
    requires Ready(Prepared(env, cp, s))
    ensures var p := Prepared(env, cp, s);
            Rewritten(env, cp, s) == ByRank(p, AUTH) + Between(p, CP, LAST + 1)
  {
    ByRankWithoutAuth(Prepared(env, cp, s), LAST + 1);
  }

  lemma RankRuns(s: seq<Payload>)
    ensures ByRank(s, AUTH) == Filter(Ranked(ID_INITIATOR), s) + Filter(Ranked(CONTACT), s) + Filter(Ranked(LICENSED), s)
    ensures Between(s, CP, LAST + 1) == Filter(Ranked(CP), s) + Filter(Ranked(SA), s) + Filter(Ranked(TSI), s)
                                        + Filter(Ranked(TSR), s) + Filter(Ranked(LAST), s)
  {
    assert ByRank(s, 1) == [] + Filter(Ranked(0), s) == Filter(Ranked(0), s);
    assert Between(s, CP, CP + 1) == [] + Filter(Ranked(CP), s) == Filter(Ranked(CP), s);
    assert Between(s, CP, CP + 2) == Filter(Ranked(CP), s) + Filter(Ranked(SA), s);
    assert Between(s, CP, CP + 3) == Between(s, CP, CP + 2) + Filter(Ranked(TSI), s);
    assert Between(s, CP, CP + 4) == Between(s, CP, CP + 3) + Filter(Ranked(TSR), s);
  }

  /** Otherwise the survivors without AUTH stay in their order, followed by what was added. */
  lemma OtherwiseSameOrder(env: Env, cp: seq<Payload>, s: seq<Payload>)
    requires IsNewCp(cp) && !Ready(Prepared(env, cp, s))
    ensures Rewritten(env, cp, s) == Filter(Not(Ranked(AUTH)), Survivors(s)) + Added(env, cp, s)
  {
    PreparedShape(env, cp, s);
    FilterConcat(Not(Ranked(AUTH)), Survivors(s), Added(env, cp, s));
    AddedNotAuth(env, cp, s);
  }

  lemma AddedNotAuth(env: Env, cp: seq<Payload>, s: seq<Payload>)
    requires IsNewCp(cp)
    ensures Filter(Not(Ranked(AUTH)), Added(env, cp, s)) == Added(env, cp, s)
  {
    AddedKinds(env, cp, s);
    NoAuthAmong(Added(env, cp, s));
  }

  lemma NoAuthAmong(s: seq<Payload>)
    requires NotifyOrCp(s)
    ensures Filter(Not(Ranked(AUTH)), s) == s
  {
    FilterAll(Not(Ranked(AUTH)), s);
  }

  predicate NotifyOrCp(s: seq<Payload>) { forall p | p in s :: p.Notify? || p.Configuration? }

  lemma NotifyOrCpConcat(a: seq<Payload>, b: seq<Payload>, c: seq<Payload>)
    requires NotifyOrCp(a) && NotifyOrCp(b) && NotifyOrCp(c)
    ensures NotifyOrCp(a + b + c)
  {}

  lemma AddedKinds(env: Env, cp: seq<Payload>, s: seq<Payload>)
    requires IsNewCp(cp)
    ensures NotifyOrCp(Added(env, cp, s))
  {
    var plain := Filter(Not(Compat()), s);
    NotifyOrCpConcat(AddedContact(env, plain), AddedLicense(env, plain + AddedContact(env, plain)), cp);
  }

  /** Taking out the first payload of one kind leaves the others. */
  lemma {:induction false} OthersStay(k: Kind, j: Kind, s: seq<Payload>)
    requires forall p :: k(p) ==> !j(p)
    ensures Filter(j, WithoutFirst(k, s)) == Filter(j, s)
  {
    if s != [] {
      FilterHead(j, s);
      if !k(s[0]) {
        OthersStay(k, j, s[1..]);
        var rest := [s[0]] + WithoutFirst(k, s[1..]);
        FilterHead(j, rest);
        assert rest[1..] == WithoutFirst(k, s[1..]);
      }
    }
  }

  lemma NoAuthAdded(added: seq<Payload>)
    requires NotifyOrCp(added)
    ensures Filter(Ranked(AUTH), added) == []
  {
    FilterNone(Ranked(AUTH), added);
  }

  lemma AuthSurvives(s: seq<Payload>)
    ensures Filter(Ranked(AUTH), Survivors(s)) == Filter(Ranked(AUTH), s)
  {
    OthersStay(Request(), Ranked(AUTH), Filter(Not(Compat()), s));
    CompatIsLast(s, AUTH);
  }

  /** The AUTH payloads of the prepared message are the given ones. */
  lemma AuthOfGiven(env: Env, cp: seq<Payload>, s: seq<Payload>)
    requires IsNewCp(cp)
    ensures Filter(Ranked(AUTH), Prepared(env, cp, s)) == Filter(Ranked(AUTH), s)
  {
    PreparedShape(env, cp, s);
    AddedKinds(env, cp, s);
    NoAuthAdded(Added(env, cp, s));
    AuthSurvives(s);
    FilterConcat(Ranked(AUTH), Survivors(s), Added(env, cp, s));
    NothingAdded(Filter(Ranked(AUTH), s));
  }

  /**
   Exactly the AUTH payloads, the two compatibility notifies and the first CFG_REQUEST are dropped,
   and exactly the missing notifies and a new CFG_REQUEST are added; everything else stays once.
   */
  lemma RewrittenKeeps(env: Env, cp: CpEnv, s: seq<Payload>)
    ensures multiset(Rewritten(env, NewCp(cp), s))
              + (multiset(Filter(Compat(), s)) + multiset(First(Request(), Filter(Not(Compat()), s)))
                 + multiset(Filter(Ranked(AUTH), s)))
            == multiset(s) + multiset(Added(env, NewCp(cp), s))
  {
    RewrittenBag(env, NewCp(cp), s);
    AuthOfGiven(env, NewCp(cp), s);
  }

  // ----- when the message is repositioned -----

  lemma FilterHead(k: Kind, s: seq<Payload>)
    requires s != []
    ensures Filter(k, s) == (if k(s[0]) then [s[0]] else []) + Filter(k, s[1..])
  {
    assert s == [s[0]] + s[1..];
    FilterConcat(k, [s[0]], s[1..]);
    assert [s[0]][..0] == [];
  }

  /** The compatibility notifies have no place of their own. */
  lemma CompatIsLast(s: seq<Payload>, r: nat)
    requires r != LAST
    ensures Filter(Ranked(r), Filter(Not(Compat()), s)) == Filter(Ranked(r), s)
  {
    FilterTwice(Ranked(r), Not(Compat()), Ranked(r), s);
  }

  /** Taking out the first payload of one kind changes the count of a kind only when it belongs to it. */
  lemma {:induction false} FirstCounted(k: Kind, j: Kind, belongs: bool, s: seq<Payload>)
    requires forall p :: k(p) ==> j(p) == belongs
    ensures Count(j, WithoutFirst(k, s)) == Count(j, s) - if belongs && Count(k, s) > 0 then 1 else 0
  {
    if s != [] {
      FilterHead(j, s);
      FilterHead(k, s);
      if !k(s[0]) {
        FirstCounted(k, j, belongs, s[1..]);
        var rest := [s[0]] + WithoutFirst(k, s[1..]);
        FilterHead(j, rest);
        assert rest[1..] == WithoutFirst(k, s[1..]);
      }
    }
  }

  lemma RequestIsCp(s: seq<Payload>, r: nat)
    ensures Count(Ranked(r), WithoutFirst(Request(), s))
            == Count(Ranked(r), s) - if r == CP && Count(Request(), s) > 0 then 1 else 0
  {
    FirstCounted(Request(), Ranked(r), r == CP, s);
  }

  lemma RequestNotCompat(s: seq<Payload>)
    ensures Count(Request(), Filter(Not(Compat()), s)) > 0 <==> Count(Request(), s) > 0
  {
    var plain := Filter(Not(Compat()), s);
    if Count(Request(), plain) > 0 {
      var p := Filter(Request(), plain)[0];
      assert p in Filter(Request(), plain);
      assert p in plain && p in s && p in Filter(Request(), s);
    }
    if Count(Request(), s) > 0 {
      var p := Filter(Request(), s)[0];
      assert p in Filter(Request(), s);
      assert p in s && p in plain && p in Filter(Request(), plain);
    }
  }

  /** How many payloads of each rank the prepared message has. */
  lemma SurvivorCounts(s: seq<Payload>, r: nat)
    requires r != LAST
    ensures Count(Ranked(r), Survivors(s)) == Count(Ranked(r), s) - if r == CP && Count(Request(), s) > 0 then 1 else 0
  {
    CompatIsLast(s, r);
    RequestIsCp(Filter(Not(Compat()), s), r);
    RequestNotCompat(s);
  }

  lemma CountAdds(k: Kind, s: seq<Payload>, t: seq<Payload>)
    ensures Count(k, s + t) == Count(k, s) + Count(k, t)
  {
    FilterConcat(k, s, t);
  }

  lemma CountOne(k: Kind, s: seq<Payload>)
    requires |s| <= 1
    ensures Count(k, s) == if |s| == 1 && k(s[0]) then 1 else 0
  {
    if |s| == 1 { assert s[..0] == []; }
  }

  /** How many payloads of each rank are added. */
  function AddedCount(env: Env, cp: seq<Payload>, s: seq<Payload>, r: nat): nat {
    if r == CONTACT then (if Count(Ranked(CONTACT), s) == 0 && env.contactMade then 1 else 0)
    else if r == LICENSED then
      (if Count(Ranked(LICENSED), s) == 0 && LicenseInfo(env.license) != [] && env.licenseMade then 1 else 0)
    else if r == CP then |cp| else 0
  }

  lemma ContactCount(env: Env, cp: seq<Payload>, s: seq<Payload>, r: nat)
    ensures Count(Ranked(r), AddedContact(env, Filter(Not(Compat()), s))) == if r == CONTACT then AddedCount(env, cp, s, r) else 0
  {
    CompatIsLast(s, CONTACT);
    CountOne(Ranked(r), AddedContact(env, Filter(Not(Compat()), s)));
  }

  lemma LicenseCount(env: Env, cp: seq<Payload>, s: seq<Payload>, r: nat)
    ensures var plain := Filter(Not(Compat()), s);
            Count(Ranked(r), AddedLicense(env, plain + AddedContact(env, plain))) == if r == LICENSED then AddedCount(env, cp, s, r) else 0
  {
    var plain := Filter(Not(Compat()), s);
    CompatIsLast(s, LICENSED);
    CountAdds(Ranked(LICENSED), plain, AddedContact(env, plain));
    ContactCount(env, cp, s, LICENSED);
    CountOne(Ranked(r), AddedLicense(env, plain + AddedContact(env, plain)));
  }

  lemma CpCount(cp: seq<Payload>, r: nat)
    requires IsNewCp(cp)
    ensures Count(Ranked(r), cp) == if r == CP then |cp| else 0
  {
    CountOne(Ranked(r), cp);
  }

  lemma CountAddsTwice(k: Kind, s: seq<Payload>, t: seq<Payload>, u: seq<Payload>)
    ensures Count(k, s + t + u) == Count(k, s) + Count(k, t) + Count(k, u)
  {
    CountAdds(k, s + t, u);
    CountAdds(k, s, t);
  }

  lemma AddedCounts(env: Env, cp: seq<Payload>, s: seq<Payload>, r: nat)
    requires r != LAST && IsNewCp(cp)
    ensures Count(Ranked(r), Added(env, cp, s)) == AddedCount(env, cp, s, r)
  {
    var plain := Filter(Not(Compat()), s);
    CountAddsTwice(Ranked(r), AddedContact(env, plain), AddedLicense(env, plain + AddedContact(env, plain)), cp);
    ContactCount(env, cp, s, r);
    LicenseCount(env, cp, s, r);
    CpCount(cp, r);
  }

  lemma PreparedCounts(env: Env, cp: seq<Payload>, s: seq<Payload>, r: nat)
    requires r != LAST && IsNewCp(cp)
    ensures Count(Ranked(r), Prepared(env, cp, s))
            == Count(Ranked(r), s) - (if r == CP && Count(Request(), s) > 0 then 1 else 0) + AddedCount(env, cp, s, r)
  {
    PreparedShape(env, cp, s);
    CountAdds(Ranked(r), Survivors(s), Added(env, cp, s));
    SurvivorCounts(s, r);
    AddedCounts(env, cp, s, r);
  }

  /** Some configuration payload is left: the new request, or one the message had besides the replaced one. */
  predicate CpLeft(cp: seq<Payload>, s: seq<Payload>) {
    cp != [] || Count(Ranked(CP), s) > if Count(Request(), s) > 0 then 1 else 0
  }

  /** Exactly which first IKE_AUTH messages get the fixed order. */
  lemma ReadyWhen(env: Env, cp: seq<Payload>, s: seq<Payload>)
    requires IsNewCp(cp)
    ensures Ready(Prepared(env, cp, s)) <==>
              && (Count(Ranked(LICENSED), s) == 1
                  || (Count(Ranked(LICENSED), s) == 0 && LicenseInfo(env.license) != [] && env.licenseMade))
              && (Count(Ranked(CONTACT), s) >= 1 || env.contactMade)
              && Count(Ranked(ID_INITIATOR), s) >= 1 && Count(Ranked(AUTH), s) >= 1
              && CpLeft(cp, s)
  {
    PreparedCounts(env, cp, s, ID_INITIATOR);
    PreparedCounts(env, cp, s, CONTACT);
    PreparedCounts(env, cp, s, LICENSED);
    PreparedCounts(env, cp, s, AUTH);
    PreparedCounts(env, cp, s, CP);
    RequestsAreCp(s);
  }

  lemma RequestsAreCp(s: seq<Payload>)
    ensures Count(Ranked(CP), s) >= Count(Request(), s)
  {
    FilterFewer(Request(), Ranked(CP), s);
  }

  // ----- what the added payloads carry -----

  /** Rank by rank the rewritten message has what survived, then what was added; AUTH is left out. */
  lemma RankOfRewritten(env: Env, cp: seq<Payload>, s: seq<Payload>, r: nat)
    requires r != AUTH && r <= LAST
    ensures Filter(Ranked(r), Rewritten(env, cp, s)) == Filter(Ranked(r), Survivors(s)) + Filter(Ranked(r), Added(env, cp, s))
  {
    var prepared := Prepared(env, cp, s);
    FilterTwice(Ranked(r), Not(Ranked(AUTH)), Ranked(r), Repositioned(prepared));
    RepositionedStable(prepared, r);
    PreparedShape(env, cp, s);
    FilterConcat(Ranked(r), Survivors(s), Added(env, cp, s));
  }

  lemma SurvivingRank(s: seq<Payload>, r: nat)
    requires r != LAST && r != CP
    ensures Filter(Ranked(r), Survivors(s)) == Filter(Ranked(r), s)
  {
    OthersStay(Request(), Ranked(r), Filter(Not(Compat()), s));
    CompatIsLast(s, r);
  }

  /** The added payloads of one rank, part by part. */
  lemma AddedRank(env: Env, cp: seq<Payload>, s: seq<Payload>, r: nat)
    ensures var plain := Filter(Not(Compat()), s);
            Filter(Ranked(r), Added(env, cp, s))
            == Filter(Ranked(r), AddedContact(env, plain))
               + Filter(Ranked(r), AddedLicense(env, plain + AddedContact(env, plain))) + Filter(Ranked(r), cp)
  {
    var plain := Filter(Not(Compat()), s);
    var contact, license := AddedContact(env, plain), AddedLicense(env, plain + AddedContact(env, plain));
    FilterConcat(Ranked(r), contact + license, cp);
    FilterConcat(Ranked(r), contact, license);
  }

  lemma FilterOne(k: Kind, p: Payload)
    ensures Filter(k, [p]) == if k(p) then [p] else []
  {
    FilterAppend(k, [], p);
    assert [] + [p] == [p];
  }

  lemma OfOtherRank(s: seq<Payload>, r: nat)
    requires forall p | p in s :: Rank(p) != r
    ensures Filter(Ranked(r), s) == []
  {
    FilterNone(Ranked(r), s);
  }

  /** The message had a license notify, or the file has 1 to 8191 bytes and the notify can be made: the notify it sends. */
  function LicenseToSend(env: Env, given: seq<Payload>): seq<Payload> {
    if given != [] then given
    else if env.license.Some? && 1 <= |env.license.value| <= 8191 && env.licenseMade then [Notify(61696, env.license.value)]
    else []
  }

  lemma LicenseWhole(env: Env, s: seq<Payload>)
    ensures Filter(Ranked(LICENSED), AddedLicense(env, s)) == AddedLicense(env, s)
    ensures Filter(Ranked(LICENSED), s) + AddedLicense(env, s) == LicenseToSend(env, Filter(Ranked(LICENSED), s))
  {
    FilterOne(Ranked(LICENSED), Notify(LICENSE, LicenseInfo(env.license)));
    NothingAdded(Filter(Ranked(LICENSED), s));
  }

  lemma ContactNotLicense(env: Env, s: seq<Payload>)
    ensures Filter(Ranked(LICENSED), AddedContact(env, s)) == []
    ensures Filter(Ranked(LICENSED), s + AddedContact(env, s)) == Filter(Ranked(LICENSED), s)
  {
    OfOtherRank(AddedContact(env, s), LICENSED);
    FilterConcat(Ranked(LICENSED), s, AddedContact(env, s));
    NothingAdded(Filter(Ranked(LICENSED), s));
  }

  lemma RequestNotNotify(cp: seq<Payload>, r: nat)
    requires IsNewCp(cp) && r != CP
    ensures Filter(Ranked(r), cp) == []
  {
    OfOtherRank(cp, r);
  }

  lemma LicenseAmongAdded(env: Env, cp: seq<Payload>, s: seq<Payload>)
    requires IsNewCp(cp)
    ensures Filter(Ranked(LICENSED), s) + Filter(Ranked(LICENSED), Added(env, cp, s)) == LicenseToSend(env, Filter(Ranked(LICENSED), s))
  {
    var plain := Filter(Not(Compat()), s);
    var license := AddedLicense(env, plain + AddedContact(env, plain));
    AddedRank(env, cp, s, LICENSED);
    ContactNotLicense(env, plain);
    RequestNotNotify(cp, LICENSED);
    LicenseWhole(env, plain + AddedContact(env, plain));
    CompatIsLast(s, LICENSED);
    NothingAdded(license);
  }

  /** The license notifies of the rewritten message: the given ones unchanged, or one with the bytes of the file. */
  lemma LicenseSent(env: Env, cp: seq<Payload>, s: seq<Payload>)
    requires IsNewCp(cp)
    ensures Filter(Ranked(LICENSED), Rewritten(env, cp, s)) == LicenseToSend(env, Filter(Ranked(LICENSED), s))
  {
    RankOfRewritten(env, cp, s, LICENSED);
    SurvivingRank(s, LICENSED);
    LicenseAmongAdded(env, cp, s);
  }

  lemma NoLicenseGiven(s: seq<Payload>)
    requires forall p | p in s :: !IsNotify(p, 61696)
    ensures Filter(Ranked(LICENSED), s) == []
  {
    forall p | p in s ensures Rank(p) != LICENSED {
      assert !IsNotify(p, LICENSE);
    }
    OfOtherRank(s, LICENSED);
  }

  lemma OnlyOne(k: Kind, s: seq<Payload>, p: Payload)
    requires Filter(k, s) == [p]
    ensures p in s
  {
    assert p in Filter(k, s);
  }

  /** So the file's bytes are in the message whenever none was there and it can be made. */
  lemma LicenseBytesSent(env: Env, cp: seq<Payload>, s: seq<Payload>, file: seq<byte>)
    requires IsNewCp(cp) && env.license == Some(file) && 1 <= |file| <= 8191 && env.licenseMade
    requires forall p | p in s :: !IsNotify(p, 61696)
    ensures Notify(61696, file) in Rewritten(env, cp, s)
  {
    LicenseSent(env, cp, s);
    NoLicenseGiven(s);
    OnlyOne(Ranked(LICENSED), Rewritten(env, cp, s), Notify(61696, file));
  }

  lemma ContactWhole(env: Env, s: seq<Payload>)
    ensures Filter(Ranked(CONTACT), AddedContact(env, s)) == AddedContact(env, s)
    ensures var given := Filter(Ranked(CONTACT), s);
            given + AddedContact(env, s) == if given != [] then given else if env.contactMade then [Notify(16384, [])] else []
  {
    FilterOne(Ranked(CONTACT), CONTACT_NOTIFY);
    NothingAdded(Filter(Ranked(CONTACT), s));
  }

  lemma ContactAmongAdded(env: Env, cp: seq<Payload>, s: seq<Payload>)
    requires IsNewCp(cp)
    ensures var given := Filter(Ranked(CONTACT), s);
            given + Filter(Ranked(CONTACT), Added(env, cp, s))
            == if given != [] then given else if env.contactMade then [Notify(16384, [])] else []
  {
    var plain := Filter(Not(Compat()), s);
    AddedRank(env, cp, s, CONTACT);
    LicenseRanked(env, plain + AddedContact(env, plain));
    OfOtherRank(AddedLicense(env, plain + AddedContact(env, plain)), CONTACT);
    RequestNotNotify(cp, CONTACT);
    ContactWhole(env, plain);
    CompatIsLast(s, CONTACT);
    NothingAdded(AddedContact(env, plain));
  }

  /** The INITIAL_CONTACT notifies: the given ones, or an empty one. */
  lemma ContactSent(env: Env, cp: seq<Payload>, s: seq<Payload>)
    requires IsNewCp(cp)
    ensures var given := Filter(Ranked(CONTACT), s);
            Filter(Ranked(CONTACT), Rewritten(env, cp, s))
            == if given != [] then given else if env.contactMade then [Notify(16384, [])] else []
  {
    RankOfRewritten(env, cp, s, CONTACT);
    SurvivingRank(s, CONTACT);
    ContactAmongAdded(env, cp, s);
  }

  /** The request for the sixteen attributes of the golden list, all of them empty. */
  predicate FullRequest(p: Payload) {
    && p.Configuration? && p.cfg == CfgRequest && |p.attributes| == 16
    && forall i | 0 <= i < 16 :: p.attributes[i] == Attribute(CP_TYPES[i], [])
  }

  lemma CpAmongAdded(env: Env, cp: seq<Payload>, s: seq<Payload>)
    requires IsNewCp(cp)
    ensures Filter(Ranked(CP), Added(env, cp, s)) == cp
  {
    var plain := Filter(Not(Compat()), s);
    AddedRank(env, cp, s, CP);
    ContactRanked(env, plain);
    LicenseRanked(env, plain + AddedContact(env, plain));
    OfOtherRank(AddedContact(env, plain), CP);
    OfOtherRank(AddedLicense(env, plain + AddedContact(env, plain)), CP);
    FilterAll(Ranked(CP), cp);
  }

  lemma ContactRanked(env: Env, s: seq<Payload>)
    ensures forall p | p in AddedContact(env, s) :: Rank(p) == CONTACT
  {}

  lemma LicenseRanked(env: Env, s: seq<Payload>)
    ensures forall p | p in AddedLicense(env, s) :: Rank(p) == LICENSED
  {}

  /** The configuration payloads: those that survived, and behind them the full request when it can be allocated. */
  lemma RequestSent(env: Env, cpEnv: CpEnv, s: seq<Payload>)
    ensures var sent := Filter(Ranked(CP), Rewritten(env, NewCp(cpEnv), s));
            var survived := Filter(Ranked(CP), Survivors(s));
            if cpEnv.cpMade && forall i: nat | i < 16 :: cpEnv.attributeMade(i) then
              |sent| == |survived| + 1 && sent[..|survived|] == survived && FullRequest(sent[|survived|])
            else sent == survived
  {
    RankOfRewritten(env, NewCp(cpEnv), s, CP);
    CpAmongAdded(env, NewCp(cpEnv), s);
  }

  // ----- which payloads stay, told payload by payload -----

  /** The ranks in terms of the payloads. */
  lemma RankMeans(p: Payload)
    ensures Rank(p) == 0 <==> p.IdInitiator?
    ensures Rank(p) == 1 <==> p.Notify? && p.code == 16384
    ensures Rank(p) == 2 <==> p.Notify? && p.code == 61696
    ensures Rank(p) == 3 <==> p.Auth?
    ensures Rank(p) == 4 <==> p.Configuration?
    ensures Rank(p) == 5 <==> p.SecurityAssociation?
    ensures Rank(p) == 6 <==> p.TsInitiator?
    ensures Rank(p) == 7 <==> p.TsResponder?
    ensures ID_INITIATOR == 0 && CONTACT == 1 && LICENSED == 2 && AUTH == 3 && CP == 4 && SA == 5 && TSI == 6 && TSR == 7
  {}

  /** AUTH, EAP_ONLY_AUTHENTICATION and MESSAGE_ID_SYNC_SUPPORTED. */
  predicate IsDropped(p: Payload) { p.Auth? || IsNotify(p, 16417) || IsNotify(p, 16420) }

  lemma {:induction false} OnlyKindLeaves(k: Kind, s: seq<Payload>, p: Payload)
    requires p in s && !k(p)
    ensures p in WithoutFirst(k, s)
  {
    assert s == [s[0]] + s[1..];
    if !k(s[0]) && p != s[0] { OnlyKindLeaves(k, s[1..], p); }
  }

  lemma {:induction false} NothingArises(k: Kind, s: seq<Payload>, p: Payload)
    requires p in WithoutFirst(k, s)
    ensures p in s
  {
    if !k(s[0]) && p != s[0] { NothingArises(k, s[1..], p); }
  }

  lemma SamePayloads(s: seq<Payload>, p: Payload)
    ensures p in Repositioned(s) <==> p in s
  {
    RepositionedPermutes(s);
    assert p in multiset(Repositioned(s)) <==> p in multiset(s);
  }

  /** Whatever is not dropped and is no CFG_REQUEST stays; what is dropped is gone unless it is added again, which it is not. */
  lemma WhatStays(env: Env, cp: seq<Payload>, s: seq<Payload>, p: Payload)
    requires IsNewCp(cp)
    ensures p in s && !IsDropped(p) && !IsRequest(p) ==> p in Rewritten(env, cp, s)
    ensures p in Rewritten(env, cp, s) ==> !IsDropped(p) && (p in s || p in Added(env, cp, s))
  {
    var prepared := Prepared(env, cp, s);
    PreparedShape(env, cp, s);
    SamePayloads(prepared, p);
    if p in s && !IsDropped(p) && !IsRequest(p) {
      OnlyKindLeaves(Request(), Filter(Not(Compat()), s), p);
    }
    if p in Rewritten(env, cp, s) {
      AddedNotDropped(env, cp, s, p);
      if p in Survivors(s) { NothingArises(Request(), Filter(Not(Compat()), s), p); }
    }
  }

  lemma AddedNotDropped(env: Env, cp: seq<Payload>, s: seq<Payload>, p: Payload)
    requires IsNewCp(cp)
    ensures p in Added(env, cp, s) ==> !IsDropped(p)
  {
    var plain := Filter(Not(Compat()), s);
    ContactNotDropped(env, plain, p);
    LicenseNotDropped(env, plain + AddedContact(env, plain), p);
    RequestNotDropped(cp, p);
  }

  lemma ContactNotDropped(env: Env, s: seq<Payload>, p: Payload)
    ensures p in AddedContact(env, s) ==> !IsDropped(p)
  {}

  lemma LicenseNotDropped(env: Env, s: seq<Payload>, p: Payload)
    ensures p in AddedLicense(env, s) ==> !IsDropped(p)
  {}

  lemma RequestNotDropped(cp: seq<Payload>, p: Payload)
    requires IsNewCp(cp)
    ensures p in cp ==> !IsDropped(p)
  {}
}
