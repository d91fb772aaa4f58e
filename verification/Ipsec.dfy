/**
 Stored IPsec settings: proposal lists written together with the older single-valued fields, and the
 parser that prefers the lists (`profiles/ipsec.py`).
 */
module Ipsec {
  import opened Wrappers
  import opened Sequences
  import opened Text
  import opened Json

  // ----- vocabulary -----

  datatype Version = IkeV1 | IkeV2
  datatype Mode = Aggressive | Main
  datatype Auth = PskXauth | PskOnly | Certificate | Eap
  datatype Assignment = ModeConfig | Manual
  datatype Cipher = Aes128 | Aes192 | Aes256
  datatype Hash = Sha1 | Sha256 | Sha384 | Sha512

  function VersionOf(s: string): Option<Version> {
    if s == "ikev1" then Some(IkeV1) else if s == "ikev2" then Some(IkeV2) else None
  }

  function VersionText(v: Version): (s: string)
    ensures VersionOf(s) == Some(v)
  {
    match v case IkeV1 => "ikev1" case IkeV2 => "ikev2"
  }

  function ModeOf(s: string): Option<Mode> {
    if s == "aggressive" then Some(Aggressive) else if s == "main" then Some(Main) else None
  }

  function ModeText(m: Mode): (s: string)
    ensures ModeOf(s) == Some(m)
  {
    match m case Aggressive => "aggressive" case Main => "main"
  }

  function AuthOf(s: string): Option<Auth> {
    if s == "psk_xauth" then Some(PskXauth)
    else if s == "psk" then Some(PskOnly)
    else if s == "certificate" then Some(Certificate)
    else if s == "eap" then Some(Eap)
    else None
  }

  function AuthText(a: Auth): (s: string)
    ensures AuthOf(s) == Some(a)
  {
    match a
    case PskXauth => "psk_xauth"
    case PskOnly => "psk"
    case Certificate => "certificate"
    case Eap => "eap"
  }

  function AssignmentOf(s: string): Option<Assignment> {
    if s == "modeconfig" then Some(ModeConfig) else if s == "manual" then Some(Manual) else None
  }

  function AssignmentText(a: Assignment): (s: string)
    ensures AssignmentOf(s) == Some(a)
  {
    match a case ModeConfig => "modeconfig" case Manual => "manual"
  }

  function CipherOf(s: string): Option<Cipher> {
    if s == "aes128" then Some(Aes128) else if s == "aes192" then Some(Aes192)
    else if s == "aes256" then Some(Aes256) else None
  }

  function CipherText(c: Cipher): (s: string)
    ensures CipherOf(s) == Some(c)
  {
    match c case Aes128 => "aes128" case Aes192 => "aes192" case Aes256 => "aes256"
  }

  function HashOf(s: string): Option<Hash> {
    if s == "sha1" then Some(Sha1) else if s == "sha256" then Some(Sha256)
    else if s == "sha384" then Some(Sha384) else if s == "sha512" then Some(Sha512) else None
  }

  function HashText(h: Hash): (s: string)
    ensures HashOf(s) == Some(h)
  {
    match h case Sha1 => "sha1" case Sha256 => "sha256" case Sha384 => "sha384" case Sha512 => "sha512"
  }

  predicate KnownGroup(g: int) {
    g == 2 || g == 5 || g == 14 || g == 15 || g == 16 || g == 19 || g == 20 || g == 21
  }

  const MAX_ID_LENGTH := 253
  const MAX_LIFETIME := 604800
  const MAX_PORT := 65535

  // ----- settings -----

  datatype Proposal = Proposal(cipher: Cipher, hash: Hash)

  datatype Identity = Identity(
    version: Version, mode: Mode, auth: Auth, assignment: Assignment, localId: string, peerId: string)

  /** One negotiation phase: the older single values next to the lists. */
  datatype Phase = Phase(single: Proposal, group: int, proposals: seq<Proposal>, groups: seq<int>)

  datatype Timing = Timing(phase1Lifetime: int, pfs: bool, phase2Lifetime: int)

  datatype Switches = Switches(
    natTraversal: bool, dpd: bool, dpdInterval: int, replayDetection: bool, localLanAccess: bool, samlPort: int)

  datatype Settings = Settings(identity: Identity, phase1: Phase, phase2: Phase, timing: Timing, switches: Switches)
  {
    predicate AllowsSamlPreauth() { identity.version == IkeV2 && identity.auth == Eap }
  }

  const DEFAULT_PHASE := Phase(Proposal(Aes256, Sha256), 14, [Proposal(Aes256, Sha256)], [14])

  const DEFAULT_SETTINGS := Settings(
    Identity(IkeV1, Aggressive, PskXauth, ModeConfig, "", ""),
    DEFAULT_PHASE, DEFAULT_PHASE,
    Timing(86400, true, 43200),
    Switches(true, true, 60, true, false, 1001))

  // ----- writing -----

  function ProposalJson(p: Proposal): Value {
    Obj(map[Encryption := Str(CipherText(p.cipher)), Integrity := Str(HashText(p.hash))])
  }

  function OrSingle<T>(list: seq<T>, single: T): (r: seq<T>)
    ensures r != []
  {
    if list != [] then list else [single]
  }

  function IdentityJson(i: Identity): Object {
    map[IkeVersion := Str(VersionText(i.version)), IkeMode := Str(ModeText(i.mode)),
        AuthMethod := Str(AuthText(i.auth)), AddressAssignment := Str(AssignmentText(i.assignment)),
        LocalId := Str(i.localId), PeerId := Str(i.peerId)]
  }

  /** The keys one phase is stored under. */
  datatype PhaseKeys = PhaseKeys(cipher: Key, hash: Key, group: Key, proposals: Key, groups: Key)

  const PHASE1 := PhaseKeys(Phase1Encryption, Phase1Integrity, DhGroup, IkeProposals, IkeDhGroups)
  const PHASE2 := PhaseKeys(Phase2Encryption, Phase2Integrity, PfsDhGroup, ChildProposals, PfsDhGroups)

  /** Lists and single-valued fields are written together; the single value is the head of its list. */
  function PhaseJson(p: Phase, k: PhaseKeys): Object {
    var proposals := OrSingle(p.proposals, p.single);
    var groups := OrSingle(p.groups, p.group);
    map[k.cipher := Str(CipherText(proposals[0].cipher)), k.hash := Str(HashText(proposals[0].hash)),
        k.group := Int(groups[0]),
        k.proposals := List(Map(ProposalJson, proposals)), k.groups := List(Map(g => Int(g), groups))]
  }

  function TimingJson(t: Timing): Object {
    map[Phase1Lifetime := Int(t.phase1Lifetime), Pfs := Bool(t.pfs), Phase2Lifetime := Int(t.phase2Lifetime)]
  }

  function SwitchesJson(s: Switches): Object {
    map[NatTraversal := Bool(s.natTraversal), Dpd := Bool(s.dpd), DpdInterval := Int(s.dpdInterval),
        ReplayDetection := Bool(s.replayDetection), LocalLanAccess := Bool(s.localLanAccess),
        SamlPort := Int(s.samlPort)]
  }

  function ToJson(s: Settings): Object {
    IdentityJson(s.identity) + PhaseJson(s.phase1, PHASE1) + PhaseJson(s.phase2, PHASE2)
    + TimingJson(s.timing) + SwitchesJson(s.switches)
  }

  // ----- reading -----

  /** A refusal names the field; the program's message is built from that name. */
  type Parsed<T> = Result<T, Key>

  /** A text from a fixed vocabulary. A missing key stands for the default. */
  function Word<T>(data: Object, key: Key, of: string -> Option<T>, default: T): Parsed<T> {
    if key !in data then Ok(default)
    else if data[key].Str? && of(data[key].s).Some? then Ok(of(data[key].s).value)
    else Err(key)
  }

  predicate HasControlCharacter(s: string) {
    exists i | 0 <= i < |s| :: s[i] as int < 32 || s[i] as int == 127
  }

  function OptionalId(data: Object, key: Key): Parsed<string> {
    match Get(data, key, Str(""))
    case Null => Ok("")
    case Str(s) =>
      var text := Trim(s);
      if |text| > MAX_ID_LENGTH || HasControlCharacter(text) then Err(key) else Ok(text)
    case _ => Err(key)
  }

  /** A whole number, or the decimal text of one. */
  function AsNumber(v: Value): Option<int> {
    match v
    case Int(i) => Some(i)
    case Str(s) => var t := Trim(s); if t != "" && AllDigits(t) then Some(DecimalValue(t)) else None
    case _ => None
  }

  function InRange(data: Object, key: Key, default: int, low: int, high: int): Parsed<int> {
    match AsNumber(Get(data, key, Int(default)))
    case Some(n) => if low <= n <= high then Ok(n) else Err(key)
    case None => Err(key)
  }

  function Flag(data: Object, key: Key, default: bool): Parsed<bool> {
    var v := Get(data, key, Bool(default));
    if v.Bool? then Ok(v.b) else Err(key)
  }

  function OneGroup(v: Value, key: Key): Parsed<int> {
    match AsNumber(v)
    case Some(n) => if KnownGroup(n) then Ok(n) else Err(key)
    case None => Err(key)
  }

  /** Unlike the single fields, an entry of a proposal list has no defaults. */
  function OneProposal(v: Value, key: Key): Parsed<Proposal> {
    if v.Obj? && Encryption in v.fields && Integrity in v.fields then
      var c :- Word(v.fields, Encryption, CipherOf, Aes256);
      var h :- Word(v.fields, Integrity, HashOf, Sha256);
      Ok(Proposal(c, h))
    else Err(key)
  }

  function ParseAll<T>(vs: seq<Value>, one: Value -> Parsed<T>): (r: Parsed<seq<T>>)
    ensures r.Ok? ==> |r.value| == |vs| && forall i | 0 <= i < |vs| :: one(vs[i]) == Ok(r.value[i])
  {
    if vs == [] then Ok([])
    else
      var x :- one(vs[0]);
      var rest :- ParseAll(vs[1..], one);
      Ok([x] + rest)
  }

  function ParseProposals(data: Object, k: PhaseKeys): Parsed<seq<Proposal>> {
    var raw := Get(data, k.proposals, Null);
    if raw != Null then
      if raw.List? && raw.items != [] then
        var parsed :- ParseAll(raw.items, v => OneProposal(v, k.proposals));
        Ok(Dedupe(parsed))
      else Err(k.proposals)
    else
      var c :- Word(data, k.cipher, CipherOf, Aes256);
      var h :- Word(data, k.hash, HashOf, Sha256);
      Ok([Proposal(c, h)])
  }

  function ParseGroups(data: Object, k: PhaseKeys): Parsed<seq<int>> {
    var raw := Get(data, k.groups, Null);
    if raw != Null then
      if raw.List? && raw.items != [] then
        var parsed :- ParseAll(raw.items, v => OneGroup(v, k.groups));
        Ok(Dedupe(parsed))
      else Err(k.groups)
    else
      var g :- OneGroup(Get(data, k.group, Int(14)), k.group);
      Ok([g])
  }

  function ParseIdentity(data: Object): Parsed<Identity> {
    var version :- Word(data, IkeVersion, VersionOf, IkeV1);
    var mode :- Word(data, IkeMode, ModeOf, Aggressive);
    var auth :- Word(data, AuthMethod, AuthOf, PskXauth);
    var assignment :- Word(data, AddressAssignment, AssignmentOf, ModeConfig);
    var local :- OptionalId(data, LocalId);
    var peer :- OptionalId(data, PeerId);
    Ok(Identity(version, mode, auth, assignment, local, peer))
  }

  function ParseTiming(data: Object): Parsed<Timing> {
    var life1 :- InRange(data, Phase1Lifetime, 86400, 60, MAX_LIFETIME);
    var pfs :- Flag(data, Pfs, true);
    var life2 :- InRange(data, Phase2Lifetime, 43200, 60, MAX_LIFETIME);
    Ok(Timing(life1, pfs, life2))
  }

  function ParseSwitches(data: Object): Parsed<Switches> {
    var traversal :- Flag(data, NatTraversal, true);
    var dpd :- Flag(data, Dpd, true);
    var interval :- InRange(data, DpdInterval, 60, 1, MAX_LIFETIME);
    var replay :- Flag(data, ReplayDetection, true);
    var lan :- Flag(data, LocalLanAccess, false);
    var port :- InRange(data, SamlPort, 1001, 1, MAX_PORT);
    Ok(Switches(traversal, dpd, interval, replay, lan, port))
  }

  function MakePhase(proposals: seq<Proposal>, groups: seq<int>): Phase {
    if proposals != [] && groups != [] then Phase(proposals[0], groups[0], proposals, groups) else DEFAULT_PHASE
  }

  function ParseObject(data: Object): Parsed<Settings> {
    var ike :- ParseProposals(data, PHASE1);
    var child :- ParseProposals(data, PHASE2);
    var ikeGroups :- ParseGroups(data, PHASE1);
    var pfsGroups :- ParseGroups(data, PHASE2);
    var identity :- ParseIdentity(data);
    var timing :- ParseTiming(data);
    var switches :- ParseSwitches(data);
    Ok(Settings(identity, MakePhase(ike, ikeGroups), MakePhase(child, pfsGroups), timing, switches))
  }

  function Parse(payload: Value): Parsed<Settings> {
    match payload
    case Null => Ok(DEFAULT_SETTINGS)
    case Obj(data) => ParseObject(data)
    case _ => Err(IpsecObject)
  }

  // ----- what parsing establishes -----

  predicate ValidGroups(gs: seq<int>) {
    gs != [] && Distinct(gs) && forall g | g in gs :: KnownGroup(g)
  }

  predicate ValidPhase(p: Phase) {
    && p.proposals != [] && Distinct(p.proposals) && p.single == p.proposals[0]
    && ValidGroups(p.groups) && p.group == p.groups[0]
  }

  predicate ValidId(s: string) {
    Trimmed(s) && |s| <= MAX_ID_LENGTH && !HasControlCharacter(s)
  }

  predicate ValidIdentity(i: Identity) { ValidId(i.localId) && ValidId(i.peerId) }

  predicate ValidTiming(t: Timing) {
    60 <= t.phase1Lifetime <= MAX_LIFETIME && 60 <= t.phase2Lifetime <= MAX_LIFETIME
  }

  predicate ValidSwitches(s: Switches) {
    1 <= s.dpdInterval <= MAX_LIFETIME && 1 <= s.samlPort <= MAX_PORT
  }

  /** The settings a parse can return. */
  predicate Normal(s: Settings) {
    && ValidIdentity(s.identity) && ValidPhase(s.phase1) && ValidPhase(s.phase2)
    && ValidTiming(s.timing) && ValidSwitches(s.switches)
  }

  lemma ParsedProposalsValid(data: Object, k: PhaseKeys)
    requires ParseProposals(data, k).Ok?
    ensures ParseProposals(data, k).value != [] && Distinct(ParseProposals(data, k).value)
  {}

  lemma ParsedGroupsValid(data: Object, k: PhaseKeys)
    requires ParseGroups(data, k).Ok?
    ensures ValidGroups(ParseGroups(data, k).value)
  {
    var raw := Get(data, k.groups, Null);
    if raw.List? {
      var parsed := ParseAll(raw.items, v => OneGroup(v, k.groups)).value;
      assert forall i | 0 <= i < |parsed| :: OneGroup(raw.items[i], k.groups) == Ok(parsed[i]);
    }
  }

  lemma ParsedIdentityValid(data: Object)
    requires ParseIdentity(data).Ok?
    ensures ValidIdentity(ParseIdentity(data).value)
  {
    ParsedIdValid(data, LocalId);
    ParsedIdValid(data, PeerId);
  }

  lemma ParsedIdValid(data: Object, key: Key)
    requires OptionalId(data, key).Ok?
    ensures ValidId(OptionalId(data, key).value)
  {}

  lemma ParsedTimingValid(data: Object)
    requires ParseTiming(data).Ok?
    ensures ValidTiming(ParseTiming(data).value)
  {}

  lemma ParsedSwitchesValid(data: Object)
    requires ParseSwitches(data).Ok?
    ensures ValidSwitches(ParseSwitches(data).value)
  {}

  /** The parts of a parsed object, each refused separately. */
  lemma ParseObjectParts(data: Object)
    requires ParseObject(data).Ok?
    ensures ParseProposals(data, PHASE1).Ok? && ParseProposals(data, PHASE2).Ok?
    ensures ParseGroups(data, PHASE1).Ok? && ParseGroups(data, PHASE2).Ok?
    ensures ParseIdentity(data).Ok? && ParseTiming(data).Ok? && ParseSwitches(data).Ok?
    ensures ParseObject(data).value == Settings(
              ParseIdentity(data).value,
              MakePhase(ParseProposals(data, PHASE1).value, ParseGroups(data, PHASE1).value),
              MakePhase(ParseProposals(data, PHASE2).value, ParseGroups(data, PHASE2).value),
              ParseTiming(data).value, ParseSwitches(data).value)
  {}

  /** Everything a parse returns is normal. */
  lemma ParsedIsNormal(payload: Value)
    requires Parse(payload).Ok?
    ensures Normal(Parse(payload).value)
  {
    if payload.Obj? {
      var data := payload.fields;
      ParseObjectParts(data);
      ParsedProposalsValid(data, PHASE1);
      ParsedProposalsValid(data, PHASE2);
      ParsedGroupsValid(data, PHASE1);
      ParsedGroupsValid(data, PHASE2);
      ParsedIdentityValid(data);
      ParsedTimingValid(data);
      ParsedSwitchesValid(data);
    }
  }

  // ----- round trips -----

  lemma IdentityRoundTrip(i: Identity, data: Object)
    requires ValidIdentity(i)
    requires forall k | k in IdentityJson(i) :: k in data && data[k] == IdentityJson(i)[k]
    ensures ParseIdentity(data) == Ok(i)
  {
    assert IkeVersion in IdentityJson(i) && IkeMode in IdentityJson(i) && AuthMethod in IdentityJson(i);
    assert AddressAssignment in IdentityJson(i) && LocalId in IdentityJson(i) && PeerId in IdentityJson(i);
  }

  lemma TimingRoundTrip(t: Timing, data: Object)
    requires ValidTiming(t)
    requires forall k | k in TimingJson(t) :: k in data && data[k] == TimingJson(t)[k]
    ensures ParseTiming(data) == Ok(t)
  {
    assert Phase1Lifetime in TimingJson(t) && Pfs in TimingJson(t) && Phase2Lifetime in TimingJson(t);
  }

  lemma SwitchesRoundTrip(s: Switches, data: Object)
    requires ValidSwitches(s)
    requires forall k | k in SwitchesJson(s) :: k in data && data[k] == SwitchesJson(s)[k]
    ensures ParseSwitches(data) == Ok(s)
  {
    assert NatTraversal in SwitchesJson(s) && Dpd in SwitchesJson(s) && DpdInterval in SwitchesJson(s);
    assert ReplayDetection in SwitchesJson(s) && LocalLanAccess in SwitchesJson(s) && SamlPort in SwitchesJson(s);
  }

  lemma {:induction false} ParseAllInverts<T>(xs: seq<T>, show: T -> Value, one: Value -> Parsed<T>)
    requires forall x | x in xs :: one(show(x)) == Ok(x)
    ensures ParseAll(Map(show, xs), one) == Ok(xs)
  {
    if xs != [] {
      assert Map(show, xs)[1..] == Map(show, xs[1..]);
      ParseAllInverts(xs[1..], show, one);
      assert xs == [xs[0]] + xs[1..];
    }
  }

  predicate Covers(data: Object, part: Object) {
    forall k | k in part :: k in data && data[k] == part[k]
  }

  predicate DistinctKeys(k: PhaseKeys) {
    Distinct([k.cipher, k.hash, k.group, k.proposals, k.groups])
  }

  lemma ProposalInverts(p: Proposal, key: Key)
    ensures OneProposal(ProposalJson(p), key) == Ok(p)
  {}

  lemma PhaseRoundTrip(p: Phase, k: PhaseKeys, data: Object)
    requires ValidPhase(p) && DistinctKeys(k) && Covers(data, PhaseJson(p, k))
    ensures ParseProposals(data, k) == Ok(p.proposals)
    ensures ParseGroups(data, k) == Ok(p.groups)
  {
    var keys := [k.cipher, k.hash, k.group, k.proposals, k.groups];
    assert keys[3] == k.proposals && keys[4] == k.groups;
    var part := PhaseJson(p, k);
    assert k.proposals in part && part[k.proposals] == List(Map(ProposalJson, p.proposals)) by {
      assert keys[3] != keys[4];
    }
    assert k.groups in part && part[k.groups] == List(Map(g => Int(g), p.groups));
    forall x | x in p.proposals ensures OneProposal(ProposalJson(x), k.proposals) == Ok(x) {
      ProposalInverts(x, k.proposals);
    }
    ParseAllInverts(p.proposals, ProposalJson, v => OneProposal(v, k.proposals));
    ParseAllInverts(p.groups, g => Int(g), v => OneGroup(v, k.groups));
  }

  /** Which part of the settings writes a key. */
  function PartOf(k: Key): nat {
    match k
    case IkeVersion | IkeMode | AuthMethod | AddressAssignment | LocalId | PeerId => 1
    case Phase1Encryption | Phase1Integrity | DhGroup | IkeProposals | IkeDhGroups => 2
    case Phase2Encryption | Phase2Integrity | PfsDhGroup | ChildProposals | PfsDhGroups => 3
    case Phase1Lifetime | Pfs | Phase2Lifetime => 4
    case NatTraversal | Dpd | DpdInterval | ReplayDetection | LocalLanAccess | SamlPort => 5
    case _ => 0
  }

  lemma IdentityKeys(i: Identity)
    ensures forall k | k in IdentityJson(i) :: PartOf(k) == 1
  {}

  lemma PhaseKeysPart(p: Phase, keys: PhaseKeys, n: nat)
    requires PartOf(keys.cipher) == n && PartOf(keys.hash) == n && PartOf(keys.group) == n
    requires PartOf(keys.proposals) == n && PartOf(keys.groups) == n
    ensures forall k | k in PhaseJson(p, keys) :: PartOf(k) == n
  {}

  lemma Phase1Keys(p: Phase)
    ensures forall k | k in PhaseJson(p, PHASE1) :: PartOf(k) == 2
  {
    PhaseKeysPart(p, PHASE1, 2);
  }

  lemma Phase2Keys(p: Phase)
    ensures forall k | k in PhaseJson(p, PHASE2) :: PartOf(k) == 3
  {
    PhaseKeysPart(p, PHASE2, 3);
  }

  lemma PhaseKeysApart(p: Phase)
    ensures forall k | k in PhaseJson(p, PHASE1) :: PartOf(k) == 2
    ensures forall k | k in PhaseJson(p, PHASE2) :: PartOf(k) == 3
  {
    Phase1Keys(p);
    Phase2Keys(p);
  }

  lemma TimingKeys(t: Timing)
    ensures forall k | k in TimingJson(t) :: PartOf(k) == 4
  {}

  lemma SwitchesKeys(s: Switches)
    ensures forall k | k in SwitchesJson(s) :: PartOf(k) == 5
  {}

  lemma UnionOfFive(a: Object, b: Object, c: Object, d: Object, e: Object)
    requires forall k | k in a :: PartOf(k) == 1
    requires forall k | k in b :: PartOf(k) == 2
    requires forall k | k in c :: PartOf(k) == 3
    requires forall k | k in d :: PartOf(k) == 4
    requires forall k | k in e :: PartOf(k) == 5
    ensures Covers(a + b + c + d + e, a) && Covers(a + b + c + d + e, b) && Covers(a + b + c + d + e, c)
    ensures Covers(a + b + c + d + e, d) && Covers(a + b + c + d + e, e)
  {}

  lemma JsonCoversParts(s: Settings)
    ensures Covers(ToJson(s), IdentityJson(s.identity))
    ensures Covers(ToJson(s), PhaseJson(s.phase1, PHASE1))
    ensures Covers(ToJson(s), PhaseJson(s.phase2, PHASE2))
    ensures Covers(ToJson(s), TimingJson(s.timing))
    ensures Covers(ToJson(s), SwitchesJson(s.switches))
  {
    IdentityKeys(s.identity);
    PhaseKeysApart(s.phase1);
    PhaseKeysApart(s.phase2);
    TimingKeys(s.timing);
    SwitchesKeys(s.switches);
    UnionOfFive(IdentityJson(s.identity), PhaseJson(s.phase1, PHASE1), PhaseJson(s.phase2, PHASE2),
                TimingJson(s.timing), SwitchesJson(s.switches));
  }

  lemma Assembled(data: Object, s: Settings)
    requires ParseIdentity(data) == Ok(s.identity) && ParseTiming(data) == Ok(s.timing) && ParseSwitches(data) == Ok(s.switches)
    requires ParseProposals(data, PHASE1) == Ok(s.phase1.proposals) && ParseGroups(data, PHASE1) == Ok(s.phase1.groups)
    requires ParseProposals(data, PHASE2) == Ok(s.phase2.proposals) && ParseGroups(data, PHASE2) == Ok(s.phase2.groups)
    requires MakePhase(s.phase1.proposals, s.phase1.groups) == s.phase1
    requires MakePhase(s.phase2.proposals, s.phase2.groups) == s.phase2
    ensures Parse(Obj(data)) == Ok(s)
  {}

  lemma CoveredParses(s: Settings, data: Object)
    requires Normal(s)
    requires Covers(data, IdentityJson(s.identity)) && Covers(data, TimingJson(s.timing)) && Covers(data, SwitchesJson(s.switches))
    requires Covers(data, PhaseJson(s.phase1, PHASE1)) && Covers(data, PhaseJson(s.phase2, PHASE2))
    ensures Parse(Obj(data)) == Ok(s)
  {
    PhasesListsApart();
    IdentityRoundTrip(s.identity, data);
    PhaseRoundTrip(s.phase1, PHASE1, data);
    PhaseRoundTrip(s.phase2, PHASE2, data);
    TimingRoundTrip(s.timing, data);
    SwitchesRoundTrip(s.switches, data);
    Assembled(data, s);
  }

  /** Parsing the stored form of normal settings gives the settings back. */
  lemma NormalRoundTrip(s: Settings)
    requires Normal(s)
    ensures Parse(Obj(ToJson(s))) == Ok(s)
  {
    JsonCoversParts(s);
    CoveredParses(s, ToJson(s));
  }

  /** Whatever document was parsed, writing the result and parsing it again changes nothing. */
  lemma ParseIsStable(payload: Value)
    requires Parse(payload).Ok?
    ensures Parse(Obj(ToJson(Parse(payload).value))) == Parse(payload)
  {
    ParsedIsNormal(payload);
    NormalRoundTrip(Parse(payload).value);
  }

  // ----- the older single-valued form -----

  const LIST_KEYS: set<Key> := {IkeProposals, IkeDhGroups, ChildProposals, PfsDhGroups}

  function HeadOnly(p: Phase): Phase
    requires ValidPhase(p)
  {
    p.(proposals := [p.single], groups := [p.group])
  }

  /** What an older reader, which knows only the single-valued fields, makes of the settings. */
  function HeadsOnly(s: Settings): Settings
    requires Normal(s)
  {
    s.(phase1 := HeadOnly(s.phase1), phase2 := HeadOnly(s.phase2))
  }

  predicate ListsApart(k: PhaseKeys) {
    && DistinctKeys(k)
    && k.proposals in LIST_KEYS && k.groups in LIST_KEYS
    && k.cipher !in LIST_KEYS && k.hash !in LIST_KEYS && k.group !in LIST_KEYS
  }

  lemma PhasesListsApart()
    ensures ListsApart(PHASE1) && ListsApart(PHASE2)
  {}

  lemma PhaseLegacy(p: Phase, k: PhaseKeys, full: Object)
    requires ValidPhase(p) && ListsApart(k) && Covers(full, PhaseJson(p, k))
    ensures ParseProposals(full - LIST_KEYS, k) == Ok([p.single])
    ensures ParseGroups(full - LIST_KEYS, k) == Ok([p.group])
  {
    var keys := [k.cipher, k.hash, k.group, k.proposals, k.groups];
    assert keys[0] == k.cipher && keys[1] == k.hash && keys[2] == k.group && keys[3] == k.proposals && keys[4] == k.groups;
    var part := PhaseJson(p, k);
    assert k.cipher in part && k.hash in part && k.group in part;
    assert part[k.cipher] == Str(CipherText(p.single.cipher));
    assert part[k.hash] == Str(HashText(p.single.hash));
    assert part[k.group] == Int(p.group);
    assert p.groups[0] in p.groups;
  }

  lemma MinusKeepsCover(data: Object, part: Object, n: nat)
    requires Covers(data, part)
    requires forall k | k in part :: PartOf(k) == n
    requires n != 2 && n != 3
    ensures Covers(data - LIST_KEYS, part)
  {
    assert forall k | k in LIST_KEYS :: 2 <= PartOf(k) <= 3;
  }

  lemma LegacyParts(s: Settings, full: Object)
    requires Normal(s)
    requires Covers(full, IdentityJson(s.identity)) && Covers(full, TimingJson(s.timing)) && Covers(full, SwitchesJson(s.switches))
    ensures ParseIdentity(full - LIST_KEYS) == Ok(s.identity)
    ensures ParseTiming(full - LIST_KEYS) == Ok(s.timing)
    ensures ParseSwitches(full - LIST_KEYS) == Ok(s.switches)
  {
    IdentityKeys(s.identity);
    TimingKeys(s.timing);
    SwitchesKeys(s.switches);
    MinusKeepsCover(full, IdentityJson(s.identity), 1);
    MinusKeepsCover(full, TimingJson(s.timing), 4);
    MinusKeepsCover(full, SwitchesJson(s.switches), 5);
    IdentityRoundTrip(s.identity, full - LIST_KEYS);
    TimingRoundTrip(s.timing, full - LIST_KEYS);
    SwitchesRoundTrip(s.switches, full - LIST_KEYS);
  }

  lemma LegacyPhases(s: Settings, full: Object)
    requires ValidPhase(s.phase1) && ValidPhase(s.phase2)
    requires Covers(full, PhaseJson(s.phase1, PHASE1)) && Covers(full, PhaseJson(s.phase2, PHASE2))
    ensures ParseProposals(full - LIST_KEYS, PHASE1) == Ok([s.phase1.single])
    ensures ParseGroups(full - LIST_KEYS, PHASE1) == Ok([s.phase1.group])
    ensures ParseProposals(full - LIST_KEYS, PHASE2) == Ok([s.phase2.single])
    ensures ParseGroups(full - LIST_KEYS, PHASE2) == Ok([s.phase2.group])
  {
    PhasesListsApart();
    PhaseLegacy(s.phase1, PHASE1, full);
    PhaseLegacy(s.phase2, PHASE2, full);
  }

  lemma LegacyOf(s: Settings, full: Object)
    requires Normal(s)
    requires Covers(full, IdentityJson(s.identity)) && Covers(full, TimingJson(s.timing)) && Covers(full, SwitchesJson(s.switches))
    requires Covers(full, PhaseJson(s.phase1, PHASE1)) && Covers(full, PhaseJson(s.phase2, PHASE2))
    ensures Parse(Obj(full - LIST_KEYS)) == Ok(HeadsOnly(s))
  {
    LegacyParts(s, full);
    LegacyPhases(s, full);
    Assembled(full - LIST_KEYS, HeadsOnly(s));
  }

  /** Dropping the list fields migrates the document to one-element lists, the heads of the lists. */
  lemma LegacyMigration(s: Settings)
    requires Normal(s)
    ensures Parse(Obj(ToJson(s) - LIST_KEYS)) == Ok(HeadsOnly(s))
  {
    JsonCoversParts(s);
    LegacyOf(s, ToJson(s));
  }

  predicate SingleKey(k: Key) {
    k == Phase1Encryption || k == Phase1Integrity || k == DhGroup
    || k == Phase2Encryption || k == Phase2Integrity || k == PfsDhGroup
  }

  lemma SameWord<T>(data: Object, other: Object, key: Key, of: string -> Option<T>, default: T)
    requires (key in data <==> key in other) && (key in data ==> data[key] == other[key])
    ensures Word(data, key, of, default) == Word(other, key, of, default)
  {}

  lemma SameIdentity(data: Object, other: Object)
    requires forall k | !SingleKey(k) :: (k in data <==> k in other) && (k in data ==> data[k] == other[k])
    ensures ParseIdentity(data) == ParseIdentity(other)
  {
    SameWord(data, other, IkeVersion, VersionOf, IkeV1);
    SameWord(data, other, IkeMode, ModeOf, Aggressive);
    SameWord(data, other, AuthMethod, AuthOf, PskXauth);
    SameWord(data, other, AddressAssignment, AssignmentOf, ModeConfig);
    assert OptionalId(data, LocalId) == OptionalId(other, LocalId);
    assert OptionalId(data, PeerId) == OptionalId(other, PeerId);
  }

  lemma SameTiming(data: Object, other: Object)
    requires forall k | !SingleKey(k) :: (k in data <==> k in other) && (k in data ==> data[k] == other[k])
    ensures ParseTiming(data) == ParseTiming(other)
  {}

  lemma SameSwitches(data: Object, other: Object)
    requires forall k | !SingleKey(k) :: (k in data <==> k in other) && (k in data ==> data[k] == other[k])
    ensures ParseSwitches(data) == ParseSwitches(other)
  {}

  /** When every list field is present the single-valued fields have no influence, valid or not. */
  lemma ListsTakePrecedence(data: Object, other: Object)
    requires forall k | k in LIST_KEYS :: Get(data, k, Null) != Null
    requires forall k | !SingleKey(k) :: (k in data <==> k in other) && (k in data ==> data[k] == other[k])
    ensures Parse(Obj(data)) == Parse(Obj(other))
  {
    SameIdentity(data, other);
    SameTiming(data, other);
    SameSwitches(data, other);
    assert IkeProposals in LIST_KEYS && ChildProposals in LIST_KEYS && IkeDhGroups in LIST_KEYS && PfsDhGroups in LIST_KEYS;
    assert ParseProposals(data, PHASE1) == ParseProposals(other, PHASE1);
    assert ParseProposals(data, PHASE2) == ParseProposals(other, PHASE2);
    assert ParseGroups(data, PHASE1) == ParseGroups(other, PHASE1);
    assert ParseGroups(data, PHASE2) == ParseGroups(other, PHASE2);
  }

  /** Every key of the stored form belongs to one of its parts. */
  lemma AllKeysStored(s: Settings)
    ensures forall k | k in ToJson(s) :: PartOf(k) > 0
  {
    IdentityKeys(s.identity);
    PhaseKeysApart(s.phase1);
    PhaseKeysApart(s.phase2);
    TimingKeys(s.timing);
    SwitchesKeys(s.switches);
    UnionParts(IdentityJson(s.identity), PhaseJson(s.phase1, PHASE1), PhaseJson(s.phase2, PHASE2),
               TimingJson(s.timing), SwitchesJson(s.switches));
  }

  lemma UnionParts(a: Object, b: Object, c: Object, d: Object, e: Object)
    requires forall k | k in a :: PartOf(k) == 1
    requires forall k | k in b :: PartOf(k) == 2
    requires forall k | k in c :: PartOf(k) == 3
    requires forall k | k in d :: PartOf(k) == 4
    requires forall k | k in e :: PartOf(k) == 5
    ensures forall k | k in a + b + c + d + e :: PartOf(k) > 0
  {}

  /** Nothing at all, and an object without members, stand for the default settings. */
  lemma NothingMeansDefaults()
    ensures Parse(Null) == Ok(DEFAULT_SETTINGS) && Parse(Obj(map[])) == Ok(DEFAULT_SETTINGS)
  {}
}
