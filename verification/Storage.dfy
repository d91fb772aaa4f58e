/** The stored list of profiles, `profiles.json` (`profiles/storage.py`). */
module Storage {
  import opened Wrappers
  import opened Sequences
  import opened Text
  import opened Json
  import opened Forbidden
  import opened ProfileModel
  import Ipsec

  /** What loading a file yields. */
  datatype Document = Document(profiles: seq<Profile>, default: Option<string>)

  function Ids(ps: seq<Profile>): (ids: seq<string>)
    ensures |ids| == |ps| && forall i | 0 <= i < |ps| :: ids[i] == ps[i].id
  {
    Map((p: Profile) => p.id, ps)
  }

  function KnownOrNone(default: Option<string>, ids: seq<string>): (r: Option<string>)
    ensures r.Some? ==> r == default && r.value in ids
    ensures default.None? || default.value in ids ==> r == default
  {
    if default.Some? && default.value in ids then default else None
  }

  // ----- writing -----

  function OptionJson(o: Option<string>): Value {
    if o.Some? then Str(o.value) else Null
  }

  function SaveDocument(ps: seq<Profile>, default: Option<string>): Value {
    Obj(map[Version := Int(1), DefaultProfileId := OptionJson(KnownOrNone(default, Ids(ps))),
            Profiles := List(Records(ps))])
  }

  // ----- reading -----

  /** A record that still fails without its certificate pin is skipped. */
  function LoadRecord(build: Builder, v: Value): Option<Profile> {
    if !v.Obj? then None
    else
      var cleaned := Without(v, DroppedOnLoad()).fields;
      var id := Get(cleaned, Id, Null);
      if !id.Str? || Trim(id.s) == "" then None
      else
        var f := FieldsIn(cleaned);
        match build(id.s, f)
        case Ok(p) => Some(p)
        case Err(_) =>
          match build(id.s, f.(pin := Null))
          case Ok(p) => Some(p)
          case Err(_) => None
  }

  type Loader = Value -> Option<Profile>

  function Loads(build: Builder): Loader { v => LoadRecord(build, v) }

  /** The usable records in order; a repeated id is dropped. */
  function Collect(load: Loader, records: seq<Value>): (ps: seq<Profile>)
    ensures Distinct(Ids(ps))
  {
    if records == [] then []
    else
      var front := Collect(load, records[..|records| - 1]);
      match load(records[|records| - 1])
      case Some(p) => if p.id in Ids(front) then front else front + [p]
      case None => front
  }

  function RecordsIn(payload: Value): seq<Value> {
    match payload
    case List(items) => items
    case Obj(m) => var r := Get(m, Profiles, List([])); if r.List? then r.items else []
    case _ => []
  }

  function DefaultIn(payload: Value): Option<string> {
    if payload.Obj? && Get(payload.fields, DefaultProfileId, Null).Str?
    then var d := Trim(Get(payload.fields, DefaultProfileId, Null).s); if d == "" then None else Some(d)
    else None
  }

  function Load(build: Builder, payload: Value): Document {
    var ps := Collect(Loads(build), RecordsIn(payload));
    Document(ps, KnownOrNone(DefaultIn(payload), Ids(ps)))
  }

  /** The loop of `parse_profiles_document`. */
  method CollectLoop(load: Loader, records: seq<Value>) returns (profiles: seq<Profile>, seen: set<string>)
    ensures profiles == Collect(load, records)
    ensures forall id :: id in seen <==> id in Ids(profiles)
  {
    profiles, seen := [], {};
    for i := 0 to |records|
      invariant profiles == Collect(load, records[..i])
      invariant forall id :: id in seen <==> id in Ids(profiles)
    {
      assert records[..i + 1][..i] == records[..i];
      var profile := load(records[i]);
      if profile.None? || profile.value.id in seen {
        continue;
      }
      assert Ids(profiles + [profile.value]) == Ids(profiles) + [profile.value.id];
      seen := seen + {profile.value.id};
      profiles := profiles + [profile.value];
    }
    assert records[..|records|] == records;
  }

  method LoadDocument(build: Builder, payload: Value) returns (document: Document)
    ensures document == Load(build, payload)
  {
    var profiles, seen := CollectLoop(Loads(build), RecordsIn(payload));
    var default := DefaultIn(payload);
    if default.Some? && default.value !in seen {
      default := None;
    }
    document := Document(profiles, default);
  }

  // ----- what loading guarantees -----

  /** A list the manager may hold: validated profiles with different ids and a default among them. */
  ghost predicate Sound(rules: Rules, ps: seq<Profile>, default: Option<string>) {
    match default
    case None => AllSound(rules, ps)
    case Some(id) => AllSound(rules, ps) && id in Ids(ps)
  }

  ghost predicate AllSound(rules: Rules, ps: seq<Profile>) {
    (forall i | 0 <= i < |ps| :: Validated(rules, ps[i])) && Distinct(Ids(ps))
  }

  lemma LoadedIsValidated(rules: Rules, v: Value)
    ensures var r := LoadRecord(Builds(rules), v); r.Some? ==> Validated(rules, r.value)
  {
    var build := Builds(rules);
    if LoadRecord(build, v).Some? {
      var cleaned := Without(v, DroppedOnLoad()).fields;
      var id := Get(cleaned, Id, Null).s;
      BuildsOnlyValidated(rules, id, FieldsIn(cleaned));
      BuildsOnlyValidated(rules, id, FieldsIn(cleaned).(pin := Null));
    }
  }

  lemma {:induction false} CollectedWereLoaded(load: Loader, records: seq<Value>)
    ensures forall p | p in Collect(load, records) :: exists v :: v in records && load(v) == Some(p)
  {
    if records != [] {
      CollectedWereLoaded(load, records[..|records| - 1]);
      assert records[|records| - 1] in records;
      assert forall v | v in records[..|records| - 1] :: v in records;
    }
  }

  /** Whatever a file holds, loading it gives a sound list. */
  lemma LoadIsSound(rules: Rules, payload: Value)
    ensures var d := Load(Builds(rules), payload); Sound(rules, d.profiles, d.default)
  {
    var load := Loads(Builds(rules));
    CollectedWereLoaded(load, RecordsIn(payload));
    forall p | p in Collect(load, RecordsIn(payload)) ensures Validated(rules, p) {
      var v :| v in RecordsIn(payload) && load(v) == Some(p);
      LoadedIsValidated(rules, v);
    }
  }

  // ----- the program's own records survive the walks -----

  predicate Spared(m: Object, bad: Key -> bool) {
    forall k | k in m :: !bad(k) && !HasKey(m[k], bad)
  }

  ghost predicate SparesExported(bad: Key -> bool) {
    forall k | Exported(k) :: !bad(k)
  }

  predicate Scalar(v: Value) { !v.Obj? && !v.List? }

  lemma ScalarsSpared(m: Object, bad: Key -> bool)
    requires SparesExported(bad)
    requires forall k | k in m :: Exported(k) && Scalar(m[k])
    ensures Spared(m, bad)
  {}

  lemma UnionSpared(a: Object, b: Object, bad: Key -> bool)
    requires Spared(a, bad) && Spared(b, bad)
    ensures Spared(a + b, bad)
  {}

  lemma ProposalSpared(p: Ipsec.Proposal, bad: Key -> bool)
    requires SparesExported(bad)
    ensures !HasKey(Ipsec.ProposalJson(p), bad)
  {
    assert Exported(Encryption) && Exported(Integrity);
  }

  lemma PhaseSpared(p: Ipsec.Phase, k: Ipsec.PhaseKeys, bad: Key -> bool)
    requires SparesExported(bad)
    requires Exported(k.cipher) && Exported(k.hash) && Exported(k.group) && Exported(k.proposals) && Exported(k.groups)
    ensures Spared(Ipsec.PhaseJson(p, k), bad)
  {
    var proposals := Ipsec.OrSingle(p.proposals, p.single);
    forall i | 0 <= i < |proposals| ensures !HasKey(Map(Ipsec.ProposalJson, proposals)[i], bad) {
      ProposalSpared(proposals[i], bad);
    }
    var groups := Ipsec.OrSingle(p.groups, p.group);
    assert !HasKey(List(Map(Ipsec.ProposalJson, proposals)), bad);
    assert !HasKey(List(Map(g => Int(g), groups)), bad);
  }

  lemma IdentitySpared(i: Ipsec.Identity, bad: Key -> bool)
    requires SparesExported(bad)
    ensures Spared(Ipsec.IdentityJson(i), bad)
  {
    ScalarsSpared(Ipsec.IdentityJson(i), bad);
  }

  lemma TimingSpared(t: Ipsec.Timing, bad: Key -> bool)
    requires SparesExported(bad)
    ensures Spared(Ipsec.TimingJson(t), bad)
  {
    ScalarsSpared(Ipsec.TimingJson(t), bad);
  }

  lemma SwitchesSpared(s: Ipsec.Switches, bad: Key -> bool)
    requires SparesExported(bad)
    ensures Spared(Ipsec.SwitchesJson(s), bad)
  {
    ScalarsSpared(Ipsec.SwitchesJson(s), bad);
  }

  lemma SettingsSpared(s: Ipsec.Settings, bad: Key -> bool)
    requires SparesExported(bad)
    ensures Spared(Ipsec.ToJson(s), bad)
  {
    IdentitySpared(s.identity, bad);
    TimingSpared(s.timing, bad);
    SwitchesSpared(s.switches, bad);
    PhaseSpared(s.phase1, Ipsec.PHASE1, bad);
    PhaseSpared(s.phase2, Ipsec.PHASE2, bad);
    var identity, phase1, phase2 := Ipsec.IdentityJson(s.identity), Ipsec.PhaseJson(s.phase1, Ipsec.PHASE1), Ipsec.PhaseJson(s.phase2, Ipsec.PHASE2);
    UnionSpared(identity, phase1, bad);
    UnionSpared(identity + phase1, phase2, bad);
    UnionSpared(identity + phase1 + phase2, Ipsec.TimingJson(s.timing), bad);
    UnionSpared(identity + phase1 + phase2 + Ipsec.TimingJson(s.timing), Ipsec.SwitchesJson(s.switches), bad);
  }

  lemma ScalarRecordSpared(p: Profile, bad: Key -> bool)
    requires SparesExported(bad)
    ensures Spared(ScalarRecord(p), bad)
  {
    ScalarsSpared(ScalarRecord(p), bad);
  }

  lemma RecordSpared(p: Profile, bad: Key -> bool)
    requires SparesExported(bad)
    ensures Spared(Record(p), bad)
  {
    ScalarRecordSpared(p, bad);
    SettingsSpared(p.SettingsOrDefault(), bad);
    assert Exported(Id) && Exported(IpsecObject);
    assert !HasKey(p.IpsecPayload(), bad);
  }

  lemma LoadSparesExported()
    ensures SparesExported(DroppedOnLoad())
  {
    forall k | Exported(k) ensures !DroppedOnLoad()(k) { ExportedKeysNotNamed(k); }
  }

  /** A stored record loads as the profile it was written from. */
  lemma RecordRoundTrip(build: Builder, p: Profile)
    requires Rebuilds(build, p)
    ensures LoadRecord(build, Obj(Record(p))) == Some(p)
  {
    LoadSparesExported();
    RecordSpared(p, DroppedOnLoad());
    WithoutDropsExactly(Obj(Record(p)), DroppedOnLoad());
    RecordFields(p);
    assert !HasKey(Obj(Record(p)), DroppedOnLoad());
  }

  function Records(ps: seq<Profile>): (vs: seq<Value>)
    ensures |vs| == |ps| && forall i | 0 <= i < |ps| :: vs[i] == Obj(Record(ps[i]))
  {
    Map((p: Profile) => Obj(Record(p)), ps)
  }

  lemma {:induction false} CollectInverts(load: Loader, records: seq<Value>, ps: seq<Profile>)
    requires |records| == |ps| && Distinct(Ids(ps))
    requires forall i | 0 <= i < |ps| :: load(records[i]) == Some(ps[i])
    ensures Collect(load, records) == ps
  {
    if ps != [] {
      var n := |ps| - 1;
      assert Ids(ps[..n]) == Ids(ps)[..n];
      CollectInverts(load, records[..n], ps[..n]);
      assert Ids(ps)[n] == ps[n].id;
      assert ps == ps[..n] + [ps[n]];
    }
  }

  lemma DefaultRoundTrip(ps: seq<Profile>, default: Option<string>)
    requires default.Some? ==> default.value in Ids(ps) && Trimmed(default.value) && default.value != ""
    ensures DefaultIn(SaveDocument(ps, default)) == default
    ensures RecordsIn(SaveDocument(ps, default)) == Records(ps)
  {}

  /** Loading what was saved gives back the same profiles, in order, and the same default. */
  lemma LoadOfSave(rules: Rules, ps: seq<Profile>, default: Option<string>)
    requires Sound(rules, ps, default)
    ensures Load(Builds(rules), SaveDocument(ps, default)) == Document(ps, default)
  {
    var build := Builds(rules);
    forall i | 0 <= i < |ps| ensures Loads(build)(Records(ps)[i]) == Some(ps[i]) {
      ValidatedRebuilds(rules, ps[i]);
      RecordRoundTrip(build, ps[i]);
    }
    CollectInverts(Loads(build), Records(ps), ps);
    DefaultTrimmed(rules, ps, default);
    DefaultRoundTrip(ps, default);
  }

  lemma DefaultTrimmed(rules: Rules, ps: seq<Profile>, default: Option<string>)
    requires Sound(rules, ps, default)
    ensures default.Some? ==> Trimmed(default.value) && default.value != ""
  {
    if default.Some? {
      var i :| 0 <= i < |ps| && ps[i].id == default.value;
      assert Validated(rules, ps[i]);
    }
  }

  /** The default of a file is the trimmed text that is there, when a loaded profile has that id. */
  lemma LoadedDefault(build: Builder, m: Object)
    ensures var d, got := Get(m, DefaultProfileId, Null), Load(build, Obj(m));
            got.default == if d.Str? && Trim(d.s) != "" && Trim(d.s) in Ids(got.profiles) then Some(Trim(d.s)) else None
  {}

  /** The older form of the file, a bare list of records, loads as well; it names no default. */
  lemma LoadOfList(rules: Rules, ps: seq<Profile>)
    requires Sound(rules, ps, None)
    ensures Load(Builds(rules), List(Records(ps))) == Document(ps, None)
  {
    var build := Builds(rules);
    forall i | 0 <= i < |ps| ensures Loads(build)(Records(ps)[i]) == Some(ps[i]) {
      ValidatedRebuilds(rules, ps[i]);
      RecordRoundTrip(build, ps[i]);
    }
    CollectInverts(Loads(build), Records(ps), ps);
  }

  lemma BadPinFields(p: Profile, bad: Value)
    ensures FieldsIn(Record(p)[TrustedCertSha256 := bad]) == FieldsOf(p).(pin := bad)
    ensures Get(Record(p)[TrustedCertSha256 := bad], Id, Null) == Str(p.id)
  {
    RecordFields(p);
  }

  lemma BadPinRefused(rules: Rules, p: Profile, bad: Value)
    requires Validated(rules, p) && CheckPin(bad).Err?
    ensures Build(rules, p.id, FieldsOf(p).(pin := bad)).Err?
  {
    if Build(rules, p.id, FieldsOf(p).(pin := bad)).Ok? {
      BuiltAsDescribed(rules, p.id, FieldsOf(p).(pin := bad));
    }
  }

  lemma BadPinSpared(p: Profile, bad: Value)
    requires Scalar(bad)
    ensures var record := Record(p)[TrustedCertSha256 := bad]; Without(Obj(record), DroppedOnLoad()) == Obj(record)
  {
    LoadSparesExported();
    RecordSpared(p, DroppedOnLoad());
    assert Exported(TrustedCertSha256);
    SparedAsWhole(Record(p)[TrustedCertSha256 := bad], DroppedOnLoad());
  }

  lemma SparedAsWhole(m: Object, bad: Key -> bool)
    requires Spared(m, bad)
    ensures Without(Obj(m), bad) == Obj(m)
  {
    WithoutDropsExactly(Obj(m), bad);
  }

  lemma SecondAttempt(build: Builder, p: Profile, bad: Value, q: Profile)
    requires Scalar(bad) && Trimmed(p.id) && p.id != ""
    requires build(p.id, FieldsOf(p).(pin := bad)).Err? && build(p.id, FieldsOf(p).(pin := Null)) == Ok(q)
    ensures LoadRecord(build, Obj(Record(p)[TrustedCertSha256 := bad])) == Some(q)
  {
    BadPinSpared(p, bad);
    BadPinFields(p, bad);
  }

  /** A record whose pin is not acceptable is kept without it, and otherwise as it is. */
  lemma BadPinDropped(rules: Rules, p: Profile, bad: Value)
    requires Validated(rules, p) && CheckPin(bad).Err? && Scalar(bad)
    ensures LoadRecord(Builds(rules), Obj(Record(p)[TrustedCertSha256 := bad])) == Some(p.(pin := None))
  {
    var unpinned := p.(pin := None);
    BadPinRefused(rules, p, bad);
    BuildInverts(rules, unpinned);
    assert FieldsOf(unpinned) == FieldsOf(p).(pin := Null);
    SecondAttempt(Builds(rules), p, bad, unpinned);
  }

  /** A usable record with this id is among them. */
  predicate Loadable(load: Loader, records: seq<Value>, id: string) {
    exists i | 0 <= i < |records| :: LoadsAs(load, records[i], id)
  }

  predicate LoadsAs(load: Loader, v: Value, id: string) { load(v).Some? && load(v).value.id == id }

  /** `p` is the first usable record with its id. */
  predicate IsFirst(load: Loader, records: seq<Value>, p: Profile) {
    exists i: nat | i < |records| :: load(records[i]) == Some(p) && !Loadable(load, records[..i], p.id)
  }

  lemma LoadableOneMore(load: Loader, records: seq<Value>, v: Value, id: string)
    ensures Loadable(load, records + [v], id) <==> Loadable(load, records, id) || LoadsAs(load, v, id)
  {
    var all := records + [v];
    assert all[|records|] == v;
    assert forall i | 0 <= i < |records| :: all[i] == records[i];
  }

  lemma FirstOneMore(load: Loader, records: seq<Value>, v: Value, p: Profile)
    ensures IsFirst(load, records + [v], p) <==>
            IsFirst(load, records, p) || (load(v) == Some(p) && !Loadable(load, records, p.id))
  {
    var all := records + [v];
    assert all[|records|] == v && all[..|records|] == records;
    assert forall i: nat | i < |records| :: all[i] == records[i] && all[..i] == records[..i];
  }

  lemma CollectOneMore(load: Loader, records: seq<Value>, v: Value)
    ensures var front := Collect(load, records);
            Collect(load, records + [v]) == if load(v).Some? && load(v).value.id !in Ids(front) then front + [load(v).value] else front
  {
    assert (records + [v])[..|records|] == records;
  }

  lemma IdsOneMore(ps: seq<Profile>, p: Profile, id: string)
    ensures id in Ids(ps + [p]) <==> id in Ids(ps) || id == p.id
  {
    assert Ids(ps + [p]) == Ids(ps) + [p.id];
  }

  /** Of several usable records with one id exactly the first is loaded, and every id of a usable one is. */
  lemma {:induction false} FirstRecordWins(load: Loader, records: seq<Value>, p: Profile, id: string)
    ensures p in Collect(load, records) <==> IsFirst(load, records, p)
    ensures id in Ids(Collect(load, records)) <==> Loadable(load, records, id)
  {
    if records != [] {
      var front, v := records[..|records| - 1], records[|records| - 1];
      assert records == front + [v];
      FirstRecordWins(load, front, p, id);
      LoadableOneMore(load, front, v, id);
      FirstOneMore(load, front, v, p);
      CollectOneMore(load, front, v);
      if load(v).Some? {
        FirstRecordWins(load, front, p, load(v).value.id);
        IdsOneMore(Collect(load, front), load(v).value, id);
      }
    }
  }
}
