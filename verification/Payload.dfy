/** The document inside a backup: profiles with their optional secrets (`backup/payload.py`). */
module Payload {
  import opened Wrappers
  import opened Sequences
  import opened Text
  import opened Json
  import opened Forbidden
  import opened ProfileModel
  import opened Storage
  import Ipsec
  import Transfer

  const PAYLOAD_FORMAT := "fortigate-vpn-linux-gui-backup"

  datatype Secrets = Stored(psk: Option<string>, xauth: Option<string>)

  const NO_SECRETS := Stored(None, None)

  datatype Item = Item(profile: Profile, secrets: Secrets)

  /** Why a restore is refused. */
  datatype Refusal = NotAPayload | ForbiddenKey | UnknownField | WrongFormat | WrongVersion | DuplicateId | BadField(fields: seq<Key>)

  // ----- writing -----

  predicate Present(o: Option<string>) { o.Some? && o.value != "" }

  function SecretsJson(s: Secrets): Object {
    (if Present(s.psk) then map[Psk := Str(s.psk.value)] else map[])
    + (if Present(s.xauth) then map[XauthPassword := Str(s.xauth.value)] else map[])
  }

  function BackupRecord(p: Profile, s: Secrets): Object {
    if SecretsJson(s) == map[] then Record(p) else Record(p)[Json.Secrets := Obj(SecretsJson(s))]
  }

  function SecretsOf(secrets: map<string, Secrets>, id: string): Secrets {
    if id in secrets then secrets[id] else NO_SECRETS
  }

  function BackupRecords(ps: seq<Profile>, secrets: map<string, Secrets>): (vs: seq<Value>)
    ensures |vs| == |ps| && forall i | 0 <= i < |ps| :: vs[i] == Obj(BackupRecord(ps[i], SecretsOf(secrets, ps[i].id)))
  {
    Map((p: Profile) => Obj(BackupRecord(p, SecretsOf(secrets, p.id))), ps)
  }

  /** The document around the records. */
  function Document(records: seq<Value>, default: Option<string>, appVersion: string): Object {
    map[Format := Str(PAYLOAD_FORMAT), PayloadVersion := Int(1), CreatedAppVersion := Str(appVersion),
        DefaultProfileId := OptionJson(default), Profiles := List(records)]
  }

  function Backup(ps: seq<Profile>, default: Option<string>, secrets: map<string, Secrets>, appVersion: string): Value {
    Obj(Document(BackupRecords(ps, secrets), KnownOrNone(default, Ids(ps)), appVersion))
  }

  // ----- reading -----

  predicate PayloadKey(k: Key) {
    k == Format || k == PayloadVersion || k == CreatedAppVersion || k == DefaultProfileId || k == Profiles
  }

  predicate RecordKey(k: Key) {
    || k == Id || k == Name || k == Gateway || k == Port || k == Description || k == UsernameHint
    || k == UseSso || k == TrustedCertSha256 || k == VpnType || k == IpsecObject || k == Json.Secrets
  }

  predicate SecretKey(k: Key) { k == Psk || k == XauthPassword }

  /** An absent secret is nothing; a present one is a non-empty text. */
  function OneSecret(m: Object, k: Key): Result<Option<string>, Refusal> {
    match Get(m, k, Null)
    case Null => Ok(None)
    case Str(s) => if s == "" then Err(BadField([k])) else Ok(Some(s))
    case _ => Err(BadField([k]))
  }

  function ParseSecrets(v: Value): Result<Secrets, Refusal> {
    if NullOrEmpty(v) then Ok(NO_SECRETS)
    else if !v.Obj? then Err(NotAPayload)
    else if exists k :: k in v.fields && !SecretKey(k) then Err(UnknownField)
    else
      var psk :- OneSecret(v.fields, Psk);
      var xauth :- OneSecret(v.fields, XauthPassword);
      Ok(Stored(psk, xauth))
  }

  function RestoredIpsec(t: VpnType, raw: Object): Result<Value, Refusal> {
    if t == IpsecVpn then
      match Get(raw, IpsecObject, Null)
      case Null => Ok(Null)
      case Obj(m) => if exists k :: k in m && Ipsec.PartOf(k) == 0 then Err(UnknownField) else Ok(Obj(m))
      case _ => Err(BadField([IpsecObject]))
    else if IpsecObject in raw && !NullOrEmpty(raw[IpsecObject]) then Err(BadField([IpsecObject]))
    else Ok(Null)
  }

  /** A missing id gets a generated one; any other value is turned into text. */
  function RecordId(show: Value -> string, newId: string, v: Value): string {
    match v case Null => newId case Str(s) => s case _ => show(v)
  }

  function ParseRecord(refused: Key -> bool, build: Builder, show: Value -> string, newId: string, v: Value): Result<Item, Refusal> {
    if !v.Obj? then Err(NotAPayload)
    else if HasKey(v, refused) then Err(ForbiddenKey)
    else ParseFields(build, show, newId, v.fields)
  }

  function ParseFields(build: Builder, show: Value -> string, newId: string, raw: Object): Result<Item, Refusal> {
    if exists k :: k in raw && !RecordKey(k) then Err(UnknownField)
    else match Transfer.DeclaredType(raw)
      case None => Err(BadField([VpnType]))
      case Some(t) =>
        var ipsec :- RestoredIpsec(t, raw);
        var secrets :- ParseSecrets(Get(raw, Json.Secrets, Null));
        match build(RecordId(show, newId, Get(raw, Id, Null)), FieldsIn(raw).(ipsec := ipsec))
        case Err(fields) => Err(BadField(fields))
        case Ok(p) => Ok(Item(p, secrets))
  }

  /** A record is read together with its position, which selects the id generated when it has none. */
  type RecordParser = (nat, Value) -> Result<Item, Refusal>

  function ItemIds(items: seq<Item>): (ids: seq<string>)
    ensures |ids| == |items| && forall i | 0 <= i < |items| :: ids[i] == items[i].profile.id
  {
    Map((x: Item) => x.profile.id, items)
  }

  /** Every record must be usable and every id different. */
  function ParseRecords(parse: RecordParser, records: seq<Value>): (r: Result<seq<Item>, Refusal>)
    ensures r.Ok? ==> Distinct(ItemIds(r.value)) && |r.value| == |records|
    ensures r.Ok? ==> forall i | 0 <= i < |records| :: parse(i, records[i]) == Ok(r.value[i])
  {
    if records == [] then Ok([])
    else
      var front :- ParseRecords(parse, records[..|records| - 1]);
      var item :- parse(|records| - 1, records[|records| - 1]);
      if item.profile.id in ItemIds(front) then Err(DuplicateId) else Ok(front + [item])
  }

  /** The loop of `parse_payload_document`: it stops at the first refusal. */
  method ParseRecordsLoop(parse: RecordParser, records: seq<Value>) returns (r: Result<seq<Item>, Refusal>)
    ensures r == ParseRecords(parse, records)
  {
    var items: seq<Item> := [];
    var seen: set<string> := {};
    for i := 0 to |records|
      invariant ParseRecords(parse, records[..i]) == Ok(items)
      invariant forall id :: id in seen <==> id in ItemIds(items)
    {
      assert records[..i + 1][..i] == records[..i];
      var item := parse(i, records[i]);
      if item.Err? {
        FirstRefusal(parse, records, i + 1);
        return Err(item.error);
      }
      if item.value.profile.id in seen {
        FirstRefusal(parse, records, i + 1);
        return Err(DuplicateId);
      }
      assert ItemIds(items + [item.value]) == ItemIds(items) + [item.value.profile.id];
      seen := seen + {item.value.profile.id};
      items := items + [item.value];
    }
    assert records[..|records|] == records;
    r := Ok(items);
  }

  /** A refusal in a prefix is the refusal of the whole. */
  lemma {:induction false} FirstRefusal(parse: RecordParser, records: seq<Value>, n: nat)
    requires n <= |records| && ParseRecords(parse, records[..n]).Err?
    ensures ParseRecords(parse, records) == ParseRecords(parse, records[..n])
  {
    if n < |records| {
      var front := records[..|records| - 1];
      assert front[..n] == records[..n];
      FirstRefusal(parse, front, n);
    } else {
      assert records[..n] == records;
    }
  }

  function ParseDefault(v: Value, ids: seq<string>): Result<Option<string>, Refusal> {
    match v
    case Null => Ok(None)
    case Str(s) =>
      if s == "" then Ok(None)
      else if Trim(s) == "" then Err(BadField([DefaultProfileId]))
      else Ok(KnownOrNone(Some(Trim(s)), ids))
    case _ => Err(BadField([DefaultProfileId]))
  }

  datatype Parsed = Parsed(items: seq<Item>, default: Option<string>)

  function ParsePayload(refused: Key -> bool, parse: RecordParser, payload: Value): Result<Parsed, Refusal> {
    if !payload.Obj? then Err(NotAPayload)
    else if HasKey(payload, refused) then Err(ForbiddenKey)
    else ParseDocument(parse, payload.fields)
  }

  function ParseDocument(parse: RecordParser, m: Object): Result<Parsed, Refusal> {
    var created := Get(m, CreatedAppVersion, Null);
    var records := Get(m, Profiles, Null);
    if exists k :: k in m && !PayloadKey(k) then Err(UnknownField)
    else if Get(m, Format, Null) != Str(PAYLOAD_FORMAT) then Err(WrongFormat)
    else if !EqualsInt(Get(m, PayloadVersion, Null), 1) then Err(WrongVersion)
    else if (created != Null && !created.Str?) || !records.List? then Err(NotAPayload)
    else
      var items :- ParseRecords(parse, records.items);
      var default :- ParseDefault(Get(m, DefaultProfileId, Null), ItemIds(items));
      Ok(Parsed(items, default))
  }

  function RecordParserOf(refused: Key -> bool, build: Builder, show: Value -> string, newId: nat -> string): RecordParser {
    (i: nat, v: Value) => ParseRecord(refused, build, show, newId(i), v)
  }

  /** Reading the decrypted document of a backup. */
  function Restore(rules: Rules, newId: nat -> string, payload: Value): Result<Parsed, Refusal> {
    var refused := RefusedOnRestore(rules.fold);
    ParsePayload(refused, RecordParserOf(refused, Builds(rules), rules.show, newId), payload)
  }

  // ----- what an accepted payload guarantees -----

  /** An accepted record's profile came out of validation. */
  lemma ParsedItemBuilt(refused: Key -> bool, build: Builder, show: Value -> string, newId: string, v: Value)
      returns (id: string, f: Fields)
    requires ParseRecord(refused, build, show, newId, v).Ok?
    ensures build(id, f) == Ok(ParseRecord(refused, build, show, newId, v).value.profile)
  {
    var raw := v.fields;
    id := RecordId(show, newId, Get(raw, Id, Null));
    f := FieldsIn(raw).(ipsec := RestoredIpsec(Transfer.DeclaredType(raw).value, raw).value);
  }

  lemma ParsedPayloadRecords(refused: Key -> bool, parse: RecordParser, payload: Value) returns (records: seq<Value>)
    requires ParsePayload(refused, parse, payload).Ok?
    ensures ParseRecords(parse, records) == Ok(ParsePayload(refused, parse, payload).value.items)
    ensures var r := ParsePayload(refused, parse, payload).value; r.default.Some? ==> r.default.value in ItemIds(r.items)
  {
    records := Get(payload.fields, Profiles, Null).items;
    DocumentAccepted(parse, payload.fields);
  }

  lemma DocumentAccepted(parse: RecordParser, m: Object)
    requires ParseDocument(parse, m).Ok?
    ensures forall k | k in m :: PayloadKey(k)
    ensures Get(m, Format, Null) == Str("fortigate-vpn-linux-gui-backup") && EqualsInt(Get(m, PayloadVersion, Null), 1)
    ensures Get(m, Profiles, Null).List?
    ensures ParseRecords(parse, Get(m, Profiles, Null).items) == Ok(ParseDocument(parse, m).value.items)
    ensures var r := ParseDocument(parse, m).value;
            ParseDefault(Get(m, DefaultProfileId, Null), ItemIds(r.items)) == Ok(r.default)
  {}

  /** Validated profiles with different ids, and a default among them. */
  ghost predicate Restorable(rules: Rules, r: Parsed) {
    && Distinct(ItemIds(r.items))
    && (forall i | 0 <= i < |r.items| :: Validated(rules, r.items[i].profile))
    && (r.default.Some? ==> r.default.value in ItemIds(r.items))
  }

  /** Whatever payload is accepted, its content can be restored. */
  lemma RestoreIsSound(rules: Rules, newId: nat -> string, payload: Value)
    requires Restore(rules, newId, payload).Ok?
    ensures Restorable(rules, Restore(rules, newId, payload).value)
  {
    var refused, build := RefusedOnRestore(rules.fold), Builds(rules);
    var records := ParsedPayloadRecords(refused, RecordParserOf(refused, build, rules.show, newId), payload);
    var items := Restore(rules, newId, payload).value.items;
    forall i | 0 <= i < |items| ensures Validated(rules, items[i].profile) {
      var id, f := ParsedItemBuilt(refused, build, rules.show, newId(i), records[i]);
      BuildsOnlyValidated(rules, id, f);
    }
  }

  // ----- round trip -----

  /** Empty secrets are not written, so they come back as absent. */
  function Kept(s: Secrets): Secrets {
    Stored(if Present(s.psk) then s.psk else None, if Present(s.xauth) then s.xauth else None)
  }

  lemma SecretsRoundTrip(s: Secrets)
    ensures ParseSecrets(Obj(SecretsJson(s))) == Ok(Kept(s))
    ensures SecretsJson(s) == map[] <==> Kept(s) == NO_SECRETS
  {
    if Present(s.psk) { assert Psk in SecretsJson(s); }
    if Present(s.xauth) { assert XauthPassword in SecretsJson(s); }
  }

  predicate OnlyRecordKeys(m: Object) { forall k | k in m :: RecordKey(k) }

  lemma ScalarKeysAllowed(p: Profile)
    ensures OnlyRecordKeys(ScalarRecord(p))
  {}

  lemma OneMoreKey(m: Object, k: Key, v: Value)
    requires OnlyRecordKeys(m) && RecordKey(k)
    ensures OnlyRecordKeys(m[k := v])
  {}

  lemma RecordKeysAllowed(p: Profile, s: Secrets)
    ensures OnlyRecordKeys(BackupRecord(p, s))
  {
    var base := ScalarRecord(p)[Id := Str(p.id)];
    ScalarKeysAllowed(p);
    OneMoreKey(ScalarRecord(p), Id, Str(p.id));
    OneMoreKey(base, IpsecObject, p.IpsecPayload());
    OneMoreKey(Record(p), Json.Secrets, Obj(SecretsJson(s)));
  }

  lemma BackupRecordFields(p: Profile, s: Secrets)
    ensures FieldsIn(BackupRecord(p, s)) == FieldsOf(p)
    ensures Get(BackupRecord(p, s), Id, Null) == Str(p.id)
    ensures Transfer.DeclaredType(BackupRecord(p, s)) == Some(p.vpnType)
    ensures ParseSecrets(Get(BackupRecord(p, s), Json.Secrets, Null)) == Ok(Kept(s))
  {
    RecordFields(p);
    SecretsRoundTrip(s);
    assert Json.Secrets !in Record(p);
  }

  lemma BackupIpsec(p: Profile, s: Secrets)
    requires p.vpnType == Ssl ==> p.ipsec == None
    ensures RestoredIpsec(p.vpnType, BackupRecord(p, s)) == Ok(p.IpsecPayload())
  {
    Ipsec.AllKeysStored(p.SettingsOrDefault());
    assert p.vpnType == IpsecVpn ==> BackupRecord(p, s)[IpsecObject] == p.IpsecPayload();
  }

  lemma FieldsParse(build: Builder, show: Value -> string, newId: string, raw: Object, t: VpnType, s: Secrets, ipsec: Value, p: Profile)
    requires OnlyRecordKeys(raw)
    requires Transfer.DeclaredType(raw) == Some(t) && RestoredIpsec(t, raw) == Ok(ipsec)
    requires ParseSecrets(Get(raw, Json.Secrets, Null)) == Ok(s)
    requires build(RecordId(show, newId, Get(raw, Id, Null)), FieldsIn(raw).(ipsec := ipsec)) == Ok(p)
    ensures ParseFields(build, show, newId, raw) == Ok(Item(p, s))
  {}

  /** What a record must hold to be read as this item. */
  ghost predicate Describes(raw: Object, p: Profile, s: Secrets) {
    && OnlyRecordKeys(raw)
    && FieldsIn(raw) == FieldsOf(p) && Get(raw, Id, Null) == Str(p.id)
    && Transfer.DeclaredType(raw) == Some(p.vpnType) && RestoredIpsec(p.vpnType, raw) == Ok(p.IpsecPayload())
    && ParseSecrets(Get(raw, Json.Secrets, Null)) == Ok(s)
  }

  lemma DescribedParses(build: Builder, show: Value -> string, newId: string, raw: Object, p: Profile, s: Secrets)
    requires Rebuilds(build, p) && Describes(raw, p, s)
    ensures ParseFields(build, show, newId, raw) == Ok(Item(p, s))
  {
    assert FieldsOf(p).(ipsec := p.IpsecPayload()) == FieldsOf(p);
    FieldsParse(build, show, newId, raw, p.vpnType, s, p.IpsecPayload(), p);
  }

  lemma BackupDescribes(p: Profile, s: Secrets)
    requires p.vpnType == Ssl ==> p.ipsec == None
    ensures Describes(BackupRecord(p, s), p, Kept(s))
  {
    RecordKeysAllowed(p, s);
    BackupRecordFields(p, s);
    BackupIpsec(p, s);
  }

  lemma RecordOfBackup(build: Builder, show: Value -> string, newId: string, p: Profile, s: Secrets)
    requires Rebuilds(build, p) && (p.vpnType == Ssl ==> p.ipsec == None)
    ensures ParseFields(build, show, newId, BackupRecord(p, s)) == Ok(Item(p, Kept(s)))
  {
    BackupDescribes(p, s);
    DescribedParses(build, show, newId, BackupRecord(p, s), p, Kept(s));
  }

  ghost predicate SparesKnown(bad: Key -> bool) { forall k: Key | !k.Other? :: !bad(k) }

  lemma BackupRecordSpared(p: Profile, s: Secrets, bad: Key -> bool)
    requires SparesKnown(bad)
    ensures !HasKey(Obj(BackupRecord(p, s)), bad)
  {
    RecordSpared(p, bad);
    assert Spared(SecretsJson(s), bad);
    assert !HasKey(Obj(SecretsJson(s)), bad);
    Transfer.WithKeySpared(Record(p), Json.Secrets, Obj(SecretsJson(s)), bad);
  }

  lemma ParsedRecordOfBackup(refused: Key -> bool, build: Builder, show: Value -> string, newId: string, p: Profile, s: Secrets)
    requires SparesKnown(refused) && Rebuilds(build, p) && (p.vpnType == Ssl ==> p.ipsec == None)
    ensures ParseRecord(refused, build, show, newId, Obj(BackupRecord(p, s))) == Ok(Item(p, Kept(s)))
  {
    BackupRecordSpared(p, s, refused);
    RecordOfBackup(build, show, newId, p, s);
  }

  lemma RestoreSparesKnown(cf: CaseFold)
    ensures SparesKnown(RefusedOnRestore(cf))
  {
    forall k: Key | !k.Other? ensures !RefusedOnRestore(cf)(k) { KnownKeysPassRestore(cf, k); }
  }

  lemma {:induction false} ParseRecordsInverts(parse: RecordParser, records: seq<Value>, items: seq<Item>)
    requires |records| == |items| && Distinct(ItemIds(items))
    requires forall i | 0 <= i < |items| :: parse(i, records[i]) == Ok(items[i])
    ensures ParseRecords(parse, records) == Ok(items)
  {
    if items != [] {
      var n := |items| - 1;
      assert ItemIds(items[..n]) == ItemIds(items)[..n];
      ParseRecordsInverts(parse, records[..n], items[..n]);
      assert ItemIds(items)[n] == items[n].profile.id;
      assert items == items[..n] + [items[n]];
    }
  }

  /** What a backup of these profiles and secrets restores to. */
  function Items(ps: seq<Profile>, secrets: map<string, Secrets>): (items: seq<Item>)
    ensures |items| == |ps| && forall i | 0 <= i < |ps| :: items[i] == Item(ps[i], Kept(SecretsOf(secrets, ps[i].id)))
  {
    Map((p: Profile) => Item(p, Kept(SecretsOf(secrets, p.id))), ps)
  }

  lemma DocumentMembers(records: seq<Value>, default: Option<string>, appVersion: string)
    ensures var m := Document(records, default, appVersion);
            && (forall k | k in m :: PayloadKey(k))
            && Get(m, Format, Null) == Str(PAYLOAD_FORMAT) && Get(m, PayloadVersion, Null) == Int(1)
            && Get(m, CreatedAppVersion, Null) == Str(appVersion) && Get(m, Profiles, Null) == List(records)
            && Get(m, DefaultProfileId, Null) == OptionJson(default)
  {}

  lemma MembersParse(parse: RecordParser, m: Object, records: seq<Value>, items: seq<Item>, default: Option<string>, appVersion: string)
    requires forall k | k in m :: PayloadKey(k)
    requires Get(m, Format, Null) == Str(PAYLOAD_FORMAT) && Get(m, PayloadVersion, Null) == Int(1)
    requires Get(m, CreatedAppVersion, Null) == Str(appVersion) && Get(m, Profiles, Null) == List(records)
    requires ParseDefault(Get(m, DefaultProfileId, Null), ItemIds(items)) == Ok(default)
    requires ParseRecords(parse, records) == Ok(items)
    ensures ParseDocument(parse, m) == Ok(Parsed(items, default))
  {}

  lemma DefaultParses(default: Option<string>, ids: seq<string>)
    requires default.Some? ==> default.value in ids && Trimmed(default.value) && default.value != ""
    ensures ParseDefault(OptionJson(default), ids) == Ok(default)
  {}

  lemma DocumentParses(parse: RecordParser, records: seq<Value>, items: seq<Item>, default: Option<string>, appVersion: string)
    requires default.Some? ==> default.value in ItemIds(items) && Trimmed(default.value) && default.value != ""
    requires ParseRecords(parse, records) == Ok(items)
    ensures ParseDocument(parse, Document(records, default, appVersion)) == Ok(Parsed(items, default))
  {
    DocumentMembers(records, default, appVersion);
    DefaultParses(default, ItemIds(items));
    MembersParse(parse, Document(records, default, appVersion), records, items, default, appVersion);
  }

  lemma BackupRecordsSpared(ps: seq<Profile>, secrets: map<string, Secrets>, bad: Key -> bool)
    requires SparesKnown(bad)
    ensures !HasKey(List(BackupRecords(ps, secrets)), bad)
  {
    forall i | 0 <= i < |ps| ensures !HasKey(BackupRecords(ps, secrets)[i], bad) {
      BackupRecordSpared(ps[i], SecretsOf(secrets, ps[i].id), bad);
    }
  }

  lemma DocumentSpared(records: seq<Value>, default: Option<string>, appVersion: string, bad: Key -> bool)
    requires SparesKnown(bad) && !HasKey(List(records), bad)
    ensures !HasKey(Obj(Document(records, default, appVersion)), bad)
  {}

  lemma ItemsOfBackup(refused: Key -> bool, build: Builder, show: Value -> string, newId: nat -> string,
                      ps: seq<Profile>, secrets: map<string, Secrets>)
    requires SparesKnown(refused) && Distinct(Ids(ps))
    requires forall i | 0 <= i < |ps| :: Rebuilds(build, ps[i]) && (ps[i].vpnType == Ssl ==> ps[i].ipsec == None)
    ensures ParseRecords(RecordParserOf(refused, build, show, newId), BackupRecords(ps, secrets)) == Ok(Items(ps, secrets))
  {
    var parse := RecordParserOf(refused, build, show, newId);
    forall i | 0 <= i < |ps| ensures parse(i, BackupRecords(ps, secrets)[i]) == Ok(Items(ps, secrets)[i]) {
      ParsedRecordOfBackup(refused, build, show, newId(i), ps[i], SecretsOf(secrets, ps[i].id));
    }
    assert ItemIds(Items(ps, secrets)) == Ids(ps);
    ParseRecordsInverts(parse, BackupRecords(ps, secrets), Items(ps, secrets));
  }

  lemma PayloadOfBackup(refused: Key -> bool, build: Builder, show: Value -> string, newId: nat -> string,
                        ps: seq<Profile>, default: Option<string>, secrets: map<string, Secrets>, appVersion: string)
    requires SparesKnown(refused) && Distinct(Ids(ps))
    requires default.Some? ==> default.value in Ids(ps) && Trimmed(default.value) && default.value != ""
    requires forall i | 0 <= i < |ps| :: Rebuilds(build, ps[i]) && (ps[i].vpnType == Ssl ==> ps[i].ipsec == None)
    ensures ParsePayload(refused, RecordParserOf(refused, build, show, newId), Backup(ps, default, secrets, appVersion))
            == Ok(Parsed(Items(ps, secrets), default))
  {
    var parse := RecordParserOf(refused, build, show, newId);
    var records := BackupRecords(ps, secrets);
    BackupRecordsSpared(ps, secrets, refused);
    DocumentSpared(records, default, appVersion, refused);
    ItemsOfBackup(refused, build, show, newId, ps, secrets);
    assert ItemIds(Items(ps, secrets)) == Ids(ps);
    DocumentParses(parse, records, Items(ps, secrets), default, appVersion);
  }

  /**
   Reading back the program's own backup: every profile in order, the default, and every non-empty
   secret; no key of the backup is refused.
   */
  lemma RestoreOfBackup(rules: Rules, newId: nat -> string, ps: seq<Profile>, default: Option<string>,
                        secrets: map<string, Secrets>, appVersion: string)
    requires Sound(rules, ps, default)
    ensures Restore(rules, newId, Backup(ps, default, secrets, appVersion)) == Ok(Parsed(Items(ps, secrets), default))
  {
    RestoreSparesKnown(rules.fold);
    forall i | 0 <= i < |ps| ensures Rebuilds(Builds(rules), ps[i]) && (ps[i].vpnType == Ssl ==> ps[i].ipsec == None) {
      ValidatedRebuilds(rules, ps[i]);
    }
    DefaultTrimmed(rules, ps, default);
    PayloadOfBackup(RefusedOnRestore(rules.fold), Builds(rules), rules.show, newId, ps, default, secrets, appVersion);
  }

  // ----- what an accepted payload is -----

  /** An accepted payload is a backup of this program and version, without an unknown or a refused key. */
  lemma AcceptedIsBackup(refused: Key -> bool, parse: RecordParser, payload: Value)
    requires ParsePayload(refused, parse, payload).Ok?
    ensures payload.Obj? && !HasKey(payload, refused) && forall k | k in payload.fields :: PayloadKey(k)
    ensures Get(payload.fields, Format, Null) == Str("fortigate-vpn-linux-gui-backup")
    ensures EqualsInt(Get(payload.fields, PayloadVersion, Null), 1)
    ensures Get(payload.fields, Profiles, Null).List?
    ensures var records, r := Get(payload.fields, Profiles, Null).items, ParsePayload(refused, parse, payload).value;
            |r.items| == |records| && forall i | 0 <= i < |records| :: parse(i, records[i]) == Ok(r.items[i])
  {
    DocumentAccepted(parse, payload.fields);
  }

  /** An accepted record holds nothing unknown or refused, and its item has the record's own secrets. */
  lemma AcceptedRecord(refused: Key -> bool, build: Builder, show: Value -> string, newId: string, v: Value)
    requires ParseRecord(refused, build, show, newId, v).Ok?
    ensures v.Obj? && !HasKey(v, refused) && forall k | k in v.fields :: RecordKey(k)
    ensures Transfer.DeclaredType(v.fields).Some?
    ensures RestoredIpsec(Transfer.DeclaredType(v.fields).value, v.fields).Ok?
    ensures ParseSecrets(Get(v.fields, Json.Secrets, Null)) == Ok(ParseRecord(refused, build, show, newId, v).value.secrets)
  {}

  /** The profile of an accepted record is the one its fields describe, under the record's id. */
  lemma AcceptedProfile(refused: Key -> bool, rules: Rules, newId: string, v: Value)
    requires ParseRecord(refused, Builds(rules), rules.show, newId, v).Ok?
    ensures var p := ParseRecord(refused, Builds(rules), rules.show, newId, v).value.profile;
            && p.id == Trim(match Get(v.fields, Id, Null) case Null => newId case Str(id) => id case other => rules.show(other))
            && ProfileModel.Describes(GivenFields(v.fields), p)
  {
    RecordBuilds(refused, Builds(rules), rules.show, newId, v);
    BuiltAsDescribed(rules, RecordId(rules.show, newId, Get(v.fields, Id, Null)), GivenFields(v.fields));
  }

  /** The fields of a record, its IPsec settings as a restore takes them. */
  function GivenFields(raw: Object): Fields
    requires Transfer.DeclaredType(raw).Some? && RestoredIpsec(Transfer.DeclaredType(raw).value, raw).Ok?
  {
    FieldsIn(raw).(ipsec := RestoredIpsec(Transfer.DeclaredType(raw).value, raw).value)
  }

  lemma RecordBuilds(refused: Key -> bool, build: Builder, show: Value -> string, newId: string, v: Value)
    requires ParseRecord(refused, build, show, newId, v).Ok?
    ensures v.Obj? && Transfer.DeclaredType(v.fields).Some? && RestoredIpsec(Transfer.DeclaredType(v.fields).value, v.fields).Ok?
    ensures build(RecordId(show, newId, Get(v.fields, Id, Null)), GivenFields(v.fields)).Ok?
    ensures build(RecordId(show, newId, Get(v.fields, Id, Null)), GivenFields(v.fields)).value
         == ParseRecord(refused, build, show, newId, v).value.profile
  {}

  /** The default of an accepted payload: none, or a text that is not blank and, trimmed, names a profile of the backup. */
  lemma AcceptedDefault(refused: Key -> bool, parse: RecordParser, payload: Value)
    requires ParsePayload(refused, parse, payload).Ok?
    ensures var d, r := Get(payload.fields, DefaultProfileId, Null), ParsePayload(refused, parse, payload).value;
            match d
            case Null => r.default == None
            case Str(s) =>
              && (s != "" ==> Trim(s) != "")
              && r.default == if s != "" && Trim(s) in ItemIds(r.items) then Some(Trim(s)) else None
            case _ => false
  {
    DocumentAccepted(parse, payload.fields);
  }

  /** The settings of an accepted record: none beside an SSL profile, and none that the program does not know. */
  lemma AcceptedSettings(refused: Key -> bool, build: Builder, show: Value -> string, newId: string, v: Value)
    requires ParseRecord(refused, build, show, newId, v).Ok?
    ensures v.Obj? && Transfer.DeclaredType(v.fields).Some?
    ensures var settings := Get(v.fields, IpsecObject, Null);
            if Transfer.DeclaredType(v.fields) == Some(IpsecVpn) then
              settings == Null || (settings.Obj? && forall k | k in settings.fields :: Ipsec.PartOf(k) != 0)
            else settings == Null || settings == Obj(map[])
  {
    RecordBuilds(refused, build, show, newId, v);
    RestoredSettings(Transfer.DeclaredType(v.fields).value, v.fields);
  }

  lemma RestoredSettings(t: VpnType, raw: Object)
    requires RestoredIpsec(t, raw).Ok?
    ensures var settings := Get(raw, IpsecObject, Null);
            if t == IpsecVpn then settings == Null || (settings.Obj? && forall k | k in settings.fields :: Ipsec.PartOf(k) != 0)
            else settings == Null || settings == Obj(map[])
  {}

  /** A record without an id is accepted whenever its other fields are, under the generated id. */
  lemma MissingIdGenerated(build: Builder, show: Value -> string, newId: string, raw: Object, p: Profile, secrets: Secrets)
    requires Id !in raw && OnlyRecordKeys(raw)
    requires Transfer.DeclaredType(raw).Some? && RestoredIpsec(Transfer.DeclaredType(raw).value, raw).Ok?
    requires ParseSecrets(Get(raw, Json.Secrets, Null)) == Ok(secrets) && build(newId, GivenFields(raw)) == Ok(p)
    ensures ParseFields(build, show, newId, raw) == Ok(Item(p, secrets))
  {}

  /** Each secret is absent, or the non-empty text that is there; other keys and other values are refused. */
  lemma SecretsAsGiven(v: Value)
    requires ParseSecrets(v).Ok?
    ensures var s := ParseSecrets(v).value;
            if v == Null || v == Obj(map[]) then s == NO_SECRETS
            else
              && v.Obj? && (forall k | k in v.fields :: k == Psk || k == XauthPassword)
              && MeansSecret(Get(v.fields, Psk, Null), s.psk) && MeansSecret(Get(v.fields, XauthPassword, Null), s.xauth)
  {}

  predicate MeansSecret(v: Value, secret: Option<string>) {
    (v == Null && secret == None) || (v.Str? && v.s != "" && secret == Some(v.s))
  }
}
