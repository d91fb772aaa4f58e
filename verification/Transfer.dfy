/** Secret-free export and import of one profile (`profiles/transfer.py`). */
module Transfer {
  import opened Wrappers
  import opened Text
  import opened Json
  import opened Forbidden
  import opened ProfileModel
  import opened Storage
  import Ipsec

  const EXPORT_FORMAT := "fortigate-vpn-linux-gui-profile"

  /** Why an import is refused. */
  datatype Refusal = NotAnExport | ForbiddenKey | WrongFormat | WrongVersion | BadProfile(fields: seq<Key>)

  /** The IPsec fields an export keeps, copied one by one from what is there. */
  function StoredFields(m: Object): Object {
    map k | k in m && Ipsec.PartOf(k) > 0 :: m[k]
  }

  function ExportRecord(p: Profile): Object {
    var base := ScalarRecord(p)[TrustedCertSha256 := OptionJson(p.pin)];
    if p.IsIpsec() then base[IpsecObject := Obj(StoredFields(Ipsec.ToJson(p.SettingsOrDefault())))] else base
  }

  function Wrapped(record: Object): Value {
    Obj(map[Format := Str(EXPORT_FORMAT), Version := Int(1), ProfileObject := Obj(record)])
  }

  function Export(p: Profile): Value { Wrapped(ExportRecord(p)) }

  /** The IPsec value handed to validation; an SSL profile must not carry settings. */
  function ImportedIpsec(t: VpnType, raw: Object): Result<Value, Refusal> {
    if t == IpsecVpn then
      match Get(raw, IpsecObject, Null)
      case Null => Ok(Null)
      case Obj(m) =>
        if Ipsec.Parse(Obj(StoredFields(m))).Ok? then Ok(Obj(StoredFields(m))) else Err(BadProfile([IpsecObject]))
      case _ => Err(BadProfile([IpsecObject]))
    else if IpsecObject in raw && !NullOrEmpty(raw[IpsecObject]) then Err(BadProfile([IpsecObject]))
    else Ok(Null)
  }

  function DeclaredType(raw: Object): Option<VpnType> {
    var t := Get(raw, VpnType, Str("ssl"));
    if t.Str? then VpnTypeOf(t.s) else None
  }

  /**
   Validates an export document and returns the fields of the profile it describes. `newId` is the
   generated id of the preview, which is thrown away.
   */
  function Import(refused: Key -> bool, build: Builder, newId: string, payload: Value): Result<Fields, Refusal> {
    if !payload.Obj? then Err(NotAnExport)
    else if HasKey(payload, refused) then Err(ForbiddenKey)
    else if Get(payload.fields, Format, Null) != Str(EXPORT_FORMAT) then Err(WrongFormat)
    else if !EqualsInt(Get(payload.fields, Version, Null), 1) then Err(WrongVersion)
    else
      var raw := Get(payload.fields, ProfileObject, Null);
      if !raw.Obj? then Err(NotAnExport)
      else ImportRecord(build, newId, raw.fields)
  }

  function ImportRecord(build: Builder, newId: string, raw: Object): Result<Fields, Refusal> {
    match DeclaredType(raw)
    case None => Err(BadProfile([VpnType]))
    case Some(t) =>
      var ipsec :- ImportedIpsec(t, raw);
      match build(newId, FieldsIn(raw).(ipsec := ipsec))
      case Err(fields) => Err(BadProfile(fields))
      case Ok(preview) => Ok(FieldsOf(preview))
  }

  // ----- round trip -----

  lemma StoredFieldsKeepAll(s: Ipsec.Settings)
    ensures StoredFields(Ipsec.ToJson(s)) == Ipsec.ToJson(s)
  {
    Ipsec.AllKeysStored(s);
  }

  /** A validated profile keeps its description under another id. */
  lemma Renumbered(rules: Rules, p: Profile, id: string)
    requires Validated(rules, p) && Trimmed(id) && id != ""
    ensures Builds(rules)(id, FieldsOf(p)) == Ok(p.(id := id))
  {
    var q := p.(id := id);
    assert FieldsOf(q) == FieldsOf(p);
    BuildInverts(rules, q);
  }

  lemma ExportRecordFields(p: Profile)
    requires p.pin.Some? ==> p.pin.value != ""
    ensures FieldsIn(ExportRecord(p)) == FieldsOf(p)
    ensures DeclaredType(ExportRecord(p)) == Some(p.vpnType)
  {
    StoredFieldsKeepAll(p.SettingsOrDefault());
  }

  lemma WrappedSpared(record: Object, bad: Key -> bool)
    requires SparesExported(bad) && Spared(record, bad)
    ensures !HasKey(Wrapped(record), bad)
  {
    assert Exported(Format) && Exported(Version) && Exported(ProfileObject);
    assert !HasKey(Obj(record), bad);
  }

  lemma WithKeySpared(m: Object, k: Key, v: Value, bad: Key -> bool)
    requires Spared(m, bad) && !bad(k) && !HasKey(v, bad)
    ensures Spared(m[k := v], bad)
  {}

  lemma ExportSpared(p: Profile, bad: Key -> bool)
    requires SparesExported(bad)
    ensures !HasKey(Export(p), bad)
  {
    var settings := Ipsec.ToJson(p.SettingsOrDefault());
    ScalarRecordSpared(p, bad);
    SettingsSpared(p.SettingsOrDefault(), bad);
    StoredFieldsKeepAll(p.SettingsOrDefault());
    assert Exported(TrustedCertSha256) && Exported(IpsecObject);
    assert !HasKey(Obj(settings), bad);
    var base := ScalarRecord(p)[TrustedCertSha256 := OptionJson(p.pin)];
    WithKeySpared(ScalarRecord(p), TrustedCertSha256, OptionJson(p.pin), bad);
    WithKeySpared(base, IpsecObject, Obj(settings), bad);
    WrappedSpared(ExportRecord(p), bad);
  }

  lemma ImportUnwraps(refused: Key -> bool, build: Builder, newId: string, record: Object)
    requires !HasKey(Wrapped(record), refused)
    ensures Import(refused, build, newId, Wrapped(record)) == ImportRecord(build, newId, record)
  {}

  lemma ExportedIpsec(p: Profile)
    requires p.vpnType == IpsecVpn ==> p.ipsec.Some? && Ipsec.Normal(p.ipsec.value)
    ensures ImportedIpsec(p.vpnType, ExportRecord(p)) == Ok(p.IpsecPayload())
  {
    if p.vpnType == IpsecVpn {
      var m := Ipsec.ToJson(p.ipsec.value);
      StoredFieldsKeepAll(p.ipsec.value);
      Ipsec.NormalRoundTrip(p.ipsec.value);
      assert ExportRecord(p)[IpsecObject] == Obj(m);
    }
  }

  lemma ImportRecordOfExport(build: Builder, newId: string, p: Profile)
    requires p.pin.Some? ==> p.pin.value != ""
    requires p.vpnType == IpsecVpn ==> p.ipsec.Some? && Ipsec.Normal(p.ipsec.value)
    requires build(newId, FieldsOf(p)) == Ok(p.(id := newId))
    ensures ImportRecord(build, newId, ExportRecord(p)) == Ok(FieldsOf(p))
  {
    ExportRecordFields(p);
    ExportedIpsec(p);
    assert FieldsIn(ExportRecord(p)).(ipsec := p.IpsecPayload()) == FieldsOf(p);
  }

  /** Importing an export gives back every field, and no key of the export is refused. */
  lemma ImportOfExport(rules: Rules, newId: string, p: Profile)
    requires Validated(rules, p) && Trimmed(newId) && newId != ""
    ensures Import(RefusedOnImport(rules.fold), Builds(rules), newId, Export(p)) == Ok(FieldsOf(p))
  {
    var refused := RefusedOnImport(rules.fold);
    forall k | Exported(k) ensures !refused(k) { ExportedKeysPass(rules.fold, k); }
    ExportSpared(p, refused);
    ImportUnwraps(refused, Builds(rules), newId, ExportRecord(p));
    Renumbered(rules, p, newId);
    ImportRecordOfExport(Builds(rules), newId, p);
  }

  /** An accepted document has no forbidden key at any depth. */
  lemma ImportRefusesSecrets(refused: Key -> bool, build: Builder, newId: string, payload: Value)
    requires Import(refused, build, newId, payload).Ok?
    ensures !HasKey(payload, refused)
  {}

  /** Whatever document is accepted, the returned fields describe a validated profile. */
  lemma ImportIsValidated(rules: Rules, refused: Key -> bool, newId: string, payload: Value, id: string)
    requires Trimmed(id) && id != ""
    requires Import(refused, Builds(rules), newId, payload).Ok?
    ensures var f := Import(refused, Builds(rules), newId, payload).value;
            Builds(rules)(id, f).Ok? && Validated(rules, Builds(rules)(id, f).value) && FieldsOf(Builds(rules)(id, f).value) == f
  {
    var raw := Get(payload.fields, ProfileObject, Null).fields;
    var f := FieldsIn(raw).(ipsec := ImportedIpsec(DeclaredType(raw).value, raw).value);
    BuildsOnlyValidated(rules, newId, f);
    var preview := Builds(rules)(newId, f).value;
    Renumbered(rules, preview, id);
    BuildsOnlyValidated(rules, id, FieldsOf(preview));
  }

  /** What every accepted document is: an export of this program and version, with settings only for an IPsec profile. */
  lemma AcceptedIsExport(refused: Key -> bool, build: Builder, newId: string, payload: Value)
    requires Import(refused, build, newId, payload).Ok?
    ensures payload.Obj? && !HasKey(payload, refused)
    ensures Get(payload.fields, Format, Null) == Str("fortigate-vpn-linux-gui-profile")
    ensures EqualsInt(Get(payload.fields, Version, Null), 1)
    ensures var raw := Get(payload.fields, ProfileObject, Null);
            && raw.Obj?
            && (Get(raw.fields, VpnType, Str("ssl")) == Str("ssl") ==>
                  NullOrEmpty(Get(raw.fields, IpsecObject, Null)))
  {}

  /** The declared type is the one validation reads; a missing one is SSL, and an empty text is refused here. */
  lemma DeclaredMeans(raw: Object)
    ensures DeclaredType(raw) == match Get(raw, VpnType, Str("ssl"))
                                 case Str(s) => if s == "ssl" then Some(Ssl) else if s == "ipsec" then Some(IpsecVpn) else None
                                 case _ => None
    ensures DeclaredType(raw).Some? ==> CheckVpnType(FieldsIn(raw).vpnType) == Ok(DeclaredType(raw).value)
  {}
}
