/**
 Importing an export file. Before the document is looked at, its raw text is searched for the name of a
 secret between quotation marks (`profiles/transfer.py`). The marks in a written file stand around the
 keys and texts of the document, so the search is modelled on each of these as it is written.
 */
module ExportFile {
  import opened Wrappers
  import opened Sequences
  import opened Text
  import opened Json
  import opened Forbidden
  import opened ProfileModel
  import opened Storage
  import opened Transfer
  import Ipsec

  // ----- what is written between quotation marks -----

  function HexDigit(n: nat): char
    requires n < 16
  {
    if n < 10 then (48 + n) as char else (87 + n) as char
  }

  /** How `json.dumps(..., ensure_ascii=False)` writes one character. */
  function EscapeChar(c: char): string {
    var n := c as nat;
    if c == '\"' then "\\\""
    else if c == '\\' then "\\\\"
    else if n == 8 then "\\b"
    else if n == 9 then "\\t"
    else if n == 10 then "\\n"
    else if n == 12 then "\\f"
    else if n == 13 then "\\r"
    else if n < 32 then "\\u00" + [HexDigit(n / 16), HexDigit(n % 16)]
    else [c]
  }

  function Escape(s: string): string {
    if s == "" then "" else EscapeChar(s[0]) + Escape(s[1..])
  }

  function InMarks(s: string): string { "\"" + s + "\"" }

  function Quoted(s: string): string { InMarks(Escape(s)) }

  /** The written and folded form of `s` contains the name of a secret between quotation marks. */
  ghost predicate ReadsAsSecret(cf: CaseFold, s: string) {
    exists name | SecretName(name) :: Occurs(Fold(cf, Quoted(s)), InMarks(name))
  }

  ghost function LooksSecret(cf: CaseFold): string -> bool { s => ReadsAsSecret(cf, s) }

  /** Some key or text of the document, at any depth, has the property. */
  predicate Says(v: Value, said: string -> bool) {
    match v
    case Str(s) => said(s)
    case Obj(m) => exists k | k in m :: said(k.Text()) || Says(m[k], said)
    case List(items) => exists i | 0 <= i < |items| :: Says(items[i], said)
    case _ => false
  }

  /** Importing the file that `payload` was written to. */
  ghost function ImportFile(rules: Rules, newId: string, payload: Value): Result<Fields, Refusal> {
    if Says(payload, LooksSecret(rules.fold)) then Err(ForbiddenKey)
    else Import(RefusedOnImport(rules.fold), Builds(rules), newId, payload)
  }

  // ----- plain words -----

  lemma {:induction false} PlainEscape(s: string)
    requires AllPlain(s)
    ensures Escape(s) == s
  {
    if s != "" {
      assert IsPlain(s[0]);
      PlainEscape(s[1..]);
    }
  }

  lemma FoldMark(cf: CaseFold)
    ensures Fold(cf, "\"") == "\""
  {
    assert cf('\"') == "\"";
    assert Fold(cf, "") == "";
  }

  lemma PlainQuoted(cf: CaseFold, s: string)
    requires AllPlain(s)
    ensures Fold(cf, Quoted(s)) == InMarks(s)
  {
    PlainEscape(s);
    FoldPlain(cf, s);
    FoldMark(cf);
    FoldConcat(cf, "\"" + s, "\"");
    FoldConcat(cf, "\"", s);
  }

  /** Between its marks a plain word contains only itself in marks. */
  lemma OccursInPlain(s: string, name: string)
    requires AllPlain(s)
    ensures Occurs(InMarks(s), InMarks(name)) <==> s == name
  {
    var text, needle := InMarks(s), InMarks(name);
    if s == name {
      assert OccursAt(text, needle, 0);
    }
    if Occurs(text, needle) {
      var i :| 0 <= i <= |text| && OccursAt(text, needle, i);
      assert text[i] == needle[0] == '\"';
      assert forall j | 0 <= j < |s| :: text[j + 1] == s[j] && IsPlain(s[j]);
      assert i == 0;
      assert text[|needle| - 1] == needle[|needle| - 1] == '\"';
      assert |needle| == |text|;
      assert s == text[1..|text| - 1] == needle[1..|needle| - 1] == name;
    }
  }

  /** Of the texts in plain characters those that read as the name of a secret are the names themselves. */
  lemma PlainReads(cf: CaseFold, s: string)
    requires AllPlain(s)
    ensures ReadsAsSecret(cf, s) <==> SecretName(s)
  {
    PlainQuoted(cf, s);
    OccursInPlain(s, s);
    forall name | SecretName(name) ensures Occurs(Fold(cf, Quoted(s)), InMarks(name)) <==> s == name {
      OccursInPlain(s, name);
    }
  }

  // ----- the program's own words -----

  /** The words the program itself chooses are not the property's, except for one authentication method. */
  ghost predicate SparesOwnWords(said: string -> bool) {
    && (forall k | Exported(k) :: !said(k.Text()))
    && !said(EXPORT_FORMAT) && (forall t :: !said(VpnTypeText(t)))
    && (forall v :: !said(Ipsec.VersionText(v))) && (forall m :: !said(Ipsec.ModeText(m)))
    && (forall a :: said(Ipsec.AuthText(a)) <==> a == Ipsec.PskOnly)
    && (forall a :: !said(Ipsec.AssignmentText(a)))
    && (forall c :: !said(Ipsec.CipherText(c))) && (forall h :: !said(Ipsec.HashText(h)))
  }

  lemma KeyWords(cf: CaseFold, k: Key)
    requires Exported(k)
    ensures !ReadsAsSecret(cf, k.Text())
  {
    KnownKeysPlain(k);
    ExportedKeysNotNamed(k);
    PlainReads(cf, k.Text());
  }

  predicate Ordinary(s: string) { AllPlain(s) && !SecretName(s) }

  lemma FormatWord()
    ensures Ordinary(EXPORT_FORMAT)
  {}

  lemma TypeWords(t: VpnType)
    ensures Ordinary(VpnTypeText(t))
  {}

  lemma VersionWords(v: Ipsec.Version)
    ensures Ordinary(Ipsec.VersionText(v))
  {}

  lemma ModeWords(m: Ipsec.Mode)
    ensures Ordinary(Ipsec.ModeText(m))
  {}

  lemma AuthWords(a: Ipsec.Auth)
    ensures AllPlain(Ipsec.AuthText(a)) && (SecretName(Ipsec.AuthText(a)) <==> a == Ipsec.PskOnly)
  {}

  lemma AssignmentWords(a: Ipsec.Assignment)
    ensures Ordinary(Ipsec.AssignmentText(a))
  {}

  lemma CipherWords(c: Ipsec.Cipher)
    ensures Ordinary(Ipsec.CipherText(c))
  {}

  lemma HashWords(h: Ipsec.Hash)
    ensures Ordinary(Ipsec.HashText(h))
  {}

  lemma OwnWords(cf: CaseFold)
    ensures SparesOwnWords(LooksSecret(cf))
  {
    forall k | Exported(k) ensures !ReadsAsSecret(cf, k.Text()) { KeyWords(cf, k); }
    FormatWord();
    PlainReads(cf, EXPORT_FORMAT);
    forall t ensures !ReadsAsSecret(cf, VpnTypeText(t)) { TypeWords(t); PlainReads(cf, VpnTypeText(t)); }
    forall v ensures !ReadsAsSecret(cf, Ipsec.VersionText(v)) { VersionWords(v); PlainReads(cf, Ipsec.VersionText(v)); }
    forall m ensures !ReadsAsSecret(cf, Ipsec.ModeText(m)) { ModeWords(m); PlainReads(cf, Ipsec.ModeText(m)); }
    forall a ensures ReadsAsSecret(cf, Ipsec.AuthText(a)) <==> a == Ipsec.PskOnly { AuthWords(a); PlainReads(cf, Ipsec.AuthText(a)); }
    forall a ensures !ReadsAsSecret(cf, Ipsec.AssignmentText(a)) { AssignmentWords(a); PlainReads(cf, Ipsec.AssignmentText(a)); }
    forall c ensures !ReadsAsSecret(cf, Ipsec.CipherText(c)) { CipherWords(c); PlainReads(cf, Ipsec.CipherText(c)); }
    forall h ensures !ReadsAsSecret(cf, Ipsec.HashText(h)) { HashWords(h); PlainReads(cf, Ipsec.HashText(h)); }
  }

  // ----- what an export says -----

  /** Nothing in the object has the property. */
  predicate Silent(m: Object, said: string -> bool) {
    forall k | k in m :: !said(k.Text()) && !Says(m[k], said)
  }

  lemma UnionSilent(a: Object, b: Object, said: string -> bool)
    requires Silent(a, said) && Silent(b, said)
    ensures Silent(a + b, said)
  {}

  lemma UnionOfFiveSilent(a: Object, b: Object, c: Object, d: Object, e: Object, said: string -> bool)
    requires Silent(a, said) && Silent(b, said) && Silent(c, said) && Silent(d, said) && Silent(e, said)
    ensures Silent(a + b + c + d + e, said)
  {
    UnionSilent(a, b, said);
    UnionSilent(a + b, c, said);
    UnionSilent(a + b + c, d, said);
    UnionSilent(a + b + c + d, e, said);
  }

  lemma CoveredSilent(full: Object, part: Object, said: string -> bool)
    requires Ipsec.Covers(full, part) && Silent(full, said)
    ensures Silent(part, said)
  {}

  lemma ProposalSilent(p: Ipsec.Proposal, said: string -> bool)
    requires SparesOwnWords(said)
    ensures !Says(Ipsec.ProposalJson(p), said)
  {
    assert Exported(Encryption) && Exported(Integrity);
  }

  lemma ProposalsSilent(proposals: seq<Ipsec.Proposal>, said: string -> bool)
    requires SparesOwnWords(said)
    ensures !Says(List(Map(Ipsec.ProposalJson, proposals)), said)
  {
    forall i | 0 <= i < |proposals| ensures !Says(Map(Ipsec.ProposalJson, proposals)[i], said) {
      ProposalSilent(proposals[i], said);
    }
  }

  /** The object of a phase from its five values. */
  lemma FiveKeysSilent(k: Ipsec.PhaseKeys, cipher: Value, hash: Value, group: Value, proposals: Value, groups: Value, said: string -> bool)
    requires SparesOwnWords(said)
    requires Exported(k.cipher) && Exported(k.hash) && Exported(k.group) && Exported(k.proposals) && Exported(k.groups)
    requires !Says(cipher, said) && !Says(hash, said) && !Says(group, said) && !Says(proposals, said) && !Says(groups, said)
    ensures Silent(map[k.cipher := cipher, k.hash := hash, k.group := group, k.proposals := proposals, k.groups := groups], said)
  {}

  lemma PhaseSilent(p: Ipsec.Phase, k: Ipsec.PhaseKeys, said: string -> bool)
    requires SparesOwnWords(said)
    requires Exported(k.cipher) && Exported(k.hash) && Exported(k.group) && Exported(k.proposals) && Exported(k.groups)
    ensures Silent(Ipsec.PhaseJson(p, k), said)
  {
    var proposals := Ipsec.OrSingle(p.proposals, p.single);
    var groups := Ipsec.OrSingle(p.groups, p.group);
    ProposalsSilent(proposals, said);
    FiveKeysSilent(k, Str(Ipsec.CipherText(proposals[0].cipher)), Str(Ipsec.HashText(proposals[0].hash)), Int(groups[0]),
                   List(Map(Ipsec.ProposalJson, proposals)), List(Map(g => Int(g), groups)), said);
  }

  lemma WordlessSilent(m: Object, said: string -> bool)
    requires SparesOwnWords(said)
    requires forall k | k in m :: Exported(k) && (m[k].Int? || m[k].Bool?)
    ensures Silent(m, said)
  {}

  predicate IdentitySaid(i: Ipsec.Identity, said: string -> bool) {
    i.auth == Ipsec.PskOnly || said(i.localId) || said(i.peerId)
  }

  lemma IdentitySays(i: Ipsec.Identity, said: string -> bool)
    requires SparesOwnWords(said) && IdentitySaid(i, said)
    ensures !Silent(Ipsec.IdentityJson(i), said)
  {
    var m := Ipsec.IdentityJson(i);
    if i.auth == Ipsec.PskOnly {
      assert AuthMethod in m && Says(m[AuthMethod], said);
    } else if said(i.localId) {
      assert LocalId in m && Says(m[LocalId], said);
    } else {
      assert PeerId in m && Says(m[PeerId], said);
    }
  }

  lemma IdentityValue(i: Ipsec.Identity, k: Key, said: string -> bool)
    requires SparesOwnWords(said) && !IdentitySaid(i, said) && k in Ipsec.IdentityJson(i)
    ensures !Says(Ipsec.IdentityJson(i)[k], said)
  {}

  lemma IdentityKey(i: Ipsec.Identity, k: Key)
    requires k in Ipsec.IdentityJson(i)
    ensures Exported(k)
  {}

  lemma IdentitySilent(i: Ipsec.Identity, said: string -> bool)
    requires SparesOwnWords(said) && !IdentitySaid(i, said)
    ensures Silent(Ipsec.IdentityJson(i), said)
  {
    forall k | k in Ipsec.IdentityJson(i) ensures !said(k.Text()) && !Says(Ipsec.IdentityJson(i)[k], said) {
      IdentityKey(i, k);
      IdentityValue(i, k, said);
    }
  }

  lemma SettingsSay(s: Ipsec.Settings, said: string -> bool)
    requires SparesOwnWords(said)
    ensures Silent(Ipsec.ToJson(s), said) <==> !IdentitySaid(s.identity, said)
  {
    Ipsec.JsonCoversParts(s);
    if IdentitySaid(s.identity, said) {
      IdentitySays(s.identity, said);
      if Silent(Ipsec.ToJson(s), said) { CoveredSilent(Ipsec.ToJson(s), Ipsec.IdentityJson(s.identity), said); }
    } else {
      SettingsSilent(s, said);
    }
  }

  lemma TimingSilent(t: Ipsec.Timing, said: string -> bool)
    requires SparesOwnWords(said)
    ensures Silent(Ipsec.TimingJson(t), said)
  {
    WordlessSilent(Ipsec.TimingJson(t), said);
  }

  lemma SwitchesSilent(s: Ipsec.Switches, said: string -> bool)
    requires SparesOwnWords(said)
    ensures Silent(Ipsec.SwitchesJson(s), said)
  {
    WordlessSilent(Ipsec.SwitchesJson(s), said);
  }

  lemma PhasesSilent(s: Ipsec.Settings, said: string -> bool)
    requires SparesOwnWords(said)
    ensures Silent(Ipsec.PhaseJson(s.phase1, Ipsec.PHASE1), said) && Silent(Ipsec.PhaseJson(s.phase2, Ipsec.PHASE2), said)
  {
    PhaseSilent(s.phase1, Ipsec.PHASE1, said);
    PhaseSilent(s.phase2, Ipsec.PHASE2, said);
  }

  lemma SettingsSilent(s: Ipsec.Settings, said: string -> bool)
    requires SparesOwnWords(said) && !IdentitySaid(s.identity, said)
    ensures Silent(Ipsec.ToJson(s), said)
  {
    IdentitySilent(s.identity, said);
    PhasesSilent(s, said);
    TimingSilent(s.timing, said);
    SwitchesSilent(s.switches, said);
    UnionOfFiveSilent(Ipsec.IdentityJson(s.identity), Ipsec.PhaseJson(s.phase1, Ipsec.PHASE1),
                      Ipsec.PhaseJson(s.phase2, Ipsec.PHASE2), Ipsec.TimingJson(s.timing),
                      Ipsec.SwitchesJson(s.switches), said);
  }

  /** One of the texts the user chose, or the method that uses a pre-shared key alone. */
  predicate FreeTextSaid(p: Profile, said: string -> bool) {
    ScalarSaid(p, said) || (p.IsIpsec() && IdentitySaid(p.SettingsOrDefault().identity, said))
  }

  /** The record without the IPsec settings. */
  function Base(p: Profile): Object { ScalarRecord(p)[TrustedCertSha256 := OptionJson(p.pin)] }

  predicate ScalarSaid(p: Profile, said: string -> bool) {
    || said(p.name) || said(p.gateway) || said(p.description) || said(p.usernameHint)
    || (p.pin.Some? && said(p.pin.value))
  }

  lemma ScalarsSay(p: Profile, said: string -> bool)
    requires SparesOwnWords(said) && ScalarSaid(p, said)
    ensures !Silent(Base(p), said)
  {
    var m := Base(p);
    var k := if said(p.name) then Name else if said(p.gateway) then Gateway else if said(p.description) then Description
             else if said(p.usernameHint) then UsernameHint else TrustedCertSha256;
    assert k in m && Says(m[k], said);
  }

  lemma ScalarsSilent(p: Profile, said: string -> bool)
    requires SparesOwnWords(said) && !ScalarSaid(p, said)
    ensures Silent(Base(p), said)
  {
    var m := Base(p);
    assert forall k | k in m :: Exported(k);
    forall k | k in m ensures !Says(m[k], said) {
      match k
      case Name => assert m[k] == Str(p.name);
      case Gateway => assert m[k] == Str(p.gateway);
      case Description => assert m[k] == Str(p.description);
      case UsernameHint => assert m[k] == Str(p.usernameHint);
      case TrustedCertSha256 => assert m[k] == OptionJson(p.pin);
      case _ =>
    }
  }

  lemma WithKeySilent(m: Object, k: Key, v: Value, said: string -> bool)
    requires k !in m && !said(k.Text())
    ensures Silent(m[k := v], said) <==> Silent(m, said) && !Says(v, said)
  {
    var n := m[k := v];
    assert forall x | x in m :: x in n && n[x] == m[x];
    assert k in n && n[k] == v;
  }

  lemma BaseSays(p: Profile, said: string -> bool)
    requires SparesOwnWords(said)
    ensures Silent(Base(p), said) <==> !ScalarSaid(p, said)
  {
    if ScalarSaid(p, said) {
      ScalarsSay(p, said);
    } else {
      ScalarsSilent(p, said);
    }
  }

  lemma WithSettingsSays(base: Object, s: Ipsec.Settings, said: string -> bool)
    requires SparesOwnWords(said) && IpsecObject !in base
    ensures Silent(base[IpsecObject := Obj(Ipsec.ToJson(s))], said) <==> Silent(base, said) && !IdentitySaid(s.identity, said)
  {
    var settings := Ipsec.ToJson(s);
    SettingsSay(s, said);
    assert Exported(IpsecObject);
    assert Says(Obj(settings), said) <==> !Silent(settings, said);
    WithKeySilent(base, IpsecObject, Obj(settings), said);
  }

  lemma BaseHasNoSettings(p: Profile)
    ensures IpsecObject !in Base(p)
  {}

  lemma RecordSays(p: Profile, said: string -> bool)
    requires SparesOwnWords(said)
    ensures Silent(ExportRecord(p), said) <==> !FreeTextSaid(p, said)
  {
    BaseSays(p, said);
    if p.IsIpsec() {
      StoredFieldsKeepAll(p.SettingsOrDefault());
      BaseHasNoSettings(p);
      WithSettingsSays(Base(p), p.SettingsOrDefault(), said);
    }
  }

  lemma WrappedSays(record: Object, said: string -> bool)
    requires SparesOwnWords(said)
    ensures Says(Wrapped(record), said) <==> !Silent(record, said)
  {
    var m := map[Format := Str(EXPORT_FORMAT), Version := Int(1), ProfileObject := Obj(record)];
    assert Exported(Format) && Exported(Version) && Exported(ProfileObject);
    assert Wrapped(record) == Obj(m) && m == map[Format := Str(EXPORT_FORMAT), Version := Int(1)][ProfileObject := Obj(record)];
    WithKeySilent(map[Format := Str(EXPORT_FORMAT), Version := Int(1)], ProfileObject, Obj(record), said);
  }

  // ----- the result -----

  /**
   An exported file can be imported again exactly when none of the user's texts reads as the name of a
   secret and the profile does not authenticate by a pre-shared key alone.
   */
  lemma ImportFileOfExport(rules: Rules, newId: string, p: Profile)
    requires Validated(rules, p) && Trimmed(newId) && newId != ""
    ensures ImportFile(rules, newId, Export(p)) ==
            if FreeTextSaid(p, LooksSecret(rules.fold)) then Err(ForbiddenKey) else Ok(FieldsOf(p))
  {
    var said := LooksSecret(rules.fold);
    OwnWords(rules.fold);
    RecordSays(p, said);
    WrappedSays(ExportRecord(p), said);
    ImportOfExport(rules, newId, p);
  }

  /** A valid profile whose export no import accepts. */
  lemma PskExportRefused(rules: Rules, newId: string) returns (p: Profile)
    requires rules.gatewayOk("vpn") && Trimmed(newId) && newId != ""
    ensures Validated(rules, p) && ImportFile(rules, newId, Export(p)) == Err(ForbiddenKey)
  {
    var identity := Ipsec.DEFAULT_SETTINGS.identity.(auth := Ipsec.PskOnly);
    p := Profile("a", "office", "vpn", 443, "", "", false, None, IpsecVpn, Some(Ipsec.DEFAULT_SETTINGS.(identity := identity)));
    ImportFileOfExport(rules, newId, p);
  }
}
