/**
 A saved connection profile, its validation, and the record it is stored as (`profiles/model.py`,
 `helper/validation.py`).
 */
module ProfileModel {
  import opened Wrappers
  import opened Sequences
  import opened Text
  import opened Json
  import Ipsec
  import Naming

  const MAX_GATEWAY_LENGTH := 253
  const MAX_TEXT_LENGTH := 1000
  const MAX_PORT := 65535

  /**
   Library behaviour the program relies on: case folding, whether a trimmed, non-empty text is an
   acceptable gateway (`validate_gateway` returns its argument or refuses it), and the text Python
   makes of a value that is not a string.
   */
  datatype Rules = Rules(fold: CaseFold, gatewayOk: string -> bool, show: Value -> string)

  datatype VpnType = Ssl | IpsecVpn

  function VpnTypeOf(s: string): Option<VpnType> {
    if s == "ssl" then Some(Ssl) else if s == "ipsec" then Some(IpsecVpn) else None
  }

  function VpnTypeText(t: VpnType): (s: string)
    ensures VpnTypeOf(s) == Some(t) && s != ""
  {
    match t case Ssl => "ssl" case IpsecVpn => "ipsec"
  }

  datatype Profile = Profile(
    id: string, name: string, gateway: string, port: int, description: string, usernameHint: string,
    useSso: bool, pin: Option<string>, vpnType: VpnType, ipsec: Option<Ipsec.Settings>)
  {
    predicate IsIpsec() { vpnType == IpsecVpn }

    function SettingsOrDefault(): Ipsec.Settings {
      if ipsec.Some? then ipsec.value else Ipsec.DEFAULT_SETTINGS
    }

    /** The stored IPsec settings, or nothing for an SSL profile. */
    function IpsecPayload(): Value {
      if IsIpsec() then Obj(Ipsec.ToJson(SettingsOrDefault())) else Null
    }
  }

  // ----- certificate fingerprints -----

  predicate IsHex(c: char) { IsDigit(c) || 'a' <= c <= 'f' }

  predicate IsDigest(s: string) { |s| == 64 && forall i | 0 <= i < 64 :: IsHex(s[i]) }

  function Lower(c: char): char {
    if 'A' <= c <= 'Z' then (c as int + 32) as char else c
  }

  function Upper(c: char): char {
    if 'a' <= c <= 'z' then (c as int - 32) as char else c
  }

  /** Drops white space and colons and lowers the rest. */
  function Compact(s: string): string {
    if s == "" then ""
    else if IsSpace(s[0]) || s[0] == ':' then Compact(s[1..])
    else [Lower(s[0])] + Compact(s[1..])
  }

  function NormalizeFingerprint(v: Value): (r: Option<string>)
    ensures r.Some? ==> IsDigest(r.value)
  {
    if v.Str? && IsDigest(Compact(Trim(v.s))) then Some(Compact(Trim(v.s))) else None
  }

  /** Colon-separated upper-case pairs, for display. */
  function Pairs(digest: string): string
    requires |digest| % 2 == 0
  {
    if |digest| <= 2 then Map(Upper, digest)
    else [Upper(digest[0]), Upper(digest[1]), ':'] + Pairs(digest[2..])
  }

  function FormatFingerprint(s: string): string {
    match NormalizeFingerprint(Str(s))
    case Some(digest) => Pairs(digest)
    case None => s
  }

  lemma {:induction false} CompactDigest(s: string)
    requires forall i | 0 <= i < |s| :: IsHex(s[i])
    ensures Compact(s) == s
  {
    if s != "" {
      assert IsHex(s[0]);
      CompactDigest(s[1..]);
    }
  }

  lemma {:induction false} CompactPairs(s: string)
    requires |s| % 2 == 0 && forall i | 0 <= i < |s| :: IsHex(s[i])
    ensures Compact(Pairs(s)) == s
    ensures s != "" ==> Pairs(s) != "" && !IsSpace(Pairs(s)[0]) && !IsSpace(Pairs(s)[|Pairs(s)| - 1])
  {
    if |s| > 2 {
      CompactPairs(s[2..]);
      var p := Pairs(s);
      assert IsHex(s[0]) && IsHex(s[1]);
      assert p[1..][1..][1..] == Pairs(s[2..]);
      assert Compact(p[1..][1..]) == Compact(Pairs(s[2..]));
    } else if |s| == 2 {
      var p := Pairs(s);
      assert IsHex(s[0]) && IsHex(s[1]);
      assert p == [Upper(s[0]), Upper(s[1])];
      assert p[1..] == [Upper(s[1])] && p[1..][1..] == "";
      assert Compact(p[1..]) == [s[1]];
      assert s == [s[0], s[1]];
    }
  }

  /** The display form is pairs of capital digits with colons between them. */
  lemma {:induction false} PairsAt(s: string, i: nat)
    requires |s| % 2 == 0 && i < |s| / 2
    ensures |Pairs(s)| == |s| / 2 * 3 - 1
    ensures Pairs(s)[3 * i] == Upper(s[2 * i]) && Pairs(s)[3 * i + 1] == Upper(s[2 * i + 1])
    ensures i + 1 < |s| / 2 ==> Pairs(s)[3 * i + 2] == ':'
  {
    if |s| > 2 { PairsAt(s[2..], if i == 0 then 0 else i - 1); }
  }

  /** A stored fingerprint is its own normal form, and its display form normalises back to it. */
  lemma FingerprintRoundTrip(digest: string)
    requires IsDigest(digest)
    ensures NormalizeFingerprint(Str(digest)) == Some(digest)
    ensures NormalizeFingerprint(Str(FormatFingerprint(digest))) == Some(digest)
  {
    CompactDigest(digest);
    assert IsHex(digest[0]) && IsHex(digest[63]);
    CompactPairs(digest);
  }

  // ----- validation -----

  /** The arguments of the constructor, as they come out of a document or a form. */
  datatype Fields = Fields(
    name: Value, gateway: Value, port: Value, description: Value, usernameHint: Value,
    useSso: Value, pin: Value, vpnType: Value, ipsec: Value)

  type Checked<T> = Result<T, Key>

  function CheckName(v: Value): (r: Checked<string>)
  {
    if v.Str? && 0 < |Trim(v.s)| <= Naming.MAX_NAME_LENGTH then Ok(Trim(v.s)) else Err(Name)
  }

  function CheckGateway(rules: Rules, v: Value): Checked<string> {
    if v.Str? && 0 < |Trim(v.s)| <= MAX_GATEWAY_LENGTH && rules.gatewayOk(Trim(v.s)) then Ok(Trim(v.s)) else Err(Gateway)
  }

  function CheckPort(v: Value): Checked<int> {
    match Ipsec.AsNumber(v)
    case Some(n) => if 1 <= n <= MAX_PORT then Ok(n) else Err(Port)
    case None => Err(Port)
  }

  function CheckText(v: Value, key: Key): Checked<string> {
    match v
    case Null => Ok("")
    case Str(s) => if |Trim(s)| <= MAX_TEXT_LENGTH then Ok(Trim(s)) else Err(key)
    case _ => Err(key)
  }

  function CheckFlag(v: Value): Checked<bool> {
    if v.Bool? then Ok(v.b) else Err(UseSso)
  }

  function CheckVpnType(v: Value): Checked<VpnType> {
    if v == Null || v == Str("") then Ok(Ssl)
    else if v.Str? && VpnTypeOf(v.s).Some? then Ok(VpnTypeOf(v.s).value)
    else Err(VpnType)
  }

  function CheckPin(v: Value): Checked<Option<string>> {
    if v == Null || v == Str("") then Ok(None)
    else match NormalizeFingerprint(v)
      case Some(d) => Ok(Some(d))
      case None => Err(TrustedCertSha256)
  }

  /** The IPsec settings of an IPsec profile; an SSL profile ignores the value. */
  function CheckIpsec(t: VpnType, v: Value): Checked<Option<Ipsec.Settings>> {
    if t == Ssl then Ok(None)
    else match Ipsec.Parse(v)
      case Ok(s) => Ok(Some(s))
      case Err(_) => Err(IpsecObject)
  }

  function Problem<T>(r: Checked<T>): seq<Key> { if r.Err? then [r.error] else [] }

  /** Every refused field, in the order the fields are checked. */
  function Problems(rules: Rules, id: string, f: Fields): seq<Key> {
    var t := CheckVpnType(f.vpnType);
    (if Trim(id) == "" then [Id] else [])
    + Problem(CheckName(f.name)) + Problem(CheckGateway(rules, f.gateway)) + Problem(CheckPort(f.port))
    + Problem(CheckText(f.description, Description)) + Problem(CheckText(f.usernameHint, UsernameHint))
    + Problem(CheckFlag(f.useSso)) + Problem(t)
    + Problem(CheckIpsec(if t.Ok? then t.value else Ssl, f.ipsec)) + Problem(CheckPin(f.pin))
  }

  /** Validates every field, or reports all the refused ones. */
  function Build(rules: Rules, id: string, f: Fields): (r: Result<Profile, seq<Key>>)
    ensures r.Err? ==> r.error == Problems(rules, id, f) != []
    ensures r.Ok? ==> Problems(rules, id, f) == []
  {
    var problems := Problems(rules, id, f);
    if problems != [] then Err(problems)
    else
      var t := CheckVpnType(f.vpnType).value;
      var ipsec := CheckIpsec(t, f.ipsec).value;
      var sso := CheckFlag(f.useSso).value && (t == IpsecVpn ==> ipsec.value.AllowsSamlPreauth());
      Ok(Profile(Trim(id), CheckName(f.name).value, CheckGateway(rules, f.gateway).value, CheckPort(f.port).value,
                 CheckText(f.description, Description).value, CheckText(f.usernameHint, UsernameHint).value,
                 sso, CheckPin(f.pin).value, t, ipsec))
  }

  /** A text argument stands for this text: missing for none, otherwise without the white space around it. */
  predicate MeansText(v: Value, t: string) { (v == Null && t == "") || (v.Str? && t == Trim(v.s)) }

  predicate MeansPort(v: Value, n: int) {
    v == Int(n) || (v.Str? && Trim(v.s) != "" && AllDigits(Trim(v.s)) && n == DecimalValue(Trim(v.s)))
  }

  predicate MeansType(v: Value, t: VpnType) {
    match t
    case Ssl => v == Null || v == Str("") || v == Str("ssl")
    case IpsecVpn => v == Str("ipsec")
  }

  predicate MeansPin(v: Value, pin: Option<string>) {
    if v == Null || v == Str("") then pin == None else pin.Some? && NormalizeFingerprint(v) == pin
  }

  /** Single sign-on stays as given, but goes off for IPsec settings that do not allow it. */
  predicate MeansSso(v: Value, p: Profile) {
    v.Bool? && p.useSso == (v.b && (p.ipsec.Some? ==> p.ipsec.value.AllowsSamlPreauth()))
  }

  /** The profile is what the arguments describe. */
  predicate Describes(f: Fields, p: Profile) {
    && f.name.Str? && p.name == Trim(f.name.s)
    && f.gateway.Str? && p.gateway == Trim(f.gateway.s)
    && MeansPort(f.port, p.port) && MeansText(f.description, p.description) && MeansText(f.usernameHint, p.usernameHint)
    && MeansSso(f.useSso, p) && MeansType(f.vpnType, p.vpnType) && MeansPin(f.pin, p.pin)
    && (if p.vpnType == Ssl then p.ipsec == None else p.ipsec.Some? && Ipsec.Parse(f.ipsec) == Result.Ok(p.ipsec.value))
  }

  lemma CheckedValues(rules: Rules, f: Fields)
    ensures CheckName(f.name).Ok? ==> f.name.Str? && CheckName(f.name).value == Trim(f.name.s)
    ensures CheckGateway(rules, f.gateway).Ok? ==> f.gateway.Str? && CheckGateway(rules, f.gateway).value == Trim(f.gateway.s)
    ensures CheckPort(f.port).Ok? ==> MeansPort(f.port, CheckPort(f.port).value)
    ensures CheckPin(f.pin).Ok? ==> MeansPin(f.pin, CheckPin(f.pin).value)
    ensures CheckVpnType(f.vpnType).Ok? ==> MeansType(f.vpnType, CheckVpnType(f.vpnType).value)
  {}

  lemma CheckedText(v: Value, key: Key)
    ensures CheckText(v, key).Ok? ==> MeansText(v, CheckText(v, key).value)
  {}

  lemma CheckedIpsec(t: VpnType, v: Value)
    ensures CheckIpsec(t, v).Ok? ==>
              var i := CheckIpsec(t, v).value; if t == Ssl then i == None else i.Some? && Ipsec.Parse(v) == Result.Ok(i.value)
  {}

  /** A text of at least one and at most `max` characters without the white space around it. */
  predicate FitsText(v: Value, max: nat) { v.Str? && 1 <= |Trim(v.s)| <= max }

  predicate FitsPort(v: Value) {
    || (v.Int? && 1 <= v.i <= 65535)
    || (v.Str? && Trim(v.s) != "" && AllDigits(Trim(v.s)) && 1 <= DecimalValue(Trim(v.s)) <= 65535)
  }

  predicate FitsNote(v: Value) { v == Null || (v.Str? && |Trim(v.s)| <= MAX_TEXT_LENGTH) }

  predicate FitsPin(v: Value) { v == Null || v == Str("") || (v.Str? && IsDigest(Compact(Trim(v.s)))) }

  predicate FitsType(v: Value) { v == Null || v == Str("") || v == Str("ssl") || v == Str("ipsec") }

  lemma NoProblems(rules: Rules, id: string, f: Fields)
    ensures Build(rules, id, f).Ok? <==>
              && Trim(id) != "" && CheckName(f.name).Ok? && CheckGateway(rules, f.gateway).Ok? && CheckPort(f.port).Ok?
              && CheckText(f.description, Description).Ok? && CheckText(f.usernameHint, UsernameHint).Ok? && CheckFlag(f.useSso).Ok?
              && CheckVpnType(f.vpnType).Ok? && CheckIpsec(CheckVpnType(f.vpnType).value, f.ipsec).Ok? && CheckPin(f.pin).Ok?
  {
    var problems := Problems(rules, id, f);
    var t := CheckVpnType(f.vpnType);
    NoneOfTen(if Trim(id) == "" then [Id] else [], Problem(CheckName(f.name)), Problem(CheckGateway(rules, f.gateway)),
              Problem(CheckPort(f.port)), Problem(CheckText(f.description, Description)),
              Problem(CheckText(f.usernameHint, UsernameHint)), Problem(CheckFlag(f.useSso)), Problem(t),
              Problem(CheckIpsec(if t.Ok? then t.value else Ssl, f.ipsec)), Problem(CheckPin(f.pin)));
  }

  lemma NoneOfTen(a: seq<Key>, b: seq<Key>, c: seq<Key>, d: seq<Key>, e: seq<Key>, f: seq<Key>, g: seq<Key>, h: seq<Key>,
                  i: seq<Key>, j: seq<Key>)
    ensures a + b + c + d + e + f + g + h + i + j == [] <==>
            a == [] && b == [] && c == [] && d == [] && e == [] && f == [] && g == [] && h == [] && i == [] && j == []
  {
    assert |a + b + c + d + e + f + g + h + i + j| == |a| + |b| + |c| + |d| + |e| + |f| + |g| + |h| + |i| + |j|;
  }

  lemma EachFits(rules: Rules, f: Fields)
    ensures CheckName(f.name).Ok? <==> FitsText(f.name, 200)
    ensures CheckGateway(rules, f.gateway).Ok? <==> FitsText(f.gateway, MAX_GATEWAY_LENGTH) && rules.gatewayOk(Trim(f.gateway.s))
    ensures CheckPort(f.port).Ok? <==> FitsPort(f.port)
    ensures CheckFlag(f.useSso).Ok? <==> f.useSso.Bool?
    ensures CheckPin(f.pin).Ok? <==> FitsPin(f.pin)
  {}

  lemma NoteFits(v: Value, key: Key)
    ensures CheckText(v, key).Ok? <==> FitsNote(v)
  {}

  lemma TypeFits(t: Value, ipsec: Value)
    ensures CheckVpnType(t).Ok? <==> FitsType(t)
    ensures CheckVpnType(t).Ok? ==> (CheckIpsec(CheckVpnType(t).value, ipsec).Ok? <==> (t == Str("ipsec") ==> Ipsec.Parse(ipsec).Ok?))
  {}

  /** Arguments are accepted exactly when every one of them is acceptable. */
  lemma AcceptedExactly(rules: Rules, id: string, f: Fields)
    ensures Build(rules, id, f).Ok? <==>
              && Trim(id) != "" && FitsText(f.name, 200)
              && FitsText(f.gateway, MAX_GATEWAY_LENGTH) && rules.gatewayOk(Trim(f.gateway.s))
              && FitsPort(f.port) && FitsNote(f.description) && FitsNote(f.usernameHint) && f.useSso.Bool? && FitsPin(f.pin)
              && FitsType(f.vpnType) && (f.vpnType == Str("ipsec") ==> Ipsec.Parse(f.ipsec).Ok?)
  {
    NoProblems(rules, id, f);
    EachFits(rules, f);
    NoteFits(f.description, Description);
    NoteFits(f.usernameHint, UsernameHint);
    TypeFits(f.vpnType, f.ipsec);
  }

  /** Whatever is accepted becomes the profile the arguments describe, under the given id. */
  lemma BuiltAsDescribed(rules: Rules, id: string, f: Fields)
    requires Build(rules, id, f).Ok?
    ensures var p := Build(rules, id, f).value; p.id == Trim(id) && Describes(f, p)
  {
    CheckedValues(rules, f);
    CheckedText(f.description, Description);
    CheckedText(f.usernameHint, UsernameHint);
    CheckedIpsec(CheckVpnType(f.vpnType).value, f.ipsec);
  }

  /** The profiles validation can produce. */
  predicate Validated(rules: Rules, p: Profile) {
    && Trimmed(p.id) && p.id != ""
    && Trimmed(p.name) && 0 < |p.name| <= Naming.MAX_NAME_LENGTH
    && Trimmed(p.gateway) && 0 < |p.gateway| <= MAX_GATEWAY_LENGTH && rules.gatewayOk(p.gateway)
    && 1 <= p.port <= MAX_PORT
    && Trimmed(p.description) && |p.description| <= MAX_TEXT_LENGTH
    && Trimmed(p.usernameHint) && |p.usernameHint| <= MAX_TEXT_LENGTH
    && (p.pin.Some? ==> IsDigest(p.pin.value))
    && (p.vpnType == Ssl ==> p.ipsec == None)
    && (p.vpnType == IpsecVpn ==>
          p.ipsec.Some? && Ipsec.Normal(p.ipsec.value) && (p.useSso ==> p.ipsec.value.AllowsSamlPreauth()))
  }

  lemma BuildIsNormal(rules: Rules, id: string, f: Fields)
    requires Build(rules, id, f).Ok?
    ensures Validated(rules, Build(rules, id, f).value)
  {
    var p := Build(rules, id, f).value;
    if p.vpnType == IpsecVpn {
      Ipsec.ParsedIsNormal(f.ipsec);
    }
  }

  function PinJson(pin: Option<string>): Value {
    if pin.Some? && pin.value != "" then Str(pin.value) else Null
  }

  /** The arguments that describe an existing profile. */
  function FieldsOf(p: Profile): Fields {
    Fields(Str(p.name), Str(p.gateway), Int(p.port), Str(p.description), Str(p.usernameHint),
           Bool(p.useSso), PinJson(p.pin), Str(VpnTypeText(p.vpnType)), p.IpsecPayload())
  }

  lemma Accepted(rules: Rules, p: Profile, f: Fields)
    requires Trimmed(p.id) && p.id != ""
    requires CheckName(f.name) == Ok(p.name) && CheckGateway(rules, f.gateway) == Ok(p.gateway)
    requires CheckPort(f.port) == Ok(p.port) && CheckText(f.description, Description) == Ok(p.description)
    requires CheckText(f.usernameHint, UsernameHint) == Ok(p.usernameHint) && CheckFlag(f.useSso) == Ok(p.useSso)
    requires CheckPin(f.pin) == Ok(p.pin) && CheckVpnType(f.vpnType) == Ok(p.vpnType)
    requires CheckIpsec(p.vpnType, f.ipsec) == Ok(p.ipsec)
    requires p.vpnType == IpsecVpn ==> p.ipsec.Some? && (p.useSso ==> p.ipsec.value.AllowsSamlPreauth())
    ensures Build(rules, p.id, f) == Ok(p)
  {}

  lemma TextsAccepted(p: Profile)
    requires Trimmed(p.description) && |p.description| <= MAX_TEXT_LENGTH
    requires Trimmed(p.usernameHint) && |p.usernameHint| <= MAX_TEXT_LENGTH
    ensures CheckText(Str(p.description), Description) == Ok(p.description)
    ensures CheckText(Str(p.usernameHint), UsernameHint) == Ok(p.usernameHint)
  {}

  lemma PinAccepted(pin: Option<string>)
    requires pin.Some? ==> IsDigest(pin.value)
    ensures CheckPin(PinJson(pin)) == Ok(pin)
  {
    if pin.Some? { FingerprintRoundTrip(pin.value); }
  }

  lemma ScalarsAccepted(rules: Rules, p: Profile)
    requires Validated(rules, p)
    ensures CheckName(Str(p.name)) == Ok(p.name) && CheckGateway(rules, Str(p.gateway)) == Ok(p.gateway)
    ensures CheckPort(Int(p.port)) == Ok(p.port)
    ensures CheckText(Str(p.description), Description) == Ok(p.description)
    ensures CheckText(Str(p.usernameHint), UsernameHint) == Ok(p.usernameHint)
    ensures CheckPin(PinJson(p.pin)) == Ok(p.pin)
  {
    TextsAccepted(p);
    PinAccepted(p.pin);
  }

  lemma TypeAccepted(rules: Rules, p: Profile)
    requires Validated(rules, p)
    ensures CheckVpnType(Str(VpnTypeText(p.vpnType))) == Ok(p.vpnType)
    ensures CheckIpsec(p.vpnType, p.IpsecPayload()) == Ok(p.ipsec)
  {
    if p.vpnType == IpsecVpn { Ipsec.NormalRoundTrip(p.ipsec.value); }
  }

  /** Validating the description of a normal profile gives the profile back. */
  lemma BuildInverts(rules: Rules, p: Profile)
    requires Validated(rules, p)
    ensures Build(rules, p.id, FieldsOf(p)) == Ok(p)
  {
    ScalarsAccepted(rules, p);
    TypeAccepted(rules, p);
    Accepted(rules, p, FieldsOf(p));
  }

  // ----- the stored record -----

  /** The scalar fields of a record, without the id. */
  function ScalarRecord(p: Profile): Object {
    map[Name := Str(p.name), Gateway := Str(p.gateway), Port := Int(p.port),
        Description := Str(p.description), UsernameHint := Str(p.usernameHint), UseSso := Bool(p.useSso),
        TrustedCertSha256 := PinJson(p.pin), VpnType := Str(VpnTypeText(p.vpnType))]
  }

  /** The record of a profile; SSL profiles have no `ipsec` key. */
  function Record(p: Profile): Object {
    var base := ScalarRecord(p)[Id := Str(p.id)];
    if p.IsIpsec() then base[IpsecObject := p.IpsecPayload()] else base
  }

  /** Reading a record: absent optional fields stand for their defaults. */
  function FieldsIn(record: Object): Fields {
    Fields(Get(record, Name, Null), Get(record, Gateway, Null), Get(record, Port, Int(443)),
           Get(record, Description, Str("")), Get(record, UsernameHint, Str("")),
           Get(record, UseSso, Bool(true)), Get(record, TrustedCertSha256, Null),
           Get(record, VpnType, Str("ssl")), Get(record, IpsecObject, Null))
  }

  lemma RecordFields(p: Profile)
    ensures FieldsIn(Record(p)) == FieldsOf(p)
    ensures Get(Record(p), Id, Null) == Str(p.id)
  {}

  /** A record with a name and a gateway alone describes an SSL profile on port 443 with single sign-on and no pin. */
  lemma MissingMeansDefaults(name: Value, gateway: Value)
    ensures FieldsIn(map[Name := name, Gateway := gateway])
         == Fields(name, gateway, Int(443), Str(""), Str(""), Bool(true), Null, Str("ssl"), Null)
  {}

  // ----- validation as a value -----

  /** Validation as the documents use it. Proofs about documents do not look inside. */
  type Builder = (string, Fields) -> Result<Profile, seq<Key>>

  function Builds(rules: Rules): Builder { (id, f) => Build(rules, id, f) }

  /** Validating the description of `p` gives `p` back. */
  ghost predicate Rebuilds(build: Builder, p: Profile) {
    build(p.id, FieldsOf(p)) == Ok(p) && Trimmed(p.id) && p.id != ""
  }

  lemma ValidatedRebuilds(rules: Rules, p: Profile)
    requires Validated(rules, p)
    ensures Rebuilds(Builds(rules), p)
  {
    BuildInverts(rules, p);
  }

  lemma BuildsOnlyValidated(rules: Rules, id: string, f: Fields)
    ensures Builds(rules)(id, f).Ok? ==> Validated(rules, Builds(rules)(id, f).value)
  {
    if Builds(rules)(id, f).Ok? { BuildIsNormal(rules, id, f); }
  }
}
