/** The profile list in memory and on disk (`profiles/manager.py`). */
module Manager {
  import opened Wrappers
  import opened Sequences
  import opened Text
  import opened Json
  import opened ProfileModel
  import opened Storage
  import opened SecretStore
  import opened Naming
  import Transfer
  import Ipsec

  /**
   How saving the list can end. The temporary file replaces `profiles.json` before the file mode is
   set and before the change listeners run, so a save can also raise after it took effect.
   */
  datatype SaveOutcome = Written | NotWritten | WrittenThenRaised

  /** Why an operation is refused. */
  datatype Refusal = Invalid(fields: seq<Key>, nameTaken: bool) | NotFound | SaveFailed | NotImported(reason: Transfer.Refusal)

  type Outcome = Result<Profile, Refusal>

  function FoldedNames(cf: CaseFold, ps: seq<Profile>): set<string> {
    set p | p in ps :: Fold(cf, p.name)
  }

  /** Another profile than `ignore` has the name, up to case folding. */
  predicate NameTaken(cf: CaseFold, ps: seq<Profile>, name: string, ignore: Option<string>) {
    exists i | 0 <= i < |ps| :: Some(ps[i].id) != ignore && Fold(cf, ps[i].name) == Fold(cf, name)
  }

  /** No two profiles have the same name up to case folding. */
  ghost predicate NamesDistinct(cf: CaseFold, ps: seq<Profile>) {
    forall i, j | 0 <= i < j < |ps| :: Fold(cf, ps[i].name) != Fold(cf, ps[j].name)
  }

  /** The name shown in a collision message when the other fields were refused. */
  function CandidateName(rules: Rules, name: Value): string {
    match name
    case Str(s) => Trim(s)
    case Null => ""
    case Bool(b) => if b then Trim(rules.show(name)) else ""
    case Int(i) => if i != 0 then Trim(rules.show(name)) else ""
    case Float(r) => if r != 0.0 then Trim(rules.show(name)) else ""
    case List(items) => if items != [] then Trim(rules.show(name)) else ""
    case Obj(m) => if m != map[] then Trim(rules.show(name)) else ""
  }

  function Replace(ps: seq<Profile>, id: string, p: Profile): (r: seq<Profile>)
    ensures |r| == |ps| && forall i | 0 <= i < |ps| :: r[i] == if ps[i].id == id then p else ps[i]
  {
    Map((q: Profile) => if q.id == id then p else q, ps)
  }

  function RemoveId(ps: seq<Profile>, id: string): seq<Profile> {
    Filter((p: Profile) => p.id != id, ps)
  }

  /** Removing takes out exactly the profiles with the id and leaves the others in their order. */
  lemma OthersRemain(ps: seq<Profile>, id: string)
    ensures OthersOf(ps, id, RemoveId(ps, id))
  {
    var keep := (p: Profile) => p.id != id;
    var picks := FilterPicks(keep, ps);
    assert PickedAt((p: Profile) => p.id != id, ps, RemoveId(ps, id), picks);
  }

  /** The profiles without the id, in their order. */
  ghost predicate OthersOf(ps: seq<Profile>, id: string, rest: seq<Profile>) {
    Picked((p: Profile) => p.id != id, ps, rest)
  }

  lemma RemoveIdKeepsIds(ps: seq<Profile>, id: string)
    requires Distinct(Ids(ps))
    ensures Distinct(Ids(RemoveId(ps, id)))
  {
    var differ := (p: Profile, q: Profile) => p.id != q.id;
    assert Pairwise(differ, ps) by {
      forall i, j | 0 <= i < j < |ps| ensures differ(ps[i], ps[j]) { assert Ids(ps)[i] != Ids(ps)[j]; }
    }
    FilterPairwise((p: Profile) => p.id != id, ps, differ);
    assert Pairwise(differ, RemoveId(ps, id));
  }

  lemma RemoveIdKeepsNames(cf: CaseFold, ps: seq<Profile>, id: string)
    requires NamesDistinct(cf, ps)
    ensures NamesDistinct(cf, RemoveId(ps, id))
  {
    var differ := (p: Profile, q: Profile) => Fold(cf, p.name) != Fold(cf, q.name);
    FilterPairwise((p: Profile) => p.id != id, ps, differ);
    assert Pairwise(differ, RemoveId(ps, id));
  }

  lemma RemoveIdFinds(ps: seq<Profile>, id: string)
    ensures |RemoveId(ps, id)| == |ps| <==> id !in Ids(ps)
  {
    FilterAll((p: Profile) => p.id != id, ps);
    assert forall i | 0 <= i < |ps| :: Ids(ps)[i] == ps[i].id && ps[i] in ps;
    if id !in Ids(ps) {
      forall p | p in ps ensures p.id != id {
        var i :| 0 <= i < |ps| && ps[i] == p;
        assert Ids(ps)[i] == p.id;
      }
    }
  }

  function Find(ps: seq<Profile>, id: string): (r: Option<Profile>)
    ensures r.Some? <==> id in Ids(ps)
    ensures r.Some? ==> r.value in ps && r.value.id == id
  {
    if ps == [] then None
    else
      assert Ids(ps) == [ps[0].id] + Ids(ps[1..]);
      if ps[0].id == id then Some(ps[0]) else Find(ps[1..], id)
  }

  type Built = Result<Profile, seq<Key>>

  /** The name compared with the others: the validated one, or what can be made of the argument. */
  function NameToCheck(rules: Rules, built: Built, name: Value): string {
    match built
    case Ok(p) => p.name
    case Err(_) => CandidateName(rules, name)
  }

  /** The name test joined to the outcome of validation; both kinds of complaint are reported at once. */
  function Judged(rules: Rules, ps: seq<Profile>, built: Built, name: Value, ignore: Option<string>): (r: Outcome)
    ensures r.Ok? ==> built.Ok? && r.value == built.value && (r.value.name != "" ==> !NameTaken(rules.fold, ps, r.value.name, ignore))
    ensures built.Ok? && !NameTaken(rules.fold, ps, built.value.name, ignore) ==> r.Ok?
    ensures r.Err? ==> r.error.Invalid?
  {
    var candidate := NameToCheck(rules, built, name);
    var taken := candidate != "" && NameTaken(rules.fold, ps, candidate, ignore);
    match built
    case Ok(p) => if taken then Err(Invalid([], true)) else Ok(p)
    case Err(fields) => Err(Invalid(fields, taken))
  }

  /** Validation together with the name test. */
  /**
   A name that is taken is reported, whatever else is refused; and when only the name is in the way,
   somebody has it.
   */
  lemma TakenNameReported(rules: Rules, ps: seq<Profile>, id: string, f: Fields, ignore: Option<string>)
    requires f.name.Str? && Trim(f.name.s) != ""
    ensures (exists i :: 0 <= i < |ps| && Some(ps[i].id) != ignore && Fold(rules.fold, ps[i].name) == Fold(rules.fold, Trim(f.name.s))) <==>
              Examined(rules, ps, id, f, ignore).Err? && Examined(rules, ps, id, f, ignore).error.nameTaken
  {
    BuiltName(rules, id, f);
    CheckedIsTrimmed(rules, Build(rules, id, f), f.name);
    JudgedReports(rules, ps, Build(rules, id, f), f.name, ignore, Trim(f.name.s));
  }

  lemma CheckedIsTrimmed(rules: Rules, built: Built, name: Value)
    requires name.Str? && match built case Ok(p) => p.name == Trim(name.s) case Err(_) => true
    ensures NameToCheck(rules, built, name) == Trim(name.s)
  {}

  lemma BuiltName(rules: Rules, id: string, f: Fields)
    requires f.name.Str?
    ensures match Build(rules, id, f) case Ok(p) => p.name == Trim(f.name.s) case Err(_) => true
  {
    match Build(rules, id, f)
    case Ok(p) =>
      BuiltAsDescribed(rules, id, f);
      NameDescribed(f, p);
    case Err(_) =>
  }

  lemma NameDescribed(f: Fields, p: Profile)
    requires ProfileModel.Describes(f, p) && f.name.Str?
    ensures p.name == Trim(f.name.s)
  {}

  lemma JudgedReports(rules: Rules, ps: seq<Profile>, built: Built, name: Value, ignore: Option<string>, candidate: string)
    requires NameToCheck(rules, built, name) == candidate && candidate != ""
    ensures NameTaken(rules.fold, ps, candidate, ignore) <==>
              Judged(rules, ps, built, name, ignore).Err? && Judged(rules, ps, built, name, ignore).error.nameTaken
  {}

  function Examined(rules: Rules, ps: seq<Profile>, id: string, f: Fields, ignore: Option<string>): Outcome {
    Judged(rules, ps, Build(rules, id, f), f.name, ignore)
  }

  // ----- changing one field of a validated profile -----

  /** A validated profile keeps its description under another id and another fitting name. */
  lemma Renamed(rules: Rules, p: Profile, id: string, name: string)
    requires Validated(rules, p) && Trimmed(id) && id != ""
    requires Trimmed(name) && 0 < |name| <= MAX_NAME_LENGTH
    ensures Build(rules, id, FieldsOf(p).(name := Str(name))) == Ok(p.(id := id, name := name))
  {
    RenamedShape(rules, p, id, name);
    BuildInverts(rules, p.(id := id, name := name));
  }

  lemma RenamedShape(rules: Rules, p: Profile, id: string, name: string)
    requires Validated(rules, p) && Trimmed(id) && id != ""
    requires Trimmed(name) && 0 < |name| <= MAX_NAME_LENGTH
    ensures var q := p.(id := id, name := name); Validated(rules, q) && FieldsOf(q) == FieldsOf(p).(name := Str(name))
  {}

  /** Everything but the hint and the pin is accepted. */
  ghost predicate RestAccepted(rules: Rules, p: Profile, f: Fields) {
    && Trimmed(p.id) && p.id != ""
    && CheckName(f.name) == Ok(p.name) && CheckGateway(rules, f.gateway) == Ok(p.gateway)
    && CheckPort(f.port) == Ok(p.port) && CheckText(f.description, Description) == Ok(p.description)
    && CheckFlag(f.useSso) == Ok(p.useSso) && CheckVpnType(f.vpnType) == Ok(p.vpnType)
    && CheckIpsec(p.vpnType, f.ipsec) == Ok(p.ipsec)
    && (p.vpnType == IpsecVpn ==> p.ipsec.Some? && (p.useSso ==> p.ipsec.value.AllowsSamlPreauth()))
  }

  lemma RestOf(rules: Rules, p: Profile)
    requires Validated(rules, p)
    ensures RestAccepted(rules, p, FieldsOf(p))
    ensures CheckText(Str(p.usernameHint), UsernameHint) == Ok(p.usernameHint) && CheckPin(PinJson(p.pin)) == Ok(p.pin)
  {
    ScalarsAccepted(rules, p);
    TypeAccepted(rules, p);
  }

  lemma TwoFieldsChange(rules: Rules, p: Profile, f: Fields)
    requires RestAccepted(rules, p, f)
    requires CheckPin(f.pin).Ok? || CheckText(f.usernameHint, UsernameHint).Ok?
    ensures var hint, pin, b := CheckText(f.usernameHint, UsernameHint), CheckPin(f.pin), Build(rules, p.id, f);
            if hint.Err? then b == Err([UsernameHint])
            else if pin.Err? then b == Err([TrustedCertSha256])
            else b == Ok(p.(usernameHint := hint.value, pin := pin.value))
  {
    var hint, pin := CheckText(f.usernameHint, UsernameHint), CheckPin(f.pin);
    if hint.Ok? && pin.Ok? {
      Accepted(rules, p.(usernameHint := hint.value, pin := pin.value), f);
    } else {
      assert Problems(rules, p.id, f) == Problem(hint) + Problem(pin);
      assert Problem(hint) + Problem(pin) == if hint.Err? then [UsernameHint] else [TrustedCertSha256];
    }
  }

  /** Offering another username hint to a validated profile changes the hint, or is refused for it alone. */
  lemma HintChanged(rules: Rules, p: Profile, hint: Value)
    requires Validated(rules, p)
    ensures var b := Build(rules, p.id, FieldsOf(p).(usernameHint := hint));
            match CheckText(hint, UsernameHint)
            case Ok(text) => b == Ok(p.(usernameHint := text))
            case Err(_) => b == Err([UsernameHint])
  {
    RestOf(rules, p);
    var f := FieldsOf(p).(usernameHint := hint);
    assert RestAccepted(rules, p, f);
    TwoFieldsChange(rules, p, f);
  }

  /** The same for the certificate pin. */
  lemma PinChanged(rules: Rules, p: Profile, pin: Value)
    requires Validated(rules, p)
    ensures var b := Build(rules, p.id, FieldsOf(p).(pin := pin));
            match CheckPin(pin)
            case Ok(digest) => b == Ok(p.(pin := digest))
            case Err(_) => b == Err([TrustedCertSha256])
  {
    RestOf(rules, p);
    var f := FieldsOf(p).(pin := pin);
    assert RestAccepted(rules, p, f);
    assert f.usernameHint == Str(p.usernameHint) && f.pin == pin;
    TwoFieldsChange(rules, p, f);
    if CheckPin(pin).Ok? {
      assert p.(usernameHint := p.usernameHint, pin := CheckPin(pin).value) == p.(pin := CheckPin(pin).value);
    }
  }

  // ----- what a change does to the list -----

  lemma AppendKeeps(rules: Rules, ps: seq<Profile>, default: Option<string>, p: Profile)
    requires Sound(rules, ps, default) && Validated(rules, p) && p.id !in Ids(ps)
    ensures Sound(rules, ps + [p], default)
  {
    assert Ids(ps + [p]) == Ids(ps) + [p.id];
  }

  lemma AppendKeepsNames(cf: CaseFold, ps: seq<Profile>, p: Profile)
    requires NamesDistinct(cf, ps) && !NameTaken(cf, ps, p.name, None)
    ensures NamesDistinct(cf, ps + [p])
  {}

  lemma ReplaceKeeps(rules: Rules, ps: seq<Profile>, default: Option<string>, p: Profile)
    requires Sound(rules, ps, default) && Validated(rules, p)
    ensures Sound(rules, Replace(ps, p.id, p), default)
  {
    assert Ids(Replace(ps, p.id, p)) == Ids(ps);
  }

  lemma ReplaceKeepsNames(cf: CaseFold, ps: seq<Profile>, p: Profile)
    requires NamesDistinct(cf, ps) && Distinct(Ids(ps)) && !NameTaken(cf, ps, p.name, Some(p.id))
    ensures NamesDistinct(cf, Replace(ps, p.id, p))
  {
    var r := Replace(ps, p.id, p);
    forall i, j | 0 <= i < j < |r| ensures Fold(cf, r[i].name) != Fold(cf, r[j].name) {
      assert Ids(ps)[i] != Ids(ps)[j];
    }
  }

  lemma DefaultRemains(ps: seq<Profile>, default: string, id: string)
    requires default in Ids(ps) && default != id
    ensures default in Ids(RemoveId(ps, id))
  {
    var i :| 0 <= i < |ps| && Ids(ps)[i] == default;
    var r := RemoveId(ps, id);
    assert ps[i] in ps && ps[i].id != id;
    var j :| 0 <= j < |r| && r[j] == ps[i];
    assert Ids(r)[j] == default;
  }

  lemma SoundDefault(rules: Rules, ps: seq<Profile>, default: Option<string>, id: string)
    requires Sound(rules, ps, default) && id in Ids(ps)
    ensures Sound(rules, ps, Some(id))
  {}

  lemma NoDefaultIsSound(rules: Rules, ps: seq<Profile>, default: Option<string>)
    requires Sound(rules, ps, default)
    ensures Sound(rules, ps, None)
  {}

  lemma RemoveKeeps(rules: Rules, ps: seq<Profile>, default: Option<string>, id: string)
    requires Sound(rules, ps, default)
    ensures Sound(rules, RemoveId(ps, id), if default == Some(id) then None else default)
    ensures NamesDistinct(rules.fold, ps) ==> NamesDistinct(rules.fold, RemoveId(ps, id))
    ensures OthersOf(ps, id, RemoveId(ps, id))
  {
    RemoveIdKeepsIds(ps, id);
    OthersRemain(ps, id);
    if NamesDistinct(rules.fold, ps) { RemoveIdKeepsNames(rules.fold, ps, id); }
    var r := RemoveId(ps, id);
    forall i | 0 <= i < |r| ensures Validated(rules, r[i]) {
      assert r[i] in ps;
    }
    if default.Some? && default != Some(id) {
      DefaultRemains(ps, default.value, id);
    }
  }

  /** A profile that passes both tests may join the list. */
  lemma AddedKeeps(rules: Rules, ps: seq<Profile>, default: Option<string>, newId: string, f: Fields)
    requires Sound(rules, ps, default) && UnusedId(ps, newId)
    requires Examined(rules, ps, newId, f, None).Ok?
    ensures var p := Examined(rules, ps, newId, f, None).value;
            Sound(rules, ps + [p], default) && (NamesDistinct(rules.fold, ps) ==> NamesDistinct(rules.fold, ps + [p]))
  {
    var p := Build(rules, newId, f).value;
    BuildIsNormal(rules, newId, f);
    BuildKeepsId(rules, newId, f);
    AppendKeeps(rules, ps, default, p);
    if NamesDistinct(rules.fold, ps) { AppendKeepsNames(rules.fold, ps, p); }
  }

  /** A profile that passes both tests may take the place of the one with its id. */
  lemma UpdatedKeeps(rules: Rules, ps: seq<Profile>, default: Option<string>, id: string, f: Fields)
    requires Sound(rules, ps, default) && id in Ids(ps)
    requires Examined(rules, ps, id, f, Some(id)).Ok?
    ensures var r := Replace(ps, id, Examined(rules, ps, id, f, Some(id)).value);
            Sound(rules, r, default) && (NamesDistinct(rules.fold, ps) ==> NamesDistinct(rules.fold, r))
  {
    var p := Build(rules, id, f).value;
    BuildIsNormal(rules, id, f);
    BuildKeepsId(rules, id, f);
    var i :| 0 <= i < |ps| && ps[i].id == id;
    assert Validated(rules, ps[i]);
    ReplaceKeeps(rules, ps, default, p);
    if NamesDistinct(rules.fold, ps) { ReplaceKeepsNames(rules.fold, ps, p); }
  }

  /** The name test on an update that keeps the name. */
  lemma JudgedUpdate(rules: Rules, ps: seq<Profile>, built: Built, name: Value, p: Profile, id: string)
    requires built.Ok? ==> built.value == p && p.name != ""
    ensures var r := Judged(rules, ps, built, name, Some(id));
            if built.Ok? && !NameTaken(rules.fold, ps, p.name, Some(id)) then r == Ok(p) else r.Err? && r.error.Invalid?
  {}

  lemma HintChecked(rules: Rules, ps: seq<Profile>, p: Profile, hint: Value)
    requires Validated(rules, p)
    ensures var text := CheckText(hint, UsernameHint);
            var checked := Examined(rules, ps, p.id, FieldsOf(p).(usernameHint := hint), Some(p.id));
            if text.Ok? && !NameTaken(rules.fold, ps, p.name, Some(p.id)) then checked == Ok(p.(usernameHint := text.value))
            else checked.Err? && checked.error.Invalid?
  {
    var text := CheckText(hint, UsernameHint);
    var built: Built := if text.Ok? then Ok(p.(usernameHint := text.value)) else Err([UsernameHint]);
    assert Build(rules, p.id, FieldsOf(p).(usernameHint := hint)) == built by { HintChanged(rules, p, hint); }
    JudgedUpdate(rules, ps, built, Str(p.name), if text.Ok? then p.(usernameHint := text.value) else p, p.id);
  }

  lemma PinChecked(rules: Rules, ps: seq<Profile>, p: Profile, pin: Value)
    requires Validated(rules, p)
    ensures var digest := CheckPin(pin);
            var checked := Examined(rules, ps, p.id, FieldsOf(p).(pin := pin), Some(p.id));
            if digest.Ok? && !NameTaken(rules.fold, ps, p.name, Some(p.id)) then checked == Ok(p.(pin := digest.value))
            else checked.Err? && checked.error.Invalid?
  {
    var digest := CheckPin(pin);
    var built: Built := if digest.Ok? then Ok(p.(pin := digest.value)) else Err([TrustedCertSha256]);
    assert Build(rules, p.id, FieldsOf(p).(pin := pin)) == built by { PinChanged(rules, p, pin); }
    JudgedUpdate(rules, ps, built, Str(p.name), if digest.Ok? then p.(pin := digest.value) else p, p.id);
  }

  lemma NameOf(cf: CaseFold, ps: seq<Profile>, p: Profile)
    requires NamesDistinct(cf, ps) && Distinct(Ids(ps)) && p in ps
    ensures !NameTaken(cf, ps, p.name, Some(p.id))
  {
    var k :| 0 <= k < |ps| && ps[k] == p;
    forall i | 0 <= i < |ps| && Some(ps[i].id) != Some(p.id) ensures Fold(cf, ps[i].name) != Fold(cf, p.name) {
      if i < k { assert Fold(cf, ps[i].name) != Fold(cf, ps[k].name); }
    }
  }

  lemma FreeNameNotTaken(cf: CaseFold, ps: seq<Profile>, name: string)
    requires Fold(cf, name) !in FoldedNames(cf, ps)
    ensures !NameTaken(cf, ps, name, None)
  {
    assert forall i | 0 <= i < |ps| :: ps[i] in ps;
  }

  lemma {:induction false} FewerNames(cf: CaseFold, ps: seq<Profile>)
    ensures |FoldedNames(cf, ps)| <= |ps|
  {
    if ps == [] {
      assert FoldedNames(cf, ps) == {};
    } else {
      var n := |ps| - 1;
      assert ps == ps[..n] + [ps[n]];
      FewerNames(cf, ps[..n]);
      assert FoldedNames(cf, ps) == FoldedNames(cf, ps[..n]) + {Fold(cf, ps[n].name)};
    }
  }

  lemma RoomForNames(cf: CaseFold, ps: seq<Profile>, stem: string)
    requires HasRoom(stem, |ps| + 2)
    ensures HasRoom(stem, |FoldedNames(cf, ps)| + 2)
  {
    FewerNames(cf, ps);
    RoomEarlier(stem, |FoldedNames(cf, ps)| + 2, |ps| + 2);
  }

  // ----- the manager -----

  /** The arguments of an update; the last three may be left as they are. */
  datatype Change = Change(
    name: Value, gateway: Value, port: Value, description: Value, usernameHint: Value, useSso: Value,
    pin: Option<Value>, vpnType: Option<Value>, ipsec: Option<Value>)

  function Merged(p: Profile, c: Change): Fields {
    Fields(c.name, c.gateway, c.port, c.description, c.usernameHint, c.useSso,
           if c.pin.Some? then c.pin.value else PinJson(p.pin),
           if c.vpnType.Some? then c.vpnType.value else Str(VpnTypeText(p.vpnType)),
           if c.ipsec.Some? then c.ipsec.value else p.IpsecPayload())
  }

  /** An accepted update has every value that was given, normalised, and keeps what was not. */
  lemma UpdateTakesGiven(rules: Rules, ps: seq<Profile>, existing: Profile, c: Change, p: Profile)
    requires Validated(rules, existing) && Examined(rules, ps, existing.id, Merged(existing, c), Some(existing.id)) == Ok(p)
    ensures p.id == existing.id
    ensures c.name.Str? && p.name == Trim(c.name.s) && c.gateway.Str? && p.gateway == Trim(c.gateway.s)
    ensures MeansPort(c.port, p.port) && MeansText(c.description, p.description) && MeansText(c.usernameHint, p.usernameHint)
    ensures MeansSso(c.useSso, p)
    ensures if c.vpnType.Some? then MeansType(c.vpnType.value, p.vpnType) else p.vpnType == existing.vpnType
    ensures if c.pin.Some? then MeansPin(c.pin.value, p.pin) else p.pin == existing.pin
    ensures c.ipsec.Some? && p.vpnType == IpsecVpn ==> p.ipsec.Some? && Ipsec.Parse(c.ipsec.value) == Result.Ok(p.ipsec.value)
    ensures c.ipsec.None? && p.vpnType == existing.vpnType ==> p.ipsec == existing.ipsec
  {
    BuiltAsDescribed(rules, existing.id, Merged(existing, c));
    PinAccepted(existing.pin);
    KeptIpsec(rules, existing);
  }

  lemma KeptIpsec(rules: Rules, p: Profile)
    requires Validated(rules, p)
    ensures p.vpnType == IpsecVpn ==> p.ipsec.Some? && Ipsec.Parse(p.IpsecPayload()) == Result.Ok(p.ipsec.value)
  {
    if p.vpnType == IpsecVpn { Ipsec.NormalRoundTrip(p.ipsec.value); }
  }

  /** An id the generator may return: usable and not in the list. */
  predicate UnusedId(ps: seq<Profile>, id: string) {
    Trimmed(id) && id != "" && id !in Ids(ps)
  }

  /** `p` is a copy under a new id and the first free name derived from the old one. */
  ghost predicate CopiedAs(cf: CaseFold, ps: seq<Profile>, newId: string, existing: Profile, p: Profile) {
    && p == existing.(id := newId, name := p.name)
    && Generated(cf, existing.name, FoldedNames(cf, ps), "copy", p.name)
  }

  lemma CopyAccepted(rules: Rules, ps: seq<Profile>, existing: Profile, newId: string, name: string)
      returns (p: Profile)
    requires Validated(rules, existing) && UnusedId(ps, newId)
    requires Trimmed(name) && 0 < |name| <= MAX_NAME_LENGTH
    requires Generated(rules.fold, existing.name, FoldedNames(rules.fold, ps), "copy", name)
    requires Fold(rules.fold, name) !in FoldedNames(rules.fold, ps)
    ensures CopiedAs(rules.fold, ps, newId, existing, p)
    ensures Examined(rules, ps, newId, FieldsOf(existing).(name := Str(name)), None) == Ok(p)
  {
    p := existing.(id := newId, name := name);
    FreeNameNotTaken(rules.fold, ps, name);
    Renamed(rules, existing, newId, name);
  }

  /** `p` is the imported description under a new id and a name nobody has; a free name is kept. */
  ghost predicate ImportedAs(rules: Rules, ps: seq<Profile>, newId: string, f: Fields, p: Profile) {
    && p.id == newId && Validated(rules, p) && f.name.Str? && FieldsOf(p) == f.(name := Str(p.name))
    && (Fold(rules.fold, f.name.s) !in FoldedNames(rules.fold, ps) ==> p.name == f.name.s)
    && !NameTaken(rules.fold, ps, p.name, None)
  }

  lemma ImportDescribes(rules: Rules, refused: Key -> bool, previewId: string, payload: Value, newId: string)
      returns (p: Profile)
    requires Trimmed(newId) && newId != ""
    requires Transfer.Import(refused, Builds(rules), previewId, payload).Ok?
    ensures Validated(rules, p) && p.id == newId
    ensures FieldsOf(p) == Transfer.Import(refused, Builds(rules), previewId, payload).value
  {
    Transfer.ImportIsValidated(rules, refused, previewId, payload, newId);
    p := Builds(rules)(newId, Transfer.Import(refused, Builds(rules), previewId, payload).value).value;
    BuildKeepsId(rules, newId, Transfer.Import(refused, Builds(rules), previewId, payload).value);
  }

  lemma BuildKeepsId(rules: Rules, id: string, f: Fields)
    ensures Build(rules, id, f).Ok? ==> Build(rules, id, f).value.id == Trim(id)
  {}

  lemma ImportRenamed(rules: Rules, ps: seq<Profile>, described: Profile, newId: string, name: string) returns (p: Profile)
    requires Validated(rules, described) && described.id == newId
    requires Trimmed(name) && 0 < |name| <= MAX_NAME_LENGTH
    requires Fold(rules.fold, described.name) !in FoldedNames(rules.fold, ps) ==> name == described.name
    requires !NameTaken(rules.fold, ps, name, None)
    ensures p.name == name && ImportedAs(rules, ps, newId, FieldsOf(described), p)
    ensures Examined(rules, ps, newId, FieldsOf(described).(name := Str(name)), None) == Ok(p)
  {
    p := described.(name := name);
    Renamed(rules, described, newId, name);
    RenamedShape(rules, described, newId, name);
    assert p == described.(id := newId, name := name);
  }

  /** A source of generated ids. */
  type IdSource = g: seq<Profile> -> string | forall ps :: UnusedId(ps, g(ps))
    ghost witness UnusedIdSource()

  ghost function UnusedIdSource(): (g: seq<Profile> -> string)
    ensures forall ps :: UnusedId(ps, g(ps))
  {
    ps => SomeUnusedId(ps)
  }

  ghost function SomeUnusedId(ps: seq<Profile>): (id: string)
    ensures UnusedId(ps, id)
  {
    var id := seq(LongestId(ps) + 1, _ => 'a');
    LongestIdBounds(ps);
    id
  }

  function LongestId(ps: seq<Profile>): nat {
    if ps == [] then 0 else var rest := LongestId(ps[1..]); if |ps[0].id| > rest then |ps[0].id| else rest
  }

  lemma {:induction false} LongestIdBounds(ps: seq<Profile>)
    ensures forall i | 0 <= i < |ps| :: |ps[i].id| <= LongestId(ps)
  {
    if ps != [] {
      LongestIdBounds(ps[1..]);
      forall i | 0 <= i < |ps| ensures |ps[i].id| <= LongestId(ps) {
        if i > 0 { assert ps[i] == ps[1..][i - 1]; }
      }
    }
  }

  /** The operations a run is made of, each with how its save ends. */
  datatype Operation =
    | Adds(fields: Fields, outcome: SaveOutcome)
    | Updates(id: string, change: Change, outcome: SaveOutcome)
    | Duplicates(id: string, outcome: SaveOutcome)
    | Imports(refused: Key -> bool, payload: Value, outcome: SaveOutcome)
    | SetsDefault(id: string, outcome: SaveOutcome)
    | ClearsDefault(outcome: SaveOutcome)
    | SetsHint(id: string, hint: Value, outcome: SaveOutcome)
    | SetsPin(id: string, fingerprint: Value, outcome: SaveOutcome)
    | Deletes(id: string, outcome: SaveOutcome)
    | Installs(list: seq<Profile>, asDefault: Option<string>, outcome: SaveOutcome)
    | Reloads

  /** The list in memory and the one the file holds. */
  datatype Stage = Stage(memory: Document, file: Document)

  predicate InStep(s: Stage) { match s case Stage(memory, file) => memory == file }

  /** The names are different in the list and in the file. */
  ghost predicate NamesApart(cf: CaseFold, s: Stage) {
    match s case Stage(memory, file) => NamesDistinct(cf, memory.profiles) && NamesDistinct(cf, file.profiles)
  }

  /** No more profiles than this in the list and in the file. */
  predicate FitsIn(s: Stage, room: nat) {
    match s case Stage(memory, file) => |memory.profiles| <= room && |file.profiles| <= room
  }

  ghost predicate InstallsDistinct(cf: CaseFold, op: Operation) {
    match op case Installs(list, _, _) => NamesDistinct(cf, list) case _ => true
  }

  predicate WriteFails(op: Operation) { !op.Reloads? && op.outcome == NotWritten }

  predicate NoFailureFrom(ops: seq<Operation>, k: nat) { forall i | k <= i < |ops| :: !WriteFails(ops[i]) }

  /** What an operation does to the two: a failed write leaves the file, any other brings it in step or changes nothing. */
  predicate Stepped(op: Operation, s: Stage, t: Stage) {
    match op
    case Reloads => t.file == s.file && t.memory == s.file
    case _ => if op.outcome == NotWritten then t.file == s.file else InStep(t) || t == s
  }

  ghost predicate KeepsApart(cf: CaseFold, op: Operation, s: Stage, t: Stage) {
    match op
    case Installs(list, _, _) => NamesApart(cf, s) && NamesDistinct(cf, list) ==> NamesApart(cf, t)
    case _ => NamesApart(cf, s) ==> NamesApart(cf, t)
  }

  lemma InstalledStage(cf: CaseFold, op: Operation, s: Stage, t: Stage, room: nat)
    requires op.Installs? && FitsIn(s, room) && |op.list| <= room && t.memory.profiles == op.list
    requires if op.outcome == NotWritten then t.file == s.file else InStep(t)
    ensures Stepped(op, s, t) && KeepsApart(cf, op, s, t) && FitsIn(t, room)
  {}

  /** The stages before and after each of the first `n` operations. */
  ghost predicate TraceUpTo(cf: CaseFold, ops: seq<Operation>, trace: seq<Stage>, n: nat) {
    && n <= |ops| && |trace| == n + 1
    && (forall i | 0 <= i < n :: Stepped(ops[i], trace[i], trace[i + 1]))
    && (forall i | 0 <= i < n :: KeepsApart(cf, ops[i], trace[i], trace[i + 1]))
  }

  ghost predicate IsTrace(cf: CaseFold, ops: seq<Operation>, trace: seq<Stage>) { TraceUpTo(cf, ops, trace, |ops|) }

  lemma TraceGrows(cf: CaseFold, ops: seq<Operation>, trace: seq<Stage>, n: nat, next: Stage)
    requires TraceUpTo(cf, ops, trace, n) && n < |ops| && Stepped(ops[n], trace[n], next) && KeepsApart(cf, ops[n], trace[n], next)
    ensures TraceUpTo(cf, ops, trace + [next], n + 1)
  {}

  /** Once in step, memory and file stay so until a write fails. */
  lemma {:induction false} StaysInStep(cf: CaseFold, ops: seq<Operation>, trace: seq<Stage>, k: nat, n: nat)
    requires IsTrace(cf, ops, trace) && k <= n <= |ops| && InStep(trace[k])
    requires forall i | k <= i < n :: !WriteFails(ops[i])
    ensures InStep(trace[n])
  {
    if k < n {
      StaysInStep(cf, ops, trace, k, n - 1);
      assert Stepped(ops[n - 1], trace[n - 1], trace[n - 1 + 1]);
    }
  }

  lemma {:induction false} NamesStayApart(cf: CaseFold, ops: seq<Operation>, trace: seq<Stage>, n: nat)
    requires IsTrace(cf, ops, trace) && n <= |ops| && NamesApart(cf, trace[0])
    requires forall i | 0 <= i < n :: InstallsDistinct(cf, ops[i])
    ensures NamesApart(cf, trace[n])
  {
    if n > 0 {
      NamesStayApart(cf, ops, trace, n - 1);
      assert KeepsApart(cf, ops[n - 1], trace[n - 1], trace[n - 1 + 1]);
    }
  }

  /** What a whole run comes to. */
  lemma TraceEnds(cf: CaseFold, ops: seq<Operation>, trace: seq<Stage>)
    requires IsTrace(cf, ops, trace)
    ensures forall k | 0 <= k <= |ops| && InStep(trace[k]) && NoFailureFrom(ops, k) :: InStep(trace[|ops|])
    ensures NamesApart(cf, trace[0]) && (forall i | 0 <= i < |ops| :: InstallsDistinct(cf, ops[i])) ==> NamesApart(cf, trace[|ops|])
  {
    forall k | 0 <= k <= |ops| && InStep(trace[k]) && NoFailureFrom(ops, k) ensures InStep(trace[|ops|]) {
      StaysInStep(cf, ops, trace, k, |ops|);
    }
    if NamesApart(cf, trace[0]) && forall i | 0 <= i < |ops| :: InstallsDistinct(cf, ops[i]) {
      NamesStayApart(cf, ops, trace, |ops|);
    }
  }

  /** After failed writes, the next operation that changes anything and is written brings them in step again. */
  lemma LaterWriteHelps(cf: CaseFold, ops: seq<Operation>, trace: seq<Stage>, k: nat, n: nat)
    requires IsTrace(cf, ops, trace) && k < n <= |ops| && (trace[k + 1] != trace[k] || ops[k].Reloads?)
    requires forall i | k <= i < n :: !WriteFails(ops[i])
    ensures InStep(trace[n])
  {
    assert Stepped(ops[k], trace[k], trace[k + 1]);
    StaysInStep(cf, ops, trace, k + 1, n);
  }

  class ProfileManager {
    const rules: Rules
    const store: Store
    var profiles: seq<Profile>
    var default: Option<string>
    /** What `profiles.json` holds; `Null` stands for a missing or unreadable file. */
    var disk: Value

    ghost predicate Valid()
      reads this, store
    {
      store.Valid() && Sound(rules, profiles, default)
    }

    /** Loading the file now would give the list in memory. */
    ghost predicate Synced()
      reads this
    {
      InStep(Now())
    }

    /** What every operation keeps, whether it succeeds or not. */
    twostate predicate Keeps(outcome: SaveOutcome)
      reads this, store
    {
      match outcome
      case NotWritten => Valid() && KeepsNames() && disk == old(disk)
      case _ => Valid() && KeepsNames() && (Synced() || Untouched())
    }

    ghost function Now(): Stage
      reads this
    {
      Stage(Document(profiles, default), Load(Builds(rules), disk))
    }

    twostate predicate KeepsNames()
      reads this
    {
      old(NamesDistinct(rules.fold, profiles)) ==> NamesDistinct(rules.fold, profiles)
    }

    twostate predicate Untouched()
      reads this
    {
      profiles == old(profiles) && default == old(default) && disk == old(disk)
    }

    constructor (rules: Rules, store: Store, disk: Value)
      requires store.Valid()
      ensures Valid() && Synced()
      ensures this.rules == rules && this.store == store && this.disk == disk
    {
      this.rules, this.store, this.disk := rules, store, disk;
      profiles, default := [], None;
      new;
      Reload();
    }

    /** Reads the file again; whatever it holds, the list is usable afterwards. */
    method Reload()
      requires store.Valid()
      modifies this`profiles, this`default
      ensures Valid() && Synced()
    {
      var document := LoadDocument(Builds(rules), disk);
      LoadIsSound(rules, disk);
      profiles, default := document.profiles, document.default;
    }

    method Get(id: string) returns (r: Option<Profile>)
      ensures r == Find(profiles, id)
    {
      for i := 0 to |profiles|
        invariant Find(profiles, id) == Find(profiles[i..], id)
      {
        assert profiles[i..][1..] == profiles[i + 1..];
        if profiles[i].id == id {
          return Some(profiles[i]);
        }
      }
      r := None;
    }

    /** Writes the list and notifies; `outcome` is what the file system and the listeners do. */
    method PersistAndNotify(outcome: SaveOutcome) returns (ok: bool)
      requires Sound(rules, profiles, default)
      modifies this`disk
      ensures ok == (outcome == Written)
      ensures if outcome == NotWritten then disk == old(disk) else Synced()
    {
      if outcome != NotWritten {
        disk := SaveDocument(profiles, default);
        LoadOfSave(rules, profiles, default);
      }
      ok := outcome == Written;
    }

    /** Puts a list that may be stored in place of the present one, and writes it. */
    method Commit(ps: seq<Profile>, newDefault: Option<string>, outcome: SaveOutcome) returns (ok: bool)
      requires Valid() && Sound(rules, ps, newDefault)
      requires NamesDistinct(rules.fold, profiles) ==> NamesDistinct(rules.fold, ps)
      modifies this
      ensures Keeps(outcome) && profiles == ps && default == newDefault
      ensures ok == (outcome == Written)
    {
      profiles, default := ps, newDefault;
      ok := PersistAndNotify(outcome);
    }

    method InstallProfiles(ps: seq<Profile>, default: Option<string>, outcome: SaveOutcome) returns (ok: bool)
      requires Valid() && Sound(rules, ps, None)
      modifies this
      ensures Valid()
      ensures profiles == ps && this.default == KnownOrNone(default, Ids(ps))
      ensures ok == (outcome == Written)
      ensures if outcome == NotWritten then disk == old(disk) else Synced()
    {
      profiles := ps;
      this.default := if default.Some? && default.value in Ids(ps) then default else None;
      ok := PersistAndNotify(outcome);
    }

    /** Whether another profile than `ignore` has the name. */
    method NameIsTaken(name: string, ignore: Option<string>) returns (taken: bool)
      ensures taken == NameTaken(rules.fold, profiles, name, ignore)
    {
      var needle := Fold(rules.fold, name);
      for i := 0 to |profiles|
        invariant forall j | 0 <= j < i :: Some(profiles[j].id) == ignore || Fold(rules.fold, profiles[j].name) != needle
      {
        if Some(profiles[i].id) == ignore {
          continue;
        }
        if Fold(rules.fold, profiles[i].name) == needle {
          return true;
        }
      }
      taken := false;
    }

    /** Every complaint about the fields, and whether the name is taken. */
    method Judge(built: Built, name: Value, ignore: Option<string>) returns (r: Outcome)
      ensures r == Judged(rules, profiles, built, name, ignore)
    {
      var candidate := if built.Ok? then built.value.name else CandidateName(rules, name);
      var taken := false;
      if candidate != "" {
        taken := NameIsTaken(candidate, ignore);
      }
      if built.Err? {
        return Err(Invalid(built.error, taken));
      }
      r := if taken then Err(Invalid([], true)) else Ok(built.value);
    }

    method ValidatedProfile(id: string, f: Fields, ignore: Option<string>) returns (r: Outcome)
      ensures r == Examined(rules, profiles, id, f, ignore)
    {
      var built := Build(rules, id, f);
      r := Judge(built, f.name, ignore);
    }

    method Add(newId: string, f: Fields, outcome: SaveOutcome) returns (r: Outcome)
      requires Valid() && UnusedId(profiles, newId)
      modifies this
      ensures Keeps(outcome)
      ensures default == old(default)
      ensures match Examined(rules, old(profiles), newId, f, None)
              case Ok(p) => profiles == old(profiles) + [p] && r == if outcome == Written then Ok(p) else Err(SaveFailed)
              case Err(refusal) => Untouched() && r == Err(refusal)
    {
      var checked := ValidatedProfile(newId, f, None);
      if checked.Err? {
        return checked;
      }
      var profile := checked.value;
      AddedKeeps(rules, profiles, default, newId, f);
      var ok := Commit(profiles + [profile], default, outcome);
      r := if ok then Ok(profile) else Err(SaveFailed);
    }

    method Update(id: string, c: Change, outcome: SaveOutcome) returns (r: Outcome)
      requires Valid()
      modifies this
      ensures Keeps(outcome) && default == old(default)
      ensures match Find(old(profiles), id)
              case None => Untouched() && r == Err(NotFound)
              case Some(existing) =>
                match Examined(rules, old(profiles), id, Merged(existing, c), Some(id))
                case Ok(p) =>
                  profiles == Replace(old(profiles), id, p) && r == if outcome == Written then Ok(p) else Err(SaveFailed)
                case Err(refusal) => Untouched() && r == Err(refusal)
    {
      var existing := Get(id);
      if existing.None? {
        return Err(NotFound);
      }
      var f := Merged(existing.value, c);
      var checked := ValidatedProfile(id, f, Some(id));
      if checked.Err? {
        return checked;
      }
      var profile := checked.value;
      UpdatedKeeps(rules, profiles, default, id, f);
      var ok := Commit(Replace(profiles, id, profile), default, outcome);
      r := if ok then Ok(profile) else Err(SaveFailed);
    }

    /** Copies everything but the id and the name; a taken name never stands in the way. */
    method Duplicate(id: string, newId: string, outcome: SaveOutcome) returns (r: Outcome)
      requires Valid() && UnusedId(profiles, newId) && HasRoom("copy", |profiles| + 2)
      modifies this
      ensures Keeps(outcome) && default == old(default)
      ensures match Find(old(profiles), id)
              case None => Untouched() && r == Err(NotFound)
              case Some(existing) =>
                exists p ::
                  && CopiedAs(rules.fold, old(profiles), newId, existing, p)
                  && profiles == old(profiles) + [p]
                  && r == if outcome == Written then Ok(p) else Err(SaveFailed)
    {
      var existing := Get(id);
      if existing.None? {
        return Err(NotFound);
      }
      RoomForNames(rules.fold, profiles, "copy");
      var name := UniqueCopyName(rules.fold, existing.value.name, FoldedNames(rules.fold, profiles));
      ghost var p := CopyAccepted(rules, profiles, existing.value, newId, name);
      r := Add(newId, FieldsOf(existing.value).(name := Str(name)), outcome);
    }

    /** Adds the profile of an accepted document; a taken name never stands in the way. */
    method ImportProfile(newId: string, previewId: string, refused: Key -> bool, payload: Value, outcome: SaveOutcome)
        returns (r: Outcome)
      requires Valid() && UnusedId(profiles, newId) && HasRoom("imported", |profiles| + 2)
      modifies this
      ensures Keeps(outcome) && default == old(default)
      ensures match Transfer.Import(refused, Builds(rules), previewId, payload)
              case Err(reason) => Untouched() && r == Err(NotImported(reason))
              case Ok(f) =>
                exists p ::
                  && ImportedAs(rules, old(profiles), newId, f, p)
                  && profiles == old(profiles) + [p]
                  && r == if outcome == Written then Ok(p) else Err(SaveFailed)
    {
      var imported := Transfer.Import(refused, Builds(rules), previewId, payload);
      if imported.Err? {
        return Err(NotImported(imported.error));
      }
      var f := imported.value;
      ghost var described := ImportDescribes(rules, refused, previewId, payload, newId);
      RoomForNames(rules.fold, profiles, "imported");
      var name := UniqueImportedName(rules.fold, f.name.s, FoldedNames(rules.fold, profiles));
      FreeNameNotTaken(rules.fold, profiles, name);
      ghost var p := ImportRenamed(rules, profiles, described, newId, name);
      r := Add(newId, f.(name := Str(name)), outcome);
    }

    method SetDefault(id: string, outcome: SaveOutcome) returns (r: Outcome)
      requires Valid()
      modifies this
      ensures Keeps(outcome) && profiles == old(profiles)
      ensures match Find(old(profiles), id)
              case None => Untouched() && r == Err(NotFound)
              case Some(existing) =>
                && default == Some(id)
                && (old(default) == Some(id) ==> Untouched() && r == Ok(existing))
                && (old(default) != Some(id) ==> r == if outcome == Written then Ok(existing) else Err(SaveFailed))
    {
      var existing := Get(id);
      if existing.None? {
        return Err(NotFound);
      }
      if default == Some(id) {
        return Ok(existing.value);
      }
      SoundDefault(rules, profiles, default, id);
      var ok := Commit(profiles, Some(id), outcome);
      r := if ok then Ok(existing.value) else Err(SaveFailed);
    }

    method ClearDefault(outcome: SaveOutcome) returns (ok: bool)
      requires Valid()
      modifies this
      ensures Keeps(outcome) && profiles == old(profiles) && default == None
      ensures ok == (old(default).None? || outcome == Written)
    {
      if default.None? {
        return true;
      }
      NoDefaultIsSound(rules, profiles, default);
      ok := Commit(profiles, None, outcome);
    }

    /**
     Changes the hint and nothing else. It is refused exactly when the id is unknown, the hint is not
     an acceptable text, or the file already held two profiles with this name.
     */
    method SetUsernameHint(id: string, hint: Value, outcome: SaveOutcome) returns (r: Outcome)
      requires Valid()
      modifies this
      ensures Keeps(outcome) && default == old(default)
      ensures match Find(old(profiles), id)
              case None => Untouched() && r == Err(NotFound)
              case Some(existing) =>
                var text := CheckText(hint, UsernameHint);
                if text.Ok? && !NameTaken(rules.fold, old(profiles), existing.name, Some(id)) then
                  && profiles == Replace(old(profiles), id, existing.(usernameHint := text.value))
                  && r == if outcome == Written then Ok(existing.(usernameHint := text.value)) else Err(SaveFailed)
                else Untouched() && r.Err? && r.error.Invalid?
    {
      var existing := Get(id);
      if existing.None? {
        return Err(NotFound);
      }
      var p := existing.value;
      HintChecked(rules, profiles, p, hint);
      var c := Change(Str(p.name), Str(p.gateway), Int(p.port), Str(p.description), hint, Bool(p.useSso),
                      None, Some(Str(VpnTypeText(p.vpnType))), Some(p.IpsecPayload()));
      assert Merged(p, c) == FieldsOf(p).(usernameHint := hint);
      r := Update(id, c, outcome);
    }

    /** Changes the certificate pin and nothing else, under the same conditions. */
    method SetTrustedCertificate(id: string, fingerprint: Value, outcome: SaveOutcome) returns (r: Outcome)
      requires Valid()
      modifies this
      ensures Keeps(outcome) && default == old(default)
      ensures match Find(old(profiles), id)
              case None => Untouched() && r == Err(NotFound)
              case Some(existing) =>
                var digest := CheckPin(fingerprint);
                if digest.Ok? && !NameTaken(rules.fold, old(profiles), existing.name, Some(id)) then
                  && profiles == Replace(old(profiles), id, existing.(pin := digest.value))
                  && r == if outcome == Written then Ok(existing.(pin := digest.value)) else Err(SaveFailed)
                else Untouched() && r.Err? && r.error.Invalid?
    {
      var existing := Get(id);
      if existing.None? {
        return Err(NotFound);
      }
      var p := existing.value;
      PinChecked(rules, profiles, p, fingerprint);
      var c := Change(Str(p.name), Str(p.gateway), Int(p.port), Str(p.description), Str(p.usernameHint), Bool(p.useSso),
                      Some(fingerprint), None, None);
      assert Merged(p, c) == FieldsOf(p).(pin := fingerprint);
      r := Update(id, c, outcome);
    }

    method ClearTrustedCertificate(id: string, outcome: SaveOutcome) returns (r: Outcome)
      requires Valid()
      modifies this
      ensures Keeps(outcome) && default == old(default)
      ensures match Find(old(profiles), id)
              case None => Untouched() && r == Err(NotFound)
              case Some(existing) =>
                if NameTaken(rules.fold, old(profiles), existing.name, Some(id)) then Untouched() && r.Err?
                else profiles == Replace(old(profiles), id, existing.(pin := None)) && (r.Ok? <==> outcome == Written)
    {
      r := SetTrustedCertificate(id, Null, outcome);
    }

    /** Takes a profile out of the list, and out of the default, and saves. */
    method Drop(id: string, outcome: SaveOutcome) returns (ok: bool)
      requires Valid()
      modifies this
      ensures Keeps(outcome)
      ensures profiles == RemoveId(old(profiles), id) && OthersOf(old(profiles), id, profiles)
      ensures default == (if old(default) == Some(id) then None else old(default))
      ensures ok == (outcome == Written)
    {
      RemoveKeeps(rules, profiles, default, id);
      ok := Commit(RemoveId(profiles, id), if default == Some(id) then None else default, outcome);
    }

    /** Removes the profile, then its secrets; a failed save leaves the secrets where they are. */
    method Delete(id: string, outcome: SaveOutcome) returns (r: Result<bool, Refusal>)
      requires Valid()
      modifies this, store
      ensures Keeps(outcome)
      ensures id !in Ids(old(profiles)) ==> Untouched() && store.Value() == old(store.Value()) && r == Ok(false)
      ensures id in Ids(old(profiles)) ==>
                && profiles == RemoveId(old(profiles), id) && OthersOf(old(profiles), id, profiles)
                && default == (if old(default) == Some(id) then None else old(default))
      ensures id in Ids(old(profiles)) && outcome == Written ==>
                r == Ok(true) && store.psks == old(store.psks) - {id} && store.passwords == old(store.passwords) - {id}
      ensures id in Ids(old(profiles)) && outcome != Written ==> r == Err(SaveFailed) && store.Value() == old(store.Value())
    {
      RemoveIdFinds(profiles, id);
      if |RemoveId(profiles, id)| == |profiles| {
        return Ok(false);
      }
      var ok := Drop(id, outcome);
      if !ok {
        return Err(SaveFailed);
      }
      store.DeleteAll(id);
      r := Ok(true);
    }

    /** A list the program installs is sound; it comes from a plan or from the manager itself. */
    ghost predicate Admissible(op: Operation, room: nat)
      reads this
    {
      match op
      case Installs(list, _, _) => Sound(rules, list, None) && |list| <= room
      case _ => true
    }

    /** An operation that may add a profile. */
    method Extend(op: Operation, newId: string, previewId: string)
      requires Valid() && UnusedId(profiles, newId) && Countable(|profiles| + 2) && (op.Adds? || op.Duplicates? || op.Imports?)
      modifies this
      ensures Keeps(op.outcome) && |profiles| <= old(|profiles|) + 1
    {
      match op
      case Adds(f, outcome) =>
        var _ := Add(newId, f, outcome);
      case Duplicates(id, outcome) =>
        RoomForAnyList("copy", |profiles| + 2);
        var _ := Duplicate(id, newId, outcome);
      case Imports(refused, payload, outcome) =>
        RoomForAnyList("imported", |profiles| + 2);
        var _ := ImportProfile(newId, previewId, refused, payload, outcome);
    }

    /** An operation that edits the list. */
    method Edit(op: Operation, newId: string, previewId: string)
      requires Valid() && UnusedId(profiles, newId) && Countable(|profiles| + 2) && !op.Reloads? && !op.Installs?
      modifies this, store
      ensures Keeps(op.outcome) && |profiles| <= old(|profiles|) + 1
    {
      match op
      case Updates(id, c, outcome) =>
        var _ := Update(id, c, outcome);
      case SetsDefault(id, outcome) =>
        var _ := SetDefault(id, outcome);
      case ClearsDefault(outcome) =>
        var _ := ClearDefault(outcome);
      case SetsHint(id, hint, outcome) =>
        var _ := SetUsernameHint(id, hint, outcome);
      case SetsPin(id, fingerprint, outcome) =>
        var _ := SetTrustedCertificate(id, fingerprint, outcome);
      case Deletes(id, outcome) =>
        var _ := Delete(id, outcome);
      case Adds(_, _) => Extend(op, newId, previewId);
      case Duplicates(_, _) => Extend(op, newId, previewId);
      case Imports(_, _, _) => Extend(op, newId, previewId);
    }

    method EditStep(op: Operation, newId: string, previewId: string, ghost room: nat)
      requires Valid() && UnusedId(profiles, newId) && Countable(|profiles| + 2) && FitsIn(Now(), room) && !op.Reloads? && !op.Installs?
      modifies this, store
      ensures Valid() && FitsIn(Now(), room + 1)
      ensures Stepped(op, old(Now()), Now()) && KeepsApart(rules.fold, op, old(Now()), Now())
    {
      Edit(op, newId, previewId);
    }

    method InstallStep(op: Operation, ghost room: nat)
      requires Valid() && FitsIn(Now(), room) && Admissible(op, room) && op.Installs?
      modifies this
      ensures Valid() && FitsIn(Now(), room)
      ensures Stepped(op, old(Now()), Now()) && KeepsApart(rules.fold, op, old(Now()), Now())
    {
      ghost var before := Now();
      var _ := InstallProfiles(op.list, op.asDefault, op.outcome);
      InstalledStage(rules.fold, op, before, Now(), room);
    }

    /** One operation of a run. */
    method Do(op: Operation, newId: string, previewId: string, ghost room: nat)
      requires Valid() && UnusedId(profiles, newId) && Countable(|profiles| + 2) && FitsIn(Now(), room) && Admissible(op, room)
      modifies this, store
      ensures Valid() && FitsIn(Now(), room + 1)
      ensures Stepped(op, old(Now()), Now()) && KeepsApart(rules.fold, op, old(Now()), Now())
    {
      match op
      case Reloads => Reload();
      case Installs(_, _, _) => InstallStep(op, room);
      case _ => EditStep(op, newId, previewId, room);
    }

    /** The first `n` operations of a run are done and went through these stages. */
    ghost predicate Reached(ops: seq<Operation>, trace: seq<Stage>, n: nat, room: nat)
      reads this, store
    {
      Valid() && FitsIn(Now(), room + n) && TraceUpTo(rules.fold, ops, trace, n) && trace[n] == Now()
    }

    method Next(ops: seq<Operation>, n: nat, newId: string, previewId: string, ghost room: nat, ghost trace: seq<Stage>)
        returns (ghost longer: seq<Stage>)
      requires n < |ops| && Reached(ops, trace, n, room) && UnusedId(profiles, newId)
      requires Countable(room + |ops| + 2) && Admissible(ops[n], room)
      modifies this, store
      ensures Reached(ops, longer, n + 1, room) && longer[0] == trace[0]
    {
      CountableEarlier(|profiles| + 2, room + |ops| + 2);
      Do(ops[n], newId, previewId, room + n);
      TraceGrows(rules.fold, ops, trace, n, Now());
      longer := trace + [Now()];
    }

    /**
     Any sequence of operations: ids stay different, the default stays in the list, names stay
     different if they were, and memory and file go through the stages of `trace`; so they are in step
     at the end whenever they were at some point and no write has failed since.
     */
    method Run(ops: seq<Operation>, newId: IdSource, previewId: string, ghost room: nat) returns (ghost trace: seq<Stage>)
      requires Valid() && FitsIn(Now(), room) && Countable(room + |ops| + 2)
      requires forall i | 0 <= i < |ops| :: Admissible(ops[i], room)
      modifies this, store
      ensures Valid() && IsTrace(rules.fold, ops, trace) && trace[0] == old(Now()) && trace[|ops|] == Now()
      ensures forall k | 0 <= k <= |ops| && InStep(trace[k]) && NoFailureFrom(ops, k) :: Synced()
      ensures old(NamesApart(rules.fold, Now())) && (forall i | 0 <= i < |ops| :: InstallsDistinct(rules.fold, ops[i])) ==>
                NamesApart(rules.fold, Now())
    {
      trace := [Now()];
      for n := 0 to |ops|
        invariant Reached(ops, trace, n, room) && trace[0] == old(Now())
      {
        trace := Next(ops, n, newId(profiles), previewId, room, trace);
      }
      TraceEnds(rules.fold, ops, trace);
    }
  }
}
