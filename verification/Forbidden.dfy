/**
 Keys that must not appear in stored, imported or restored documents, and the three walks over a
 document that drop or refuse them (`profiles/model.py`, `profiles/storage.py`,
 `profiles/transfer.py`, `backup/payload.py`).
 */
module Forbidden {
  import opened Text
  import opened Json

  predicate SecretName(t: string) {
    t in {"password", "passwd", "secret", "client_secret", "token", "saml_token", "access_token",
          "refresh_token", "cookie", "cookies", "mfa", "otp", "totp", "pin", "psk", "preshared_key",
          "pre_shared_key", "xauth_password", "ike_secret", "tokenid", "fct_token_id", "fct_uid",
          "eap_identity", "eap_password", "authorization", "private_key", "privatekey",
          "saml_session", "auth_cache"}
  }

  predicate InjectionName(t: string) {
    t in {"path", "config_path", "config", "swanctl", "charon", "plugin", "plugin_path", "plugindir",
          "script", "argv", "command", "helper_path", "vici", "secrets_file", "ca_file", "cert_file",
          "key_file", "include", "load", "plugins", "strongswan_conf", "exec", "cwd", "env",
          "environment", "private_key_path", "license_info", "notify_data", "vendor_id",
          "vendor_ids", "cp16", "auth_omit", "initial_contact"}
  }

  /** Backups add a few names to the secret ones; all but this list are secret names already. */
  predicate PayloadName(t: string) { SecretName(t) || t == "ssl_password" }

  // ----- the walks -----

  /** Some object inside `v`, at any depth, has a bad key. */
  predicate HasKey(v: Value, bad: Key -> bool) {
    match v
    case Obj(m) => exists k | k in m :: bad(k) || HasKey(m[k], bad)
    case List(items) => exists i | 0 <= i < |items| :: HasKey(items[i], bad)
    case _ => false
  }

  /** The document with every bad key dropped at every depth. */
  function Without(v: Value, bad: Key -> bool): Value {
    match v
    case Obj(m) => Obj(map k | k in m && !bad(k) :: Without(m[k], bad))
    case List(items) => List(seq(|items|, i requires 0 <= i < |items| => Without(items[i], bad)))
    case _ => v
  }

  /** Dropping leaves a document without bad keys, and leaves such a document alone. */
  lemma {:induction false} WithoutDropsExactly(v: Value, bad: Key -> bool)
    ensures !HasKey(Without(v, bad), bad)
    ensures !HasKey(v, bad) ==> Without(v, bad) == v
  {
    match v
    case Obj(m) =>
      forall k | k in m
        ensures !HasKey(Without(m[k], bad), bad)
        ensures !HasKey(m[k], bad) ==> Without(m[k], bad) == m[k]
      {
        WithoutDropsExactly(m[k], bad);
      }
    case List(items) =>
      forall i | 0 <= i < |items|
        ensures !HasKey(Without(items[i], bad), bad)
        ensures !HasKey(items[i], bad) ==> Without(items[i], bad) == items[i]
      {
        WithoutDropsExactly(items[i], bad);
      }
    case _ =>
  }

  /** Loading a stored file drops these. */
  function DroppedOnLoad(): Key -> bool { (k: Key) => SecretName(k.Text()) }

  /** A text that contains one of the words the importer takes for a sign of a secret. */
  predicate Suspicious(t: string) {
    || Occurs(t, "password") || Occurs(t, "passwd") || Occurs(t, "secret") || Occurs(t, "token")
    || Occurs(t, "cookie") || Occurs(t, "psk") || Occurs(t, "keyring")
  }

  /** Importing also refuses every key whose folded text is suspicious. */
  function RefusedOnImport(cf: CaseFold): Key -> bool {
    (k: Key) => var t := Fold(cf, k.Text()); InjectionName(t) || SecretName(t) || Suspicious(t)
  }

  /** The two names of the secrets object are let through wherever they stand. */
  predicate RestoreName(t: string) { t != "psk" && t != "xauth_password" && PayloadName(t) }

  /** Restoring refuses these. */
  function RefusedOnRestore(cf: CaseFold): Key -> bool { (k: Key) => RestoreName(Fold(cf, k.Text())) }

  // ----- the program's own keys -----

  /** The keys of an export, which are also those of a stored record. */
  predicate Exported(k: Key) {
    !k.Other? && !k.Secrets? && !k.Psk? && !k.XauthPassword?
    && !k.DefaultProfileId? && !k.Profiles? && !k.PayloadVersion? && !k.CreatedAppVersion?
  }

  lemma PlainTexts1()
    ensures AllPlain("version") && AllPlain("default_profile_id") && AllPlain("profiles") && AllPlain("format") && AllPlain("profile") && AllPlain("payload_version")
  {}

  lemma PlainTexts2()
    ensures AllPlain("created_app_version") && AllPlain("id") && AllPlain("name") && AllPlain("gateway") && AllPlain("port") && AllPlain("description")
  {}

  lemma PlainTexts3()
    ensures AllPlain("username_hint") && AllPlain("use_sso") && AllPlain("trusted_cert_sha256") && AllPlain("vpn_type") && AllPlain("ipsec") && AllPlain("secrets")
  {}

  lemma PlainTexts4()
    ensures AllPlain("psk") && AllPlain("xauth_password") && AllPlain("ike_version") && AllPlain("ike_mode") && AllPlain("auth_method") && AllPlain("address_assignment")
  {}

  lemma PlainTexts5()
    ensures AllPlain("local_id") && AllPlain("peer_id") && AllPlain("phase1_encryption") && AllPlain("phase1_integrity") && AllPlain("dh_group") && AllPlain("ike_proposals")
  {}

  lemma PlainTexts6()
    ensures AllPlain("ike_dh_groups") && AllPlain("phase1_lifetime") && AllPlain("phase2_encryption") && AllPlain("phase2_integrity") && AllPlain("child_proposals") && AllPlain("pfs")
  {}

  lemma PlainTexts7()
    ensures AllPlain("pfs_dh_group") && AllPlain("pfs_dh_groups") && AllPlain("phase2_lifetime") && AllPlain("nat_traversal") && AllPlain("dpd") && AllPlain("dpd_interval")
  {}

  lemma PlainTexts8()
    ensures AllPlain("replay_detection") && AllPlain("local_lan_access") && AllPlain("saml_port") && AllPlain("encryption") && AllPlain("integrity")
  {}

  lemma PlainKeys1(k: Key)
    requires k.Version? || k.DefaultProfileId? || k.Profiles? || k.Format? || k.ProfileObject? || k.PayloadVersion?
    ensures AllPlain(k.Text())
  {
    PlainTexts1();
  }

  lemma PlainKeys2(k: Key)
    requires k.CreatedAppVersion? || k.Id? || k.Name? || k.Gateway? || k.Port? || k.Description?
    ensures AllPlain(k.Text())
  {
    PlainTexts2();
  }

  lemma PlainKeys3(k: Key)
    requires k.UsernameHint? || k.UseSso? || k.TrustedCertSha256? || k.VpnType? || k.IpsecObject? || k.Secrets?
    ensures AllPlain(k.Text())
  {
    PlainTexts3();
  }

  lemma PlainKeys4(k: Key)
    requires k.Psk? || k.XauthPassword? || k.IkeVersion? || k.IkeMode? || k.AuthMethod? || k.AddressAssignment?
    ensures AllPlain(k.Text())
  {
    PlainTexts4();
  }

  lemma PlainKeys5(k: Key)
    requires k.LocalId? || k.PeerId? || k.Phase1Encryption? || k.Phase1Integrity? || k.DhGroup? || k.IkeProposals?
    ensures AllPlain(k.Text())
  {
    PlainTexts5();
  }

  lemma PlainKeys6(k: Key)
    requires k.IkeDhGroups? || k.Phase1Lifetime? || k.Phase2Encryption? || k.Phase2Integrity? || k.ChildProposals? || k.Pfs?
    ensures AllPlain(k.Text())
  {
    PlainTexts6();
  }

  lemma PlainKeys7(k: Key)
    requires k.PfsDhGroup? || k.PfsDhGroups? || k.Phase2Lifetime? || k.NatTraversal? || k.Dpd? || k.DpdInterval?
    ensures AllPlain(k.Text())
  {
    PlainTexts7();
  }

  lemma PlainKeys8(k: Key)
    requires k.ReplayDetection? || k.LocalLanAccess? || k.SamlPort? || k.Encryption? || k.Integrity?
    ensures AllPlain(k.Text())
  {
    PlainTexts8();
  }

  lemma KnownKeysPlain(k: Key)
    requires !k.Other?
    ensures AllPlain(k.Text())
  {
    match k
    case Version | DefaultProfileId | Profiles | Format | ProfileObject | PayloadVersion => PlainKeys1(k);
    case CreatedAppVersion | Id | Name | Gateway | Port | Description => PlainKeys2(k);
    case UsernameHint | UseSso | TrustedCertSha256 | VpnType | IpsecObject | Secrets => PlainKeys3(k);
    case Psk | XauthPassword | IkeVersion | IkeMode | AuthMethod | AddressAssignment => PlainKeys4(k);
    case LocalId | PeerId | Phase1Encryption | Phase1Integrity | DhGroup | IkeProposals => PlainKeys5(k);
    case IkeDhGroups | Phase1Lifetime | Phase2Encryption | Phase2Integrity | ChildProposals | Pfs => PlainKeys6(k);
    case PfsDhGroup | PfsDhGroups | Phase2Lifetime | NatTraversal | Dpd | DpdInterval => PlainKeys7(k);
    case ReplayDetection | LocalLanAccess | SamlPort | Encryption | Integrity => PlainKeys8(k);
  }

  /** Not one of the names any of the three checks refuses. */
  predicate Unnamed(t: string) { !SecretName(t) && !InjectionName(t) && !RestoreName(t) }

  lemma UnnamedTexts1()
    ensures Unnamed("version") && Unnamed("format") && Unnamed("profile") && Unnamed("id")
  {}

  lemma UnnamedTexts2()
    ensures Unnamed("name") && Unnamed("gateway") && Unnamed("port") && Unnamed("description")
  {}

  lemma UnnamedTexts3()
    ensures Unnamed("username_hint") && Unnamed("use_sso") && Unnamed("trusted_cert_sha256") && Unnamed("vpn_type")
  {}

  lemma UnnamedTexts4()
    ensures Unnamed("ipsec") && Unnamed("ike_version") && Unnamed("ike_mode") && Unnamed("auth_method")
  {}

  lemma UnnamedTexts5()
    ensures Unnamed("address_assignment") && Unnamed("local_id") && Unnamed("peer_id") && Unnamed("phase1_encryption")
  {}

  lemma UnnamedTexts6()
    ensures Unnamed("phase1_integrity") && Unnamed("dh_group") && Unnamed("ike_proposals") && Unnamed("ike_dh_groups")
  {}

  lemma UnnamedTexts7()
    ensures Unnamed("phase1_lifetime") && Unnamed("phase2_encryption") && Unnamed("phase2_integrity") && Unnamed("child_proposals")
  {}

  lemma UnnamedTexts8()
    ensures Unnamed("pfs") && Unnamed("pfs_dh_group") && Unnamed("pfs_dh_groups") && Unnamed("phase2_lifetime")
  {}

  lemma UnnamedTexts9()
    ensures Unnamed("nat_traversal") && Unnamed("dpd") && Unnamed("dpd_interval") && Unnamed("replay_detection")
  {}

  lemma UnnamedTexts10()
    ensures Unnamed("local_lan_access") && Unnamed("saml_port") && Unnamed("encryption") && Unnamed("integrity")
  {}

  /** Three characters in a row that each of the suspicious words contains one of. */
  predicate Telltale(a: char, b: char, c: char) {
    || (a == 'p' && b == 'a' && c == 's') || (a == 'e' && b == 'c' && c == 'r') || (a == 't' && b == 'o' && c == 'k')
    || (a == 'c' && b == 'o' && c == 'o') || (a == 'p' && b == 's' && c == 'k') || (a == 'k' && b == 'e' && c == 'y')
  }

  /** They stand somewhere from `i` on. */
  predicate Tells(t: string, i: nat)
    decreases |t| - i
  {
    i + 2 < |t| && (Telltale(t[i], t[i + 1], t[i + 2]) || Tells(t, i + 1))
  }

  lemma {:induction false} TellsAt(t: string, i: nat, at: nat)
    requires i <= at && at + 2 < |t| && Telltale(t[at], t[at + 1], t[at + 2])
    ensures Tells(t, i)
    decreases at - i
  {
    if i < at { TellsAt(t, i + 1, at); }
  }

  lemma OccurrenceTells(t: string, word: string, at: nat)
    requires Occurs(t, word) && at + 2 < |word| && Telltale(word[at], word[at + 1], word[at + 2])
    ensures Tells(t, 0)
  {
    var i :| 0 <= i <= |t| && OccursAt(t, word, i);
    OccursCharacter(t, word, i, at);
    OccursCharacter(t, word, i, at + 1);
    OccursCharacter(t, word, i, at + 2);
    TellsAt(t, 0, i + at);
  }

  lemma SuspiciousTells(t: string)
    requires Suspicious(t)
    ensures Tells(t, 0)
  {
    if Occurs(t, "password") {
      OccurrenceTells(t, "password", 0);
    } else if Occurs(t, "passwd") {
      OccurrenceTells(t, "passwd", 0);
    } else if Occurs(t, "secret") {
      OccurrenceTells(t, "secret", 1);
    } else if Occurs(t, "token") {
      OccurrenceTells(t, "token", 0);
    } else if Occurs(t, "cookie") {
      OccurrenceTells(t, "cookie", 0);
    } else if Occurs(t, "psk") {
      OccurrenceTells(t, "psk", 0);
    } else {
      OccurrenceTells(t, "keyring", 0);
    }
  }

  lemma UntellingTexts1()
    ensures !Tells("version", 0) && !Tells("format", 0) && !Tells("profile", 0) && !Tells("id", 0)
  {}

  lemma UntellingTexts2()
    ensures !Tells("name", 0) && !Tells("gateway", 0) && !Tells("port", 0) && !Tells("description", 0)
  {}

  lemma UntellingTexts3()
    ensures !Tells("username_hint", 0) && !Tells("use_sso", 0) && !Tells("trusted_cert_sha256", 0) && !Tells("vpn_type", 0)
  {
    assert !Tells("username_hint", 7);
    assert !Tells("trusted_cert_sha256", 7);
  }

  lemma UntellingTexts4()
    ensures !Tells("ipsec", 0) && !Tells("ike_version", 0) && !Tells("ike_mode", 0) && !Tells("auth_method", 0)
  {}

  lemma UntellingTexts5()
    ensures !Tells("address_assignment", 0) && !Tells("local_id", 0) && !Tells("peer_id", 0) && !Tells("phase1_encryption", 0)
  {
    assert !Tells("address_assignment", 7);
    assert !Tells("phase1_encryption", 7);
  }

  lemma UntellingTexts6()
    ensures !Tells("phase1_integrity", 0) && !Tells("dh_group", 0) && !Tells("ike_proposals", 0) && !Tells("ike_dh_groups", 0)
  {
    assert !Tells("phase1_integrity", 7);
    assert !Tells("ike_proposals", 7);
    assert !Tells("ike_dh_groups", 7);
  }

  lemma UntellingTexts7()
    ensures !Tells("phase1_lifetime", 0) && !Tells("phase2_encryption", 0) && !Tells("phase2_integrity", 0) && !Tells("child_proposals", 0)
  {
    assert !Tells("phase1_lifetime", 7);
    assert !Tells("phase2_encryption", 7);
    assert !Tells("phase2_integrity", 7);
    assert !Tells("child_proposals", 7);
  }

  lemma UntellingTexts8()
    ensures !Tells("pfs", 0) && !Tells("pfs_dh_group", 0) && !Tells("pfs_dh_groups", 0) && !Tells("phase2_lifetime", 0)
  {
    assert !Tells("pfs_dh_groups", 7);
    assert !Tells("phase2_lifetime", 7);
  }

  lemma UntellingTexts9()
    ensures !Tells("nat_traversal", 0) && !Tells("dpd", 0) && !Tells("dpd_interval", 0) && !Tells("replay_detection", 0)
  {
    assert !Tells("nat_traversal", 7);
    assert !Tells("replay_detection", 7);
  }

  lemma UntellingTexts10()
    ensures !Tells("local_lan_access", 0) && !Tells("saml_port", 0) && !Tells("encryption", 0) && !Tells("integrity", 0)
  {
    assert !Tells("local_lan_access", 7);
  }

  /** The texts are those of the keys. */
  lemma HarmlessKeys1(k: Key)
    requires k.Version? || k.Format? || k.ProfileObject? || k.Id?
    ensures Unnamed(k.Text()) && !Tells(k.Text(), 0)
  {
    UnnamedTexts1();
    UntellingTexts1();
  }

  lemma HarmlessKeys2(k: Key)
    requires k.Name? || k.Gateway? || k.Port? || k.Description?
    ensures Unnamed(k.Text()) && !Tells(k.Text(), 0)
  {
    UnnamedTexts2();
    UntellingTexts2();
  }

  lemma HarmlessKeys3(k: Key)
    requires k.UsernameHint? || k.UseSso? || k.TrustedCertSha256? || k.VpnType?
    ensures Unnamed(k.Text()) && !Tells(k.Text(), 0)
  {
    UnnamedTexts3();
    UntellingTexts3();
  }

  lemma HarmlessKeys4(k: Key)
    requires k.IpsecObject? || k.IkeVersion? || k.IkeMode? || k.AuthMethod?
    ensures Unnamed(k.Text()) && !Tells(k.Text(), 0)
  {
    UnnamedTexts4();
    UntellingTexts4();
  }

  lemma HarmlessKeys5(k: Key)
    requires k.AddressAssignment? || k.LocalId? || k.PeerId? || k.Phase1Encryption?
    ensures Unnamed(k.Text()) && !Tells(k.Text(), 0)
  {
    UnnamedTexts5();
    UntellingTexts5();
  }

  lemma HarmlessKeys6(k: Key)
    requires k.Phase1Integrity? || k.DhGroup? || k.IkeProposals? || k.IkeDhGroups?
    ensures Unnamed(k.Text()) && !Tells(k.Text(), 0)
  {
    UnnamedTexts6();
    UntellingTexts6();
  }

  lemma HarmlessKeys7(k: Key)
    requires k.Phase1Lifetime? || k.Phase2Encryption? || k.Phase2Integrity? || k.ChildProposals?
    ensures Unnamed(k.Text()) && !Tells(k.Text(), 0)
  {
    UnnamedTexts7();
    UntellingTexts7();
  }

  lemma HarmlessKeys8(k: Key)
    requires k.Pfs? || k.PfsDhGroup? || k.PfsDhGroups? || k.Phase2Lifetime?
    ensures Unnamed(k.Text()) && !Tells(k.Text(), 0)
  {
    UnnamedTexts8();
    UntellingTexts8();
  }

  lemma HarmlessKeys9(k: Key)
    requires k.NatTraversal? || k.Dpd? || k.DpdInterval? || k.ReplayDetection?
    ensures Unnamed(k.Text()) && !Tells(k.Text(), 0)
  {
    UnnamedTexts9();
    UntellingTexts9();
  }

  lemma HarmlessKeys10(k: Key)
    requires k.LocalLanAccess? || k.SamlPort? || k.Encryption? || k.Integrity?
    ensures Unnamed(k.Text()) && !Tells(k.Text(), 0)
  {
    UnnamedTexts10();
    UntellingTexts10();
  }

  lemma ExportedKeysNotNamed(k: Key)
    requires Exported(k)
    ensures Unnamed(k.Text()) && !Tells(k.Text(), 0)
  {
    match k
    case Version | Format | ProfileObject | Id => HarmlessKeys1(k);
    case Name | Gateway | Port | Description => HarmlessKeys2(k);
    case UsernameHint | UseSso | TrustedCertSha256 | VpnType => HarmlessKeys3(k);
    case IpsecObject | IkeVersion | IkeMode | AuthMethod => HarmlessKeys4(k);
    case AddressAssignment | LocalId | PeerId | Phase1Encryption => HarmlessKeys5(k);
    case Phase1Integrity | DhGroup | IkeProposals | IkeDhGroups => HarmlessKeys6(k);
    case Phase1Lifetime | Phase2Encryption | Phase2Integrity | ChildProposals => HarmlessKeys7(k);
    case Pfs | PfsDhGroup | PfsDhGroups | Phase2Lifetime => HarmlessKeys8(k);
    case NatTraversal | Dpd | DpdInterval | ReplayDetection => HarmlessKeys9(k);
    case LocalLanAccess | SamlPort | Encryption | Integrity => HarmlessKeys10(k);
  }

  lemma ExportedKeysNotSuspicious(k: Key)
    requires Exported(k)
    ensures !Suspicious(k.Text())
  {
    ExportedKeysNotNamed(k);
    if Suspicious(k.Text()) { SuspiciousTells(k.Text()); }
  }

  lemma DocumentKeysNotRestoreNames(k: Key)
    requires k.DefaultProfileId? || k.Profiles? || k.PayloadVersion? || k.CreatedAppVersion? || k.Secrets? || k.Psk? || k.XauthPassword?
    ensures !RestoreName(k.Text())
  {}

  lemma KnownKeysNotRestoreNames(k: Key)
    requires !k.Other?
    ensures !RestoreName(k.Text())
  {
    if Exported(k) {
      ExportedKeysNotNamed(k);
    } else {
      DocumentKeysNotRestoreNames(k);
    }
  }

  /** Folding leaves the program's own texts alone, so a harmless one stays harmless. */
  lemma HarmlessFolded(cf: CaseFold, t: string)
    requires AllPlain(t) && Unnamed(t) && !Suspicious(t)
    ensures Unnamed(Fold(cf, t)) && !Suspicious(Fold(cf, t))
  {
    FoldPlain(cf, t);
  }

  lemma ExportedKeysHarmless(cf: CaseFold, k: Key)
    requires Exported(k)
    ensures Unnamed(k.Text()) && Unnamed(Fold(cf, k.Text())) && !Suspicious(Fold(cf, k.Text()))
  {
    KnownKeysPlain(k);
    ExportedKeysNotNamed(k);
    ExportedKeysNotSuspicious(k);
    HarmlessFolded(cf, k.Text());
  }

  lemma DroppedWhen(k: Key, t: string)
    requires t == k.Text() && Unnamed(t)
    ensures !DroppedOnLoad()(k)
  {}

  lemma RefusedWhen(cf: CaseFold, k: Key, t: string)
    requires t == Fold(cf, k.Text()) && Unnamed(t) && !Suspicious(t)
    ensures !RefusedOnImport(cf)(k)
  {}

  /** Loading and importing keep every key of the program's own records. */
  lemma ExportedKeysPass(cf: CaseFold, k: Key)
    requires Exported(k)
    ensures !DroppedOnLoad()(k) && !RefusedOnImport(cf)(k)
  {
    ExportedKeysHarmless(cf, k);
    DroppedWhen(k, k.Text());
    RefusedWhen(cf, k, Fold(cf, k.Text()));
  }

  /** Restoring accepts every key of the program's own backups. */
  lemma KnownKeysPassRestore(cf: CaseFold, k: Key)
    requires !k.Other?
    ensures !RefusedOnRestore(cf)(k)
  {
    KnownKeysPlain(k);
    FoldPlain(cf, k.Text());
    KnownKeysNotRestoreNames(k);
  }

  /** Dropping keeps every other member, with what it holds cleaned in the same way, and every list entry. */
  lemma WithoutKeepsOthers(v: Value, bad: Key -> bool)
    ensures v.Obj? ==> Without(v, bad).Obj? && (forall k :: k in Without(v, bad).fields <==> k in v.fields && !bad(k))
                       && forall k | k in Without(v, bad).fields :: Without(v, bad).fields[k] == Without(v.fields[k], bad)
    ensures v.List? ==> Without(v, bad).List? && |Without(v, bad).items| == |v.items|
                        && forall i | 0 <= i < |v.items| :: Without(v, bad).items[i] == Without(v.items[i], bad)
    ensures !v.Obj? && !v.List? ==> Without(v, bad) == v
  {}

  /** A bad key counts at every depth. */
  lemma KeyAtAnyDepth(v: Value, bad: Key -> bool)
    ensures v.Obj? ==> (HasKey(v, bad) <==> exists k :: k in v.fields && (bad(k) || HasKey(v.fields[k], bad)))
    ensures v.List? ==> (HasKey(v, bad) <==> exists i :: 0 <= i < |v.items| && HasKey(v.items[i], bad))
    ensures !v.Obj? && !v.List? ==> !HasKey(v, bad)
  {}
}
