/**
 JSON documents as trees. Reading and writing the text of a document is a library call.
 A key the program knows is a constructor, so different known keys differ by construction; `Text`
 gives the text of every key, which is what the checks for forbidden keys look at.
 */
module Json {

  datatype Key =
    // documents
    | Version | DefaultProfileId | Profiles | Format | ProfileObject | PayloadVersion | CreatedAppVersion
    // profile records
    | Id | Name | Gateway | Port | Description | UsernameHint | UseSso | TrustedCertSha256 | VpnType | IpsecObject
    // the secrets of a backup record
    | Secrets | Psk | XauthPassword
    // IPsec settings
    | IkeVersion | IkeMode | AuthMethod | AddressAssignment | LocalId | PeerId
    | Phase1Encryption | Phase1Integrity | DhGroup | IkeProposals | IkeDhGroups | Phase1Lifetime
    | Phase2Encryption | Phase2Integrity | ChildProposals | Pfs | PfsDhGroup | PfsDhGroups | Phase2Lifetime
    | NatTraversal | Dpd | DpdInterval | ReplayDetection | LocalLanAccess | SamlPort
    // one proposal
    | Encryption | Integrity
    // anything else
    | Other(name: string)
  {
    function Text(): string {
      match this
      case Version => "version"
      case DefaultProfileId => "default_profile_id"
      case Profiles => "profiles"
      case Format => "format"
      case ProfileObject => "profile"
      case PayloadVersion => "payload_version"
      case CreatedAppVersion => "created_app_version"
      case Id => "id"
      case Name => "name"
      case Gateway => "gateway"
      case Port => "port"
      case Description => "description"
      case UsernameHint => "username_hint"
      case UseSso => "use_sso"
      case TrustedCertSha256 => "trusted_cert_sha256"
      case VpnType => "vpn_type"
      case IpsecObject => "ipsec"
      case Secrets => "secrets"
      case Psk => "psk"
      case XauthPassword => "xauth_password"
      case IkeVersion => "ike_version"
      case IkeMode => "ike_mode"
      case AuthMethod => "auth_method"
      case AddressAssignment => "address_assignment"
      case LocalId => "local_id"
      case PeerId => "peer_id"
      case Phase1Encryption => "phase1_encryption"
      case Phase1Integrity => "phase1_integrity"
      case DhGroup => "dh_group"
      case IkeProposals => "ike_proposals"
      case IkeDhGroups => "ike_dh_groups"
      case Phase1Lifetime => "phase1_lifetime"
      case Phase2Encryption => "phase2_encryption"
      case Phase2Integrity => "phase2_integrity"
      case ChildProposals => "child_proposals"
      case Pfs => "pfs"
      case PfsDhGroup => "pfs_dh_group"
      case PfsDhGroups => "pfs_dh_groups"
      case Phase2Lifetime => "phase2_lifetime"
      case NatTraversal => "nat_traversal"
      case Dpd => "dpd"
      case DpdInterval => "dpd_interval"
      case ReplayDetection => "replay_detection"
      case LocalLanAccess => "local_lan_access"
      case SamlPort => "saml_port"
      case Encryption => "encryption"
      case Integrity => "integrity"
      case Other(name) => name
    }
  }

  datatype Value =
    | Null
    | Bool(b: bool)
    | Int(i: int)
    | Float(r: real)
    | Str(s: string)
    | List(items: seq<Value>)
    | Obj(fields: map<Key, Value>)

  type Object = map<Key, Value>

  /** `mapping.get(key, default)`. */
  function Get(m: Object, key: Key, default: Value): Value {
    if key in m then m[key] else default
  }

  /** Python's `value == n` for a whole number `n`: booleans and floats compare by value. */
  predicate EqualsInt(v: Value, n: int) {
    match v
    case Int(i) => i == n
    case Bool(b) => n == if b then 1 else 0
    case Float(r) => r == n as real
    case _ => false
  }

  /** `value in (None, {})`. */
  predicate NullOrEmpty(v: Value) {
    v == Null || v == Obj(map[])
  }
}
