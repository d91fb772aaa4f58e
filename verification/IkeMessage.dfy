/**
 IKEv2 messages (RFC 7296) as the charon plugin sees them: a list of payloads. `content` stands for
 the parts of a payload the plugin does not look at.
 */
module IkeMessage {
  import opened Wrappers

  datatype CfgType = CfgRequest | CfgReply | CfgOther

  datatype Attribute = Attribute(code: nat, data: seq<byte>)

  datatype Payload =
    | IdInitiator(content: nat)
    | Notify(code: nat, data: seq<byte>)
    | Auth(content: nat)
    | Configuration(cfg: CfgType, attributes: seq<Attribute>)
    | SecurityAssociation(content: nat)
    | TsInitiator(content: nat)
    | TsResponder(content: nat)
    | VendorId(data: seq<byte>)
    | OtherPayload(content: nat)
}
