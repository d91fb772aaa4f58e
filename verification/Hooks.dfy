/** The message hook: which messages the plugin reads, rewrites or leaves alone. */
module Hooks {
  import opened Wrappers
  import opened Sequences
  import opened IkeMessage
  import opened SplitInclude
  import opened FirstAuth

  const CONNECT_LICENSE: seq<byte> := [0x4c, 0x53, 0x42, 0x7b, 0x6d, 0x46, 0x5d, 0x1b, 0x33, 0x7b, 0xb7, 0x55, 0xa3, 0x7a, 0x7f, 0xef]
  const ENDPOINT_CONTROL: seq<byte> := [0xb4, 0xf0, 0x1c, 0xa9, 0x51, 0xe9, 0xda, 0x8d, 0x0b, 0xaf, 0xbb, 0xd3, 0x4a, 0xd3, 0x04, 0x4e]
  const EAP_EXTENSION: seq<byte> := [0xc1, 0xdc, 0x43, 0x50, 0x47, 0x6b, 0x98, 0xa4, 0x29, 0xb9, 0x17, 0x81, 0x91, 0x4c, 0xa4, 0x3e]

  /** The vendor ids announced on IKE_SA_INIT. */
  const VENDOR_IDS: seq<seq<byte>> := [CONNECT_LICENSE, ENDPOINT_CONTROL, EAP_EXTENSION]

  datatype Exchange = SaInit | IkeAuth | OtherExchange

  datatype Header = Header(plain: bool, version2: bool, incoming: bool, request: bool, exchange: Exchange, id: nat)

  /** The message with every missing vendor id appended. */
  function WithVendorIds(s: seq<Payload>, vids: seq<seq<byte>>): seq<Payload>
    decreases |vids|
  {
    if vids == [] then s
    else WithVendorIds(if VendorId(vids[0]) in s then s else s + [VendorId(vids[0])], vids[1..])
  }

  predicate AllPresent(s: seq<Payload>, vids: seq<seq<byte>>) { forall v | v in vids :: VendorId(v) in s }

  /** Everything that was there stays in front, and every vendor id is there. */
  lemma {:induction false} VendorIdsPresent(s: seq<Payload>, vids: seq<seq<byte>>)
    ensures s <= WithVendorIds(s, vids) && AllPresent(WithVendorIds(s, vids), vids)
    decreases |vids|
  {
    if vids != [] {
      var next := if VendorId(vids[0]) in s then s else s + [VendorId(vids[0])];
      VendorIdsPresent(next, vids[1..]);
      assert VendorId(vids[0]) in next;
      assert vids == [vids[0]] + vids[1..];
    }
  }

  /** Nothing but the missing vendor ids is added, each once and in their order. */
  lemma {:induction false} VendorIdsAppended(s: seq<Payload>, vids: seq<seq<byte>>)
    requires Distinct(vids)
    ensures WithVendorIds(s, vids) == s + Announced(s, vids)
    decreases |vids|
  {
    if vids != [] {
      var rest := vids[1..];
      var next := if VendorId(vids[0]) in s then s else s + [VendorId(vids[0])];
      VendorIdsAppended(next, rest);
      assert vids[0] !in rest;
      SameAnnounced(next, s, rest);
    }
  }

  /** The vendor ids the message does not have. */
  function Announced(s: seq<Payload>, vids: seq<seq<byte>>): seq<Payload> {
    if vids == [] then [] else (if VendorId(vids[0]) in s then [] else [VendorId(vids[0])]) + Announced(s, vids[1..])
  }

  lemma {:induction false} SameAnnounced(s: seq<Payload>, t: seq<Payload>, vids: seq<seq<byte>>)
    requires forall v | v in vids :: VendorId(v) in s <==> VendorId(v) in t
    ensures Announced(s, vids) == Announced(t, vids)
  {
    if vids != [] {
      assert vids[0] in vids && forall v | v in vids[1..] :: v in vids;
      SameAnnounced(s, t, vids[1..]);
    }
  }

  /** A retransmitted request gets no second copy. */
  lemma {:induction false} VendorIdsOnce(s: seq<Payload>, vids: seq<seq<byte>>)
    requires AllPresent(s, vids)
    ensures WithVendorIds(s, vids) == s
    decreases |vids|
  {
    if vids != [] {
      assert vids[0] in vids;
      assert forall v | v in vids[1..] :: v in vids;
      VendorIdsOnce(s, vids[1..]);
    }
  }

  lemma VendorIdsTwice(s: seq<Payload>, vids: seq<seq<byte>>)
    ensures WithVendorIds(WithVendorIds(s, vids), vids) == WithVendorIds(s, vids)
  {
    VendorIdsPresent(s, vids);
    VendorIdsOnce(WithVendorIds(s, vids), vids);
  }

  /** Appends the missing vendor ids; it stops at the first one that cannot be allocated. */
  method AddVendorIds(message: PayloadList, vids: seq<seq<byte>>, made: nat -> bool) returns (ok: bool)
    modifies message
    ensures exists n: nat :: n <= |vids| && message.items == WithVendorIds(old(message.items), vids[..n]) && (ok <==> n == |vids|)
    ensures (forall i: nat | i < |vids| :: made(i)) ==> ok
  {
    assert vids[..|vids|] == vids;
    for i := 0 to |vids|
      invariant message.items == WithVendorIds(old(message.items), vids[..i])
    {
      OneMoreVendorId(old(message.items), vids, i);
      if VendorId(vids[i]) in message.items {
        continue;
      }
      if !made(i) {
        return false;
      }
      message.items := message.items + [VendorId(vids[i])];
    }
    ok := true;
  }

  lemma {:induction false} OneMoreVendorId(s: seq<Payload>, vids: seq<seq<byte>>, n: nat)
    requires n < |vids|
    ensures var before := WithVendorIds(s, vids[..n]);
            WithVendorIds(s, vids[..n + 1]) == if VendorId(vids[n]) in before then before else before + [VendorId(vids[n])]
    decreases n
  {
    if n > 0 {
      var next := if VendorId(vids[0]) in s then s else s + [VendorId(vids[0])];
      assert vids[..n][1..] == vids[1..][..n - 1] && vids[..n + 1][1..] == vids[1..][..n];
      OneMoreVendorId(next, vids[1..], n - 1);
    } else {
      assert vids[..1][1..] == [];
    }
  }

  predicate IsFirstAuth(h: Header) {
    h.plain && h.version2 && !h.incoming && h.request && h.exchange == IkeAuth && h.id == 1
  }

  predicate IsInitRequest(h: Header) {
    h.plain && h.version2 && !h.incoming && h.request && h.exchange == SaInit
  }

  predicate IsRead(h: Header) { h.plain && h.version2 && h.incoming }

  /**
   One message. Only a plain IKEv2 request that is the first IKE_AUTH or an IKE_SA_INIT is changed,
   and only an incoming one is read.
   */
  method MessageHook(plugin: Plugin, h: Header, message: PayloadList, env: Env, cpEnv: CpEnv, made: nat -> bool)
    requires plugin.Valid()
    modifies plugin, message
    ensures plugin.Valid()
    ensures plugin.Current() == if IsRead(h) && HasReply(old(message.items))
                                then OnAttributes(NO_LISTS, ReplyAttributes(old(message.items))) else old(plugin.Current())
    ensures IsFirstAuth(h) ==> message.items == Rewritten(env, NewCp(cpEnv), old(message.items))
    ensures IsInitRequest(h) ==> exists n: nat :: n <= |VENDOR_IDS| && message.items == WithVendorIds(old(message.items), VENDOR_IDS[..n])
    ensures IsInitRequest(h) && (forall i: nat | i < |VENDOR_IDS| :: made(i)) ==> message.items == WithVendorIds(old(message.items), VENDOR_IDS)
    ensures !IsFirstAuth(h) && !IsInitRequest(h) ==> message.items == old(message.items)
  {
    assert VENDOR_IDS[..|VENDOR_IDS|] == VENDOR_IDS;
    if !h.plain {
      return;
    }
    if !h.version2 {
      return;
    }
    if h.incoming {
      plugin.ParseIncoming(message.items);
      return;
    }
    if !h.request {
      return;
    }
    if h.exchange == SaInit {
      var _ := AddVendorIds(message, VENDOR_IDS, made);
      return;
    }
    if h.exchange == IkeAuth && h.id == 1 {
      var _ := RewriteFirstAuth(message, env, cpEnv);
    }
  }
}
