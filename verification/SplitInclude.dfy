/**
 Split tunnelling: which subnets of a CFG_REPLY (RFC 7296, sections 3.15.1 and 3.15.2) are kept, and
 the narrowing of the remote traffic selectors to them (section 2.9).
 */
module SplitInclude {
  import opened Wrappers
  import opened Sequences
  import opened Prefix
  import opened IkeMessage
  import opened Subnets

  const IP4_DNS := 3
  const IP4_SUBNET := 13
  const DNS_DOMAIN := 25
  const FORTINET_540C := 21516
  const DEF_DOMAIN := 28674
  const SPLITDNS_NAME := 28675
  const SPLIT_INCLUDE := 28676
  const LOCAL_LAN := 28678

  const WILDCARD := "0.0.0.0/0"

  /** The lists filled from a CFG_REPLY. */
  datatype Lists = Lists(unity: seq<string>, rfc: seq<string>, fortinet: seq<string>, lan: seq<string>,
                         servers: seq<string>, domains: seq<string>)

  const NO_LISTS := Lists([], [], [], [], [], [])

  /** Where the selected prefixes come from; `Unset` after a reset. */
  datatype Source = Unset | NoSource | UnitySplitInclude | InternalSubnet | Fortinet540c | UnityLocalLan

  // ----- attributes -----

  predicate DomainChar(c: byte) {
    'A' as int <= c <= 'Z' as int || 'a' as int <= c <= 'z' as int || '0' as int <= c <= '9' as int
    || c == '.' as int || c == '-' as int || c == '_' as int || c == '~' as int
  }

  /** The C string in a buffer: up to the first zero byte, and at most 127 of them. */
  function CString(data: seq<byte>, room: nat): (s: string)
    ensures |s| <= room && |s| <= |data|
  {
    if data == [] || room == 0 || data[0] == 0 then "" else [data[0] as char] + CString(data[1..], room - 1)
  }

  predicate DomainAllowed(text: string) {
    && text != ""
    && forall i | 0 <= i < |text| :: text[i] as int < 256 && DomainChar(text[i] as int)
  }

  /** The text an attribute adds to the DNS domains, or nothing. */
  function DomainText(data: seq<byte>): string {
    var text := CString(data, 127);
    if DomainAllowed(text) then text else ""
  }

  function ServerText(data: seq<byte>): string {
    if |data| == 4 then Quad(WordOf(data)) else ""
  }

  lemma {:induction false} CStringIs(data: seq<byte>, room: nat, n: nat)
    requires n <= |data| && n <= room && (forall i | 0 <= i < n :: data[i] != 0) && (n < |data| && n < room ==> data[n] == 0)
    ensures |CString(data, room)| == n && forall i | 0 <= i < n :: CString(data, room)[i] as int == data[i]
  {
    if n > 0 { CStringIs(data[1..], room - 1, n - 1); }
  }

  /** A letter, a digit, or one of `.-_~`. */
  predicate DomainByte(b: byte) {
    65 <= b <= 90 || 97 <= b <= 122 || 48 <= b <= 57 || b == 46 || b == 45 || b == 95 || b == 126
  }

  /**
   The domain an attribute names: its first `n` bytes, up to a zero byte, the end or 127 bytes. It is
   kept byte for byte when it is not empty and every byte may stand in a domain, and dropped otherwise.
   */
  lemma DomainKept(data: seq<byte>, n: nat)
    requires n <= |data| && n <= 127 && (forall i | 0 <= i < n :: data[i] != 0) && (n < |data| && n < 127 ==> data[n] == 0)
    ensures if n > 0 && forall i | 0 <= i < n :: DomainByte(data[i]) then
              |DomainText(data)| == n && forall i | 0 <= i < n :: DomainText(data)[i] as int == data[i]
            else DomainText(data) == ""
  {
    CStringIs(data, 127, n);
    var text := CString(data, 127);
    assert forall i | 0 <= i < n :: DomainChar(text[i] as int) == DomainByte(data[i]);
  }

  /** A DNS server of four bytes is kept as its dotted quad, any other data adds nothing. */
  lemma ServerKept(data: seq<byte>)
    ensures |data| == 4 ==> ServerText(data) == Dotted(data[0], data[1], data[2], data[3], "")
    ensures |data| != 4 ==> ServerText(data) == ""
  {
    if |data| == 4 { PrintedAddress(data); }
  }

  /** A prefix list after one attribute. */
  function Added(list: seq<string>, data: seq<byte>, stride: int): seq<string> {
    AddAll(list, Texts(Visited(data, stride)))
  }

  /** What one attribute does to the lists. */
  function OnAttribute(l: Lists, a: Attribute): Lists {
    if a.code == IP4_SUBNET then l.(rfc := Added(l.rfc, a.data, 8))
    else if a.code == IP4_DNS then l.(servers := AddUnique(l.servers, ServerText(a.data)))
    else if a.code == DNS_DOMAIN || a.code == SPLITDNS_NAME || a.code == DEF_DOMAIN then
      l.(domains := AddUnique(l.domains, DomainText(a.data)))
    else if a.code == SPLIT_INCLUDE then l.(unity := Added(l.unity, a.data, 14))
    else if a.code == LOCAL_LAN then l.(lan := Added(l.lan, a.data, 14))
    else if a.code == FORTINET_540C then l.(fortinet := Added(l.fortinet, a.data, 0))
    else l
  }

  function OnAttributes(l: Lists, attributes: seq<Attribute>): Lists
    decreases |attributes|
  {
    if attributes == [] then l else OnAttributes(OnAttribute(l, attributes[0]), attributes[1..])
  }

  /** The attributes of all CFG_REPLY payloads, in order. */
  function ReplyAttributes(payloads: seq<Payload>): seq<Attribute> {
    if payloads == [] then []
    else (if IsReply(payloads[0]) then payloads[0].attributes else []) + ReplyAttributes(payloads[1..])
  }

  predicate IsReply(p: Payload) { p.Configuration? && p.cfg == CfgReply }

  predicate HasReply(payloads: seq<Payload>) {
    payloads != [] && (IsReply(payloads[0]) || HasReply(payloads[1..]))
  }

  lemma ReplyStep(l: Lists, payloads: seq<Payload>, i: nat)
    requires i < |payloads|
    ensures HasReply(payloads[i..]) == (IsReply(payloads[i]) || HasReply(payloads[i + 1..]))
    ensures !IsReply(payloads[i]) ==> ReplyAttributes(payloads[i..]) == ReplyAttributes(payloads[i + 1..])
    ensures IsReply(payloads[i]) ==>
              OnAttributes(OnAttributes(l, payloads[i].attributes), ReplyAttributes(payloads[i + 1..]))
              == OnAttributes(l, ReplyAttributes(payloads[i..]))
  {
    assert payloads[i..][1..] == payloads[i + 1..];
    if IsReply(payloads[i]) {
      AttributesTwice(l, payloads[i].attributes, ReplyAttributes(payloads[i + 1..]));
    }
  }

  lemma {:induction false} AttributesTwice(l: Lists, u: seq<Attribute>, v: seq<Attribute>)
    ensures OnAttributes(OnAttributes(l, u), v) == OnAttributes(l, u + v)
    decreases |u|
  {
    if u == [] {
      assert u + v == v;
    } else {
      assert (u + v)[1..] == u[1..] + v;
      AttributesTwice(OnAttribute(l, u[0]), u[1..], v);
    }
  }

  // ----- selection -----

  /** The highest-priority source that is not empty. */
  function SourceOf(l: Lists): Source {
    if l.unity != [] then UnitySplitInclude
    else if l.rfc != [] then InternalSubnet
    else if l.fortinet != [] then Fortinet540c
    else if l.lan != [] then UnityLocalLan
    else NoSource
  }

  function ListOf(l: Lists, s: Source): seq<string> {
    match s
    case UnitySplitInclude => l.unity
    case InternalSubnet => l.rfc
    case Fortinet540c => l.fortinet
    case UnityLocalLan => l.lan
    case _ => []
  }

  /** The sources in their order: SPLIT_INCLUDE, INTERNAL_IP4_SUBNET, the Fortinet attribute, LOCAL_LAN. */
  lemma FirstSource(l: Lists)
    ensures ListOf(l, SourceOf(l)) == if l.unity != [] then l.unity else if l.rfc != [] then l.rfc
                                      else if l.fortinet != [] then l.fortinet else l.lan
    ensures SourceOf(l) == NoSource <==> l.unity == [] && l.rfc == [] && l.fortinet == [] && l.lan == []
  {}

  /** The prefixes to narrow to: the chosen list, unless it asks for everything. */
  function Selected(l: Lists): seq<string> {
    var chosen := ListOf(l, SourceOf(l));
    if WILDCARD in chosen then [] else chosen
  }

  /** Every list is duplicate-free, and the prefix lists hold printed prefixes. */
  ghost predicate Clean(l: Lists) {
    && PrefixList(l.unity) && PrefixList(l.rfc) && PrefixList(l.fortinet) && PrefixList(l.lan)
    && Distinct(l.servers) && Distinct(l.domains)
  }

  ghost predicate PrefixList(list: seq<string>) { Distinct(list) && Prefixes(list) }

  ghost predicate IsPrefix(s: string) { exists w: Subnet :: s == Subnets.Text(w) }

  ghost predicate Prefixes(list: seq<string>) { forall s | s in list :: IsPrefix(s) }

  lemma PrefixNotEmpty(s: string)
    requires IsPrefix(s)
    ensures s != ""
  {}

  lemma WindowsArePrefixes(windows: seq<seq<byte>>)
    requires forall i | 0 <= i < |windows| :: |windows[i]| == 8
    ensures Prefixes(Texts(windows)) && "" !in Texts(windows)
  {
    forall i | 0 <= i < |windows| ensures IsPrefix(Texts(windows)[i]) && Texts(windows)[i] != "" {
      assert Texts(windows)[i] == Subnets.Text(SubnetOf(windows[i]));
    }
  }

  lemma AddedIsPrefixList(list: seq<string>, data: seq<byte>, stride: int)
    requires PrefixList(list)
    ensures PrefixList(Added(list, data, stride))
  {
    VisitedWindows(data, stride);
    WindowsArePrefixes(Visited(data, stride));
    AddAllMembers(list, Texts(Visited(data, stride)));
  }

  lemma {:induction false} VisitedWindows(data: seq<byte>, stride: int)
    ensures forall i | 0 <= i < |Visited(data, stride)| :: |Visited(data, stride)[i]| == 8
    decreases |data|
  {
    if |data| >= 8 { VisitedWindows(Skip(data, stride), stride); }
  }

  /** The lists only grow, at their ends. */
  predicate Extends(l: Lists, m: Lists) {
    l.unity <= m.unity && l.rfc <= m.rfc && l.fortinet <= m.fortinet && l.lan <= m.lan && l.servers <= m.servers && l.domains <= m.domains
  }

  lemma AddedGrows(list: seq<string>, data: seq<byte>, stride: int)
    ensures list <= Added(list, data, stride)
  {
    AddAllGrows(list, Texts(Visited(data, stride)));
  }

  lemma AttributeExtends(l: Lists, a: Attribute)
    ensures Extends(l, OnAttribute(l, a))
  {
    if a.code == IP4_SUBNET {
      AddedGrows(l.rfc, a.data, 8);
    } else if a.code == SPLIT_INCLUDE {
      AddedGrows(l.unity, a.data, 14);
    } else if a.code == LOCAL_LAN {
      AddedGrows(l.lan, a.data, 14);
    } else if a.code == FORTINET_540C {
      AddedGrows(l.fortinet, a.data, 0);
    }
  }

  /** So the lists are in the order in which the attributes came. */
  lemma {:induction false} AttributesExtend(l: Lists, attributes: seq<Attribute>)
    ensures Extends(l, OnAttributes(l, attributes))
    decreases |attributes|
  {
    if attributes != [] {
      AttributeExtends(l, attributes[0]);
      AttributesExtend(OnAttribute(l, attributes[0]), attributes[1..]);
    }
  }

  predicate NamesServer(a: Attribute, t: string) { a.code == 3 && |a.data| == 4 && t == ServerText(a.data) }

  predicate NamesDomain(a: Attribute, t: string) {
    (a.code == 25 || a.code == 28674 || a.code == 28675) && DomainText(a.data) != "" && t == DomainText(a.data)
  }

  lemma OneNegotiated(l: Lists, a: Attribute, t: string)
    ensures t in OnAttribute(l, a).servers <==> t in l.servers || NamesServer(a, t)
    ensures t in OnAttribute(l, a).domains <==> t in l.domains || NamesDomain(a, t)
  {
    if |a.data| == 4 { ServerNotEmpty(a.data); }
  }

  lemma ServerNotEmpty(data: seq<byte>)
    requires |data| == 4
    ensures ServerText(data) != ""
  {}

  /** The servers and search domains of a reply: exactly what its attributes carry. */
  lemma {:induction false} NegotiatedHolds(l: Lists, attributes: seq<Attribute>, t: string)
    ensures t in OnAttributes(l, attributes).servers <==>
              t in l.servers || exists i :: 0 <= i < |attributes| && NamesServer(attributes[i], t)
    ensures t in OnAttributes(l, attributes).domains <==>
              t in l.domains || exists i :: 0 <= i < |attributes| && NamesDomain(attributes[i], t)
    decreases |attributes|
  {
    if attributes != [] {
      OneNegotiated(l, attributes[0], t);
      NegotiatedHolds(OnAttribute(l, attributes[0]), attributes[1..], t);
      var rest := attributes[1..];
      assert forall i | 0 <= i < |rest| :: rest[i] == attributes[i + 1];
      assert forall i | 1 <= i < |attributes| :: attributes[i] == rest[i - 1];
    }
  }

  lemma AttributeKeepsClean(l: Lists, a: Attribute)
    requires Clean(l)
    ensures Clean(OnAttribute(l, a))
  {
    if a.code == IP4_SUBNET {
      AddedIsPrefixList(l.rfc, a.data, 8);
    } else if a.code == SPLIT_INCLUDE {
      AddedIsPrefixList(l.unity, a.data, 14);
    } else if a.code == LOCAL_LAN {
      AddedIsPrefixList(l.lan, a.data, 14);
    } else if a.code == FORTINET_540C {
      AddedIsPrefixList(l.fortinet, a.data, 0);
    }
  }

  lemma {:induction false} AttributesKeepClean(l: Lists, attributes: seq<Attribute>)
    requires Clean(l)
    ensures Clean(OnAttributes(l, attributes))
    decreases |attributes|
  {
    if attributes != [] {
      AttributeKeepsClean(l, attributes[0]);
      AttributesKeepClean(OnAttribute(l, attributes[0]), attributes[1..]);
    }
  }

  lemma SelectedIsPrefixList(l: Lists)
    requires Clean(l)
    ensures PrefixList(Selected(l)) && WILDCARD !in Selected(l)
  {}

  // ----- traffic selectors -----

  datatype Selector = Ipv4Range(from: Word, to: Word) | OtherSelector(content: nat)

  datatype NarrowKind = InitiatorPostNoauth | InitiatorPostAuth | OtherNarrowing

  predicate IsWildcard(s: Selector) { s.Ipv4Range? && s.from == Falses(32) && s.to == Trues(32) }

  predicate HasWildcard(remote: seq<Selector>) { exists i | 0 <= i < |remote| :: IsWildcard(remote[i]) }

  /** The library's conversion of a printed prefix; it may fail. */
  type Conversion = string -> Option<Selector>

  function Converted(convert: Conversion, prefixes: seq<string>): seq<Selector>
    decreases |prefixes|
  {
    if prefixes == [] then []
    else
      (match convert(prefixes[0]) case Some(s) => [s] case None => [])
      + Converted(convert, prefixes[1..])
  }

  /** The remote selectors after the narrow hook. */
  function Narrowed(convert: Conversion, kind: NarrowKind, selected: seq<string>, remote: seq<Selector>): seq<Selector> {
    if kind == OtherNarrowing || selected == [] || !HasWildcard(remote) then remote
    else Converted(convert, selected)
  }

  /** A prefix that cannot be converted is left out, and no other. */
  lemma {:induction false} ConvertedHolds(convert: Conversion, prefixes: seq<string>, x: Selector)
    ensures x in Converted(convert, prefixes) <==> exists p :: p in prefixes && convert(p) == Some(x)
    decreases |prefixes|
  {
    if prefixes != [] {
      ConvertedHolds(convert, prefixes[1..], x);
      assert prefixes == [prefixes[0]] + prefixes[1..];
    }
  }

  /** Selectors without 0.0.0.0-255.255.255.255 are not touched, nor any in another kind of narrowing. */
  lemma OthersUntouched(convert: Conversion, kind: NarrowKind, selected: seq<string>, remote: seq<Selector>)
    requires kind == OtherNarrowing || selected == []
             || forall i | 0 <= i < |remote| :: !(remote[i].Ipv4Range? && remote[i].from == Falses(32) && remote[i].to == Trues(32))
    ensures Narrowed(convert, kind, selected, remote) == remote
  {}

  /** A second narrowing changes nothing, whatever the masks and however the conversion went. */
  lemma NarrowTwice(convert: Conversion, kind: NarrowKind, again: NarrowKind, selected: seq<string>, remote: seq<Selector>)
    requires kind != OtherNarrowing
    ensures var once := Narrowed(convert, kind, selected, remote); Narrowed(convert, again, selected, once) == once
  {}

  // ----- the plugin -----

  class SelectorList {
    var items: seq<Selector>

    constructor (items: seq<Selector>)
      ensures this.items == items
    {
      this.items := items;
    }
  }

  class Plugin {
    var unity: seq<string>
    var rfc: seq<string>
    var fortinet: seq<string>
    var lan: seq<string>
    var servers: seq<string>
    var domains: seq<string>
    var selected: seq<string>
    var source: Source
    var split: bool

    function Current(): Lists
      reads this
    {
      Lists(unity, rfc, fortinet, lan, servers, domains)
    }

    /** What holds whenever the mutex is free. */
    ghost predicate Valid()
      reads this
    {
      && Clean(Current())
      && selected == Selected(Current())
      && (split <==> selected != [])
      && (source == Unset || source == SourceOf(Current()))
    }

    constructor ()
      ensures Valid() && Current() == NO_LISTS
    {
      unity, rfc, fortinet, lan, servers, domains, selected := [], [], [], [], [], [], [];
      source, split := Unset, false;
    }

    method Reset()
      modifies this
      ensures Valid() && Current() == NO_LISTS && source == Unset
    {
      unity, rfc, fortinet, lan, servers, domains, selected := [], [], [], [], [], [], [];
      source, split := Unset, false;
    }

    /** `copy_list` into an empty list. */
    method Copied(list: seq<string>) returns (r: seq<string>)
      ensures r == AddAll([], list)
    {
      r := [];
      for i := 0 to |list|
        invariant AddAll(r, list[i..]) == AddAll([], list)
      {
        assert list[i..][1..] == list[i + 1..];
        r := AddUniqueString(r, list[i]);
      }
    }

    /** The first list that is not empty. */
    method Choose()
      requires Clean(Current())
      modifies this`selected, this`source
      ensures source == SourceOf(Current()) && selected == ListOf(Current(), source)
    {
      selected, source := [], NoSource;
      if |unity| > 0 {
        selected := Copied(unity);
        source := UnitySplitInclude;
      } else if |rfc| > 0 {
        selected := Copied(rfc);
        source := InternalSubnet;
      } else if |fortinet| > 0 {
        selected := Copied(fortinet);
        source := Fortinet540c;
      } else if |lan| > 0 {
        selected := Copied(lan);
        source := UnityLocalLan;
      }
      assert selected == AddAll([], ListOf(Current(), source));
      CopyIsSame(ListOf(Current(), source));
    }

    /** Chooses the source and decides between split and full tunnel. */
    method Classify()
      requires Clean(Current())
      modifies this`selected, this`source, this`split
      ensures Valid() && source == SourceOf(Current())
    {
      split := false;
      Choose();
      if |selected| > 0 && WILDCARD !in selected {
        split := true;
      } else {
        selected, split := [], false;
      }
    }

    method HandleAttribute(a: Attribute)
      modifies this`unity, this`rfc, this`fortinet, this`lan, this`servers, this`domains
      ensures Current() == OnAttribute(old(Current()), a)
    {
      if a.code == IP4_SUBNET {
        rfc := ParseSubnetBytes(rfc, a.data, 8);
      } else if a.code == IP4_DNS {
        if |a.data| == 4 {
          servers := AddUniqueString(servers, Quad(WordOf(a.data)));
        }
      } else if a.code == DNS_DOMAIN || a.code == SPLITDNS_NAME || a.code == DEF_DOMAIN {
        if DomainAllowed(CString(a.data, 127)) {
          domains := AddUniqueString(domains, CString(a.data, 127));
        }
      } else if a.code == SPLIT_INCLUDE {
        unity := ParseSubnetBytes(unity, a.data, 14);
      } else if a.code == LOCAL_LAN {
        lan := ParseSubnetBytes(lan, a.data, 14);
      } else if a.code == FORTINET_540C {
        fortinet := ParseSubnetBytes(fortinet, a.data, 0);
      }
    }

    method HandleAttributes(attributes: seq<Attribute>)
      modifies this`unity, this`rfc, this`fortinet, this`lan, this`servers, this`domains
      ensures Current() == OnAttributes(old(Current()), attributes)
    {
      for i := 0 to |attributes|
        invariant OnAttributes(Current(), attributes[i..]) == OnAttributes(old(Current()), attributes)
      {
        assert attributes[i..][1..] == attributes[i + 1..];
        HandleAttribute(attributes[i]);
      }
    }

    /** Reads the attributes of every CFG_REPLY into the lists, which the first one empties. */
    method ReadReplies(payloads: seq<Payload>) returns (seen: bool)
      modifies this
      ensures seen == HasReply(payloads)
      ensures if seen then Current() == OnAttributes(NO_LISTS, ReplyAttributes(payloads)) else unchanged(this)
    {
      seen := false;
      ghost var goal := OnAttributes(NO_LISTS, ReplyAttributes(payloads));
      assert payloads[0..] == payloads;
      for i := 0 to |payloads|
        invariant HasReply(payloads) == (seen || HasReply(payloads[i..]))
        invariant !seen ==> unchanged(this) && ReplyAttributes(payloads[i..]) == ReplyAttributes(payloads)
        invariant seen ==> OnAttributes(Current(), ReplyAttributes(payloads[i..])) == goal
      {
        ReplyStep(if seen then Current() else NO_LISTS, payloads, i);
        if !IsReply(payloads[i]) {
          continue;
        }
        if !seen {
          Reset();
          seen := true;
        }
        HandleAttributes(payloads[i].attributes);
      }
    }

    /** Only a message with a CFG_REPLY changes anything; it replaces all that was known. */
    method ParseIncoming(payloads: seq<Payload>)
      requires Valid()
      modifies this
      ensures Valid()
      ensures Current() == if HasReply(payloads) then OnAttributes(NO_LISTS, ReplyAttributes(payloads)) else old(Current())
      ensures !HasReply(payloads) ==> source == old(source)
    {
      var seen := ReadReplies(payloads);
      if seen {
        AttributesKeepClean(NO_LISTS, ReplyAttributes(payloads));
        Classify();
      }
    }

    method NarrowHook(convert: Conversion, kind: NarrowKind, remote: SelectorList)
      requires Valid()
      modifies remote
      ensures remote.items == Narrowed(convert, kind, selected, old(remote.items))
    {
      if kind != InitiatorPostNoauth && kind != InitiatorPostAuth {
        return;
      }
      if !split || |selected| == 0 {
        return;
      }
      if !HasWildcard(remote.items) {
        return;
      }
      remote.items := [];
      for i := 0 to |selected|
        modifies remote
        invariant remote.items + Converted(convert, selected[i..]) == Converted(convert, selected)
      {
        assert selected[i..][1..] == selected[i + 1..];
        var ts := convert(selected[i]);
        if ts.Some? {
          remote.items := remote.items + [ts.value];
        }
      }
    }

    method UpDownHook(up: bool)
      requires Valid()
      modifies this
      ensures Valid() && Current() == if up then old(Current()) else NO_LISTS
      ensures up ==> source == old(source)
    {
      if !up {
        Reset();
      }
    }
  }

  lemma CopyIsSame(list: seq<string>)
    requires PrefixList(list)
    ensures AddAll([], list) == list
  {
    assert [] + list == list;
    if "" in list { PrefixNotEmpty(""); }
    AddAllDistinct([], list);
  }
}
