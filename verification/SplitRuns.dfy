/**
 The plugin over whole runs of its hooks, and what the narrowed selectors mean: which addresses they
 let through.
 */
module SplitRuns {
  import opened Wrappers
  import opened Sequences
  import opened Prefix
  import opened IkeMessage
  import opened Subnets
  import opened SplitInclude

  /** The calls the daemon makes; each runs under the plugin's mutex. */
  datatype Event =
    | Incoming(payloads: seq<Payload>)
    | Narrowing(kind: NarrowKind, remote: seq<Selector>)
    | UpDown(up: bool)

  /** A CFG_REPLY replaces what is known, going down forgets it, and nothing else changes it. */
  function Updated(known: Lists, e: Event): Lists {
    match e
    case Incoming(payloads) => if HasReply(payloads) then OnAttributes(NO_LISTS, ReplyAttributes(payloads)) else known
    case Narrowing(_, _) => known
    case UpDown(up) => if up then known else NO_LISTS
  }

  function ListsAfter(events: seq<Event>): Lists {
    if events == [] then NO_LISTS else Updated(ListsAfter(events[..|events| - 1]), events[|events| - 1])
  }

  lemma {:induction false} ListsAfterAreClean(events: seq<Event>)
    ensures Clean(ListsAfter(events))
  {
    if events != [] {
      var last := events[|events| - 1];
      if last.Incoming? {
        AttributesKeepClean(NO_LISTS, ReplyAttributes(last.payloads));
      }
      ListsAfterAreClean(events[..|events| - 1]);
    }
  }

  /** The remote selectors a narrowing sees and what it should leave. */
  ghost predicate NarrowedAsKnown(convert: Conversion, events: seq<Event>, i: nat, result: seq<Selector>)
    requires i < |events|
  {
    events[i].Narrowing? ==>
      result == Narrowed(convert, events[i].kind, Selected(ListsAfter(events[..i])), events[i].remote)
  }

  /** One call of a hook; a narrowing returns the selectors it leaves. */
  method Handle(plugin: Plugin, convert: Conversion, e: Event) returns (result: seq<Selector>)
    requires plugin.Valid()
    modifies plugin
    ensures plugin.Valid() && plugin.Current() == Updated(old(plugin.Current()), e)
    ensures e.Narrowing? ==> result == Narrowed(convert, e.kind, Selected(old(plugin.Current())), e.remote)
  {
    result := [];
    match e {
      case Incoming(payloads) =>
        plugin.ParseIncoming(payloads);
      case Narrowing(kind, remote) =>
        var list := new SelectorList(remote);
        plugin.NarrowHook(convert, kind, list);
        result := list.items;
      case UpDown(up) =>
        plugin.UpDownHook(up);
    }
  }

  /** Any run of the hooks: every narrowing replaces the selectors by what is known at that point, or leaves them. */
  method Run(plugin: Plugin, convert: Conversion, events: seq<Event>) returns (results: seq<seq<Selector>>)
    requires plugin.Valid() && plugin.Current() == NO_LISTS
    modifies plugin
    ensures plugin.Valid() && plugin.Current() == ListsAfter(events)
    ensures |results| == |events|
    ensures forall i | 0 <= i < |events| :: NarrowedAsKnown(convert, events, i, results[i])
  {
    results := [];
    for i := 0 to |events|
      invariant plugin.Valid() && plugin.Current() == ListsAfter(events[..i])
      invariant |results| == i
      invariant forall j | 0 <= j < i :: NarrowedAsKnown(convert, events, j, results[j])
    {
      assert events[..i + 1][..i] == events[..i];
      var result := Handle(plugin, convert, events[i]);
      results := results + [result];
    }
    assert events[..|events|] == events;
  }

  predicate Quiet(events: seq<Event>) {
    forall i | 0 <= i < |events| :: events[i].Incoming? ==> !HasReply(events[i].payloads)
  }

  /** After the IKE SA went down nothing is narrowed until another CFG_REPLY arrives. */
  lemma {:induction false} NothingAfterDown(before: seq<Event>, after: seq<Event>)
    requires Quiet(after)
    ensures ListsAfter(before + [UpDown(false)] + after) == NO_LISTS
    ensures forall convert, kind, remote :: Narrowed(convert, kind, Selected(NO_LISTS), remote) == remote
    decreases |after|
  {
    var events := before + [UpDown(false)] + after;
    if after != [] {
      var n := |after| - 1;
      assert events[..|events| - 1] == before + [UpDown(false)] + after[..n];
      assert events[|events| - 1] == after[n];
      NothingAfterDown(before, after[..n]);
    }
  }

  // ----- which addresses a selector lets through -----

  /** Unsigned comparison, bit by bit. */
  predicate AtMost(a: Bits, b: Bits)
    requires |a| == |b|
  {
    a == [] || (!a[0] && b[0]) || (a[0] == b[0] && AtMost(a[1..], b[1..]))
  }

  predicate InRange(x: Word, s: Selector) { s.Ipv4Range? && AtMost(s.from, x) && AtMost(x, s.to) }

  predicate Covers(remote: seq<Selector>, x: Word) { exists i | 0 <= i < |remote| :: InRange(x, remote[i]) }

  function RangeOf(s: Subnet): Selector {
    var network, n := And(s.addr, s.mask), LeadingOnes(s.mask);
    Ipv4Range(network[..n] + Falses(32 - n), network[..n] + Trues(32 - n))
  }

  /** The library turns a printed prefix into the range of its addresses. */
  ghost predicate Faithful(convert: Conversion) {
    forall s: Subnet :: convert(Subnets.Text(s)) == Some(RangeOf(s))
  }

  lemma {:induction false} AllBelow(x: Bits)
    ensures AtMost(Falses(|x|), x) && AtMost(x, Trues(|x|))
  {
    if x != [] {
      AllBelow(x[1..]);
      assert Falses(|x|)[1..] == Falses(|x| - 1) && Trues(|x|)[1..] == Trues(|x| - 1);
    }
  }

  /** Between the lowest and the highest completion of a prefix lie exactly the words that start with it. */
  lemma {:induction false} PrefixRange(p: Bits, x: Bits)
    requires |p| <= |x|
    ensures AtMost(p + Falses(|x| - |p|), x) && AtMost(x, p + Trues(|x| - |p|)) <==> x[..|p|] == p
  {
    if p == [] {
      assert p + Falses(|x|) == Falses(|x|) && p + Trues(|x|) == Trues(|x|);
      AllBelow(x);
    } else {
      var k := |x| - |p|;
      assert (p + Falses(k))[1..] == p[1..] + Falses(k) && (p + Trues(k))[1..] == p[1..] + Trues(k);
      PrefixRange(p[1..], x[1..]);
      assert x[..|p|] == [x[0]] + x[1..][..|p| - 1] && p == [p[0]] + p[1..];
    }
  }

  lemma RangeIsPrefix(s: Subnet, x: Word)
    ensures InRange(x, RangeOf(s)) <==> InPrefix(x, And(s.addr, s.mask), LeadingOnes(s.mask))
  {
    var network, n := And(s.addr, s.mask), LeadingOnes(s.mask);
    PrefixRange(network[..n], x);
  }

  /** Some listed text is that of a subnet for which `holds`. */
  ghost predicate Listed(prefixes: seq<string>, holds: Subnet -> bool) {
    exists s: Subnet :: Subnets.Text(s) in prefixes && holds(s)
  }

  lemma ConvertedStep(convert: Conversion, prefixes: seq<string>)
    requires Faithful(convert) && Prefixes(prefixes) && prefixes != []
    ensures convert(prefixes[0]).Some? && Prefixes(prefixes[1..])
    ensures Converted(convert, prefixes) == [convert(prefixes[0]).value] + Converted(convert, prefixes[1..])
  {
    assert prefixes[0] in prefixes;
    assert forall x | x in prefixes[1..] :: x in prefixes;
    var first: Subnet :| prefixes[0] == Subnets.Text(first);
    assert convert(Subnets.Text(first)) == Some(RangeOf(first));
  }

  /** The selectors made of printed prefixes, one by one. */
  lemma {:induction false} ConvertedAt(convert: Conversion, prefixes: seq<string>, i: nat)
    requires Faithful(convert) && Prefixes(prefixes) && i < |prefixes|
    ensures |Converted(convert, prefixes)| == |prefixes|
    ensures convert(prefixes[i]) == Some(Converted(convert, prefixes)[i])
    decreases |prefixes|
  {
    ConvertedStep(convert, prefixes);
    if i > 0 {
      ConvertedAt(convert, prefixes[1..], i - 1);
    } else if |prefixes| > 1 {
      ConvertedAt(convert, prefixes[1..], 0);
    }
  }

  lemma ConvertedAll(convert: Conversion, prefixes: seq<string>)
    requires Faithful(convert) && Prefixes(prefixes)
    ensures |Converted(convert, prefixes)| == |prefixes|
    ensures forall i, s: Subnet | 0 <= i < |prefixes| && prefixes[i] == Subnets.Text(s) ::
              Converted(convert, prefixes)[i] == RangeOf(s)
  {
    if prefixes != [] { ConvertedAt(convert, prefixes, 0); }
    forall i, s: Subnet | 0 <= i < |prefixes| && prefixes[i] == Subnets.Text(s)
      ensures Converted(convert, prefixes)[i] == RangeOf(s)
    {
      ConvertedAt(convert, prefixes, i);
      assert convert(Subnets.Text(s)) == Some(RangeOf(s));
    }
  }

  /** The selectors let through exactly the addresses of the listed prefixes. */
  lemma SelectorsCover(convert: Conversion, prefixes: seq<string>, x: Word)
    requires Faithful(convert) && Prefixes(prefixes)
    ensures Covers(Converted(convert, prefixes), x)
            <==> Listed(prefixes, (s: Subnet) => InPrefix(x, And(s.addr, s.mask), LeadingOnes(s.mask)))
  {
    ConvertedAll(convert, prefixes);
    var remote := Converted(convert, prefixes);
    var holds := (s: Subnet) => InPrefix(x, And(s.addr, s.mask), LeadingOnes(s.mask));
    if Covers(remote, x) {
      var i :| 0 <= i < |remote| && InRange(x, remote[i]);
      assert prefixes[i] in prefixes;
      var s: Subnet :| prefixes[i] == Subnets.Text(s);
      RangeIsPrefix(s, x);
      assert holds(s);
    }
    if Listed(prefixes, holds) {
      var s: Subnet :| Subnets.Text(s) in prefixes && holds(s);
      var i :| 0 <= i < |prefixes| && prefixes[i] == Subnets.Text(s);
      RangeIsPrefix(s, x);
      assert InRange(x, remote[i]);
    }
  }

  predicate TextOfSome(subnets: seq<Subnet>, t: string) {
    exists i | 0 <= i < |subnets| :: t == Subnets.Text(subnets[i])
  }

  predicate AgreesWithSome(subnets: seq<Subnet>, x: Word) {
    exists i | 0 <= i < |subnets| :: Agrees(x, subnets[i].addr, subnets[i].mask)
  }

  ghost predicate AllContiguous(subnets: seq<Subnet>) {
    forall i | 0 <= i < |subnets| :: Contiguous(subnets[i].mask)
  }

  // ----- the subnets a reply carries -----

  predicate CarriesPrefixes(s: Source) { s != Unset && s != NoSource }

  function CodeOf(s: Source): nat
    requires CarriesPrefixes(s)
  {
    match s
    case UnitySplitInclude => SPLIT_INCLUDE
    case InternalSubnet => IP4_SUBNET
    case Fortinet540c => FORTINET_540C
    case UnityLocalLan => LOCAL_LAN
  }

  function StrideOf(s: Source): int {
    match s case InternalSubnet => 8 case Fortinet540c => 0 case _ => 14
  }

  function SubnetsIn(data: seq<byte>, stride: int): (s: seq<Subnet>)
    ensures |s| == |Visited(data, stride)|
    ensures forall i | 0 <= i < |s| :: |Visited(data, stride)[i]| == 8 && s[i] == SubnetOf(Visited(data, stride)[i])
  {
    VisitedWindows(data, stride);
    var windows := Visited(data, stride);
    seq(|windows|, i requires 0 <= i < |windows| => SubnetOf(windows[i]))
  }

  /** The subnets the attributes carry for one source, in order. */
  function SubnetsOf(attributes: seq<Attribute>, s: Source): seq<Subnet> {
    if attributes == [] || !CarriesPrefixes(s) then []
    else
      (if attributes[0].code == CodeOf(s) then SubnetsIn(attributes[0].data, StrideOf(s)) else [])
      + SubnetsOf(attributes[1..], s)
  }

  lemma TextIn(data: seq<byte>, stride: int, t: string)
    ensures t in Texts(Visited(data, stride)) <==> TextOfSome(SubnetsIn(data, stride), t)
  {
    var windows, subnets := Visited(data, stride), SubnetsIn(data, stride);
    if t in Texts(windows) {
      var i :| 0 <= i < |windows| && Texts(windows)[i] == t;
      assert t == Subnets.Text(subnets[i]);
    }
    if TextOfSome(subnets, t) {
      var i :| 0 <= i < |subnets| && t == Subnets.Text(subnets[i]);
      assert Texts(windows)[i] == t;
    }
  }

  lemma AddedTexts(list: seq<string>, data: seq<byte>, stride: int, t: string)
    ensures t in Added(list, data, stride) <==> t in list || TextOfSome(SubnetsIn(data, stride), t)
  {
    VisitedWindows(data, stride);
    WindowsArePrefixes(Visited(data, stride));
    AddAllMembers(list, Texts(Visited(data, stride)));
    TextIn(data, stride, t);
  }

  lemma TextOfEither(u: seq<Subnet>, v: seq<Subnet>, t: string)
    ensures TextOfSome(u + v, t) <==> TextOfSome(u, t) || TextOfSome(v, t)
  {
    if TextOfSome(u, t) {
      var i :| 0 <= i < |u| && t == Subnets.Text(u[i]);
      assert (u + v)[i] == u[i];
    }
    if TextOfSome(v, t) {
      var i :| 0 <= i < |v| && t == Subnets.Text(v[i]);
      assert (u + v)[|u| + i] == v[i];
    }
  }

  lemma OtherAttribute(l: Lists, a: Attribute, s: Source)
    requires CarriesPrefixes(s) && a.code != CodeOf(s)
    ensures ListOf(OnAttribute(l, a), s) == ListOf(l, s)
  {}

  lemma OwnAttribute(l: Lists, a: Attribute, s: Source)
    requires CarriesPrefixes(s) && a.code == CodeOf(s)
    ensures ListOf(OnAttribute(l, a), s) == Added(ListOf(l, s), a.data, StrideOf(s))
  {}

  lemma OneAttribute(l: Lists, a: Attribute, s: Source, t: string)
    requires CarriesPrefixes(s)
    ensures t in ListOf(OnAttribute(l, a), s) <==>
            t in ListOf(l, s) || (a.code == CodeOf(s) && TextOfSome(SubnetsIn(a.data, StrideOf(s)), t))
  {
    if a.code == CodeOf(s) {
      OwnAttribute(l, a, s);
      AddedTexts(ListOf(l, s), a.data, StrideOf(s), t);
    } else {
      OtherAttribute(l, a, s);
    }
  }

  /** The list of a source holds exactly the texts of the subnets that came for it. */
  lemma {:induction false} ListHolds(l: Lists, attributes: seq<Attribute>, s: Source, t: string)
    requires CarriesPrefixes(s)
    ensures t in ListOf(OnAttributes(l, attributes), s) <==> t in ListOf(l, s) || TextOfSome(SubnetsOf(attributes, s), t)
    decreases |attributes|
  {
    if attributes != [] {
      var a := attributes[0];
      OneAttribute(l, a, s, t);
      ListHolds(OnAttribute(l, a), attributes[1..], s, t);
      TextOfEither(if a.code == CodeOf(s) then SubnetsIn(a.data, StrideOf(s)) else [], SubnetsOf(attributes[1..], s), t);
    }
  }

  /** The subnets of the source the plugin chooses. */
  function ChosenSubnets(attributes: seq<Attribute>): seq<Subnet> {
    SubnetsOf(attributes, SourceOf(OnAttributes(NO_LISTS, attributes)))
  }

  /** What the plugin knows after a reply with these attributes. */
  function KnownFrom(attributes: seq<Attribute>): Lists { OnAttributes(NO_LISTS, attributes) }

  lemma ChosenHolds(attributes: seq<Attribute>, t: string)
    ensures t in ListOf(KnownFrom(attributes), SourceOf(KnownFrom(attributes))) <==> TextOfSome(ChosenSubnets(attributes), t)
  {
    var s := SourceOf(KnownFrom(attributes));
    if CarriesPrefixes(s) { ListHolds(NO_LISTS, attributes, s, t); }
  }

  /** Nothing is selected exactly when no prefixes came or one of the chosen source is 0.0.0.0/0; otherwise all of them are. */
  lemma SelectedHolds(attributes: seq<Attribute>)
    ensures Selected(KnownFrom(attributes)) == [] <==>
            ChosenSubnets(attributes) == [] || TextOfSome(ChosenSubnets(attributes), WILDCARD)
    ensures Selected(KnownFrom(attributes)) != [] ==>
              forall t :: t in Selected(KnownFrom(attributes)) <==> TextOfSome(ChosenSubnets(attributes), t)
  {
    var list, subnets := ListOf(KnownFrom(attributes), SourceOf(KnownFrom(attributes))), ChosenSubnets(attributes);
    forall t ensures t in list <==> TextOfSome(subnets, t) { ChosenHolds(attributes, t); }
    if subnets != [] { assert TextOfSome(subnets, Subnets.Text(subnets[0])); }
    if list != [] { assert list[0] in list; }
  }

  predicate InSome(subnets: seq<Subnet>, x: Word) {
    exists i | 0 <= i < |subnets| :: InPrefix(x, And(subnets[i].addr, subnets[i].mask), LeadingOnes(subnets[i].mask))
  }

  lemma TextsArePrefixes(prefixes: seq<string>, subnets: seq<Subnet>)
    requires forall t :: t in prefixes <==> TextOfSome(subnets, t)
    ensures Prefixes(prefixes)
  {
    forall t | t in prefixes ensures IsPrefix(t) {
      var i :| 0 <= i < |subnets| && t == Subnets.Text(subnets[i]);
    }
  }

  lemma CoversPrefixes(convert: Conversion, prefixes: seq<string>, subnets: seq<Subnet>, x: Word)
    requires Faithful(convert) && forall t :: t in prefixes <==> TextOfSome(subnets, t)
    ensures Covers(Converted(convert, prefixes), x) <==> InSome(subnets, x)
  {
    TextsArePrefixes(prefixes, subnets);
    SelectorsCover(convert, prefixes, x);
    var holds := (s: Subnet) => InPrefix(x, And(s.addr, s.mask), LeadingOnes(s.mask));
    if Listed(prefixes, holds) {
      var s: Subnet :| Subnets.Text(s) in prefixes && holds(s);
      assert TextOfSome(subnets, Subnets.Text(s));
      var i :| 0 <= i < |subnets| && Subnets.Text(s) == Subnets.Text(subnets[i]);
      SameText(subnets[i], s);
    }
    if InSome(subnets, x) {
      var i :| 0 <= i < |subnets| && InPrefix(x, And(subnets[i].addr, subnets[i].mask), LeadingOnes(subnets[i].mask));
      assert TextOfSome(subnets, Subnets.Text(subnets[i]));
      assert holds(subnets[i]);
    }
  }

  lemma ContiguousInSome(subnets: seq<Subnet>, x: Word)
    requires AllContiguous(subnets)
    ensures InSome(subnets, x) <==> AgreesWithSome(subnets, x)
  {
    forall i | 0 <= i < |subnets|
      ensures InPrefix(x, And(subnets[i].addr, subnets[i].mask), LeadingOnes(subnets[i].mask)) <==>
              Agrees(x, subnets[i].addr, subnets[i].mask)
    {
      ContiguousIsExact(x, subnets[i].addr, subnets[i].mask);
    }
  }

  // ----- when every address is let through -----

  /** The bits a subnet fixes. */
  function Fixed(s: Subnet): Bits { And(s.addr, s.mask)[..LeadingOnes(s.mask)] }

  function AllFixed(subnets: seq<Subnet>): (r: seq<Bits>)
    ensures |r| == |subnets| && forall i | 0 <= i < |subnets| :: r[i] == Fixed(subnets[i])
  {
    Map(Fixed, subnets)
  }

  /** What is left of the prefixes that start with `b` behind it. */
  function Half(prefixes: seq<Bits>, b: bool): seq<Bits> {
    if prefixes == [] then []
    else
      (if prefixes[0] != [] && prefixes[0][0] == b then [prefixes[0][1..]] else []) + Half(prefixes[1..], b)
  }

  lemma {:induction false} HalfHas(prefixes: seq<Bits>, b: bool, p: Bits)
    ensures p in Half(prefixes, b) <==> [b] + p in prefixes
  {
    if prefixes != [] {
      HalfHas(prefixes[1..], b, p);
      assert prefixes == [prefixes[0]] + prefixes[1..];
      if prefixes[0] == [b] + p { assert prefixes[0][1..] == p; }
      if prefixes[0] != [] { assert prefixes[0] == [prefixes[0][0]] + prefixes[0][1..]; }
    }
  }

  /** The prefixes leave out no word of `n` bits: one is empty, or both halves are covered. */
  predicate CoversAll(prefixes: seq<Bits>, n: nat)
    decreases n
  {
    [] in prefixes || (n > 0 && CoversAll(Half(prefixes, false), n - 1) && CoversAll(Half(prefixes, true), n - 1))
  }

  predicate Under(prefixes: seq<Bits>, x: Bits) { exists i | 0 <= i < |prefixes| :: prefixes[i] <= x }

  lemma {:induction false} CoveredWord(prefixes: seq<Bits>, n: nat, x: Bits)
    requires CoversAll(prefixes, n) && |x| == n
    ensures Under(prefixes, x)
    decreases n
  {
    if [] in prefixes {
      var i :| 0 <= i < |prefixes| && prefixes[i] == [];
      assert prefixes[i] <= x;
    } else {
      var half := Half(prefixes, x[0]);
      CoveredWord(half, n - 1, x[1..]);
      var i :| 0 <= i < |half| && half[i] <= x[1..];
      HalfHas(prefixes, x[0], half[i]);
      var j :| 0 <= j < |prefixes| && prefixes[j] == [x[0]] + half[i];
      assert x == [x[0]] + x[1..];
      assert prefixes[j] <= x;
    }
  }

  lemma OnlyEmptyUnder(prefixes: seq<Bits>)
    requires [] !in prefixes
    ensures !Under(prefixes, [])
  {
    forall i | 0 <= i < |prefixes| ensures !(prefixes[i] <= []) {
      assert prefixes[i] in prefixes;
    }
  }

  lemma {:induction false} MissedWord(prefixes: seq<Bits>, n: nat) returns (x: Bits)
    requires !CoversAll(prefixes, n) && forall p | p in prefixes :: |p| <= n
    ensures |x| == n && !Under(prefixes, x)
    decreases n
  {
    if n == 0 {
      x := [];
      OnlyEmptyUnder(prefixes);
    } else {
      var b := CoversAll(Half(prefixes, false), n - 1);
      forall p | p in Half(prefixes, b) ensures |p| <= n - 1 { HalfHas(prefixes, b, p); }
      var rest := MissedWord(Half(prefixes, b), n - 1);
      x := [b] + rest;
      forall i | 0 <= i < |prefixes| ensures !(prefixes[i] <= x) {
        if prefixes[i] <= x { UnderHalf(prefixes, b, rest, i); }
      }
    }
  }

  lemma UnderHalf(prefixes: seq<Bits>, b: bool, rest: Bits, i: nat)
    requires i < |prefixes| && [] !in prefixes && prefixes[i] <= [b] + rest
    ensures Under(Half(prefixes, b), rest)
  {
    var p := prefixes[i];
    assert p in prefixes && p[0] == ([b] + rest)[0] == b;
    assert p == [b] + p[1..];
    HalfHas(prefixes, b, p[1..]);
    var j :| 0 <= j < |Half(prefixes, b)| && Half(prefixes, b)[j] == p[1..];
    assert p[1..] <= rest;
  }

  lemma UnderIsIn(subnets: seq<Subnet>, x: Word)
    ensures Under(AllFixed(subnets), x) <==> InSome(subnets, x)
  {
    forall i | 0 <= i < |subnets|
      ensures AllFixed(subnets)[i] <= x <==> InPrefix(x, And(subnets[i].addr, subnets[i].mask), LeadingOnes(subnets[i].mask))
    {
      var n := LeadingOnes(subnets[i].mask);
      assert Fixed(subnets[i]) <= x <==> x[..n] == Fixed(subnets[i]);
    }
  }

  /** Every address lies in one of the subnets exactly when their fixed bits cover all words. */
  lemma AllWordsWhen(subnets: seq<Subnet>)
    ensures (forall x: Word :: InSome(subnets, x)) <==> CoversAll(AllFixed(subnets), 32)
  {
    var fixed := AllFixed(subnets);
    if CoversAll(fixed, 32) {
      forall x: Word ensures InSome(subnets, x) {
        CoveredWord(fixed, 32, x);
        UnderIsIn(subnets, x);
      }
    } else {
      assert forall p | p in fixed :: |p| <= 32;
      var x := MissedWord(fixed, 32);
      UnderIsIn(subnets, x);
    }
  }

  /** A subnet of length zero alone covers everything. */
  lemma ZeroLengthCovers(subnets: seq<Subnet>, i: nat)
    requires i < |subnets| && LeadingOnes(subnets[i].mask) == 0
    ensures CoversAll(AllFixed(subnets), 32)
  {
    assert AllFixed(subnets)[i] == [];
  }

  /** So do the two halves 0.0.0.0/1 and 128.0.0.0/1, whose masks are contiguous. */
  const HALVES := [Subnet(Falses(32), Ones(1)), Subnet(Ones(1), Ones(1))]

  lemma HalvesCover()
    ensures AllContiguous(HALVES) && CoversAll(AllFixed(HALVES), 32)
  {
    assert Contiguous(Ones(1));
    LeadingOnesUnique(Ones(1), 1);
    var fixed := AllFixed(HALVES);
    assert fixed[0] == [false] && fixed[1] == [true];
    HalfHas(fixed, false, []);
    HalfHas(fixed, true, []);
    assert [false] + [] == fixed[0] && [true] + [] == fixed[1];
  }

  // ----- what the plugin narrows to -----

  /** The attributes of the last CFG_REPLY since the IKE SA last went down. */
  function LastReply(events: seq<Event>): seq<Attribute> {
    if events == [] then []
    else
      var before := LastReply(events[..|events| - 1]);
      match events[|events| - 1]
      case Incoming(payloads) => if HasReply(payloads) then ReplyAttributes(payloads) else before
      case Narrowing(_, _) => before
      case UpDown(up) => if up then before else []
  }

  lemma {:induction false} KnownAfter(events: seq<Event>)
    ensures ListsAfter(events) == KnownFrom(LastReply(events))
  {
    if events != [] { KnownAfter(events[..|events| - 1]); }
  }

  /**
   What a narrowing lets through, in any run. With something selected, exactly the prefixes of the last
   reply's chosen source, which for contiguous masks are exactly its subnets; and every address exactly
   when their fixed bits cover all words.
   */
  lemma NarrowedCovers(convert: Conversion, events: seq<Event>, i: nat, result: seq<Selector>)
    requires Faithful(convert) && i < |events| && events[i].Narrowing? && NarrowedAsKnown(convert, events, i, result)
    requires events[i].kind != OtherNarrowing && HasWildcard(events[i].remote)
    requires Selected(ListsAfter(events[..i])) != []
    ensures var subnets := ChosenSubnets(LastReply(events[..i]));
            && (forall x: Word :: Covers(result, x) <==> InSome(subnets, x))
            && (AllContiguous(subnets) ==> forall x: Word :: Covers(result, x) <==> AgreesWithSome(subnets, x))
            && ((forall x: Word :: Covers(result, x)) <==> CoversAll(AllFixed(subnets), 32))
  {
    var attributes := LastReply(events[..i]);
    var subnets, prefixes := ChosenSubnets(attributes), Selected(ListsAfter(events[..i]));
    KnownAfter(events[..i]);
    SelectedHolds(attributes);
    forall x: Word ensures Covers(result, x) <==> InSome(subnets, x) { CoversPrefixes(convert, prefixes, subnets, x); }
    if AllContiguous(subnets) {
      forall x: Word ensures InSome(subnets, x) <==> AgreesWithSome(subnets, x) { ContiguousInSome(subnets, x); }
    }
    AllWordsWhen(subnets);
  }

  lemma SameText(s: Subnet, t: Subnet)
    requires Subnets.Text(s) == Subnets.Text(t)
    ensures And(s.addr, s.mask) == And(t.addr, t.mask) && LeadingOnes(s.mask) == LeadingOnes(t.mask)
  {
    RenderInjective(And(s.addr, s.mask), LeadingOnes(s.mask), And(t.addr, t.mask), LeadingOnes(t.mask));
  }

  lemma RangeWildcard(s: Subnet)
    ensures IsWildcard(RangeOf(s)) <==> LeadingOnes(s.mask) == 0
  {
    var network, n, r := And(s.addr, s.mask), LeadingOnes(s.mask), RangeOf(s);
    if n > 0 {
      assert r.from[0] == network[0] == r.to[0];
    } else {
      assert network[..0] + Falses(32) == Falses(32) && network[..0] + Trues(32) == Trues(32);
    }
  }

  /** A selector for 0.0.0.0-255.255.255.255 remains after narrowing exactly when a selected prefix has length zero. */
  lemma WildcardRemains(convert: Conversion, prefixes: seq<string>)
    requires Faithful(convert) && Prefixes(prefixes)
    ensures HasWildcard(Converted(convert, prefixes)) <==> Listed(prefixes, (s: Subnet) => LeadingOnes(s.mask) == 0)
  {
    ConvertedAll(convert, prefixes);
    var remote := Converted(convert, prefixes);
    var holds := (s: Subnet) => LeadingOnes(s.mask) == 0;
    if HasWildcard(remote) {
      var i :| 0 <= i < |remote| && IsWildcard(remote[i]);
      assert prefixes[i] in prefixes;
      var s: Subnet :| prefixes[i] == Subnets.Text(s);
      RangeWildcard(s);
      assert holds(s);
    }
    if Listed(prefixes, holds) {
      var s: Subnet :| Subnets.Text(s) in prefixes && holds(s);
      var i :| 0 <= i < |prefixes| && prefixes[i] == Subnets.Text(s);
      RangeWildcard(s);
      assert IsWildcard(remote[i]);
    }
  }

  lemma ZeroOctets(w: Word, i: nat)
    requires w == Falses(32) && i < 4
    ensures Octet(w, i) == 0
  {
    assert w[8 * i..8 * i + 8] == Falses(8);
    ZeroValue(8);
  }

  lemma {:induction false} ZeroValue(n: nat)
    ensures Value(Falses(n)) == 0
  {
    if n > 0 {
      assert Falses(n)[..n - 1] == Falses(n - 1);
      ZeroValue(n - 1);
    }
  }

  lemma WildcardText()
    ensures Render(Falses(32), 0) == WILDCARD
  {
    ZeroOctets(Falses(32), 0);
    ZeroOctets(Falses(32), 1);
    ZeroOctets(Falses(32), 2);
    ZeroOctets(Falses(32), 3);
  }

  /** With contiguous masks no such selector remains; several smaller ones may still cover everything. */
  lemma NoWildcardLeft(convert: Conversion, prefixes: seq<string>, subnets: seq<Subnet>)
    requires Faithful(convert) && Prefixes(prefixes) && AllContiguous(subnets)
    requires (forall t :: t in prefixes <==> TextOfSome(subnets, t)) && WILDCARD !in prefixes
    ensures !HasWildcard(Converted(convert, prefixes))
  {
    WildcardRemains(convert, prefixes);
    forall s: Subnet | Subnets.Text(s) in prefixes ensures LeadingOnes(s.mask) != 0 {
      assert TextOfSome(subnets, Subnets.Text(s));
      var i :| 0 <= i < |subnets| && Subnets.Text(s) == Subnets.Text(subnets[i]);
      SameText(s, subnets[i]);
      LengthZero(subnets[i].addr, subnets[i].mask);
      WildcardText();
    }
  }

  lemma {:induction false} ZeroByte(k: nat)
    ensures LowBits(0, k) == Falses(k)
  {
    if k > 0 {
      ZeroByte(k - 1);
      assert Falses(k - 1) + [false] == Falses(k);
    }
  }

  /** 10.1.0.0 with the mask written the wrong way round, 0.255.255.255. */
  const REVERSED: seq<byte> := [10, 1, 0, 0, 0, 255, 255, 255]

  lemma ReversedBits()
    ensures var s := SubnetOf(REVERSED); !s.mask[0] && s.mask[15] && s.addr[15]
  {
    var s := SubnetOf(REVERSED);
    ZeroByte(8);
    assert s.mask[0] == BitsOf(0)[0];
    assert s.mask[15] == BitsOf(255)[7] && s.addr[15] == BitsOf(1)[7];
  }

  lemma ReversedSubnet()
    ensures var s := SubnetOf(REVERSED); LeadingOnes(s.mask) == 0 && s.mask[15] && And(s.addr, s.mask)[15]
    ensures !Contiguous(SubnetOf(REVERSED).mask)
  {
    var s := SubnetOf(REVERSED);
    ReversedBits();
    if Contiguous(s.mask) {
      LengthZero(s.addr, s.mask);
    }
  }

  lemma OneRecord(data: seq<byte>)
    requires |data| == 8
    ensures SubnetsIn(data, 14) == [SubnetOf(data)]
  {
    assert data[..8] == data;
    assert Visited(Skip(data, 14), 14) == [];
    assert Visited(data, 14) == [data];
  }

  lemma SubnetsOfOne(attributes: seq<Attribute>, data: seq<byte>)
    requires |data| == 8 && attributes == [Attribute(SPLIT_INCLUDE, data)]
    ensures SubnetsOf(attributes, UnitySplitInclude) == [SubnetOf(data)]
  {
    OneRecord(data);
    assert attributes[1..] == [];
    assert SubnetsOf(attributes, UnitySplitInclude) == [SubnetOf(data)] + [];
  }

  lemma TextOfOnly(s: Subnet, t: string)
    ensures TextOfSome([s], t) <==> t == Subnets.Text(s)
  {
    assert [s][0] == s;
  }

  lemma UnityComesFirst(l: Lists)
    requires l.unity != []
    ensures SourceOf(l) == UnitySplitInclude && ListOf(l, UnitySplitInclude) == l.unity
  {}

  /** One split-include attribute with one record, whose prefix is not 0.0.0.0/0: exactly that is selected. */
  lemma OneSubnet(attributes: seq<Attribute>, data: seq<byte>)
    requires |data| == 8 && attributes == [Attribute(SPLIT_INCLUDE, data)] && Subnets.Text(SubnetOf(data)) != WILDCARD
    ensures ChosenSubnets(attributes) == [SubnetOf(data)] && Selected(KnownFrom(attributes)) != []
  {
    var s := SubnetOf(data);
    SubnetsOfOne(attributes, data);
    TextOfOnly(s, Subnets.Text(s));
    TextOfOnly(s, WILDCARD);
    ListHolds(NO_LISTS, attributes, UnitySplitInclude, Subnets.Text(s));
    UnityComesFirst(KnownFrom(attributes));
    SelectedHolds(attributes);
  }

  lemma ReversedText()
    ensures Subnets.Text(SubnetOf(REVERSED)) != WILDCARD
  {
    var s := SubnetOf(REVERSED);
    ReversedSubnet();
    WildcardText();
    if Subnets.Text(s) == WILDCARD {
      RenderInjective(And(s.addr, s.mask), LeadingOnes(s.mask), Falses(32), 0);
    }
  }

  lemma OneReply(attributes: seq<Attribute>, payloads: seq<Payload>)
    requires payloads == [Configuration(CfgReply, attributes)]
    ensures HasReply(payloads) && ReplyAttributes(payloads) == attributes
  {
    assert ReplyAttributes(payloads[1..]) == [];
    assert attributes + [] == attributes;
  }

  /** One reply and one narrowing: what the plugin knows at the end. */
  lemma ReplyThenNarrowing(payloads: seq<Payload>, remote: seq<Selector>, events: seq<Event>)
    requires HasReply(payloads) && events == [Incoming(payloads), Narrowing(InitiatorPostAuth, remote)]
    ensures LastReply(events[..1]) == LastReply(events) == ReplyAttributes(payloads)
  {
    assert events[..1] == [Incoming(payloads)] && events[..1][..0] == [];
    assert events[..|events| - 1] == events[..1];
  }

  /**
   A reply whose only mask is written the wrong way round: the plugin reports a split tunnel and
   narrows, and every address is let through all the same.
   */
  method NonContiguousLetsAllThrough(convert: Conversion, remote: seq<Selector>) returns (plugin: Plugin, results: seq<seq<Selector>>)
    requires Faithful(convert) && HasWildcard(remote)
    ensures fresh(plugin) && plugin.Valid() && plugin.split && |results| == 2
    ensures forall x: Word :: Covers(results[1], x)
  {
    var attributes := [Attribute(SPLIT_INCLUDE, REVERSED)];
    var payloads := [Configuration(CfgReply, attributes)];
    OneReply(attributes, payloads);
    var events := [Incoming(payloads), Narrowing(InitiatorPostAuth, remote)];
    plugin := new Plugin();
    results := Run(plugin, convert, events);
    ReversedText();
    OneSubnet(attributes, REVERSED);
    ReplyThenNarrowing(payloads, remote, events);
    KnownAfter(events[..1]);
    KnownAfter(events);
    NarrowedCovers(convert, events, 1, results[1]);
    ReversedSubnet();
    ZeroLengthCovers([SubnetOf(REVERSED)], 0);
  }
}
