/**
 The proposal strings offered to the peer: every algorithm pair with every group, row by row,
 joined with commas (`phase1_proposal` and `phase2_proposal` of `profiles/ipsec.py`).
 */
module ProposalText {
  import opened Wrappers
  import opened Sequences
  import opened Ipsec

  /** The loop behind the removal of repetitions keeps first occurrences, in order. */
  method RemoveRepeats<T(==,!new)>(values: seq<T>) returns (ordered: seq<T>)
    ensures ordered == Dedupe(values)
  {
    var seen: set<T> := {};
    ordered := [];
    for i := 0 to |values|
      invariant ordered == Dedupe(values[..i])
      invariant forall x :: x in seen <==> x in ordered
    {
      assert values[..i + 1][..i] == values[..i];
      if values[i] in seen {
        continue;
      }
      seen := seen + {values[i]};
      ordered := ordered + [values[i]];
    }
    assert values[..|values|] == values;
  }

  function GroupName(g: int): string {
    match g
    case 2 => "modp1024"
    case 5 => "modp1536"
    case 14 => "modp2048"
    case 15 => "modp3072"
    case 16 => "modp4096"
    case 19 => "ecp256"
    case 20 => "ecp384"
    case _ => "ecp521"
  }

  function GroupSuffix(g: Option<int>): string {
    if g.Some? then "-" + GroupName(g.value) else ""
  }

  /** One entry of a proposal string; no group is named when perfect forward secrecy is off. */
  function Part(p: Proposal, g: Option<int>): string {
    CipherText(p.cipher) + ("-" + (HashText(p.hash) + GroupSuffix(g)))
  }

  function Row(p: Proposal, gs: seq<Option<int>>): seq<string> {
    Map(g => Part(p, g), gs)
  }

  function Parts(ps: seq<Proposal>, gs: seq<Option<int>>): seq<string> {
    if ps == [] then [] else Row(ps[0], gs) + Parts(ps[1..], gs)
  }

  function Join(parts: seq<string>): string {
    if parts == [] then ""
    else if |parts| == 1 then parts[0]
    else parts[0] + ("," + Join(parts[1..]))
  }

  function Named(gs: seq<int>): seq<Option<int>> { Map(g => Some(g), gs) }

  function Phase1Groups(s: Settings): seq<Option<int>> { Named(OrSingle(s.phase1.groups, s.phase1.group)) }

  function Phase2Groups(s: Settings): seq<Option<int>> {
    if s.timing.pfs then Named(OrSingle(s.phase2.groups, s.phase2.group)) else [None]
  }

  function Phase1Proposal(s: Settings): string {
    Join(Parts(OrSingle(s.phase1.proposals, s.phase1.single), Phase1Groups(s)))
  }

  function Phase2Proposal(s: Settings): string {
    Join(Parts(OrSingle(s.phase2.proposals, s.phase2.single), Phase2Groups(s)))
  }

  /** The inner loop of both builders: one proposal with every group. */
  method AppendRow(parts: seq<string>, p: Proposal, gs: seq<Option<int>>) returns (longer: seq<string>)
    ensures longer == parts + Row(p, gs)
  {
    longer := parts;
    for j := 0 to |gs|
      invariant longer == parts + Row(p, gs[..j])
    {
      assert Row(p, gs[..j + 1]) == Row(p, gs[..j]) + [Part(p, gs[j])];
      longer := longer + [Part(p, gs[j])];
    }
    assert gs[..|gs|] == gs;
  }

  /** The outer loop, and the final join. */
  method BuildProposal(ps: seq<Proposal>, gs: seq<Option<int>>) returns (text: string)
    ensures text == Join(Parts(ps, gs))
  {
    var parts := [];
    for i := 0 to |ps|
      invariant parts == Parts(ps[..i], gs)
    {
      parts := AppendRow(parts, ps[i], gs);
      assert ps[..i + 1] == ps[..i] + [ps[i]];
      PartsAppend(ps[..i], ps[i], gs);
    }
    assert ps[..|ps|] == ps;
    text := Join(parts);
  }

  lemma {:induction false} PartsAppend(ps: seq<Proposal>, p: Proposal, gs: seq<Option<int>>)
    ensures Parts(ps + [p], gs) == Parts(ps, gs) + Row(p, gs)
  {
    if ps == [] {
      assert ps + [p] == [p];
      assert Parts([p], gs) == Row(p, gs) + Parts([], gs);
    } else {
      assert (ps + [p])[1..] == ps[1..] + [p];
      PartsAppend(ps[1..], p, gs);
    }
  }

  // ----- decoding -----

  predicate Free(s: string, c: char) { forall i | 0 <= i < |s| :: s[i] != c }

  /** Text up to the first separator is determined. */
  lemma SplitUnique(a: string, b: string, x: string, y: string, c: char)
    requires Free(a, c) && Free(b, c)
    requires x == "" || x[0] == c
    requires y == "" || y[0] == c
    requires a + x == b + y
    ensures a == b && x == y
  {
    var u := a + x;
    assert forall i | 0 <= i < |a| :: u[i] == a[i];
    assert forall i | 0 <= i < |b| :: u[i] == b[i];
    if x != "" { assert u[|a|] == c; }
    if y != "" { assert u[|b|] == c; }
    assert |a| == |b|;
    assert a == u[..|a|] && b == u[..|b|];
    assert x == u[|a|..] && y == u[|b|..];
  }

  lemma WordsFree(c: Cipher, h: Hash)
    ensures Free(CipherText(c), '-') && Free(CipherText(c), ',')
    ensures Free(HashText(h), '-') && Free(HashText(h), ',')
  {}

  lemma GroupNamesDiffer(g: int, h: int)
    requires KnownGroup(g) && KnownGroup(h) && GroupName(g) == GroupName(h)
    ensures g == h
  {
    // Names of the two families differ in length; within a family these letters tell them apart.
    var n, m := GroupName(g), GroupName(h);
    assert |n| == if g < 19 then 8 else 6;
    assert |m| == if h < 19 then 8 else 6;
    if g < 19 {
      assert n[4] == m[4] && n[5] == m[5];
    } else {
      assert n[3] == m[3];
    }
  }

  lemma GroupNameFree(g: int)
    ensures Free(GroupName(g), ',')
  {}

  lemma SuffixInjective(g: Option<int>, h: Option<int>)
    requires g.Some? ==> KnownGroup(g.value)
    requires h.Some? ==> KnownGroup(h.value)
    requires GroupSuffix(g) == GroupSuffix(h)
    ensures g == h
  {
    if g.Some? && h.Some? {
      assert GroupSuffix(g)[1..] == GroupName(g.value);
      assert GroupSuffix(h)[1..] == GroupName(h.value);
      GroupNamesDiffer(g.value, h.value);
    }
  }

  lemma PartInjective(p: Proposal, g: Option<int>, q: Proposal, h: Option<int>)
    requires g.Some? ==> KnownGroup(g.value)
    requires h.Some? ==> KnownGroup(h.value)
    requires Part(p, g) == Part(q, h)
    ensures p == q && g == h
  {
    WordsFree(p.cipher, p.hash);
    WordsFree(q.cipher, q.hash);
    var x, y := HashText(p.hash) + GroupSuffix(g), HashText(q.hash) + GroupSuffix(h);
    SplitUnique(CipherText(p.cipher), CipherText(q.cipher), "-" + x, "-" + y, '-');
    assert ("-" + x)[1..] == x && ("-" + y)[1..] == y;
    SplitUnique(HashText(p.hash), HashText(q.hash), GroupSuffix(g), GroupSuffix(h), '-');
    SuffixInjective(g, h);
  }

  predicate Entry(x: string) { Free(x, ',') && x != "" }

  lemma PartIsEntry(p: Proposal, g: Option<int>)
    ensures Entry(Part(p, g))
  {
    WordsFree(p.cipher, p.hash);
    if g.Some? { GroupNameFree(g.value); }
  }

  lemma {:induction false} JoinInjective(xs: seq<string>, ys: seq<string>)
    requires forall x | x in xs :: Entry(x)
    requires forall y | y in ys :: Entry(y)
    requires Join(xs) == Join(ys)
    ensures xs == ys
  {
    if xs != [] && ys != [] {
      assert xs[0] in xs && ys[0] in ys;
      var xTail := if |xs| == 1 then "" else "," + Join(xs[1..]);
      var yTail := if |ys| == 1 then "" else "," + Join(ys[1..]);
      assert Join(xs) == xs[0] + xTail && Join(ys) == ys[0] + yTail;
      SplitUnique(xs[0], ys[0], xTail, yTail, ',');
      if |xs| > 1 {
        assert xTail[1..] == Join(xs[1..]) && yTail[1..] == Join(ys[1..]);
        JoinInjective(xs[1..], ys[1..]);
      }
      assert xs == [xs[0]] + xs[1..] && ys == [ys[0]] + ys[1..];
    } else {
      JoinOfEntriesNonEmpty(xs);
      JoinOfEntriesNonEmpty(ys);
    }
  }

  lemma JoinOfEntriesNonEmpty(xs: seq<string>)
    requires forall x | x in xs :: Entry(x)
    ensures Join(xs) == "" ==> xs == []
  {
    if xs != [] { assert Entry(xs[0]); }
  }

  lemma {:induction false} PartsAreEntries(ps: seq<Proposal>, gs: seq<Option<int>>)
    ensures forall x | x in Parts(ps, gs) :: Entry(x)
  {
    if ps != [] {
      forall i | 0 <= i < |gs| ensures Entry(Row(ps[0], gs)[i]) { PartIsEntry(ps[0], gs[i]); }
      PartsAreEntries(ps[1..], gs);
    }
  }

  /** What the program offers: distinct known groups, or the single "no group" entry. */
  predicate Offerable(gs: seq<Option<int>>) {
    && gs != [] && Distinct(gs)
    && forall i | 0 <= i < |gs| :: gs[i].Some? ==> KnownGroup(gs[i].value)
  }

  lemma {:induction false} SameGroupsDecode(ps: seq<Proposal>, qs: seq<Proposal>, gs: seq<Option<int>>)
    requires Offerable(gs) && Parts(ps, gs) == Parts(qs, gs)
    ensures ps == qs
  {
    if ps != [] && qs != [] {
      var all := Parts(ps, gs);
      assert all[..|gs|] == Row(ps[0], gs) && all[..|gs|] == Row(qs[0], gs);
      assert Row(ps[0], gs)[0] == Row(qs[0], gs)[0];
      PartInjective(ps[0], gs[0], qs[0], gs[0]);
      assert all[|gs|..] == Parts(ps[1..], gs) && all[|gs|..] == Parts(qs[1..], gs);
      SameGroupsDecode(ps[1..], qs[1..], gs);
      assert ps == [ps[0]] + ps[1..] && qs == [qs[0]] + qs[1..];
    }
  }

  lemma FirstRow(ps: seq<Proposal>, gs: seq<Option<int>>, i: nat)
    requires ps != [] && i < |gs|
    ensures i < |Parts(ps, gs)| && Parts(ps, gs)[i] == Part(ps[0], gs[i])
  {
    assert Row(ps[0], gs)[i] == Part(ps[0], gs[i]);
  }

  lemma SecondRow(ps: seq<Proposal>, gs: seq<Option<int>>)
    requires |ps| > 1 && gs != []
    ensures |gs| < |Parts(ps, gs)| && Parts(ps, gs)[|gs|] == Part(ps[1], gs[0])
  {
    FirstRow(ps[1..], gs, 0);
  }

  /** The first row is as long as the group list: a longer one would repeat the first proposal. */
  lemma RowNotLonger(ps: seq<Proposal>, gs: seq<Option<int>>, qs: seq<Proposal>, hs: seq<Option<int>>)
    requires ps != [] && Distinct(ps) && qs != [] && Offerable(gs) && Offerable(hs)
    requires Parts(ps, gs) == Parts(qs, hs)
    ensures |hs| <= |gs|
  {
    FirstRow(ps, gs, 0);
    FirstRow(qs, hs, 0);
    PartInjective(ps[0], gs[0], qs[0], hs[0]);
    if |gs| < |hs| {
      FirstRow(qs, hs, |gs|);
      if |ps| > 1 {
        SecondRow(ps, gs);
        PartInjective(ps[1], gs[0], qs[0], hs[|gs|]);
      }
    }
  }

  /** A proposal string determines the proposals and the groups it was built from. */
  lemma ProposalStringDecodes(ps: seq<Proposal>, gs: seq<Option<int>>, qs: seq<Proposal>, hs: seq<Option<int>>)
    requires ps != [] && Distinct(ps) && qs != [] && Distinct(qs) && Offerable(gs) && Offerable(hs)
    requires Join(Parts(ps, gs)) == Join(Parts(qs, hs))
    ensures ps == qs && gs == hs
  {
    PartsAreEntries(ps, gs);
    PartsAreEntries(qs, hs);
    JoinInjective(Parts(ps, gs), Parts(qs, hs));
    RowNotLonger(ps, gs, qs, hs);
    RowNotLonger(qs, hs, ps, gs);
    forall i | 0 <= i < |gs| ensures gs[i] == hs[i] {
      FirstRow(ps, gs, i);
      FirstRow(qs, hs, i);
      PartInjective(ps[0], gs[i], qs[0], hs[i]);
    }
    assert gs == hs;
    SameGroupsDecode(ps, qs, gs);
  }

  lemma NamedGroups(gs: seq<int>, hs: seq<int>)
    ensures Named(gs) == Named(hs) <==> gs == hs
    ensures ValidGroups(gs) ==> Offerable(Named(gs))
  {
    if Named(gs) == Named(hs) {
      forall i | 0 <= i < |gs| ensures gs[i] == hs[i] {
        assert Named(gs)[i] == Named(hs)[i];
      }
    }
    if ValidGroups(gs) {
      assert forall i | 0 <= i < |gs| :: gs[i] in gs;
    }
  }

  /** Two stored settings offer the same IKE and CHILD_SA proposals only when they list the same ones. */
  lemma OffersDecode(s: Settings, t: Settings)
    requires Normal(s) && Normal(t)
    ensures Phase1Proposal(s) == Phase1Proposal(t)
            <==> s.phase1.proposals == t.phase1.proposals && s.phase1.groups == t.phase1.groups
    ensures Phase2Proposal(s) == Phase2Proposal(t)
            <==> && s.phase2.proposals == t.phase2.proposals && s.timing.pfs == t.timing.pfs
                 && (s.timing.pfs ==> s.phase2.groups == t.phase2.groups)
  {
    NamedGroups(s.phase1.groups, t.phase1.groups);
    NamedGroups(t.phase1.groups, s.phase1.groups);
    NamedGroups(s.phase2.groups, t.phase2.groups);
    NamedGroups(t.phase2.groups, s.phase2.groups);
    if Phase1Proposal(s) == Phase1Proposal(t) {
      ProposalStringDecodes(s.phase1.proposals, Phase1Groups(s), t.phase1.proposals, Phase1Groups(t));
    }
    if Phase2Proposal(s) == Phase2Proposal(t) {
      ProposalStringDecodes(s.phase2.proposals, Phase2Groups(s), t.phase2.proposals, Phase2Groups(t));
      assert s.timing.pfs ==> Phase2Groups(s)[0].Some?;
      assert t.timing.pfs ==> Phase2Groups(t)[0].Some?;
    }
  }

  /** How an offer reads. */
  lemma DefaultOffer()
    ensures Phase1Proposal(DEFAULT_SETTINGS) == Phase2Proposal(DEFAULT_SETTINGS) == "aes256-sha256-modp2048"
  {
    var p, g := Proposal(Aes256, Sha256), Some(14);
    assert Parts([p], [g]) == [Part(p, g)];
    assert Part(p, g) == "aes256-sha256-modp2048";
    assert Phase1Groups(DEFAULT_SETTINGS) == [g] && Phase2Groups(DEFAULT_SETTINGS) == [g];
  }
}
