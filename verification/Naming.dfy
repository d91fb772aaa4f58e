/**
 Unique profile names: a base name with a " (stem)" or " (stem N)" suffix, cut to 200 characters,
 compared under case folding (`profiles/model.py`).
 */
module Naming {
  import opened Text

  const MAX_NAME_LENGTH := 200

  /** Every stem the program passes ("copy", "imported", "restored") is lower-case ASCII. */
  predicate IsStem(stem: string) {
    stem != "" && forall i | 0 <= i < |stem| :: 'a' <= stem[i] <= 'z'
  }

  /** The suffix tried at attempt `k`: no counter the first time, then the counter itself. */
  function SuffixAt(stem: string, k: nat): (s: string)
    requires k >= 1
  {
    if k == 1 then " (" + stem + ")" else " (" + stem + " " + Decimal(k) + ")"
  }

  /** The text in front of the suffix: the name cut to size, or a default when nothing is left of it. */
  function Stemmed(name: string, budget: nat): (r: string)
    requires budget >= 1 && Trimmed(name)
    ensures 0 < |r| <= budget && !IsSpace(r[0])
  {
    var cut := if |name| > budget then TrimRight(name[..budget]) else name;
    if cut != "" then cut else if budget < |"Profile"| then "Profile"[..budget] else "Profile"
  }

  function WithSuffix(base: string, suffix: string): (r: string) {
    if |suffix| >= MAX_NAME_LENGTH then
      var s := Trim(suffix);
      if |s| > MAX_NAME_LENGTH then s[..MAX_NAME_LENGTH] else s
    else Stemmed(Trim(base), MAX_NAME_LENGTH - |suffix|) + suffix
  }

  function CandidateAt(base: string, stem: string, k: nat): string
    requires k >= 1
  {
    WithSuffix(base, SuffixAt(stem, k))
  }

  /** The suffix of attempt `k`, and so of every earlier one, leaves room for a character of the name. */
  predicate HasRoom(stem: string, k: nat)
    requires k >= 1
  {
    |SuffixAt(stem, k)| < MAX_NAME_LENGTH
  }

  lemma RoomEarlier(stem: string, j: nat, k: nat)
    requires 1 <= j <= k && HasRoom(stem, k)
    ensures HasRoom(stem, j)
  {
    DecimalLengthMonotone(j, k);
  }

  /** A candidate fits, survives trimming, and ends in its suffix. */
  lemma CandidateShape(base: string, stem: string, k: nat) returns (front: string)
    requires IsStem(stem) && k >= 1 && HasRoom(stem, k)
    ensures CandidateAt(base, stem, k) == front + SuffixAt(stem, k)
    ensures front != "" && |CandidateAt(base, stem, k)| <= MAX_NAME_LENGTH
    ensures Trimmed(CandidateAt(base, stem, k))
  {
    var suffix := SuffixAt(stem, k);
    var c := CandidateAt(base, stem, k);
    front := Stemmed(Trim(base), MAX_NAME_LENGTH - |suffix|);
    assert c[|c| - 1] == suffix[|suffix| - 1] == ')';
    assert c[0] == front[0];
  }

  /** A name that fits is kept; one that does not is cut to size, without the white space at the cut. */
  ghost predicate IsFront(name: string, room: nat, front: string) {
    && (name == "" ==> front <= "Profile" && (room >= 7 ==> front == "Profile"))
    && (0 < |name| <= room ==> front == name)
    && (|name| > room ==> IsCut(name, room, front))
  }

  ghost predicate IsCut(name: string, room: nat, front: string) {
    && |front| <= room < |name| && front <= name
    && front != "" && !IsSpace(front[|front| - 1]) && AllSpace(name[|front|..room])
  }

  lemma StemmedCuts(name: string, room: nat)
    requires 1 <= room < |name| && Trimmed(name)
    ensures Stemmed(name, room) == TrimRight(name[..room]) && IsCut(name, room, Stemmed(name, room))
  {
    var start := name[..room];
    var cut := TrimRightCuts(start);
    assert start[0] == name[0];
    CutKeepsStart(start);
    assert start == TrimRight(start) + cut;
    assert name[|TrimRight(start)|..room] == cut;
  }

  lemma StemmedFront(name: string, room: nat)
    requires room >= 1 && Trimmed(name)
    ensures IsFront(name, room, Stemmed(name, room))
  {
    if |name| > room { StemmedCuts(name, room); }
  }

  /** The first suffix is the stem alone, every later one counts. */
  lemma SuffixText(stem: string, k: nat)
    requires k >= 1
    ensures k == 1 ==> SuffixAt(stem, k) == " (" + stem + ")"
    ensures k > 1 ==> SuffixAt(stem, k) == " (" + stem + " " + Decimal(k) + ")"
  {}

  /** What stands in front of the suffix: the trimmed name whole, or its beginning; a default only for an empty name. */
  lemma CandidateFront(base: string, stem: string, k: nat)
    requires IsStem(stem) && k >= 1 && HasRoom(stem, k)
    ensures exists front :: CandidateAt(base, stem, k) == front + SuffixAt(stem, k)
                            && IsFront(Trim(base), 200 - |SuffixAt(stem, k)|, front)
  {
    var suffix := SuffixAt(stem, k);
    var front := Stemmed(Trim(base), 200 - |suffix|);
    StemmedFront(Trim(base), 200 - |suffix|);
    assert CandidateAt(base, stem, k) == front + suffix;
  }

  lemma SuffixPlain(stem: string, k: nat)
    requires IsStem(stem) && k >= 1
    ensures AllPlain(SuffixAt(stem, k))
  {}

  /** Folding keeps the suffix, so it still ends in its counter. */
  lemma FoldedCandidate(cf: CaseFold, base: string, stem: string, k: nat) returns (front: string)
    requires IsStem(stem) && k >= 1 && HasRoom(stem, k)
    ensures Fold(cf, CandidateAt(base, stem, k)) == front + SuffixAt(stem, k)
  {
    var f := CandidateShape(base, stem, k);
    SuffixPlain(stem, k);
    FoldConcat(cf, f, SuffixAt(stem, k));
    FoldPlain(cf, SuffixAt(stem, k));
    front := Fold(cf, f);
  }

  /** What follows the last non-digit before the closing parenthesis. */
  lemma CounterUnique(p: string, q: string, d: string, e: string, x: char, y: char)
    requires AllDigits(d) && AllDigits(e) && !IsDigit(x) && !IsDigit(y)
    requires p + [x] + d + ")" == q + [y] + e + ")"
    ensures d == e && x == y
  {
    var u := p + [x] + d + ")";
    assert |p| + |d| == |q| + |e|;
    assert forall i | |p| < i < |u| - 1 :: u[i] == d[i - |p| - 1];
    assert u == q + [y] + e + ")";
    assert forall i | |q| < i < |u| - 1 :: u[i] == e[i - |q| - 1];
    assert u[|p|] == x && u[|q|] == y;
    assert |p| == |q|;
    assert d == u[|p| + 1..|u| - 1];
    assert e == u[|q| + 1..|u| - 1];
  }

  /** The text before the counter, the character in front of it, and the counter itself. */
  lemma SuffixSplit(f: string, stem: string, k: nat) returns (p: string, x: char, d: string)
    requires IsStem(stem) && k >= 1
    ensures f + SuffixAt(stem, k) == p + [x] + d + ")"
    ensures !IsDigit(x) && AllDigits(d)
    ensures d == if k == 1 then "" else Decimal(k)
  {
    if k == 1 {
      var cut := |stem| - 1;
      p, x, d := f + (" (" + stem[..cut]), stem[cut], "";
      assert stem == stem[..cut] + [x];
    } else {
      p, x, d := f + (" (" + stem), ' ', Decimal(k);
    }
  }

  lemma SuffixesDistinct(f: string, g: string, stem: string, j: nat, k: nat)
    requires IsStem(stem) && 1 <= j < k
    ensures f + SuffixAt(stem, j) != g + SuffixAt(stem, k)
  {
    var p, x, d := SuffixSplit(f, stem, j);
    var q, y, e := SuffixSplit(g, stem, k);
    if f + SuffixAt(stem, j) == g + SuffixAt(stem, k) {
      CounterUnique(p, q, d, e, x, y);
      DecimalInjective(j, k);
    }
  }

  /** The folded candidate of attempt `k`: what is compared with the names already taken. */
  ghost function FoldedAt(cf: CaseFold, base: string, stem: string, k: nat): string
    requires k >= 1
  {
    Fold(cf, CandidateAt(base, stem, k))
  }

  /** Two attempts never produce names that are equal under folding, truncated or not. */
  lemma CandidatesDistinct(cf: CaseFold, base: string, stem: string, j: nat, k: nat)
    requires IsStem(stem) && 1 <= j < k && HasRoom(stem, k)
    ensures FoldedAt(cf, base, stem, j) != FoldedAt(cf, base, stem, k)
  {
    RoomEarlier(stem, j, k);
    var f := FoldedCandidate(cf, base, stem, j);
    var g := FoldedCandidate(cf, base, stem, k);
    SuffixesDistinct(f, g, stem, j, k);
  }

  /** `r` is the first candidate whose folding is free, and attempt `k` is where it was found. */
  ghost predicate FirstFree(cf: CaseFold, base: string, taken: set<string>, stem: string, k: nat, r: string) {
    && k >= 1
    && r == CandidateAt(base, stem, k)
    && Fold(cf, r) !in taken
    && forall j :: 1 <= j < k ==> FoldedAt(cf, base, stem, j) in taken
  }

  /** The first `n` candidates that are taken are `n` different elements of `taken`. */
  lemma {:induction false} Pigeonhole(cf: CaseFold, base: string, taken: set<string>, stem: string, n: nat)
    requires IsStem(stem) && HasRoom(stem, n + 1)
    requires forall j :: 1 <= j <= n ==> FoldedAt(cf, base, stem, j) in taken
    ensures n <= |taken|
  {
    if n > 0 {
      RoomEarlier(stem, n, n + 1);
      var last := FoldedAt(cf, base, stem, n);
      forall j | 1 <= j <= n - 1 ensures FoldedAt(cf, base, stem, j) in taken - {last} {
        CandidatesDistinct(cf, base, stem, j, n);
      }
      Pigeonhole(cf, base, taken - {last}, stem, n - 1);
    }
  }

  /**
   The name generator. `taken` holds folded names. The search ends because each failed attempt uses
   up a different element of `taken`; it needs the suffix to leave room for that many attempts.
   */
  method UniqueSuffixedName(cf: CaseFold, base: string, taken: set<string>, stem: string) returns (r: string, ghost k: nat)
    requires IsStem(stem) && HasRoom(stem, |taken| + 2)
    ensures FirstFree(cf, base, taken, stem, k, r)
    ensures k <= |taken| + 1
    ensures |r| <= MAX_NAME_LENGTH && Trimmed(r) && r != ""
  {
    var suffix := " (" + stem + ")";
    r := WithSuffix(base, suffix);
    k := 1;
    RoomEarlier(stem, 1, |taken| + 2);
    var _ := CandidateShape(base, stem, 1);
    if Fold(cf, r) !in taken {
      return;
    }
    assert Fold(cf, r) == FoldedAt(cf, base, stem, 1);
    var index := 2;
    while true
      invariant index >= 2
      invariant forall j :: 1 <= j < index ==> FoldedAt(cf, base, stem, j) in taken
      invariant index <= |taken| + 1
      decreases |taken| + 1 - index
    {
      suffix := " (" + stem + " " + Decimal(index) + ")";
      r := WithSuffix(base, suffix);
      k := index;
      RoomEarlier(stem, index, |taken| + 2);
      var _ := CandidateShape(base, stem, index);
      if Fold(cf, r) !in taken {
        return;
      }
      assert Fold(cf, r) == FoldedAt(cf, base, stem, index);
      RoomEarlier(stem, index + 1, |taken| + 2);
      Pigeonhole(cf, base, taken, stem, index);
      index := index + 1;
    }
  }

  /** `r` is what the generator gives: the first free candidate. */
  ghost predicate Generated(cf: CaseFold, base: string, taken: set<string>, stem: string, r: string) {
    exists k :: FirstFree(cf, base, taken, stem, k, r)
  }

  /** The name of a duplicated profile. */
  method UniqueCopyName(cf: CaseFold, base: string, taken: set<string>) returns (r: string)
    requires HasRoom("copy", |taken| + 2)
    ensures Generated(cf, base, taken, "copy", r) && Fold(cf, r) !in taken
    ensures 0 < |r| <= MAX_NAME_LENGTH && Trimmed(r)
  {
    ghost var k;
    r, k := UniqueSuffixedName(cf, base, taken, "copy");
  }

  /** The name of a restored profile whose own name is taken. */
  method UniqueRestoredName(cf: CaseFold, base: string, taken: set<string>) returns (r: string)
    requires HasRoom("restored", |taken| + 2)
    ensures Generated(cf, base, taken, "restored", r) && Fold(cf, r) !in taken
    ensures 0 < |r| <= MAX_NAME_LENGTH && Trimmed(r)
  {
    ghost var k;
    r, k := UniqueSuffixedName(cf, base, taken, "restored");
  }

  /** The name an import keeps when it is free: cut to size but without a suffix. */
  function PlainImportName(base: string): string {
    var trimmed := if Trim(base) == "" then "Profile" else Trim(base);
    if |trimmed| <= MAX_NAME_LENGTH then trimmed else TrimRight(trimmed[..MAX_NAME_LENGTH])
  }

  /** It is the trimmed base, the default for an empty one, or a front of it that was cut. */
  lemma PlainImportIsFront(base: string)
    ensures var name, r := Trim(base), PlainImportName(base);
            if name == "" then r == "Profile" else if |name| <= 200 then r == name else IsCut(name, 200, r)
  {
    if |Trim(base)| > 200 { StemmedCuts(Trim(base), 200); }
  }

  /** The inputs on which the imported name can still be taken: the test is made before the cut. */
  predicate ImportNameCollides(cf: CaseFold, base: string, taken: set<string>) {
    && Fold(cf, Trim(base)) !in taken
    && (Trim(base) == "" || |Trim(base)| > MAX_NAME_LENGTH)
    && Fold(cf, PlainImportName(base)) in taken
  }

  /** The name of an imported profile: free for every name validation accepts, and exactly when it is not. */
  method UniqueImportedName(cf: CaseFold, base: string, taken: set<string>) returns (r: string)
    requires HasRoom("imported", |taken| + 2)
    ensures Fold(cf, r) in taken <==> ImportNameCollides(cf, base, taken)
    ensures 0 < |r| <= MAX_NAME_LENGTH && Trimmed(r)
    ensures Fold(cf, Trim(base)) !in taken && 0 < |Trim(base)| <= MAX_NAME_LENGTH ==> r == Trim(base)
    ensures Fold(cf, Trim(base)) in taken ==> Generated(cf, base, taken, "imported", r)
  {
    if Fold(cf, Trim(base)) !in taken {
      var trimmed := if Trim(base) == "" then "Profile" else Trim(base);
      if |trimmed| <= MAX_NAME_LENGTH {
        return trimmed;
      }
      assert trimmed[..MAX_NAME_LENGTH][0] == trimmed[0];
      CutKeepsStart(trimmed[..MAX_NAME_LENGTH]);
      return TrimRight(trimmed[..MAX_NAME_LENGTH]);
    }
    ghost var k;
    r, k := UniqueSuffixedName(cf, base, taken, "imported");
  }

  lemma {:induction false} CutKeepsStart(s: string)
    requires s != "" && !IsSpace(s[0])
    ensures TrimRight(s) != "" && TrimRight(s)[0] == s[0]
  {
    if IsSpace(s[|s| - 1]) { CutKeepsStart(s[..|s| - 1]); }
  }

  /** A name above the limit whose cut form is taken: the generator returns a taken name. */
  lemma ImportNameCanCollide(cf: CaseFold)
    ensures var cut := seq(MAX_NAME_LENGTH, _ => 'a');
            ImportNameCollides(cf, cut + "a", {cut})
  {
    var cut := seq(MAX_NAME_LENGTH, _ => 'a');
    assert AllPlain(cut) && AllPlain(cut + "a");
    FoldPlain(cf, cut);
    FoldPlain(cf, cut + "a");
    assert (cut + "a")[..MAX_NAME_LENGTH] == cut;
    assert Trim(cut + "a") == cut + "a" && |cut + "a"| == 201;
  }

  /** The number of names the generator can tell apart for certain: any a computer can hold. */
  predicate Countable(n: nat) { |Decimal(n)| <= 187 }

  lemma CountableEarlier(m: nat, n: nat)
    requires m <= n && Countable(n)
    ensures Countable(m)
  {
    DecimalLengthMonotone(m, n);
  }

  /** The room the generator needs is there for any list a computer can hold. */
  lemma RoomForAnyList(stem: string, k: nat)
    requires |stem| <= 8 && k >= 1 && Countable(k)
    ensures HasRoom(stem, k)
  {}
}
