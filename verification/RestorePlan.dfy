/** Deciding what a restore will do, before anything is written (`backup/payload.py`, `plan_restore`). */
module RestorePlan {
  import opened Wrappers
  import opened Sequences
  import opened Text
  import opened ProfileModel
  import opened Storage
  import opened Naming
  import opened Manager
  import opened Payload

  datatype Action = AddIt | ReplaceIt | RenameIt

  datatype Row = Row(id: string, name: string, hasPsk: bool, hasXauth: bool, action: Action)

  datatype Plan = Plan(items: seq<Item>, default: Option<string>, rows: seq<Row>, replaceIds: set<string>)

  function IdSet(items: seq<Item>): set<string> { set x | x in items :: x.profile.id }

  /** The ids that replace an existing profile. */
  function ReplacedIds(items: seq<Item>, known: set<string>): set<string> {
    set x | x in items && x.profile.id in known :: x.profile.id
  }

  function ExistingIds(existing: seq<Profile>): set<string> { set p | p in existing :: p.id }

  /** The existing profiles that no item replaces, in order. */
  function KeptBy(existing: seq<Profile>, items: seq<Item>): seq<Profile> {
    var ids := IdSet(items);
    Filter((p: Profile) => p.id !in ids, existing)
  }

  function ProfilesOf(items: seq<Item>): (ps: seq<Profile>)
    ensures |ps| == |items| && forall i | 0 <= i < |items| :: ps[i] == items[i].profile
  {
    Map((x: Item) => x.profile, items)
  }

  /** The list after the restore: kept profiles, then the items. */
  function MergedProfiles(existing: seq<Profile>, items: seq<Item>): seq<Profile> {
    KeptBy(existing, items) + ProfilesOf(items)
  }

  function FoldedSet(cf: CaseFold, names: set<string>): set<string> { set n | n in names :: Fold(cf, n) }

  function NamesOf(ps: seq<Profile>): set<string> { set p | p in ps :: p.name }

  /** The folded names in use when item `i` is resolved: those of the kept profiles and of earlier items. */
  function TakenAt(cf: CaseFold, kept: seq<Profile>, resolved: seq<Item>, i: nat): set<string>
    requires i <= |resolved|
  {
    FoldedNames(cf, kept + ProfilesOf(resolved)[..i])
  }

  predicate Fits(name: string) { Trimmed(name) && 0 < |name| <= Naming.MAX_NAME_LENGTH }

  /** `name` is free; it is the given one, or a generated one when that is taken. */
  ghost predicate NameChosen(cf: CaseFold, taken: set<string>, given: string, name: string) {
    && Fold(cf, name) !in taken
    && if Fold(cf, given) in taken then Generated(cf, given, taken, "restored", name) && Fits(name) else name == given
  }

  /** Item `i` keeps everything but, on a collision, its name. */
  ghost predicate ResolvedAt(cf: CaseFold, kept: seq<Profile>, items: seq<Item>, resolved: seq<Item>, i: nat)
    requires i < |resolved| <= |items|
  {
    && resolved[i] == items[i].(profile := items[i].profile.(name := resolved[i].profile.name))
    && NameChosen(cf, TakenAt(cf, kept, resolved, i), items[i].profile.name, resolved[i].profile.name)
  }

  function ActionFor(collides: bool, existingIds: set<string>, id: string): Action {
    if id in existingIds then ReplaceIt else if collides then RenameIt else AddIt
  }

  /** What `rows` reports about item `i`. */
  predicate RowAt(cf: CaseFold, kept: seq<Profile>, existing: seq<Profile>, items: seq<Item>, resolved: seq<Item>, row: Row, i: nat)
    requires i < |resolved| <= |items|
  {
    var p := resolved[i].profile;
    var collides := Fold(cf, items[i].profile.name) in TakenAt(cf, kept, resolved, i);
    row == Row(p.id, p.name, Present(items[i].secrets.psk), Present(items[i].secrets.xauth),
               ActionFor(collides, ExistingIds(existing), p.id))
  }

  /** Every item handled so far has its profile and its row. */
  ghost predicate Resolved(cf: CaseFold, kept: seq<Profile>, existing: seq<Profile>, items: seq<Item>, resolved: seq<Item>, rows: seq<Row>) {
    && |rows| == |resolved| <= |items|
    && (forall i | 0 <= i < |resolved| :: ResolvedAt(cf, kept, items, resolved, i))
    && (forall i | 0 <= i < |resolved| :: RowAt(cf, kept, existing, items, resolved, rows[i], i))
  }

  /** The plan the program computes, as a relation between its inputs and its result. */
  ghost predicate PlanOf(cf: CaseFold, items: seq<Item>, existing: seq<Profile>, default: Option<string>, plan: Plan) {
    var kept := KeptBy(existing, items);
    && |plan.items| == |items|
    && Resolved(cf, kept, existing, items, plan.items, plan.rows)
    && plan.replaceIds == ReplacedIds(items, ExistingIds(existing))
    && plan.default == KnownOrNone(default, ItemIds(items) + Ids(kept))
  }

  lemma ResolvedUnaffected(cf: CaseFold, kept: seq<Profile>, items: seq<Item>, resolved: seq<Item>, x: Item, i: nat)
    requires i < |resolved| < |items| && ResolvedAt(cf, kept, items, resolved, i)
    ensures ResolvedAt(cf, kept, items, resolved + [x], i)
    ensures TakenAt(cf, kept, resolved + [x], i) == TakenAt(cf, kept, resolved, i)
  {
    assert ProfilesOf(resolved + [x])[..i] == ProfilesOf(resolved)[..i];
  }

  lemma TakenAtEnd(cf: CaseFold, kept: seq<Profile>, resolved: seq<Item>, x: Item)
    ensures TakenAt(cf, kept, resolved + [x], |resolved|) == TakenAt(cf, kept, resolved, |resolved|)
    ensures TakenAt(cf, kept, resolved + [x], |resolved| + 1)
            == TakenAt(cf, kept, resolved, |resolved|) + {Fold(cf, x.profile.name)}
  {
    var before, after := kept + ProfilesOf(resolved)[..|resolved|], kept + ProfilesOf(resolved + [x])[..|resolved| + 1];
    assert ProfilesOf(resolved + [x])[..|resolved|] == ProfilesOf(resolved)[..|resolved|];
    assert after == before + [x.profile];
  }

  lemma TakenBound(cf: CaseFold, existing: seq<Profile>, items: seq<Item>, resolved: seq<Item>)
    requires HasRoom("restored", |existing| + |items| + 2) && |resolved| <= |items|
    ensures var n := |TakenAt(cf, KeptBy(existing, items), resolved, |resolved|)| + 2; HasRoom("restored", n)
  {
    var kept := KeptBy(existing, items);
    FewerNames(cf, kept + ProfilesOf(resolved)[..|resolved|]);
    RoomEarlier("restored", |TakenAt(cf, kept, resolved, |resolved|)| + 2, |existing| + |items| + 2);
  }

  /** An item is resolved against the folded names taken so far, and so is its row. */
  ghost predicate ItemResolved(cf: CaseFold, given: Item, existingIds: set<string>, taken: set<string>, item: Item, row: Row) {
    && item == given.(profile := given.profile.(name := item.profile.name))
    && NameChosen(cf, taken, given.profile.name, item.profile.name)
    && row == Row(given.profile.id, item.profile.name, Present(given.secrets.psk), Present(given.secrets.xauth),
                  ActionFor(Fold(cf, given.profile.name) in taken, existingIds, given.profile.id))
  }

  /** Appending an item and its row leaves what was established about the earlier ones. */
  lemma StepKeeps(cf: CaseFold, kept: seq<Profile>, existing: seq<Profile>, items: seq<Item>, resolved: seq<Item>, rows: seq<Row>,
                  x: Item, row: Row)
    requires Resolved(cf, kept, existing, items, resolved, rows) && |resolved| < |items|
    requires ItemResolved(cf, items[|resolved|], ExistingIds(existing), TakenAt(cf, kept, resolved, |resolved|), x, row)
    ensures Resolved(cf, kept, existing, items, resolved + [x], rows + [row])
    ensures TakenAt(cf, kept, resolved + [x], |resolved| + 1)
            == TakenAt(cf, kept, resolved, |resolved|) + {Fold(cf, x.profile.name)}
  {
    TakenAtEnd(cf, kept, resolved, x);
    forall i | 0 <= i < |resolved|
      ensures ResolvedAt(cf, kept, items, resolved + [x], i)
      ensures RowAt(cf, kept, existing, items, resolved + [x], rows[i], i)
    {
      ResolvedUnaffected(cf, kept, items, resolved, x, i);
    }
    assert ResolvedAt(cf, kept, items, resolved + [x], |resolved|);
    assert RowAt(cf, kept, existing, items, resolved + [x], row, |resolved|);
  }

  lemma FoldedSetGrows(cf: CaseFold, names: set<string>, name: string)
    ensures FoldedSet(cf, names + {name}) == FoldedSet(cf, names) + {Fold(cf, name)}
  {}

  lemma FoldedSetOfNames(cf: CaseFold, kept: seq<Profile>)
    ensures FoldedSet(cf, NamesOf(kept)) == TakenAt(cf, kept, [], 0)
  {
    assert kept + ProfilesOf([])[..0] == kept;
    forall p | p in kept ensures Fold(cf, p.name) in FoldedSet(cf, NamesOf(kept)) { assert p.name in NamesOf(kept); }
  }

  lemma ReplacedGrow(items: seq<Item>, n: nat, known: set<string>)
    requires n < |items|
    ensures items[n].profile.id in known ==>
              ReplacedIds(items[..n + 1], known) == ReplacedIds(items[..n], known) + {items[n].profile.id}
    ensures items[n].profile.id !in known ==> ReplacedIds(items[..n + 1], known) == ReplacedIds(items[..n], known)
  {
    assert items[..n + 1] == items[..n] + [items[n]];
  }

  /** The name a restored profile gets: its own, or a generated one on a collision. */
  method ResolveName(cf: CaseFold, given: string, taken: set<string>) returns (name: string, collides: bool)
    requires HasRoom("restored", |taken| + 2)
    ensures collides == (Fold(cf, given) in taken)
    ensures NameChosen(cf, taken, given, name)
  {
    name, collides := given, Fold(cf, given) in taken;
    if collides {
      name := UniqueRestoredName(cf, given, taken);
    }
  }

  /** One pass of the planning loop: the profile under its name, and what the preview shows. */
  method ResolveItem(cf: CaseFold, given: Item, existingIds: set<string>, taken: set<string>) returns (item: Item, row: Row)
    requires HasRoom("restored", |taken| + 2)
    ensures ItemResolved(cf, given, existingIds, taken, item, row)
  {
    var incoming := given.profile;
    var action := if incoming.id in existingIds then ReplaceIt else AddIt;
    var name, collides := ResolveName(cf, incoming.name, taken);
    if collides {
      action := if action == ReplaceIt then ReplaceIt else RenameIt;
      incoming := incoming.(name := name);
    }
    item := given.(profile := incoming);
    row := Row(incoming.id, incoming.name, Present(item.secrets.psk), Present(item.secrets.xauth), action);
  }

  /** Resolves id replacements and name collisions. */
  method PlanRestore(cf: CaseFold, items: seq<Item>, existing: seq<Profile>, default: Option<string>) returns (plan: Plan)
    requires HasRoom("restored", |existing| + |items| + 2)
    ensures PlanOf(cf, items, existing, default, plan)
  {
    var existingIds := ExistingIds(existing);
    var kept := KeptBy(existing, items);
    var takenNames := NamesOf(kept);
    var resolved: seq<Item> := [];
    var rows: seq<Row> := [];
    var replaceIds: set<string> := {};
    FoldedSetOfNames(cf, kept);
    for n := 0 to |items|
      invariant |resolved| == n && Resolved(cf, kept, existing, items, resolved, rows)
      invariant FoldedSet(cf, takenNames) == TakenAt(cf, kept, resolved, n)
      invariant replaceIds == ReplacedIds(items[..n], existingIds)
    {
      if items[n].profile.id in existingIds {
        replaceIds := replaceIds + {items[n].profile.id};
      }
      TakenBound(cf, existing, items, resolved);
      var item, row := ResolveItem(cf, items[n], existingIds, FoldedSet(cf, takenNames));
      StepKeeps(cf, kept, existing, items, resolved, rows, item, row);
      FoldedSetGrows(cf, takenNames, item.profile.name);
      ReplacedGrow(items, n, existingIds);
      takenNames := takenNames + {item.profile.name};
      resolved := resolved + [item];
      rows := rows + [row];
    }
    assert items[..|items|] == items;
    plan := Plan(resolved, KnownOrNone(default, ItemIds(resolved) + Ids(kept)), rows, replaceIds);
    ResolvedIds(cf, kept, existing, items, resolved, rows);
  }

  lemma ResolvedIds(cf: CaseFold, kept: seq<Profile>, existing: seq<Profile>, items: seq<Item>, resolved: seq<Item>, rows: seq<Row>)
    requires Resolved(cf, kept, existing, items, resolved, rows) && |resolved| == |items|
    ensures ItemIds(resolved) == ItemIds(items)
  {
    forall j | 0 <= j < |items| ensures resolved[j].profile.id == items[j].profile.id {
      assert ResolvedAt(cf, kept, items, resolved, j);
    }
  }

  // ----- what a plan guarantees -----

  /**
   What the preview shows: a known id is replaced, any other is renamed exactly when it gets another
   name, and a secret is announced exactly when the backup has one that is not empty.
   */
  lemma RowsTell(cf: CaseFold, items: seq<Item>, existing: seq<Profile>, default: Option<string>, plan: Plan, i: nat)
    requires PlanOf(cf, items, existing, default, plan) && i < |items|
    ensures |plan.rows| == |items| && plan.rows[i].id == items[i].profile.id && plan.rows[i].name == plan.items[i].profile.name
    ensures plan.rows[i].action == ReplaceIt <==> items[i].profile.id in Ids(existing)
    ensures plan.rows[i].action == RenameIt <==>
              items[i].profile.id !in Ids(existing) && plan.items[i].profile.name != items[i].profile.name
    ensures plan.rows[i].hasPsk <==> items[i].secrets.psk.Some? && items[i].secrets.psk.value != ""
    ensures plan.rows[i].hasXauth <==> items[i].secrets.xauth.Some? && items[i].secrets.xauth.value != ""
  {
    var kept := KeptBy(existing, items);
    assert ResolvedAt(cf, kept, items, plan.items, i);
    assert RowAt(cf, kept, existing, items, plan.items, plan.rows[i], i);
    ExistingIdsHold(existing, items[i].profile.id);
  }

  lemma ExistingIdsHold(existing: seq<Profile>, id: string)
    ensures id in ExistingIds(existing) <==> id in Ids(existing)
  {
    if id in ExistingIds(existing) {
      var i :| 0 <= i < |existing| && existing[i].id == id;
      assert Ids(existing)[i] == id;
    }
    if id in Ids(existing) {
      var i :| 0 <= i < |existing| && Ids(existing)[i] == id;
      assert existing[i] in existing;
    }
  }

  /** The default stays when the backup or the list has a profile with its id. */
  lemma PlanDefault(cf: CaseFold, items: seq<Item>, existing: seq<Profile>, default: Option<string>, plan: Plan)
    requires PlanOf(cf, items, existing, default, plan)
    ensures plan.default == if default.Some? && (default.value in ItemIds(items) || default.value in Ids(existing)) then default else None
  {
    if default.Some? { KeptIdsHold(existing, items, default.value); }
  }

  lemma KeptIdsHold(existing: seq<Profile>, items: seq<Item>, id: string)
    ensures id in Ids(KeptBy(existing, items)) <==> id in Ids(existing) && id !in ItemIds(items)
  {
    var kept := KeptBy(existing, items);
    IdSetHolds(items, id);
    ExistingIdsHold(existing, id);
    ExistingIdsHold(kept, id);
    assert forall p :: p in kept <==> p in existing && p.id !in IdSet(items);
  }

  /** Ids and their order are those of the backup. */
  lemma PlanKeepsIds(cf: CaseFold, items: seq<Item>, existing: seq<Profile>, default: Option<string>, plan: Plan)
    requires PlanOf(cf, items, existing, default, plan)
    ensures ItemIds(plan.items) == ItemIds(items)
  {
    ResolvedIds(cf, KeptBy(existing, items), existing, items, plan.items, plan.rows);
  }

  /** An item keeps its secrets and every field but the name, and the name too unless it was taken. */
  lemma PlanKeepsItem(cf: CaseFold, items: seq<Item>, existing: seq<Profile>, default: Option<string>, plan: Plan, i: nat)
    requires PlanOf(cf, items, existing, default, plan) && i < |items|
    ensures plan.items[i].secrets == items[i].secrets
    ensures plan.items[i].profile == items[i].profile.(name := plan.items[i].profile.name)
    ensures plan.items[i].profile.name != items[i].profile.name <==>
              Fold(cf, items[i].profile.name) in TakenAt(cf, KeptBy(existing, items), plan.items, i)
  {
    assert ResolvedAt(cf, KeptBy(existing, items), items, plan.items, i);
  }

  lemma TakenMember(cf: CaseFold, kept: seq<Profile>, resolved: seq<Item>, i: nat, j: nat)
    requires j < i <= |resolved|
    ensures Fold(cf, resolved[j].profile.name) in TakenAt(cf, kept, resolved, i)
  {
    var before := kept + ProfilesOf(resolved)[..i];
    assert before[|kept| + j] == resolved[j].profile;
  }

  lemma TakenKept(cf: CaseFold, kept: seq<Profile>, resolved: seq<Item>, i: nat, p: Profile)
    requires p in kept && i <= |resolved|
    ensures Fold(cf, p.name) in TakenAt(cf, kept, resolved, i)
  {
    assert p in kept + ProfilesOf(resolved)[..i];
  }

  /** Planned names differ from each other and from those of every kept profile, under folding. */
  lemma PlannedNamesFree(cf: CaseFold, items: seq<Item>, existing: seq<Profile>, default: Option<string>, plan: Plan)
    requires PlanOf(cf, items, existing, default, plan)
    ensures NamesDistinct(cf, ProfilesOf(plan.items))
    ensures forall p, i | p in KeptBy(existing, items) && 0 <= i < |plan.items| ::
              Fold(cf, plan.items[i].profile.name) != Fold(cf, p.name)
  {
    var kept := KeptBy(existing, items);
    forall i, j | 0 <= j < i < |plan.items|
      ensures Fold(cf, plan.items[j].profile.name) != Fold(cf, plan.items[i].profile.name)
    {
      assert ResolvedAt(cf, kept, items, plan.items, i);
      TakenMember(cf, kept, plan.items, i, j);
    }
    forall p, i | p in kept && 0 <= i < |plan.items| ensures Fold(cf, plan.items[i].profile.name) != Fold(cf, p.name) {
      assert ResolvedAt(cf, kept, items, plan.items, i);
      TakenKept(cf, kept, plan.items, i, p);
    }
  }

  lemma SameIdsSameKept(existing: seq<Profile>, items: seq<Item>, others: seq<Item>)
    requires ItemIds(items) == ItemIds(others)
    ensures IdSet(items) == IdSet(others) && KeptBy(existing, items) == KeptBy(existing, others)
  {
    assert forall i | 0 <= i < |items| :: items[i].profile.id == ItemIds(items)[i] && items[i] in items;
    assert forall i | 0 <= i < |others| :: others[i].profile.id == ItemIds(others)[i] && others[i] in others;
    forall id ensures id in IdSet(items) <==> id in IdSet(others) {
      if id in IdSet(items) {
        var i :| 0 <= i < |items| && items[i].profile.id == id;
        assert others[i].profile.id == id;
      }
      if id in IdSet(others) {
        var i :| 0 <= i < |others| && others[i].profile.id == id;
        assert items[i].profile.id == id;
      }
    }
  }

  /**
   What a list has become after a restore, told without the way it is made: every profile the items do
   not name is there still, in its old place among the others, and the items follow.
   */
  ghost predicate Restored(before: seq<Profile>, items: seq<Item>, after: seq<Profile>) {
    exists n: nat ::
      && n + |items| == |after|
      && Picked((p: Profile) => p.id !in ItemIds(items), before, after[..n])
      && forall i | 0 <= i < |items| :: after[n + i] == items[i].profile
  }

  lemma IdSetHolds(items: seq<Item>, id: string)
    ensures id in IdSet(items) <==> id in ItemIds(items)
  {
    if id in IdSet(items) {
      var i :| 0 <= i < |items| && items[i].profile.id == id;
      assert ItemIds(items)[i] == id;
    }
    if id in ItemIds(items) {
      var i :| 0 <= i < |items| && ItemIds(items)[i] == id;
      assert items[i] in items;
    }
  }

  lemma MergedIsRestored(existing: seq<Profile>, items: seq<Item>)
    ensures Restored(existing, items, MergedProfiles(existing, items))
  {
    var ids, kept, all := IdSet(items), KeptBy(existing, items), MergedProfiles(existing, items);
    var keep, stays := (p: Profile) => p.id !in ids, (p: Profile) => p.id !in ItemIds(items);
    var picks := FilterPicks(keep, existing);
    forall p: Profile ensures keep(p) == stays(p) { IdSetHolds(items, p.id); }
    assert PickedAt(stays, existing, kept, picks);
    assert all[..|kept|] == kept;
  }

  predicate IsRestoredItem(items: seq<Item>, p: Profile) { exists i :: 0 <= i < |items| && p == items[i].profile }

  lemma TailHolds(items: seq<Item>, tail: seq<Profile>, p: Profile)
    requires |tail| == |items| && forall i | 0 <= i < |items| :: tail[i] == items[i].profile
    ensures p in tail <==> IsRestoredItem(items, p)
  {
    if p in tail {
      var i :| 0 <= i < |tail| && tail[i] == p;
      assert p == items[i].profile;
    }
    if IsRestoredItem(items, p) {
      var i :| 0 <= i < |items| && p == items[i].profile;
      assert tail[i] == p;
    }
  }

  lemma RestoredParts(before: seq<Profile>, items: seq<Item>, after: seq<Profile>) returns (head: seq<Profile>, tail: seq<Profile>)
    requires Restored(before, items, after)
    ensures after == head + tail && |tail| == |items| && forall i | 0 <= i < |items| :: tail[i] == items[i].profile
    ensures Picked((p: Profile) => p.id !in ItemIds(items), before, head)
  {
    var n: nat :| n + |items| == |after| && Picked((p: Profile) => p.id !in ItemIds(items), before, after[..n])
                  && forall i | 0 <= i < |items| :: after[n + i] == items[i].profile;
    head, tail := after[..n], after[n..];
  }

  /** No profile is lost: those the items do not name stay, the items come in, and nothing else does. */
  lemma NothingLost(before: seq<Profile>, items: seq<Item>, after: seq<Profile>, p: Profile)
    requires Restored(before, items, after)
    ensures p in after <==> (p in before && p.id !in ItemIds(items)) || IsRestoredItem(items, p)
  {
    var head, tail := RestoredParts(before, items, after);
    PickedMembers((p: Profile) => p.id !in ItemIds(items), before, head);
    TailHolds(items, tail, p);
  }

  lemma KeptPairwise(existing: seq<Profile>, items: seq<Item>, rel: (Profile, Profile) -> bool)
    requires Pairwise(rel, existing)
    ensures Pairwise(rel, KeptBy(existing, items))
  {
    var ids := IdSet(items);
    FilterPairwise((p: Profile) => p.id !in ids, existing, rel);
  }

  /** The merged list has different ids, whatever the plan did to names. */
  lemma MergedIdsDistinct(existing: seq<Profile>, items: seq<Item>)
    requires Distinct(Ids(existing)) && Distinct(ItemIds(items))
    ensures Distinct(Ids(MergedProfiles(existing, items)))
  {
    var kept, all := KeptBy(existing, items), MergedProfiles(existing, items);
    var differ := (p: Profile, q: Profile) => p.id != q.id;
    assert Pairwise(differ, existing) by {
      forall i, j | 0 <= i < j < |existing| ensures differ(existing[i], existing[j]) { assert Ids(existing)[i] != Ids(existing)[j]; }
    }
    KeptPairwise(existing, items, differ);
    forall i, j | 0 <= i < j < |all| ensures all[i].id != all[j].id {
      if j < |kept| {
        assert differ(kept[i], kept[j]);
      } else if i >= |kept| {
        assert ItemIds(items)[i - |kept|] != ItemIds(items)[j - |kept|];
      } else {
        assert kept[i] in kept && items[j - |kept|] in items;
      }
    }
  }

  /** The merged list is sound when its parts are. */
  lemma MergedIsSound(rules: Rules, existing: seq<Profile>, default: Option<string>, items: seq<Item>)
    requires Sound(rules, existing, default) && Distinct(ItemIds(items))
    requires forall i | 0 <= i < |items| :: Validated(rules, items[i].profile)
    ensures Sound(rules, MergedProfiles(existing, items), None)
  {
    MergedIdsDistinct(existing, items);
    var kept, all := KeptBy(existing, items), MergedProfiles(existing, items);
    forall i | 0 <= i < |all| ensures Validated(rules, all[i]) {
      if i < |kept| { assert kept[i] in existing; }
    }
  }

  /** No profile that stays has the folded name of one that is restored. */
  ghost predicate NoKeptNamePlanned(cf: CaseFold, existing: seq<Profile>, items: seq<Item>) {
    forall p, i | p in KeptBy(existing, items) && 0 <= i < |items| :: Fold(cf, items[i].profile.name) != Fold(cf, p.name)
  }

  /** Whatever list the items are merged into, its names stay different exactly then. */
  lemma MergedNamesDistinctWhen(cf: CaseFold, existing: seq<Profile>, items: seq<Item>)
    requires NamesDistinct(cf, existing) && NamesDistinct(cf, ProfilesOf(items))
    ensures NamesDistinct(cf, MergedProfiles(existing, items)) <==> NoKeptNamePlanned(cf, existing, items)
  {
    if NoKeptNamePlanned(cf, existing, items) { FreeNamesMerge(cf, existing, items); }
    if NamesDistinct(cf, MergedProfiles(existing, items)) { MergedNamesFree(cf, existing, items); }
  }

  lemma FreeNamesMerge(cf: CaseFold, existing: seq<Profile>, items: seq<Item>)
    requires NamesDistinct(cf, existing) && NamesDistinct(cf, ProfilesOf(items)) && NoKeptNamePlanned(cf, existing, items)
    ensures NamesDistinct(cf, MergedProfiles(existing, items))
  {
    var kept, all := KeptBy(existing, items), MergedProfiles(existing, items);
    KeptNamesDistinct(cf, existing, items);
    assert all == kept + ProfilesOf(items);
    forall p, q | p in kept && q in ProfilesOf(items) ensures Fold(cf, q.name) != Fold(cf, p.name) {
      var i :| 0 <= i < |items| && ProfilesOf(items)[i] == q;
    }
    JoinedNames(cf, kept, ProfilesOf(items));
  }

  lemma JoinedNames(cf: CaseFold, ps: seq<Profile>, qs: seq<Profile>)
    requires NamesDistinct(cf, ps) && NamesDistinct(cf, qs)
    requires forall p, q | p in ps && q in qs :: Fold(cf, q.name) != Fold(cf, p.name)
    ensures NamesDistinct(cf, ps + qs)
  {}

  lemma MergedNamesFree(cf: CaseFold, existing: seq<Profile>, items: seq<Item>)
    requires NamesDistinct(cf, MergedProfiles(existing, items))
    ensures NoKeptNamePlanned(cf, existing, items)
  {
    var kept, all := KeptBy(existing, items), MergedProfiles(existing, items);
    forall p, i | p in kept && 0 <= i < |items| ensures Fold(cf, items[i].profile.name) != Fold(cf, p.name) {
      var j :| 0 <= j < |kept| && kept[j] == p;
      assert all[j] == p && all[|kept| + i] == items[i].profile;
    }
  }

  lemma KeptNamesDistinct(cf: CaseFold, existing: seq<Profile>, items: seq<Item>)
    requires NamesDistinct(cf, existing)
    ensures NamesDistinct(cf, KeptBy(existing, items))
  {
    var differ := (p: Profile, q: Profile) => Fold(cf, p.name) != Fold(cf, q.name);
    KeptPairwise(existing, items, differ);
    var kept := KeptBy(existing, items);
    forall i, j | 0 <= i < j < |kept| ensures Fold(cf, kept[i].name) != Fold(cf, kept[j].name) {
      assert differ(kept[i], kept[j]);
    }
  }

  /** A plan made from an empty list, and a profile of the planned name that was added meanwhile. */
  lemma StalePlanCollides(cf: CaseFold, item: Item, added: Profile, plan: Plan)
    requires PlanOf(cf, [item], [], None, plan) && added.id != item.profile.id && added.name == item.profile.name
    ensures NamesDistinct(cf, [added]) && !NamesDistinct(cf, MergedProfiles([added], plan.items))
  {
    assert ResolvedAt(cf, KeptBy([], [item]), [item], plan.items, 0);
    PlanKeepsIds(cf, [item], [], None, plan);
    assert ItemIds(plan.items)[0] == ItemIds([item])[0];
    assert plan.items[0].profile.name == added.name;
    assert added in KeptBy([added], plan.items);
    PlannedNamesFree(cf, [item], [], None, plan);
    MergedNamesDistinctWhen(cf, [added], plan.items);
  }

  /** After a planned restore names are still different if they were before. */
  lemma MergedNamesDistinct(cf: CaseFold, items: seq<Item>, existing: seq<Profile>, default: Option<string>, plan: Plan)
    requires PlanOf(cf, items, existing, default, plan) && NamesDistinct(cf, existing)
    ensures NamesDistinct(cf, MergedProfiles(existing, plan.items))
  {
    PlanKeepsIds(cf, items, existing, default, plan);
    SameIdsSameKept(existing, items, plan.items);
    PlannedNamesFree(cf, items, existing, default, plan);
    MergedNamesDistinctWhen(cf, existing, plan.items);
  }

  /** Planning keeps validated profiles validated. */
  lemma PlannedValidated(rules: Rules, items: seq<Item>, existing: seq<Profile>, default: Option<string>, plan: Plan)
    requires PlanOf(rules.fold, items, existing, default, plan)
    requires forall i | 0 <= i < |items| :: Validated(rules, items[i].profile)
    ensures forall i | 0 <= i < |plan.items| :: Validated(rules, plan.items[i].profile)
  {
    forall i | 0 <= i < |plan.items| ensures Validated(rules, plan.items[i].profile) {
      assert ResolvedAt(rules.fold, KeptBy(existing, items), items, plan.items, i);
      RenameValidated(rules, items[i].profile, plan.items[i].profile.name);
    }
  }

  lemma RenameValidated(rules: Rules, p: Profile, name: string)
    requires Validated(rules, p) && (Fits(name) || name == p.name)
    ensures Validated(rules, p.(name := name))
  {}

  lemma {:induction false} NothingRenamed(cf: CaseFold, ps: seq<Profile>, items: seq<Item>, plan: Plan, n: nat)
    requires |plan.items| == |items| && Resolved(cf, [], ps, items, plan.items, plan.rows)
    requires ProfilesOf(items) == ps && NamesDistinct(cf, ps) && n <= |items|
    ensures plan.items[..n] == items[..n]
  {
    if n > 0 {
      var i := n - 1;
      NothingRenamed(cf, ps, items, plan, i);
      assert ResolvedAt(cf, [], items, plan.items, i);
      var before := [] + ProfilesOf(plan.items)[..i];
      assert forall j | 0 <= j < i :: before[j] == plan.items[..i][j].profile == items[..i][j].profile == ps[j];
      assert ps[i] == items[i].profile;
      assert Fold(cf, ps[i].name) !in TakenAt(cf, [], plan.items, i);
    }
  }

  /** Restoring a backup of the very list that is there changes nothing. */
  lemma RestoringOwnBackup(cf: CaseFold, ps: seq<Profile>, items: seq<Item>, default: Option<string>, plan: Plan)
    requires PlanOf(cf, items, ps, default, plan)
    requires ProfilesOf(items) == ps && NamesDistinct(cf, ps)
    ensures plan.items == items && MergedProfiles(ps, plan.items) == ps
    ensures plan.default == KnownOrNone(default, Ids(ps))
  {
    var kept := KeptBy(ps, items);
    forall p | p in ps ensures p.id in IdSet(items) {
      var i :| 0 <= i < |ps| && ps[i] == p;
      assert items[i] in items && items[i].profile == p;
    }
    var ids := IdSet(items);
    FilterNone((p: Profile) => p.id !in ids, ps);
    NothingRenamed(cf, ps, items, plan, |items|);
    assert plan.items == plan.items[..|items|] && items == items[..|items|];
    assert ItemIds(items) + Ids(kept) == Ids(ps);
  }
}
