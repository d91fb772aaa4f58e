/**
 Carrying out a restore as one transaction over `profiles.json` and the secret store
 (`backup/service.py`, `_commit_restore`, `_write_secrets`, `_rollback`).
 */
module Restore {
  import opened Wrappers
  import opened Sequences
  import opened ProfileModel
  import opened Storage
  import opened SecretStore
  import opened Manager
  import opened Payload
  import opened RestorePlan
  import Naming
  import Text

  datatype Kind = PskKind | XauthKind

  /** One entry of the undo log: what a secret was before it was overwritten. */
  datatype Undo = Undo(id: string, kind: Kind, previous: Option<string>)

  /**
   What the surroundings do: how the two saves end, whether the hook between the writes returns, and
   which secrets the store accepts. A refused secret leaves the store as it was; undoing is not refused.
   */
  datatype Env = Env(install: SaveOutcome, hookOk: bool, accepts: (string, Kind) -> bool, undo: SaveOutcome)

  function Assigned(m: map<string, string>, id: string, secret: Option<string>): map<string, string> {
    if Present(secret) then m[id := secret.value] else m - {id}
  }

  function Revert(u: Undo, c: Contents): Contents {
    match u.kind
    case PskKind => Contents(Assigned(c.psks, u.id, u.previous), c.passwords)
    case XauthKind => Contents(c.psks, Assigned(c.passwords, u.id, u.previous))
  }

  /** The log undone from its end. */
  function Undone(applied: seq<Undo>, c: Contents): Contents {
    if applied == [] then c
    else Undone(applied[..|applied| - 1], Revert(applied[|applied| - 1], c))
  }

  /** Undoing a write gives back a clean table. */
  lemma AssignedBack(m: map<string, string>, id: string, secret: Option<string>)
    requires Clean(m)
    ensures Assigned(Assigned(m, id, secret), id, Lookup(m, id)) == m
  {}

  predicate Named(applied: seq<Undo>) { forall u | u in applied :: u.id != "" }

  lemma UndoneAppend(applied: seq<Undo>, u: Undo, c: Contents)
    ensures Undone(applied + [u], c) == Undone(applied, Revert(u, c))
  {
    assert (applied + [u])[..|applied|] == applied;
  }

  lemma LogGrows(applied: seq<Undo>, before: Contents, after: Contents, u: Undo, start: Contents)
    requires Undone(applied, before) == start && Revert(u, after) == before
    ensures Undone(applied + [u], after) == start
  {
    UndoneAppend(applied, u, after);
  }

  /** The store holds exactly the secrets of the item for its id. */
  predicate Holds(c: Contents, x: Item) {
    && Lookup(c.psks, x.profile.id) == Kept(x.secrets).psk
    && Lookup(c.passwords, x.profile.id) == Kept(x.secrets).xauth
  }

  predicate SameFor(c: Contents, d: Contents, id: string) {
    Lookup(c.psks, id) == Lookup(d.psks, id) && Lookup(c.passwords, id) == Lookup(d.passwords, id)
  }

  /** No write of this item is refused. */
  predicate Accepted(env: Env, x: Item) {
    && (Present(x.secrets.psk) ==> env.accepts(x.profile.id, PskKind))
    && (Present(x.secrets.xauth) ==> env.accepts(x.profile.id, XauthKind))
  }

  method WritePsk(store: Store, id: string, secret: Option<string>, accepted: bool) returns (ok: bool)
    requires store.Valid() && id != ""
    modifies store
    ensures store.Valid()
    ensures ok == (Present(secret) ==> accepted)
    ensures store.Value() == if ok then Contents(Assigned(old(store.psks), id, secret), old(store.passwords)) else old(store.Value())
  {
    if Present(secret) {
      ok := store.Set(id, secret.value, accepted);
    } else {
      store.Delete(id);
      ok := true;
    }
  }

  method WritePassword(store: Store, id: string, secret: Option<string>, accepted: bool) returns (ok: bool)
    requires store.Valid() && id != ""
    modifies store
    ensures store.Valid()
    ensures ok == (Present(secret) ==> accepted)
    ensures store.Value() == if ok then Contents(old(store.psks), Assigned(old(store.passwords), id, secret)) else old(store.Value())
  {
    if Present(secret) {
      ok := store.SetPassword(id, secret.value, accepted);
    } else {
      store.DeletePassword(id);
      ok := true;
    }
  }

  /** Both secrets of one item; every write that happened is in the log. */
  method WriteItem(store: Store, x: Item, env: Env, log: seq<Undo>, ghost start: Contents) returns (ok: bool, applied: seq<Undo>)
    requires store.Valid() && x.profile.id != "" && Undone(log, store.Value()) == start && Named(log)
    modifies store
    ensures store.Valid() && Undone(applied, store.Value()) == start && Named(applied)
    ensures ok == Accepted(env, x)
    ensures ok ==> Holds(store.Value(), x)
    ensures forall id | id != x.profile.id :: SameFor(store.Value(), old(store.Value()), id)
  {
    var id := x.profile.id;
    applied := log;
    ghost var before := store.Value();
    var previousPsk := store.Get(id);
    var previousXauth := store.GetPassword(id);
    ok := WritePsk(store, id, x.secrets.psk, env.accepts(id, PskKind));
    if !ok {
      return;
    }
    ghost var middle := store.Value();
    AssignedBack(before.psks, id, x.secrets.psk);
    LogGrows(applied, before, middle, Undo(id, PskKind, previousPsk), start);
    applied := applied + [Undo(id, PskKind, previousPsk)];
    ok := WritePassword(store, id, x.secrets.xauth, env.accepts(id, XauthKind));
    if !ok {
      return;
    }
    AssignedBack(middle.passwords, id, x.secrets.xauth);
    LogGrows(applied, middle, store.Value(), Undo(id, XauthKind, previousXauth), start);
    applied := applied + [Undo(id, XauthKind, previousXauth)];
  }

  /** Writes the secrets of all items, stopping at the first refusal. */
  method WriteSecrets(store: Store, items: seq<Item>, env: Env) returns (ok: bool, applied: seq<Undo>)
    requires store.Valid() && Distinct(ItemIds(items)) && forall i | 0 <= i < |items| :: items[i].profile.id != ""
    modifies store
    ensures store.Valid() && Undone(applied, store.Value()) == old(store.Value()) && Named(applied)
    ensures ok == forall i | 0 <= i < |items| :: Accepted(env, items[i])
    ensures ok ==> forall i | 0 <= i < |items| :: Holds(store.Value(), items[i])
    ensures forall id | id !in ItemIds(items) :: SameFor(store.Value(), old(store.Value()), id)
  {
    applied := [];
    ghost var start := store.Value();
    for n := 0 to |items|
      invariant store.Valid() && Undone(applied, store.Value()) == start && Named(applied)
      invariant forall i | 0 <= i < n :: Accepted(env, items[i]) && Holds(store.Value(), items[i])
      invariant forall id | id !in ItemIds(items) :: SameFor(store.Value(), start, id)
    {
      assert forall i | 0 <= i < n :: ItemIds(items)[i] != ItemIds(items)[n];
      assert ItemIds(items)[n] == items[n].profile.id;
      ghost var before := store.Value();
      ok, applied := WriteItem(store, items[n], env, applied, start);
      forall id | id !in ItemIds(items) ensures SameFor(store.Value(), start, id) {
        assert SameFor(before, start, id) && SameFor(store.Value(), before, id);
      }
      forall i | 0 <= i < n ensures Holds(store.Value(), items[i]) {
        assert Holds(before, items[i]) && SameFor(store.Value(), before, items[i].profile.id);
      }
      if !ok {
        return;
      }
    }
    ok := true;
  }

  /** Undoes the log from its end. */
  method UndoSecrets(store: Store, applied: seq<Undo>)
    requires store.Valid() && Named(applied)
    modifies store
    ensures store.Valid() && store.Value() == Undone(applied, old(store.Value()))
  {
    var n := |applied|;
    assert applied[..n] == applied;
    while n > 0
      invariant 0 <= n <= |applied| && store.Valid()
      invariant Undone(applied[..n], store.Value()) == Undone(applied, old(store.Value()))
    {
      n := n - 1;
      assert applied[..n + 1][..n] == applied[..n];
      var u := applied[n];
      if u.kind == PskKind {
        var _ := WritePsk(store, u.id, u.previous, true);
      } else {
        var _ := WritePassword(store, u.id, u.previous, true);
      }
    }
  }

  // ----- the transaction -----

  predicate Committable(rules: Rules, items: seq<Item>) {
    Distinct(ItemIds(items)) && forall i | 0 <= i < |items| :: Validated(rules, items[i].profile)
  }

  /**
   What the file decodes to after a failed restore; `inFile` is what it decoded to before and
   `inMemory` the list the manager held.
   */
  function LeftOnDisk(env: Env, inFile: Storage.Document, inMemory: Storage.Document, merged: Storage.Document): Storage.Document {
    match env.install
    case NotWritten => inFile
    case WrittenThenRaised => merged
    case Written => if env.undo == NotWritten then merged else inMemory
  }

  function DocumentAfter(existing: seq<Profile>, plan: Plan): Storage.Document {
    var merged := MergedProfiles(existing, plan.items);
    Storage.Document(merged, KnownOrNone(plan.default, Ids(merged)))
  }

  /** The default of the merged list is the one of the plan when some profile has its id. */
  lemma DocumentDefault(existing: seq<Profile>, plan: Plan)
    requires plan.default.Some? ==> plan.default.value in ItemIds(plan.items)
    ensures DocumentAfter(existing, plan).default == plan.default
  {
    if plan.default.Some? {
      var i :| 0 <= i < |plan.items| && ItemIds(plan.items)[i] == plan.default.value;
      var merged, n := MergedProfiles(existing, plan.items), |KeptBy(existing, plan.items)|;
      assert Ids(merged)[n + i] == plan.default.value;
    }
  }

  /** The file is as before, or as the list in memory was, unless a save took effect and could not be undone: then it has the restored list. */
  lemma LeftMeans(env: Env, inFile: Storage.Document, inMemory: Storage.Document, existing: seq<Profile>, plan: Plan)
    ensures var left := LeftOnDisk(env, inFile, inMemory, DocumentAfter(existing, plan));
            && (env.install == NotWritten ==> left == inFile)
            && (env.install == Written && env.undo != NotWritten ==> left == inMemory)
            && (env.install == WrittenThenRaised || (env.install == Written && env.undo == NotWritten) ==>
                  RestorePlan.Restored(existing, plan.items, left.profiles))
  {
    MergedIsRestored(existing, plan.items);
  }

  /**
   Writes the merged list, then the secrets; whatever fails, everything written so far is undone.
   The store always is. The file is too, except when its own save raised after it took effect or when
   undoing it fails. The list in memory is put back only once the first save has returned.
   */
  method CommitRestore(manager: ProfileManager, plan: Plan, env: Env) returns (ok: bool)
    requires manager.Valid() && Committable(manager.rules, plan.items)
    modifies manager, manager.store
    ensures manager.Valid()
    ensures ok == (env.install == Written && env.hookOk && forall i | 0 <= i < |plan.items| :: Accepted(env, plan.items[i]))
    ensures ok ==> Storage.Document(manager.profiles, manager.default) == DocumentAfter(old(manager.profiles), plan)
    ensures ok ==> manager.Synced() && RestorePlan.Restored(old(manager.profiles), plan.items, manager.profiles)
    ensures ok ==> forall i | 0 <= i < |plan.items| :: Holds(manager.store.Value(), plan.items[i])
    ensures forall id | id !in ItemIds(plan.items) :: SameFor(manager.store.Value(), old(manager.store.Value()), id)
    ensures !ok ==> manager.store.Value() == old(manager.store.Value())
    ensures !ok ==> Load(Builds(manager.rules), manager.disk)
                    == LeftOnDisk(env, old(Load(Builds(manager.rules), manager.disk)),
                                  old(Storage.Document(manager.profiles, manager.default)), DocumentAfter(old(manager.profiles), plan))
    ensures !ok ==> Storage.Document(manager.profiles, manager.default)
                    == if env.install == Written then old(Storage.Document(manager.profiles, manager.default))
                       else DocumentAfter(old(manager.profiles), plan)
  {
    var previousProfiles, previousDefault := manager.profiles, manager.default;
    var merged := MergedProfiles(previousProfiles, plan.items);
    MergedIsRestored(previousProfiles, plan.items);
    MergedIsSound(manager.rules, previousProfiles, previousDefault, plan.items);
    var installed := manager.InstallProfiles(merged, plan.default, env.install);
    if !installed {
      return false;
    }
    var applied: seq<Undo> := [];
    ok := env.hookOk;
    if ok {
      ItemsNamed(manager.rules, plan.items);
      ok, applied := WriteSecrets(manager.store, plan.items, env);
    }
    if !ok {
      RollBack(manager, previousProfiles, previousDefault, applied, env.undo);
    }
  }

  /** Undoes the secrets from the end of the log, then installs the previous list again. */
  method RollBack(manager: ProfileManager, profiles: seq<Profile>, default: Option<string>, applied: seq<Undo>, outcome: SaveOutcome)
    requires manager.Valid() && Sound(manager.rules, profiles, default) && Named(applied)
    modifies manager, manager.store
    ensures manager.Valid() && manager.profiles == profiles && manager.default == default
    ensures manager.store.Value() == Undone(applied, old(manager.store.Value()))
    ensures if outcome == NotWritten then manager.disk == old(manager.disk) else manager.Synced()
  {
    UndoSecrets(manager.store, applied);
    SoundWithout(manager.rules, profiles, default);
    var _ := manager.InstallProfiles(profiles, default, outcome);
  }

  // ----- the whole restore -----

  /** What the session view tells about an open VPN session. */
  datatype Session = Session(profileId: Option<string>, reconnectPending: bool, manualReconnect: bool,
                             shutdownInProgress: bool, closing: bool, connectable: bool)

  predicate SessionBlocks(session: Option<Session>, replaceIds: set<string>) {
    && session.Some? && session.value.profileId.Some? && session.value.profileId.value in replaceIds
    && var s := session.value;
       s.reconnectPending || s.manualReconnect || s.shutdownInProgress || s.closing || !s.connectable
  }

  predicate HasSecrets(items: seq<Item>) {
    exists i | 0 <= i < |items| :: Present(items[i].secrets.psk) || Present(items[i].secrets.xauth)
  }

  /** A keyring is needed as soon as one profile has a secret of either kind that is not empty. */
  lemma NeedsKeyring(items: seq<Item>)
    ensures !HasSecrets(items) <==> forall x | x in items :: x.secrets.psk in {None, Some("")} && x.secrets.xauth in {None, Some("")}
  {
    assert forall i | 0 <= i < |items| :: items[i] in items;
  }

  datatype Blocked = KeyringUnavailable | ProfileInUse | WriteFailed

  /** A session is not idle, and its profile is one the backup would replace. */
  predicate OpenFor(session: Option<Session>, existing: seq<Profile>, items: seq<Item>) {
    match session
    case None => false
    case Some(s) =>
      && s.profileId.Some? && s.profileId.value in Ids(existing) && s.profileId.value in ItemIds(items)
      && (s.reconnectPending || s.manualReconnect || s.shutdownInProgress || s.closing || !s.connectable)
  }

  /** Replacing the profile of an open session is refused, and nothing else is refused on account of a session. */
  lemma OpenIsBlocked(session: Option<Session>, existing: seq<Profile>, items: seq<Item>)
    ensures SessionBlocks(session, ReplacedIds(items, ExistingIds(existing))) <==> OpenFor(session, existing, items)
  {
    if session.Some? && session.value.profileId.Some? {
      ReplacedMeans(items, existing, session.value.profileId.value);
    }
  }

  lemma ReplacedMeans(items: seq<Item>, existing: seq<Profile>, id: string)
    ensures id in ReplacedIds(items, ExistingIds(existing)) <==> id in ItemIds(items) && id in Ids(existing)
  {
    IdSetHolds(items, id);
    if id in ItemIds(items) {
      var i :| 0 <= i < |items| && ItemIds(items)[i] == id;
      assert items[i] in items;
    }
    ExistingIdsHold(existing, id);
  }

  /** Plans a restore of what an accepted backup holds; writes nothing. */
  method Preflight(rules: Rules, existing: seq<Profile>, parsed: Parsed, available: bool, session: Option<Session>)
      returns (r: Result<Plan, Blocked>)
    requires Restorable(rules, parsed) && Naming.Countable(|existing| + |parsed.items| + 2)
    ensures r.Ok? ==> PlanOf(rules.fold, parsed.items, existing, parsed.default, r.value) && Committable(rules, r.value.items)
    ensures r.Ok? <==> (HasSecrets(parsed.items) ==> available)
                       && !SessionBlocks(session, ReplacedIds(parsed.items, ExistingIds(existing)))
    ensures r.Err? ==> r.error == if HasSecrets(parsed.items) && !available then KeyringUnavailable else ProfileInUse
  {
    var items := parsed.items;
    Naming.RoomForAnyList("restored", |existing| + |items| + 2);
    var plan := PlanRestore(rules.fold, items, existing, parsed.default);
    PlannedValidated(rules, items, existing, parsed.default, plan);
    PlanKeepsIds(rules.fold, items, existing, parsed.default, plan);
    SecretsPlanned(rules.fold, items, existing, parsed.default, plan);
    if HasSecrets(plan.items) && !available {
      return Err(KeyringUnavailable);
    }
    if SessionBlocks(session, plan.replaceIds) {
      return Err(ProfileInUse);
    }
    r := Ok(plan);
  }

  lemma SecretsPlanned(cf: Text.CaseFold, items: seq<Item>, existing: seq<Profile>, default: Option<string>, plan: Plan)
    requires PlanOf(cf, items, existing, default, plan)
    ensures HasSecrets(plan.items) <==> HasSecrets(items)
  {
    forall i | 0 <= i < |items| ensures plan.items[i].secrets == items[i].secrets {
      PlanKeepsItem(cf, items, existing, default, plan, i);
    }
  }

  /** The plan the caller shows and confirms was made from this backup and some earlier list. */
  ghost predicate MadeEarlier(rules: Rules, parsed: Parsed, older: seq<Profile>, plan: Plan) {
    PlanOf(rules.fold, parsed.items, older, parsed.default, plan)
  }

  lemma EarlierIsCommittable(rules: Rules, parsed: Parsed, older: seq<Profile>, plan: Plan)
    requires Restorable(rules, parsed) && MadeEarlier(rules, parsed, older, plan)
    ensures Committable(rules, plan.items) && ItemIds(plan.items) == ItemIds(parsed.items)
    ensures NamesDistinct(rules.fold, ProfilesOf(plan.items))
  {
    PlannedValidated(rules, parsed.items, older, parsed.default, plan);
    PlanKeepsIds(rules.fold, parsed.items, older, parsed.default, plan);
    PlannedNamesFree(rules.fold, parsed.items, older, parsed.default, plan);
  }

  /**
   A whole restore: refused before anything is written, or committed, or undone. A committed restore
   gives every restored id exactly the secrets of the backup. With a fresh plan it keeps names different;
   a plan made from an earlier list is carried out as it is, with nothing checked again, and keeps them
   different exactly when no profile that stays has a planned name.
   */
  method RestoreBackup(manager: ProfileManager, parsed: Parsed, given: Option<Plan>, ghost older: seq<Profile>, available: bool,
                       session: Option<Session>, env: Env) returns (r: Result<Plan, Blocked>)
    requires manager.Valid() && Restorable(manager.rules, parsed)
    requires given.Some? ==> MadeEarlier(manager.rules, parsed, older, given.value)
    requires given.None? ==> Naming.Countable(|manager.profiles| + |parsed.items| + 2)
    modifies manager, manager.store
    ensures manager.Valid()
    ensures given.Some? && r.Err? ==> r.error == WriteFailed
    ensures given.None? && OpenFor(session, old(manager.profiles), parsed.items) ==> r.Err? && r.error != WriteFailed
    ensures r.Err? && r.error != WriteFailed ==>
              manager.profiles == old(manager.profiles) && manager.default == old(manager.default)
              && manager.disk == old(manager.disk)
    ensures r.Err? ==> manager.store.Value() == old(manager.store.Value())
    ensures r.Ok? ==> manager.Synced() && manager.profiles == MergedProfiles(old(manager.profiles), r.value.items)
    ensures r.Ok? ==> RestorePlan.Restored(old(manager.profiles), r.value.items, manager.profiles)
    ensures r.Ok? ==> manager.default == parsed.default
    ensures r.Ok? ==> if given.Some? then r.value == given.value
                      else PlanOf(manager.rules.fold, parsed.items, old(manager.profiles), parsed.default, r.value)
    ensures r.Ok? ==> forall i | 0 <= i < |r.value.items| :: Holds(manager.store.Value(), r.value.items[i])
    ensures forall id | id !in ItemIds(parsed.items) :: SameFor(manager.store.Value(), old(manager.store.Value()), id)
    ensures r.Ok? && old(NamesDistinct(manager.rules.fold, manager.profiles)) ==>
              && (NamesDistinct(manager.rules.fold, manager.profiles) <==>
                    NoKeptNamePlanned(manager.rules.fold, old(manager.profiles), r.value.items))
              && (given.None? ==> NamesDistinct(manager.rules.fold, manager.profiles))
  {
    ghost var from := if given.Some? then older else manager.profiles;
    if given.Some? {
      r := Ok(given.value);
    } else {
      OpenIsBlocked(session, manager.profiles, parsed.items);
      r := Preflight(manager.rules, manager.profiles, parsed, available, session);
      if r.Err? {
        return;
      }
    }
    var plan := r.value;
    EarlierIsCommittable(manager.rules, parsed, from, plan);
    if NamesDistinct(manager.rules.fold, manager.profiles) {
      MergedNamesDistinctWhen(manager.rules.fold, manager.profiles, plan.items);
      if given.None? { MergedNamesDistinct(manager.rules.fold, parsed.items, manager.profiles, parsed.default, plan); }
    }
    PlanDefault(manager.rules.fold, parsed.items, from, parsed.default, plan);
    DocumentDefault(manager.profiles, plan);
    var ok := CommitRestore(manager, plan, env);
    if !ok {
      r := Err(WriteFailed);
    }
  }

  lemma ItemsNamed(rules: Rules, items: seq<Item>)
    requires Committable(rules, items)
    ensures forall i | 0 <= i < |items| :: items[i].profile.id != ""
  {}

  lemma SoundWithout(rules: Rules, ps: seq<Profile>, default: Option<string>)
    requires Sound(rules, ps, default)
    ensures Sound(rules, ps, None)
  {}
}
