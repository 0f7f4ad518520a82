// One person's own Unbind and SaveRole calls in one process (authz/admin.go,
// authz/delegation.go): the lock each takes spans the check, the write and the
// eviction, so none of them, however interleaved with everything else the
// process does, removes that person's last access to a protected permission.
module LockOut {
  import opened Wrappers
  import opened Clauses
  import opened Engine
  import opened Delegation
  import CC = CacheCoherence

  // What a call changes: one of the actor's own bindings, or a custom role.
  datatype Change = Drop(bindingId: int) | Replace(role: Role)
  {
    function DropId(): int {
      if Drop? then bindingId else 0
    }

    function Override(): Option<Role> {
      if Replace? then Some(role) else None
    }
  }

  // A binding to drop and a role to replace have been stored.
  predicate ChangeOk(c: Change) {
    (c.Drop? ==> c.bindingId > 0) && (c.Replace? ==> c.role.id > 0 && c.role.key == "")
  }

  // The call that holds the actor's lock: when it took it, what it has read since (its
  // bindings, and the role of each binding it would keep), whether the check passed,
  // and its write.
  datatype Call = Call(change: Change, lockedAt: nat, before: Option<Effective>, bindings: Option<seq<Binding>>,
                       rolesAt: map<nat, nat>, passed: bool, write: Option<nat>)

  // The store and cache, and the call in the critical section.
  datatype State = State(m: CC.State, holder: Option<Call>)

  datatype Label =
    | Others(step: CC.Label)
    | Acquires(change: Change)
    | GetsCached
    | GetsLoaded(reading: CC.Reading)
    | ReadsBindings
    | ReadsRole(i: nat)
    | Passes
    | Writes
    | Evicts
    | Releases

  function BindingsNow(s: State, a: Subject): seq<Binding> {
    CC.BindingsAt(s.m.log, a, |s.m.log|)
  }

  // The write concerns the actor's access.
  ghost predicate Concerns(w: CC.Write, a: Subject, roles: set<int>) {
    match w
    case WroteBindings(t, _) => t == a
    case WroteRole(id, _) => id in roles
  }

  function OwnWrite(s: State, a: Subject, change: Change): CC.Write {
    match change
    case Drop(id) => CC.WroteBindings(a, Without(BindingsNow(s, a), id))
    case Replace(role) => CC.WroteRole(role.id, Some(role))
  }

  // Everyone else may load, evict and write as they please, as long as they do
  // not change the actor's own access.
  ghost predicate Enabled(env: Env, a: Subject, protected: seq<string>, s: State, l: Label)
    requires ValidEnv(env)
  {
    match l
    case Others(m) =>
      && CC.Enabled(s.m, m)
      && (m.Writes? ==> !Concerns(m.write, a, CC.RolesOf(BindingsNow(s, a))))
      && (m.Evicts? ==> !(s.holder.Some? && s.holder.value.write == Some(m.w)))
    case Acquires(change) => s.holder.None? && ChangeOk(change)
    case GetsCached => s.holder.Some? && s.holder.value.before.None? && s.holder.value.write.None? && a in s.m.entries
    case GetsLoaded(r) =>
      && s.holder.Some? && s.holder.value.before.None? && s.holder.value.write.None?
      && CC.InLog(s.m.log, r) && r.bindingsAt >= s.holder.value.lockedAt
      && (forall i :: i in r.rolesAt ==> r.rolesAt[i] >= s.holder.value.lockedAt)
      && r.rolesAt.Keys == CC.Customs(CC.BindingsAt(s.m.log, a, r.bindingsAt))
    case ReadsBindings => s.holder.Some? && s.holder.value.bindings.None? && s.holder.value.write.None?
    case ReadsRole(i) =>
      && s.holder.Some? && s.holder.value.bindings.Some? && s.holder.value.write.None?
      && i in CC.Customs(KeptBindings(s.holder.value))
    case Passes =>
      && s.holder.Some? && s.holder.value.write.None? && ReadAll(s, s.holder.value)
      && forall p :: p in protected && s.holder.value.before.value.Holds(p) ==> Checked(env, s.m.log, s.holder.value).Holds(p)
    case Writes => s.holder.Some? && s.holder.value.passed && s.holder.value.write.None?
    case Evicts => s.holder.Some? && s.holder.value.write.Some? && CC.Enabled(s.m, CC.Evicts(s.holder.value.write.value))
    case Releases => s.holder.Some? && (s.holder.value.write.Some? ==> s.holder.value.write.value !in s.m.pending)
  }

  // The bindings the change would keep.
  function KeptBindings(c: Call): seq<Binding>
    requires c.bindings.Some?
  {
    Without(c.bindings.value, c.change.DropId())
  }

  // The change replaces the role the binding refers to.
  predicate Replaced(change: Change, b: Binding) {
    change.Replace? && b.role.id > 0 && b.role.id == change.role.id
  }

  // The role each kept binding finds in the check of keepsAccess: the replaced one, or
  // what was read for it.
  function CheckedRoles(env: Env, log: seq<CC.Write>, c: Call): seq<Option<Role>>
    requires c.bindings.Some?
  {
    var kept := KeptBindings(c);
    var found := CC.FoundAt(env, log, kept, c.rolesAt);
    seq(|kept|, i requires 0 <= i < |kept| => if Replaced(c.change, kept[i]) then c.change.Override() else found[i])
  }

  // The access the check rebuilds.
  function Checked(env: Env, log: seq<CC.Write>, c: Call): Effective
    requires ValidEnv(env) && c.bindings.Some?
  {
    BuildEach(env, KeptBindings(c), CheckedRoles(env, log, c))
  }

  // The call has read its access before, its bindings, and every role its check needs.
  ghost predicate ReadAll(s: State, c: Call) {
    && c.before.Some? && c.bindings.Some?
    && forall i :: i in CC.Customs(KeptBindings(c)) ==> i in c.rolesAt || Replaced(c.change, KeptBindings(c)[i])
  }

  ghost function Next(env: Env, a: Subject, protected: seq<string>, s: State, l: Label): State
    requires ValidEnv(env) && Enabled(env, a, protected, s, l)
  {
    match l
    case Others(m) => s.(m := CC.Next(env, s.m, m))
    case Acquires(change) => s.(holder := Some(Call(change, |s.m.log|, None, None, map[], false, None)))
    case GetsCached => s.(holder := Some(s.holder.value.(before := Some(s.m.entries[a].eff))))
    case GetsLoaded(r) => s.(holder := Some(s.holder.value.(before := Some(CC.Computed(env, s.m.log, a, r)))))
    case ReadsBindings => s.(holder := Some(s.holder.value.(bindings := Some(BindingsNow(s, a)))))
    case ReadsRole(i) => s.(holder := Some(s.holder.value.(rolesAt := s.holder.value.rolesAt[i := |s.m.log|])))
    case Passes => s.(holder := Some(s.holder.value.(passed := true)))
    case Writes =>
      State(CC.Next(env, s.m, CC.Writes(OwnWrite(s, a, s.holder.value.change))),
            Some(s.holder.value.(write := Some(|s.m.log|))))
    case Evicts => s.(m := CC.Next(env, s.m, CC.Evicts(s.holder.value.write.value)))
    case Releases => s.(holder := None)
  }

  // The invariant --------------------------------------------------------------------

  ghost predicate Quiet(log: seq<CC.Write>, from: nat, a: Subject, roles: set<int>) {
    forall w :: from <= w < |log| ==> !Concerns(log[w], a, roles)
  }

  // The only unfinished change to the actor's access is the lock holder's.
  ghost predicate PendingOk(s: State, a: Subject) {
    forall w :: w in s.m.pending && w < |s.m.log| && Concerns(s.m.log[w], a, CC.RolesOf(BindingsNow(s, a))) ==>
      s.holder.Some? && s.holder.value.write == Some(w)
  }

  // Until it writes, the holder sees the actor's access as it was when locked.
  ghost predicate HolderOk(env: Env, a: Subject, protected: seq<string>, s: State, c: Call)
    requires ValidEnv(env)
  {
    c.write.None? ==>
      && c.lockedAt <= |s.m.log| && Quiet(s.m.log, c.lockedAt, a, CC.RolesOf(BindingsNow(s, a)))
      && (c.before.Some? ==> c.before.value == CC.Current(env, s.m.log, a))
      && (c.bindings.Some? ==> c.bindings.value == BindingsNow(s, a))
      && (c.rolesAt != map[] ==> c.bindings.Some?)
      && (forall i :: i in c.rolesAt ==> c.lockedAt <= c.rolesAt[i] <= |s.m.log|)
      && (c.passed ==> forall p :: p in protected && CC.Current(env, s.m.log, a).Holds(p) ==> Planned(env, a, s.m.log, c.change).Holds(p))
  }

  // The actor's access as the change would leave it.
  function Planned(env: Env, a: Subject, log: seq<CC.Write>, change: Change): Effective
    requires ValidEnv(env)
  {
    Build(env, Without(CC.BindingsAt(log, a, |log|), change.DropId()), Overriding(CC.LookupNow(env, log), change.Override()))
  }

  ghost predicate Inv(env: Env, a: Subject, protected: seq<string>, s: State)
    requires ValidEnv(env)
  {
    && CC.Inv(env, s.m) && PendingOk(s, a)
    && (s.holder.Some? ==> ChangeOk(s.holder.value.change) && HolderOk(env, a, protected, s, s.holder.value))
  }

  // The steps one by one ---------------------------------------------------------------

  // A write that does not concern the actor changes neither its bindings nor its roles.
  lemma UnconcernedWrite(env: Env, a: Subject, log: seq<CC.Write>, w: CC.Write)
    requires !Concerns(w, a, CC.RolesOf(CC.BindingsAt(log, a, |log|)))
    ensures CC.BindingsAt(log + [w], a, |log| + 1) == CC.BindingsAt(log, a, |log|)
    ensures forall b :: b in CC.BindingsAt(log, a, |log|) && b.role.Valid() ==>
              CC.LookupNow(env, log + [w])(b.role) == CC.LookupNow(env, log)(b.role)
  {
    CC.BindingsPrefix(log, w, a, |log|);
    forall b | b in CC.BindingsAt(log, a, |log|) && b.role.Valid()
      ensures CC.LookupNow(env, log + [w])(b.role) == CC.LookupNow(env, log)(b.role)
    {
      if b.role.key == "" {
        assert b.role.id in CC.RolesOf(CC.BindingsAt(log, a, |log|));
        CC.RolePrefix(log, w, b.role.id, |log|);
      }
    }
  }

  lemma UnconcernedKeepsAccess(env: Env, a: Subject, log: seq<CC.Write>, w: CC.Write, change: Change)
    requires ValidEnv(env) && !Concerns(w, a, CC.RolesOf(CC.BindingsAt(log, a, |log|)))
    ensures CC.Current(env, log + [w], a) == CC.Current(env, log, a)
    ensures Planned(env, a, log + [w], change) == Planned(env, a, log, change)
  {
    UnconcernedWrite(env, a, log, w);
    var bs := CC.BindingsAt(log, a, |log|);
    BuildIsLocal(env, bs, CC.LookupNow(env, log + [w]), CC.LookupNow(env, log));
    forall b | b in Without(bs, change.DropId()) ensures b in bs {
      WithoutMembers(bs, change.DropId(), b);
    }
    BuildIsLocal(env, Without(bs, change.DropId()), Overriding(CC.LookupNow(env, log + [w]), change.Override()),
                 Overriding(CC.LookupNow(env, log), change.Override()));
  }

  // The change leaves the kept bindings and their roles as planned.
  lemma OwnBindings(a: Subject, s: State, change: Change)
    ensures CC.BindingsAt(s.m.log + [OwnWrite(s, a, change)], a, |s.m.log| + 1) == Without(BindingsNow(s, a), change.DropId())
  {
    CC.BindingsPrefix(s.m.log, OwnWrite(s, a, change), a, |s.m.log|);
    WithoutNone(BindingsNow(s, a));
  }

  lemma PlannedRole(env: Env, a: Subject, s: State, change: Change, ref: RoleRef)
    requires ChangeOk(change) && ref.Valid()
    ensures CC.LookupNow(env, s.m.log + [OwnWrite(s, a, change)])(ref) == Overriding(CC.LookupNow(env, s.m.log), change.Override())(ref)
  {
    if ref.key == "" {
      CC.RolePrefix(s.m.log, OwnWrite(s, a, change), ref.id, |s.m.log|);
    }
  }

  // Writing the change makes the plan the actor's access.
  lemma WriteMakesPlanCurrent(env: Env, a: Subject, s: State, change: Change)
    requires ValidEnv(env) && ChangeOk(change)
    ensures CC.Current(env, s.m.log + [OwnWrite(s, a, change)], a) == Planned(env, a, s.m.log, change)
  {
    var log, w := s.m.log, OwnWrite(s, a, change);
    var kept := Without(BindingsNow(s, a), change.DropId());
    OwnBindings(a, s, change);
    forall b | b in kept && b.role.Valid()
      ensures CC.LookupNow(env, log + [w])(b.role) == Overriding(CC.LookupNow(env, log), change.Override())(b.role)
    {
      PlannedRole(env, a, s, change, b.role);
    }
    BuildIsLocal(env, kept, CC.LookupNow(env, log + [w]), Overriding(CC.LookupNow(env, log), change.Override()));
  }

  // What the holder has read since it locked is what is there now.
  lemma QuietRole(log: seq<CC.Write>, from: nat, at: nat, a: Subject, roles: set<int>, id: int)
    requires from <= at <= |log| && Quiet(log, from, a, roles) && id in roles
    ensures CC.RoleAt(log, id, at) == CC.RoleAt(log, id, |log|)
  {
    CC.RoleUnchanged(log, id, at, |log|);
  }

  // Each kept binding finds in the check what the plan gives it.
  lemma CheckedRole(env: Env, a: Subject, protected: seq<string>, s: State, i: nat)
    requires ValidEnv(env) && Inv(env, a, protected, s)
    requires s.holder.Some? && s.holder.value.write.None? && ReadAll(s, s.holder.value)
    requires i < |KeptBindings(s.holder.value)| && KeptBindings(s.holder.value)[i].role.Valid()
    ensures var c := s.holder.value;
            CheckedRoles(env, s.m.log, c)[i] == Overriding(CC.LookupNow(env, s.m.log), c.change.Override())(KeptBindings(c)[i].role)
  {
    var c := s.holder.value;
    var b := KeptBindings(c)[i];
    if b.role.key == "" && !Replaced(c.change, b) {
      assert i in CC.Customs(KeptBindings(c));
      WithoutMembers(BindingsNow(s, a), c.change.DropId(), b);
      assert b in BindingsNow(s, a);
      QuietRole(s.m.log, c.lockedAt, c.rolesAt[i], a, CC.RolesOf(BindingsNow(s, a)), b.role.id);
    }
  }

  lemma CheckedIsPlanned(env: Env, a: Subject, protected: seq<string>, s: State)
    requires ValidEnv(env) && Inv(env, a, protected, s)
    requires s.holder.Some? && s.holder.value.write.None? && ReadAll(s, s.holder.value)
    ensures Checked(env, s.m.log, s.holder.value) == Planned(env, a, s.m.log, s.holder.value.change)
  {
    var c := s.holder.value;
    var kept := KeptBindings(c);
    forall i | 0 <= i < |kept| && kept[i].role.Valid()
      ensures CheckedRoles(env, s.m.log, c)[i] == Overriding(CC.LookupNow(env, s.m.log), c.change.Override())(kept[i].role)
    {
      CheckedRole(env, a, protected, s, i);
    }
    EachIsBuild(env, kept, CheckedRoles(env, s.m.log, c), Overriding(CC.LookupNow(env, s.m.log), c.change.Override()));
  }

  // The roles the actor's bindings refer to hold the role of each.
  lemma CustomIsARole(bs: seq<Binding>, i: nat)
    requires i in CC.Customs(bs)
    ensures i < |bs| && bs[i].role.id in CC.RolesOf(bs)
  {
    assert bs[i] in bs;
  }

  ghost predicate NonePending(m: CC.State, a: Subject) {
    forall w :: w in m.pending && w < |m.log| ==> !Concerns(m.log[w], a, CC.RolesOf(CC.BindingsAt(m.log, a, |m.log|)))
  }

  lemma FreshBindingsUntouched(m: CC.State, a: Subject, at: nat)
    requires at <= |m.log| && CC.BindingsFresh(m, a, at) && NonePending(m, a)
    ensures forall w :: at <= w < |m.log| ==> !(m.log[w].WroteBindings? && m.log[w].subject == a)
    ensures CC.BindingsAt(m.log, a, at) == CC.BindingsAt(m.log, a, |m.log|)
  {
    CC.BindingsUnchanged(m.log, a, at, |m.log|);
  }

  lemma FreshRoleUntouched(m: CC.State, a: Subject, id: int, at: nat)
    requires CC.RoleFresh(m, id, at) && NonePending(m, a) && id in CC.RolesOf(CC.BindingsAt(m.log, a, |m.log|))
    ensures forall w :: at <= w < |m.log| ==> !(m.log[w].WroteRole? && m.log[w].id == id)
  {
  }

  lemma FreshIsUntouched(m: CC.State, a: Subject, r: CC.Reading)
    requires CC.ReadingOk(m, a, r) && NonePending(m, a) && r.rolesAt.Keys == CC.Customs(CC.BindingsAt(m.log, a, r.bindingsAt))
    ensures CC.Untouched(m.log, a, r)
  {
    FreshBindingsUntouched(m, a, r.bindingsAt);
    var bs := CC.BindingsAt(m.log, a, r.bindingsAt);
    forall i | i in r.rolesAt
      ensures i < |bs| && forall w :: r.rolesAt[i] <= w < |m.log| ==> !(m.log[w].WroteRole? && m.log[w].id == bs[i].role.id)
    {
      CustomIsARole(bs, i);
      FreshRoleUntouched(m, a, bs[i].role.id, r.rolesAt[i]);
    }
  }

  // While nobody has an unfinished change to the actor's access, what is cached of it
  // is current.
  lemma CachedIsCurrent(env: Env, a: Subject, m: CC.State, e: CC.Cached)
    requires ValidEnv(env) && CC.EntryOk(env, m, a, e) && NonePending(m, a)
    ensures e.eff == CC.Current(env, m.log, a)
  {
    FreshIsUntouched(m, a, e.reading);
    CC.UnchangedIsCurrent(env, m.log, a, e.reading);
  }

  lemma LoadedIsUntouched(env: Env, a: Subject, protected: seq<string>, s: State, r: CC.Reading)
    requires ValidEnv(env) && Inv(env, a, protected, s) && Enabled(env, a, protected, s, GetsLoaded(r))
    ensures CC.Untouched(s.m.log, a, r)
  {
    CC.BindingsUnchanged(s.m.log, a, r.bindingsAt, |s.m.log|);
    var bs := BindingsNow(s, a);
    forall i | i in r.rolesAt ensures i < |bs| && bs[i].role.id in CC.RolesOf(bs) {
      CustomIsARole(bs, i);
    }
  }

  lemma LoadedIsCurrent(env: Env, a: Subject, protected: seq<string>, s: State, r: CC.Reading)
    requires ValidEnv(env) && Inv(env, a, protected, s) && Enabled(env, a, protected, s, GetsLoaded(r))
    ensures CC.Computed(env, s.m.log, a, r) == CC.Current(env, s.m.log, a)
  {
    LoadedIsUntouched(env, a, protected, s, r);
    CC.UnchangedIsCurrent(env, s.m.log, a, r);
  }

  // Every step keeps the invariant --------------------------------------------------------

  lemma OtherWriteKeepsInv(env: Env, a: Subject, protected: seq<string>, s: State, w: CC.Write)
    requires ValidEnv(env) && Inv(env, a, protected, s) && Enabled(env, a, protected, s, Others(CC.Writes(w)))
    ensures Inv(env, a, protected, Next(env, a, protected, s, Others(CC.Writes(w))))
    ensures CC.Current(env, s.m.log + [w], a) == CC.Current(env, s.m.log, a)
  {
    var s' := Next(env, a, protected, s, Others(CC.Writes(w)));
    CC.StepKeepsInv(env, s.m, CC.Writes(w));
    UnconcernedWrite(env, a, s.m.log, w);
    assert BindingsNow(s', a) == BindingsNow(s, a);
    UnconcernedKeepsAccess(env, a, s.m.log, w, Drop(1));
    if s.holder.Some? {
      UnconcernedKeepsAccess(env, a, s.m.log, w, s.holder.value.change);
      assert Quiet(s.m.log, s.holder.value.lockedAt, a, CC.RolesOf(BindingsNow(s, a))) && s.holder.value.write.None? ==>
             Quiet(s'.m.log, s.holder.value.lockedAt, a, CC.RolesOf(BindingsNow(s, a)));
    }
  }

  lemma OtherStepKeepsInv(env: Env, a: Subject, protected: seq<string>, s: State, m: CC.Label)
    requires ValidEnv(env) && Inv(env, a, protected, s) && Enabled(env, a, protected, s, Others(m)) && !m.Writes?
    ensures Inv(env, a, protected, Next(env, a, protected, s, Others(m)))
  {
    CC.StepKeepsInv(env, s.m, m);
    var s' := Next(env, a, protected, s, Others(m));
    assert s'.m.log == s.m.log && s'.m.pending <= s.m.pending;
    assert BindingsNow(s', a) == BindingsNow(s, a);
  }

  lemma PassKeepsInv(env: Env, a: Subject, protected: seq<string>, s: State)
    requires ValidEnv(env) && Inv(env, a, protected, s) && Enabled(env, a, protected, s, Passes)
    ensures Inv(env, a, protected, Next(env, a, protected, s, Passes))
  {
    CheckedIsPlanned(env, a, protected, s);
  }

  // A holder that has not written leaves nothing about the actor pending.
  lemma HolderLeavesNonePending(a: Subject, s: State)
    requires PendingOk(s, a) && s.holder.Some? && s.holder.value.write.None?
    ensures NonePending(s.m, a)
  {
  }

  lemma EntryIsOk(env: Env, m: CC.State, a: Subject)
    requires ValidEnv(env) && CC.Inv(env, m) && a in m.entries
    ensures CC.EntryOk(env, m, a, m.entries[a])
  {
  }

  // Taking note of the current access keeps the invariant.
  lemma NotingKeepsInv(env: Env, a: Subject, protected: seq<string>, s: State, before: Effective)
    requires ValidEnv(env) && Inv(env, a, protected, s) && s.holder.Some? && before == CC.Current(env, s.m.log, a)
    ensures Inv(env, a, protected, s.(holder := Some(s.holder.value.(before := Some(before)))))
  {
  }

  lemma GetCachedKeepsInv(env: Env, a: Subject, protected: seq<string>, s: State)
    requires ValidEnv(env) && Inv(env, a, protected, s) && Enabled(env, a, protected, s, GetsCached)
    ensures Inv(env, a, protected, Next(env, a, protected, s, GetsCached))
  {
    assert s.m.entries[a].eff == CC.Current(env, s.m.log, a) by {
      HolderLeavesNonePending(a, s);
      EntryIsOk(env, s.m, a);
      CachedIsCurrent(env, a, s.m, s.m.entries[a]);
    }
    NotingKeepsInv(env, a, protected, s, s.m.entries[a].eff);
  }

  lemma GetLoadedKeepsInv(env: Env, a: Subject, protected: seq<string>, s: State, r: CC.Reading)
    requires ValidEnv(env) && Inv(env, a, protected, s) && Enabled(env, a, protected, s, GetsLoaded(r))
    ensures Inv(env, a, protected, Next(env, a, protected, s, GetsLoaded(r)))
  {
    LoadedIsCurrent(env, a, protected, s, r);
    NotingKeepsInv(env, a, protected, s, CC.Computed(env, s.m.log, a, r));
  }

  lemma ReadingKeepsInv(env: Env, a: Subject, protected: seq<string>, s: State, l: Label)
    requires ValidEnv(env) && Inv(env, a, protected, s) && Enabled(env, a, protected, s, l)
    requires l.Acquires? || l.ReadsBindings? || l.ReadsRole?
    ensures Inv(env, a, protected, Next(env, a, protected, s, l))
  {
  }

  // The roles the actor refers to only get fewer.
  lemma OwnWriteShrinks(a: Subject, s: State, change: Change)
    ensures CC.RolesOf(CC.BindingsAt(s.m.log + [OwnWrite(s, a, change)], a, |s.m.log| + 1)) <= CC.RolesOf(BindingsNow(s, a))
  {
    OwnBindings(a, s, change);
    forall b | b in Without(BindingsNow(s, a), change.DropId()) ensures b in BindingsNow(s, a) {
      WithoutMembers(BindingsNow(s, a), change.DropId(), b);
    }
  }

  lemma OwnWriteKeepsInv(env: Env, a: Subject, protected: seq<string>, s: State)
    requires ValidEnv(env) && Inv(env, a, protected, s) && Enabled(env, a, protected, s, Writes)
    ensures Inv(env, a, protected, Next(env, a, protected, s, Writes))
  {
    var w := OwnWrite(s, a, s.holder.value.change);
    CC.StepKeepsInv(env, s.m, CC.Writes(w));
    OwnWriteShrinks(a, s, s.holder.value.change);
    var s' := Next(env, a, protected, s, Writes);
    forall v | v in s'.m.pending && v < |s'.m.log| && Concerns(s'.m.log[v], a, CC.RolesOf(BindingsNow(s', a)))
      ensures s'.holder.value.write == Some(v)
    {
      if v < |s.m.log| {
        assert Concerns(s.m.log[v], a, CC.RolesOf(BindingsNow(s, a)));
      }
    }
  }

  lemma OwnEvictKeepsInv(env: Env, a: Subject, protected: seq<string>, s: State, l: Label)
    requires ValidEnv(env) && Inv(env, a, protected, s) && Enabled(env, a, protected, s, l) && (l.Evicts? || l.Releases?)
    ensures Inv(env, a, protected, Next(env, a, protected, s, l))
  {
    if l.Evicts? {
      CC.StepKeepsInv(env, s.m, CC.Evicts(s.holder.value.write.value));
    }
    assert BindingsNow(Next(env, a, protected, s, l), a) == BindingsNow(s, a);
  }

  lemma StepKeepsInv(env: Env, a: Subject, protected: seq<string>, s: State, l: Label)
    requires ValidEnv(env) && Inv(env, a, protected, s) && Enabled(env, a, protected, s, l)
    ensures Inv(env, a, protected, Next(env, a, protected, s, l))
  {
    match l
    case Others(m) => if m.Writes? { OtherWriteKeepsInv(env, a, protected, s, m.write); } else { OtherStepKeepsInv(env, a, protected, s, m); }
    case Writes => OwnWriteKeepsInv(env, a, protected, s);
    case Evicts => OwnEvictKeepsInv(env, a, protected, s, l);
    case Releases => OwnEvictKeepsInv(env, a, protected, s, l);
    case Passes => PassKeepsInv(env, a, protected, s);
    case GetsCached => GetCachedKeepsInv(env, a, protected, s);
    case GetsLoaded(r) => GetLoadedKeepsInv(env, a, protected, s, r);
    case _ => ReadingKeepsInv(env, a, protected, s, l);
  }

  // No step takes a protected permission away.
  lemma StepKeepsProtected(env: Env, a: Subject, protected: seq<string>, s: State, l: Label, p: string)
    requires ValidEnv(env) && Inv(env, a, protected, s) && Enabled(env, a, protected, s, l)
    requires p in protected && CC.Current(env, s.m.log, a).Holds(p)
    ensures CC.Current(env, Next(env, a, protected, s, l).m.log, a).Holds(p)
  {
    if l.Writes? {
      WriteMakesPlanCurrent(env, a, s, s.holder.value.change);
    } else if l.Others? && l.step.Writes? {
      OtherWriteKeepsInv(env, a, protected, s, l.step.write);
    } else {
      QuietLog(env, a, protected, s, l);
    }
  }

  lemma QuietLog(env: Env, a: Subject, protected: seq<string>, s: State, l: Label)
    requires ValidEnv(env) && Enabled(env, a, protected, s, l) && !l.Writes? && !(l.Others? && l.step.Writes?)
    ensures Next(env, a, protected, s, l).m.log == s.m.log
  {
  }

  ghost predicate IsRun(env: Env, a: Subject, protected: seq<string>, ss: seq<State>, ls: seq<Label>)
    requires ValidEnv(env)
  {
    && |ss| == |ls| + 1 && CC.Init(ss[0].m) && ss[0].holder.None?
    && forall i :: 0 <= i < |ls| ==> Enabled(env, a, protected, ss[i], ls[i]) && ss[i + 1] == Next(env, a, protected, ss[i], ls[i])
  }

  lemma {:induction false} RunKeepsInv(env: Env, a: Subject, protected: seq<string>, ss: seq<State>, ls: seq<Label>, i: nat)
    requires ValidEnv(env) && IsRun(env, a, protected, ss, ls) && i < |ss|
    ensures Inv(env, a, protected, ss[i])
  {
    if i > 0 {
      RunKeepsInv(env, a, protected, ss, ls, i - 1);
      StepKeepsInv(env, a, protected, ss[i - 1], ls[i - 1]);
    }
  }

  // No step of a run takes a protected permission away.
  lemma RunStepKeepsProtected(env: Env, a: Subject, protected: seq<string>, ss: seq<State>, ls: seq<Label>, i: nat, p: string)
    requires ValidEnv(env) && IsRun(env, a, protected, ss, ls) && i < |ls|
    requires p in protected && CC.Current(env, ss[i].m.log, a).Holds(p)
    ensures CC.Current(env, ss[i + 1].m.log, a).Holds(p)
  {
    RunKeepsInv(env, a, protected, ss, ls, i);
    StepKeepsProtected(env, a, protected, ss[i], ls[i], p);
  }

  // A protected permission held at any time is held from then on, whatever own
  // Unbind and SaveRole calls run.
  lemma {:induction false} NeverLockedOut(env: Env, a: Subject, protected: seq<string>, ss: seq<State>, ls: seq<Label>, i: nat, j: nat, p: string)
    requires ValidEnv(env) && IsRun(env, a, protected, ss, ls) && i <= j < |ss|
    requires p in protected && CC.Current(env, ss[i].m.log, a).Holds(p)
    ensures CC.Current(env, ss[j].m.log, a).Holds(p)
  {
    if i < j {
      NeverLockedOut(env, a, protected, ss, ls, i, j - 1, p);
      RunStepKeepsProtected(env, a, protected, ss, ls, j - 1, p);
    }
  }

  // In every run the check of a call that has read all it needs passes exactly when the
  // change would leave the actor every protected permission it holds at that moment.
  lemma PassesIff(env: Env, a: Subject, protected: seq<string>, ss: seq<State>, ls: seq<Label>, i: nat)
    requires ValidEnv(env) && IsRun(env, a, protected, ss, ls) && i < |ss|
    requires ss[i].holder.Some? && ss[i].holder.value.write.None? && ReadAll(ss[i], ss[i].holder.value)
    ensures Enabled(env, a, protected, ss[i], Passes) <==>
            forall p :: p in protected && CC.Current(env, ss[i].m.log, a).Holds(p) ==>
              Planned(env, a, ss[i].m.log, ss[i].holder.value.change).Holds(p)
  {
    RunKeepsInv(env, a, protected, ss, ls, i);
    CheckedIsPlanned(env, a, protected, ss[i]);
  }
}
