// The cache beside the store it is loaded from: any number of loads, store
// writes and evictions, interleaved. No cached entry outlives the eviction of
// anything it was computed from.
module CacheCoherence {
  import opened Wrappers
  import opened Clauses
  import opened Engine

  // A committed store write: a subject's bindings, or a custom role (None: deleted).
  datatype Write = WroteBindings(subject: Subject, bindings: seq<Binding>) | WroteRole(id: int, role: Option<Role>)

  // What a subject's bindings were, and a role was, after the first at writes.
  function BindingsAt(log: seq<Write>, s: Subject, at: nat): seq<Binding>
    requires at <= |log|
  {
    if at == 0 then []
    else if log[at - 1].WroteBindings? && log[at - 1].subject == s then log[at - 1].bindings
    else BindingsAt(log, s, at - 1)
  }

  function RoleAt(log: seq<Write>, id: int, at: nat): Option<Role>
    requires at <= |log|
  {
    if at == 0 then None
    else if log[at - 1].WroteRole? && log[at - 1].id == id then log[at - 1].role
    else RoleAt(log, id, at - 1)
  }

  // The custom roles a list of bindings refers to, and the positions that do.
  function RolesOf(bs: seq<Binding>): set<int> {
    set b | b in bs && b.role.Valid() && b.role.id > 0 :: b.role.id
  }

  function Customs(bs: seq<Binding>): set<nat> {
    set i: nat | i < |bs| && bs[i].role.Valid() && bs[i].role.id > 0
  }

  // When a subject's bindings were read, and the role of each binding of a custom one.
  datatype Reading = Reading(bindingsAt: nat, rolesAt: map<nat, nat>)

  ghost predicate InLog(log: seq<Write>, r: Reading) {
    r.bindingsAt <= |log| && forall i :: i in r.rolesAt ==> r.rolesAt[i] <= |log|
  }

  // The role each binding found: a predefined one, or a custom one as it was when read.
  function FoundAt(env: Env, log: seq<Write>, bs: seq<Binding>, rolesAt: map<nat, nat>): seq<Option<Role>> {
    seq(|bs|, i requires 0 <= i < |bs| =>
      if bs[i].role.key != "" then Get(env.predefined, bs[i].role.key)
      else if i in rolesAt && rolesAt[i] <= |log| then RoleAt(log, bs[i].role.id, rolesAt[i]) else None)
  }

  // The access computed from a reading.
  function Computed(env: Env, log: seq<Write>, s: Subject, r: Reading): Effective
    requires ValidEnv(env) && InLog(log, r)
  {
    var bs := BindingsAt(log, s, r.bindingsAt);
    BuildEach(env, bs, FoundAt(env, log, bs, r.rolesAt))
  }

  // What the store holds now.
  function LookupNow(env: Env, log: seq<Write>): Lookup {
    (ref: RoleRef) => if ref.key != "" then Get(env.predefined, ref.key) else RoleAt(log, ref.id, |log|)
  }

  function Current(env: Env, log: seq<Write>, s: Subject): Effective
    requires ValidEnv(env)
  {
    Build(env, BindingsAt(log, s, |log|), LookupNow(env, log))
  }

  datatype Cached = Cached(reading: Reading, eff: Effective)

  // A load under way: the epoch it began in and what it has read so far.
  datatype Load = Load(subject: Subject, epoch: nat, bindingsAt: Option<nat>, rolesAt: map<nat, nat>)

  // pending are the writes whose eviction has not run yet.
  datatype State = State(log: seq<Write>, pending: set<nat>, epoch: nat, entries: map<Subject, Cached>, loads: map<nat, Load>)

  datatype Label =
    | Writes(write: Write)
    | Evicts(w: nat)
    | EvictsAll
    | Begins(l: nat, subject: Subject)
    | ReadsBindings(l: nat)
    | ReadsRole(l: nat, i: nat)
    | Puts(l: nat)
    | Fails(l: nat)
    | Expires(subject: Subject)

  ghost predicate Init(s: State) {
    s.pending == {} && s.entries == map[] && s.loads == map[]
  }

  ghost predicate Enabled(s: State, l: Label) {
    match l
    case Writes(_) => true
    case Evicts(w) => w in s.pending && w < |s.log|
    case EvictsAll => true
    case Begins(l, _) => l !in s.loads
    case ReadsBindings(l) => l in s.loads && s.loads[l].bindingsAt.None?
    case ReadsRole(l, i) =>
      l in s.loads && s.loads[l].bindingsAt.Some? && s.loads[l].bindingsAt.value <= |s.log| &&
      i in Customs(BindingsAt(s.log, s.loads[l].subject, s.loads[l].bindingsAt.value)) && i !in s.loads[l].rolesAt
    case Puts(l) =>
      l in s.loads && s.loads[l].bindingsAt.Some? && InLog(s.log, Reading(s.loads[l].bindingsAt.value, s.loads[l].rolesAt)) &&
      Customs(BindingsAt(s.log, s.loads[l].subject, s.loads[l].bindingsAt.value)) == s.loads[l].rolesAt.Keys
    case Fails(l) => l in s.loads
    case Expires(_) => true
  }

  // The entries an eviction leaves: all but the subject's, or all that do not use the role.
  function Surviving(entries: map<Subject, Cached>, w: Write): map<Subject, Cached> {
    match w
    case WroteBindings(s, _) => entries - {s}
    case WroteRole(id, _) => map s | s in entries && id !in entries[s].eff.roleIds :: entries[s]
  }

  ghost function Next(env: Env, s: State, l: Label): State
    requires ValidEnv(env) && Enabled(s, l)
  {
    match l
    case Writes(w) => s.(log := s.log + [w], pending := s.pending + {|s.log|})
    case Evicts(w) => s.(pending := s.pending - {w}, epoch := s.epoch + 1, entries := Surviving(s.entries, s.log[w]))
    case EvictsAll => s.(epoch := s.epoch + 1, entries := map[])
    case Begins(l, subject) => s.(loads := s.loads[l := Load(subject, s.epoch, None, map[])])
    case ReadsBindings(l) => s.(loads := s.loads[l := s.loads[l].(bindingsAt := Some(|s.log|))])
    case ReadsRole(l, i) => s.(loads := s.loads[l := s.loads[l].(rolesAt := s.loads[l].rolesAt[i := |s.log|])])
    case Puts(l) =>
      var load := s.loads[l];
      var r := Reading(load.bindingsAt.value, load.rolesAt);
      s.(loads := s.loads - {l},
         entries := if load.epoch == s.epoch then s.entries[load.subject := Cached(r, Computed(env, s.log, load.subject, r))] else s.entries)
    case Fails(l) => s.(loads := s.loads - {l})
    case Expires(subject) => s.(entries := s.entries - {subject})
  }

  // Coherence ------------------------------------------------------------------------

  // Every write to the bindings since they were read has its eviction still to come.
  ghost predicate BindingsFresh(s: State, subject: Subject, at: nat) {
    forall w :: at <= w < |s.log| && s.log[w].WroteBindings? && s.log[w].subject == subject ==> w in s.pending
  }

  ghost predicate RoleFresh(s: State, id: int, at: nat) {
    forall w :: at <= w < |s.log| && s.log[w].WroteRole? && s.log[w].id == id ==> w in s.pending
  }

  ghost predicate RolesFresh(s: State, bs: seq<Binding>, rolesAt: map<nat, nat>) {
    forall i :: i in rolesAt ==> i < |bs| && RoleFresh(s, bs[i].role.id, rolesAt[i])
  }

  ghost predicate ReadingOk(s: State, subject: Subject, r: Reading) {
    && InLog(s.log, r)
    && BindingsFresh(s, subject, r.bindingsAt)
    && RolesFresh(s, BindingsAt(s.log, subject, r.bindingsAt), r.rolesAt)
  }

  ghost predicate EntryOk(env: Env, s: State, subject: Subject, c: Cached)
    requires ValidEnv(env)
  {
    && ReadingOk(s, subject, c.reading)
    && c.eff == Computed(env, s.log, subject, c.reading)
    && c.reading.rolesAt.Keys == Customs(BindingsAt(s.log, subject, c.reading.bindingsAt))
  }

  // A load of the current epoch has read nothing stale whose eviction is over.
  ghost predicate LoadOk(s: State, load: Load) {
    && load.epoch <= s.epoch
    && (load.bindingsAt.None? ==> load.rolesAt == map[])
    && (load.epoch == s.epoch && load.bindingsAt.Some? ==> ReadingOk(s, load.subject, Reading(load.bindingsAt.value, load.rolesAt)))
  }

  ghost predicate Inv(env: Env, s: State)
    requires ValidEnv(env)
  {
    && (forall w :: w in s.pending ==> w < |s.log|)
    && (forall subject :: subject in s.entries ==> EntryOk(env, s, subject, s.entries[subject]))
    && (forall l :: l in s.loads ==> LoadOk(s, s.loads[l]))
  }

  lemma {:induction false} BindingsPrefix(log: seq<Write>, w: Write, s: Subject, at: nat)
    requires at <= |log|
    ensures BindingsAt(log + [w], s, at) == BindingsAt(log, s, at)
  {
    if at > 0 {
      BindingsPrefix(log, w, s, at - 1);
    }
  }

  lemma {:induction false} RolePrefix(log: seq<Write>, w: Write, id: int, at: nat)
    requires at <= |log|
    ensures RoleAt(log + [w], id, at) == RoleAt(log, id, at)
  {
    if at > 0 {
      RolePrefix(log, w, id, at - 1);
    }
  }

  // A further write changes nothing about what was read before it.
  lemma ComputedPrefix(env: Env, log: seq<Write>, w: Write, s: Subject, r: Reading)
    requires ValidEnv(env) && InLog(log, r)
    ensures Computed(env, log + [w], s, r) == Computed(env, log, s, r)
    ensures BindingsAt(log + [w], s, r.bindingsAt) == BindingsAt(log, s, r.bindingsAt)
  {
    BindingsPrefix(log, w, s, r.bindingsAt);
    var bs := BindingsAt(log, s, r.bindingsAt);
    forall i | 0 <= i < |bs|
      ensures FoundAt(env, log + [w], bs, r.rolesAt)[i] == FoundAt(env, log, bs, r.rolesAt)[i]
    {
      if i in r.rolesAt {
        RolePrefix(log, w, bs[i].role.id, r.rolesAt[i]);
      }
    }
    EachIsLocal(env, bs, FoundAt(env, log + [w], bs, r.rolesAt), FoundAt(env, log, bs, r.rolesAt));
  }

  lemma WriteKeepsReading(s: State, w: Write, subject: Subject, r: Reading)
    requires ReadingOk(s, subject, r)
    ensures ReadingOk(s.(log := s.log + [w], pending := s.pending + {|s.log|}), subject, r)
  {
    BindingsPrefix(s.log, w, subject, r.bindingsAt);
  }

  lemma WriteKeepsInv(env: Env, s: State, w: Write)
    requires ValidEnv(env) && Inv(env, s)
    ensures Inv(env, Next(env, s, Writes(w)))
  {
    var s' := Next(env, s, Writes(w));
    forall subject | subject in s'.entries ensures EntryOk(env, s', subject, s'.entries[subject]) {
      WriteKeepsReading(s, w, subject, s.entries[subject].reading);
      ComputedPrefix(env, s.log, w, subject, s.entries[subject].reading);
    }
    forall l | l in s'.loads ensures LoadOk(s', s'.loads[l]) {
      var load := s.loads[l];
      assert LoadOk(s, load);
      if load.epoch == s.epoch && load.bindingsAt.Some? {
        WriteKeepsReading(s, w, load.subject, Reading(load.bindingsAt.value, load.rolesAt));
      }
    }
  }

  // A position is read exactly when its binding refers to a custom role, which the
  // access then counts as used.
  lemma ReadIsUsed(env: Env, s: State, subject: Subject, c: Cached, i: nat)
    requires ValidEnv(env) && EntryOk(env, s, subject, c) && i in c.reading.rolesAt
    ensures var bs := BindingsAt(s.log, subject, c.reading.bindingsAt); i < |bs| && bs[i].role.id in c.eff.roleIds
  {
    var bs := BindingsAt(s.log, subject, c.reading.bindingsAt);
    assert i in Customs(bs);
    EachUses(env, bs, FoundAt(env, s.log, bs, c.reading.rolesAt), bs[i].role.id);
    assert bs[i] in bs;
  }

  // The eviction of a write deletes every entry the write concerns.
  lemma EvictedConcernsNone(env: Env, s: State, w: nat, subject: Subject)
    requires ValidEnv(env) && w < |s.log| && subject in Surviving(s.entries, s.log[w])
    requires EntryOk(env, s, subject, s.entries[subject])
    ensures s.log[w].WroteBindings? ==> s.log[w].subject != subject
    ensures var r := s.entries[subject].reading; var bs := BindingsAt(s.log, subject, r.bindingsAt);
            s.log[w].WroteRole? ==> forall i :: i in r.rolesAt ==> i < |bs| && bs[i].role.id != s.log[w].id
  {
    EntryReadsUsed(env, s, subject, s.entries[subject]);
  }

  // The eviction of a write that concerns neither leaves both fresh.
  lemma StaysFresh(s: State, s': State, w: nat, subject: Subject, r: Reading)
    requires ReadingOk(s, subject, r) && w < |s.log| && s'.log == s.log && s'.pending == s.pending - {w}
    requires s.log[w].WroteBindings? ==> s.log[w].subject != subject
    requires var bs := BindingsAt(s.log, subject, r.bindingsAt);
             s.log[w].WroteRole? ==> forall i :: i in r.rolesAt ==> i < |bs| && bs[i].role.id != s.log[w].id
    ensures ReadingOk(s', subject, r)
  {
    var bs := BindingsAt(s.log, subject, r.bindingsAt);
    assert BindingsFresh(s', subject, r.bindingsAt);
    forall i | i in r.rolesAt ensures i < |bs| && RoleFresh(s', bs[i].role.id, r.rolesAt[i]) {
      assert RoleFresh(s, bs[i].role.id, r.rolesAt[i]);
    }
  }

  lemma SameReadingSameEntry(env: Env, s: State, s': State, subject: Subject, c: Cached)
    requires ValidEnv(env) && EntryOk(env, s, subject, c) && s'.log == s.log && ReadingOk(s', subject, c.reading)
    ensures EntryOk(env, s', subject, c)
  {
  }

  lemma EvictKeepsEntry(env: Env, s: State, w: nat, subject: Subject)
    requires ValidEnv(env) && Enabled(s, Evicts(w)) && subject in Surviving(s.entries, s.log[w])
    requires EntryOk(env, s, subject, s.entries[subject])
    ensures EntryOk(env, Next(env, s, Evicts(w)), subject, s.entries[subject])
  {
    EvictedConcernsNone(env, s, w, subject);
    var s' := Next(env, s, Evicts(w));
    StaysFresh(s, s', w, subject, s.entries[subject].reading);
    SameReadingSameEntry(env, s, s', subject, s.entries[subject]);
  }

  lemma EvictKeepsInv(env: Env, s: State, w: nat)
    requires ValidEnv(env) && Inv(env, s) && Enabled(s, Evicts(w))
    ensures Inv(env, Next(env, s, Evicts(w)))
  {
    var s' := Next(env, s, Evicts(w));
    forall subject | subject in s'.entries ensures EntryOk(env, s', subject, s'.entries[subject]) {
      EvictKeepsEntry(env, s, w, subject);
    }
    forall l | l in s'.loads ensures LoadOk(s', s'.loads[l]) {
      assert LoadOk(s, s.loads[l]);
    }
  }

  // A load no eviction overtook is a sound entry.
  lemma LoadedIsSound(env: Env, s: State, l: nat)
    requires ValidEnv(env) && Enabled(s, Puts(l)) && LoadOk(s, s.loads[l]) && s.loads[l].epoch == s.epoch
    ensures var load := s.loads[l]; var r := Reading(load.bindingsAt.value, load.rolesAt);
            EntryOk(env, s, load.subject, Cached(r, Computed(env, s.log, load.subject, r)))
  {
  }

  lemma PutKeepsInv(env: Env, s: State, l: nat)
    requires ValidEnv(env) && Inv(env, s) && Enabled(s, Puts(l))
    ensures Inv(env, Next(env, s, Puts(l)))
  {
    var s' := Next(env, s, Puts(l));
    forall subject | subject in s'.entries ensures EntryOk(env, s', subject, s'.entries[subject]) {
      if subject == s.loads[l].subject && s.loads[l].epoch == s.epoch {
        LoadedIsSound(env, s, l);
      }
      SameLogKeepsEntry(env, s, s', subject, s'.entries[subject]);
    }
    forall k | k in s'.loads ensures LoadOk(s', s'.loads[k]) {
      SameLogKeepsLoad(s, s', s.loads[k]);
    }
  }

  // What is cached and loading stays as good as it was while only loads move on.
  lemma SameLogKeepsEntry(env: Env, s: State, s': State, subject: Subject, c: Cached)
    requires ValidEnv(env) && EntryOk(env, s, subject, c) && s'.log == s.log && s'.pending == s.pending
    ensures EntryOk(env, s', subject, c)
  {
  }

  lemma SameLogKeepsLoad(s: State, s': State, load: Load)
    requires LoadOk(s, load) && s'.log == s.log && s'.pending == s.pending && s'.epoch >= s.epoch
    ensures LoadOk(s', load)
  {
  }

  // A load begins, and reads its bindings and its roles one by one.
  lemma BeginKeepsLoad(env: Env, s: State, l: nat, subject: Subject)
    requires ValidEnv(env) && Enabled(s, Begins(l, subject))
    ensures var s' := Next(env, s, Begins(l, subject)); LoadOk(s', s'.loads[l])
  {
  }

  lemma ReadBindingsKeepsLoad(env: Env, s: State, l: nat)
    requires ValidEnv(env) && Enabled(s, ReadsBindings(l)) && LoadOk(s, s.loads[l])
    ensures var s' := Next(env, s, ReadsBindings(l)); LoadOk(s', s'.loads[l])
  {
  }

  lemma ReadRoleKeepsLoad(env: Env, s: State, l: nat, i: nat)
    requires ValidEnv(env) && Enabled(s, ReadsRole(l, i)) && LoadOk(s, s.loads[l])
    ensures var s' := Next(env, s, ReadsRole(l, i)); LoadOk(s', s'.loads[l])
  {
  }

  lemma LoadingKeepsInv(env: Env, s: State, l: Label)
    requires ValidEnv(env) && Inv(env, s) && Enabled(s, l) && (l.Begins? || l.ReadsBindings? || l.ReadsRole?)
    ensures Inv(env, Next(env, s, l))
  {
    var s' := Next(env, s, l);
    forall subject | subject in s'.entries ensures EntryOk(env, s', subject, s'.entries[subject]) {
      SameLogKeepsEntry(env, s, s', subject, s.entries[subject]);
    }
    forall k | k in s'.loads ensures LoadOk(s', s'.loads[k]) {
      if k != l.l {
        SameLogKeepsLoad(s, s', s.loads[k]);
      } else {
        match l
        case Begins(_, subject) => BeginKeepsLoad(env, s, k, subject);
        case ReadsBindings(_) => ReadBindingsKeepsLoad(env, s, k);
        case ReadsRole(_, i) => ReadRoleKeepsLoad(env, s, k, i);
      }
    }
  }

  // Entries and loads that go leave the others as they were.
  lemma DroppingKeepsInv(env: Env, s: State, l: Label)
    requires ValidEnv(env) && Inv(env, s) && Enabled(s, l) && (l.EvictsAll? || l.Fails? || l.Expires?)
    ensures Inv(env, Next(env, s, l))
  {
    var s' := Next(env, s, l);
    forall subject | subject in s'.entries ensures EntryOk(env, s', subject, s'.entries[subject]) {
      SameLogKeepsEntry(env, s, s', subject, s.entries[subject]);
    }
    forall k | k in s'.loads ensures LoadOk(s', s'.loads[k]) {
      SameLogKeepsLoad(s, s', s.loads[k]);
    }
  }

  lemma StepKeepsInv(env: Env, s: State, l: Label)
    requires ValidEnv(env) && Inv(env, s) && Enabled(s, l)
    ensures Inv(env, Next(env, s, l))
  {
    match l
    case Writes(w) => WriteKeepsInv(env, s, w);
    case Evicts(w) => EvictKeepsInv(env, s, w);
    case Puts(k) => PutKeepsInv(env, s, k);
    case Begins(_, _) => LoadingKeepsInv(env, s, l);
    case ReadsBindings(_) => LoadingKeepsInv(env, s, l);
    case ReadsRole(_, _) => LoadingKeepsInv(env, s, l);
    case _ => DroppingKeepsInv(env, s, l);
  }

  // Runs ---------------------------------------------------------------------------------

  ghost predicate IsRun(env: Env, ss: seq<State>, ls: seq<Label>)
    requires ValidEnv(env)
  {
    && |ss| == |ls| + 1 && Init(ss[0])
    && forall i :: 0 <= i < |ls| ==> Enabled(ss[i], ls[i]) && ss[i + 1] == Next(env, ss[i], ls[i])
  }

  lemma {:induction false} RunKeepsInv(env: Env, ss: seq<State>, ls: seq<Label>, i: nat)
    requires ValidEnv(env) && IsRun(env, ss, ls) && i < |ss|
    ensures Inv(env, ss[i])
  {
    if i > 0 {
      RunKeepsInv(env, ss, ls, i - 1);
      StepKeepsInv(env, ss[i - 1], ls[i - 1]);
    }
  }

  // The reading was made after the write, as far as the write concerns it.
  ghost predicate ReadAfter(log: seq<Write>, subject: Subject, r: Reading, w: nat)
    requires InLog(log, r) && w < |log|
  {
    match log[w]
    case WroteBindings(t, _) => t == subject ==> r.bindingsAt > w
    case WroteRole(id, _) =>
      var bs := BindingsAt(log, subject, r.bindingsAt);
      forall k :: k in Customs(bs) && bs[k].role.id == id ==> k in r.rolesAt && r.rolesAt[k] > w
  }

  lemma FreshIsReadAfter(s: State, subject: Subject, r: Reading, w: nat)
    requires ReadingOk(s, subject, r) && r.rolesAt.Keys == Customs(BindingsAt(s.log, subject, r.bindingsAt))
    requires w < |s.log| && w !in s.pending
    ensures ReadAfter(s.log, subject, r, w)
  {
    var bs := BindingsAt(s.log, subject, r.bindingsAt);
    forall k | k in Customs(bs) ensures k in r.rolesAt && RoleFresh(s, bs[k].role.id, r.rolesAt[k]) {
    }
  }

  // Once a write's eviction has run, no entry serves what the write replaced: an
  // entry of its subject read the bindings after it, and every binding of an entry
  // that refers to its role read the role after it.
  lemma NothingReplacedIsServed(env: Env, ss: seq<State>, ls: seq<Label>, i: nat, w: nat, subject: Subject)
    requires ValidEnv(env) && IsRun(env, ss, ls) && i < |ss|
    requires w < |ss[i].log| && w !in ss[i].pending && subject in ss[i].entries
    ensures InLog(ss[i].log, ss[i].entries[subject].reading)
    ensures ReadAfter(ss[i].log, subject, ss[i].entries[subject].reading, w)
  {
    RunKeepsInv(env, ss, ls, i);
    assert EntryOk(env, ss[i], subject, ss[i].entries[subject]);
    FreshIsReadAfter(ss[i], subject, ss[i].entries[subject].reading, w);
  }

  // Nothing pending concerns the subject or any of the roles.
  ghost predicate Settled(s: State, subject: Subject, roles: set<int>) {
    forall w :: w in s.pending && w < |s.log| ==>
      match s.log[w]
      case WroteBindings(t, _) => t != subject
      case WroteRole(id, _) => id !in roles
  }

  lemma {:induction false} BindingsUnchanged(log: seq<Write>, s: Subject, at: nat, now: nat)
    requires at <= now <= |log|
    requires forall w :: at <= w < now ==> !(log[w].WroteBindings? && log[w].subject == s)
    ensures BindingsAt(log, s, now) == BindingsAt(log, s, at)
  {
    if at < now {
      BindingsUnchanged(log, s, at, now - 1);
    }
  }

  lemma {:induction false} RoleUnchanged(log: seq<Write>, id: int, at: nat, now: nat)
    requires at <= now <= |log|
    requires forall w :: at <= w < now ==> !(log[w].WroteRole? && log[w].id == id)
    ensures RoleAt(log, id, now) == RoleAt(log, id, at)
  {
    if at < now {
      RoleUnchanged(log, id, at, now - 1);
    }
  }

  // Nothing the reading read was written since.
  ghost predicate Untouched(log: seq<Write>, subject: Subject, r: Reading)
    requires InLog(log, r)
  {
    var bs := BindingsAt(log, subject, r.bindingsAt);
    && (forall w :: r.bindingsAt <= w < |log| ==> !(log[w].WroteBindings? && log[w].subject == subject))
    && (forall i, w :: i in r.rolesAt && i < |bs| && r.rolesAt[i] <= w < |log| ==> !(log[w].WroteRole? && log[w].id == bs[i].role.id))
  }

  // Such a reading is as good as one made now.
  lemma UnchangedIsCurrent(env: Env, log: seq<Write>, subject: Subject, r: Reading)
    requires ValidEnv(env) && InLog(log, r) && r.rolesAt.Keys == Customs(BindingsAt(log, subject, r.bindingsAt))
    requires Untouched(log, subject, r)
    ensures Computed(env, log, subject, r) == Current(env, log, subject)
  {
    BindingsUnchanged(log, subject, r.bindingsAt, |log|);
    var bs := BindingsAt(log, subject, r.bindingsAt);
    var found := FoundAt(env, log, bs, r.rolesAt);
    forall i | 0 <= i < |bs| && bs[i].role.Valid() ensures found[i] == LookupNow(env, log)(bs[i].role) {
      if bs[i].role.key == "" {
        assert i in Customs(bs);
        RoleUnchanged(log, bs[i].role.id, r.rolesAt[i], |log|);
      }
    }
    EachIsBuild(env, bs, found, LookupNow(env, log));
  }

  // Every role the entry read is one its access uses.
  ghost predicate ReadsUsed(log: seq<Write>, subject: Subject, c: Cached)
    requires InLog(log, c.reading)
  {
    var bs := BindingsAt(log, subject, c.reading.bindingsAt);
    forall i :: i in c.reading.rolesAt ==> i < |bs| && bs[i].role.id in c.eff.roleIds
  }

  lemma EntryReadsUsed(env: Env, s: State, subject: Subject, c: Cached)
    requires ValidEnv(env) && EntryOk(env, s, subject, c)
    ensures ReadsUsed(s.log, subject, c)
  {
    forall i | i in c.reading.rolesAt
      ensures var bs := BindingsAt(s.log, subject, c.reading.bindingsAt); i < |bs| && bs[i].role.id in c.eff.roleIds
    {
      ReadIsUsed(env, s, subject, c, i);
    }
  }

  lemma SettledIsUntouched(s: State, subject: Subject, c: Cached)
    requires ReadingOk(s, subject, c.reading) && ReadsUsed(s.log, subject, c) && Settled(s, subject, c.eff.roleIds)
    ensures Untouched(s.log, subject, c.reading)
  {
    var bs := BindingsAt(s.log, subject, c.reading.bindingsAt);
    assert forall i :: i in c.reading.rolesAt ==> RoleFresh(s, bs[i].role.id, c.reading.rolesAt[i]);
  }

  lemma SettledEntryIsCurrent(env: Env, s: State, subject: Subject, c: Cached)
    requires ValidEnv(env) && EntryOk(env, s, subject, c) && Settled(s, subject, c.eff.roleIds)
    ensures c.eff == Current(env, s.log, subject)
  {
    EntryReadsUsed(env, s, subject, c);
    SettledIsUntouched(s, subject, c);
    UnchangedIsCurrent(env, s.log, subject, c.reading);
  }

  // In every run, a get of a subject nothing pending concerns serves its current access.
  lemma SettledIsCurrent(env: Env, ss: seq<State>, ls: seq<Label>, i: nat, subject: Subject)
    requires ValidEnv(env) && IsRun(env, ss, ls) && i < |ss| && subject in ss[i].entries
    requires Settled(ss[i], subject, ss[i].entries[subject].eff.roleIds)
    ensures ss[i].entries[subject].eff == Current(env, ss[i].log, subject)
  {
    RunKeepsInv(env, ss, ls, i);
    SettledEntryIsCurrent(env, ss[i], subject, ss[i].entries[subject]);
  }

  // What is cached -----------------------------------------------------------------------

  // An eviction spares every entry its write does not concern.
  lemma EvictionSpares(env: Env, s: State, w: nat, subject: Subject)
    requires ValidEnv(env) && Enabled(s, Evicts(w)) && subject in s.entries
    requires match s.log[w]
             case WroteBindings(t, _) => t != subject
             case WroteRole(id, _) => id !in s.entries[subject].eff.roleIds
    ensures Get(Next(env, s, Evicts(w)).entries, subject) == Some(s.entries[subject])
  {
  }

  // The load begun at step i is still under way before step t, and no eviction ran since.
  ghost predicate Unovertaken(ls: seq<Label>, i: nat, t: nat, l: nat, subject: Subject) {
    && i < t <= |ls| && ls[i] == Begins(l, subject)
    && forall k :: i < k < t ==> !ls[k].Evicts? && !ls[k].EvictsAll? && ls[k] != Puts(l) && ls[k] != Fails(l)
  }

  lemma {:induction false} EpochStays(env: Env, ss: seq<State>, ls: seq<Label>, i: nat, t: nat, l: nat, subject: Subject)
    requires ValidEnv(env) && IsRun(env, ss, ls) && Unovertaken(ls, i, t, l, subject)
    ensures ss[t].epoch == ss[i].epoch
    ensures l in ss[t].loads && ss[t].loads[l].subject == subject && ss[t].loads[l].epoch == ss[t].epoch
  {
    var k := t - 1;
    assert Enabled(ss[k], ls[k]) && ss[t] == Next(env, ss[k], ls[k]);
    if k > i {
      EpochStays(env, ss, ls, i, k, l, subject);
    }
  }

  // In every run a load that no eviction overtakes is cached: the next get is served it.
  lemma UnovertakenIsCached(env: Env, ss: seq<State>, ls: seq<Label>, i: nat, j: nat, l: nat, subject: Subject)
    requires ValidEnv(env) && IsRun(env, ss, ls) && Unovertaken(ls, i, j, l, subject) && j < |ls| && ls[j] == Puts(l)
    ensures subject in ss[j + 1].entries
    ensures var load := ss[j].loads[l]; ss[j + 1].entries[subject].reading == Reading(load.bindingsAt.value, load.rolesAt)
  {
    EpochStays(env, ss, ls, i, j, l, subject);
    assert Enabled(ss[j], ls[j]) && ss[j + 1] == Next(env, ss[j], ls[j]);
  }

  // And one that an eviction overtook leaves the cache as it is.
  lemma OvertakenIsDropped(env: Env, s: State, l: nat)
    requires ValidEnv(env) && Enabled(s, Puts(l)) && s.loads[l].epoch != s.epoch
    ensures Next(env, s, Puts(l)).entries == s.entries
  {
  }
}
