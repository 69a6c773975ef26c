/** Histories of commands on one machine: any launches and any destroys, each
    with any step failing, in any order. */
module Histories {
  import opened Options
  import opened Sessions
  import opened Lifecycle
  import opened LaunchRuns
  import opened DestroyRuns

  /** The state folder, and the outside of every session there ever was. */
  datatype System = System(shelves: Shelves, outs: map<string, Outside>)

  const NEW_MACHINE := System(Both(map[], map[]), map[])

  datatype Op =
    | Launch(inputs: Inputs, slug: string, at: int, answers: Oracle)
    | Destroy(name: string, answers: Oracle, faults: ArchiveFaults)

  /** One session as a command that holds the object `m` for it sees it. */
  function Sight(sys: System, name: string, m: Metadata): State {
    State(m,
          if name in sys.shelves.sessions then Some(sys.shelves.sessions[name]) else None,
          if name in sys.outs then sys.outs[name] else UNTOUCHED)
  }

  function Put(sys: System, name: string, st: State): System {
    System(if st.folder.None? then sys.shelves
           else sys.shelves.(sessions := sys.shelves.sessions[name := st.folder.value]),
           sys.outs[name := st.out])
  }

  predicate Taken(sys: System, slug: string) {
    slug in sys.shelves.sessions || slug in sys.shelves.archive
  }

  predicate IsListedLocal(reg: Registry, sys: System, name: string) {
    var m := Listed(sys.shelves.sessions, name);
    m.Some? && IsLocal(reg, m.value)
  }

  /** Some listed session runs on this machine. */
  predicate HasLocal(reg: Registry, sys: System) {
    exists name :: name in sys.shelves.sessions && IsListedLocal(reg, sys, name)
  }

  /** A launch creates its folder, then its metadata, then runs.  It does nothing
      for a taken slug (another is drawn), while a local session is listed, or
      when a local cluster's tools are missing. */
  function LaunchOn(reg: Registry, sys: System, i: Inputs, slug: string, at: int, o: Oracle): System {
    if Taken(sys, slug) || (!i.cloud && (HasLocal(reg, sys) || (HasKind(i) && FindHostBins in o.breaks))) then sys
    else if MakeFolder in o.breaks then Put(sys, slug, State(Blank(i, slug, at), Some(EMPTY), UNTOUCHED))
    else if i.cloud && GeneratePassword in o.breaks then
      Put(sys, slug, State(Blank(i, slug, at), Some(Folder(Some(Blank(i, slug, at)), Some(map[]))), UNTOUCHED))
    else Put(sys, slug, Launched(Begun(i, slug, at), i, o).0)
  }

  datatype Result = NotFound | Refused | ReleaseFailed | NotArchived | Destroyed

  /** One destroy: nothing happens without a listed session or when the command
      cannot start; otherwise release, and on success archive. */
  function DestroyOn(reg: Registry, sys: System, name: string, o: Oracle, faults: ArchiveFaults): (System, Result) {
    var m := Listed(sys.shelves.sessions, name);
    if m.None? then (sys, NotFound)
    else if !Prepared(reg, m.value, o) then (sys, Refused)
    else
      var (st, gone) := Released(Sight(sys, name, m.value), reg, o);
      var after := Put(sys, name, st);
      if !gone then (after, ReleaseFailed)
      else
        var (shelves, ok) := Archived(after.shelves, name, st.mem.slug, faults);
        (after.(shelves := shelves), if ok then Destroyed else NotArchived)
  }

  function Apply(reg: Registry, sys: System, op: Op): System {
    match op
    case Launch(i, slug, at, o) => LaunchOn(reg, sys, i, slug, at, o)
    case Destroy(name, o, faults) => DestroyOn(reg, sys, name, o, faults).0
  }

  function AfterAll(reg: Registry, sys: System, ops: seq<Op>): System
    decreases |ops|
  {
    if ops == [] then sys else AfterAll(reg, Apply(reg, sys, ops[0]), ops[1..])
  }

  /** The hypotheses on one command: providers come from the registry and a
      minted key has a handle. */
  predicate Sane(reg: Registry, op: Op) {
    op.Launch? ==> Offered(reg, op.inputs) && op.answers.hash != ""
  }

  // ------------------------------------------------------------- invariant

  /** A ready session has the ai role exactly when it records a key. */
  predicate ReadyHasItsKey(m: Metadata) {
    m.status == Ready ==> (Role(m, "ai") != "" <==> m.aiKeyHash != "")
  }

  /** The providers a session names are known. */
  predicate ProvidersKnown(reg: Registry, m: Metadata) {
    && Role(m, "vm") in reg.vms + reg.locals
    && (Role(m, "access") != "" ==> Role(m, "access") in reg.accesses)
  }

  predicate MetadataOk(reg: Registry, name: string, m: Metadata, live: Live) {
    && m.slug == name && m.roles.Some? && m.schema == 2
    && Held(reg, m, live) && ReadyHasItsKey(m) && ProvidersKnown(reg, m)
  }

  /** A listed session accounts for everything that runs for it; nothing runs
      for any other name. */
  predicate SiteOk(reg: Registry, sessions: map<string, Folder>, name: string, live: Live) {
    if name in sessions && sessions[name].metadata.Some?
    then MetadataOk(reg, name, sessions[name].metadata.value, live)
    else live == NOTHING
  }

  ghost predicate SitesOk(reg: Registry, sys: System) {
    && (forall n :: n in sys.outs ==> SiteOk(reg, sys.shelves.sessions, n, sys.outs[n].live))
    && (forall n :: n in sys.shelves.sessions ==> n in sys.outs)
  }

  /** No slug is used twice, and what was archived is not listed any more. */
  ghost predicate NamesOk(sys: System) {
    && (forall n :: n in sys.outs ==> Taken(sys, n))
    && (forall n :: n in sys.shelves.archive && sys.shelves.archive[n].metadata.Some? ==>
          var slug := sys.shelves.archive[n].metadata.value.slug;
          slug in sys.outs && Listed(sys.shelves.sessions, slug).None?)
  }

  ghost predicate OneLocal(reg: Registry, sys: System) {
    forall a, b :: IsListedLocal(reg, sys, a) && IsListedLocal(reg, sys, b) ==> a == b
  }

  ghost predicate Inv(reg: Registry, sys: System) {
    SitesOk(reg, sys) && NamesOk(sys) && OneLocal(reg, sys)
  }

  // ---------------------------------------------------------- launch keeps it

  lemma BlankIsOk(reg: Registry, i: Inputs, slug: string, at: int)
    requires reg.Valid() && Offered(reg, i)
    ensures MetadataOk(reg, slug, Blank(i, slug, at), NOTHING)
    ensures IsLocal(reg, Blank(i, slug, at)) == !i.cloud
  {
  }

  lemma LaunchedIsOk(reg: Registry, i: Inputs, slug: string, at: int, o: Oracle)
    requires reg.Valid() && Offered(reg, i) && o.hash != ""
    ensures var st := Launched(Begun(i, slug, at), i, o).0;
      && Synced(st) && MetadataOk(reg, slug, st.mem, st.out.live)
      && IsLocal(reg, st.mem) == !i.cloud
  {
    hide Launched, Fresh, Begun, Held, Role, IsLocal, ProvidersKnown, Reported, KeyFits, Offered;
    LaunchOutcome(reg, i, slug, at, o);
    FreshFacts(reg, i, slug, at);
    FreshIsKnown(reg, i, slug, at);
    var m := Launched(Begun(i, slug, at), i, o).0.mem;
    RolesDecide(reg, Fresh(i, slug, at), m);
  }

  lemma FreshIsKnown(reg: Registry, i: Inputs, slug: string, at: int)
    requires reg.Valid() && Offered(reg, i)
    ensures var m := Fresh(i, slug, at); ProvidersKnown(reg, m) && m.schema == 2 && m.roles.Some?
  {
  }

  lemma RolesDecide(reg: Registry, a: Metadata, b: Metadata)
    requires a.roles == b.roles
    ensures ProvidersKnown(reg, a) == ProvidersKnown(reg, b) && IsLocal(reg, a) == IsLocal(reg, b) && Role(a, "ai") == Role(b, "ai")
  {
  }

  /** Adding a consistent session under an unused slug. */
  lemma PutNewKeepsInv(reg: Registry, sys: System, slug: string, st: State)
    requires Inv(reg, sys) && !Taken(sys, slug) && st.folder.Some?
    requires var f := st.folder.value;
      if f.metadata.Some?
      then MetadataOk(reg, slug, f.metadata.value, st.out.live)
           && (IsLocal(reg, f.metadata.value) ==> !HasLocal(reg, sys))
      else st.out.live == NOTHING
    ensures Inv(reg, Put(sys, slug, st))
  {
    hide SitesOk, NamesOk, OneLocal, Taken, Put, HasLocal, IsLocal, MetadataOk;
    var next := Put(sys, slug, st);
    var f := st.folder.value;
    SavedFacts(reg, slug, st);
    PutNewSites(reg, sys, slug, st);
    PutNewNames(sys, slug, st);
    LocalsAfterPut(reg, sys, slug, st);
  }

  lemma SavedFacts(reg: Registry, slug: string, st: State)
    requires st.folder.Some?
    requires st.folder.value.metadata.Some? ==> MetadataOk(reg, slug, st.folder.value.metadata.value, st.out.live)
    ensures st.folder.value.metadata.Some? ==>
      var m := st.folder.value.metadata.value; m.roles.Some? && m.schema == 2
  {
    hide Held, ReadyHasItsKey, ProvidersKnown;
  }

  lemma PutNewSites(reg: Registry, sys: System, slug: string, st: State)
    requires SitesOk(reg, sys) && st.folder.Some?
    requires var f := st.folder.value;
      if f.metadata.Some? then MetadataOk(reg, slug, f.metadata.value, st.out.live) else st.out.live == NOTHING
    ensures SitesOk(reg, Put(sys, slug, st))
  {
    hide MetadataOk;
  }

  lemma PutNewNames(sys: System, slug: string, st: State)
    requires NamesOk(sys) && !Taken(sys, slug) && st.folder.Some?
    ensures NamesOk(Put(sys, slug, st))
  {
    hide Loaded;
    assert slug !in sys.outs;
  }

  lemma LocalsAfterPut(reg: Registry, sys: System, slug: string, st: State)
    requires OneLocal(reg, sys) && !Taken(sys, slug) && st.folder.Some?
    requires st.folder.value.metadata.Some? ==>
      var m := st.folder.value.metadata.value;
      m.roles.Some? && m.schema == 2 && (IsLocal(reg, m) ==> !HasLocal(reg, sys))
    ensures OneLocal(reg, Put(sys, slug, st))
  {
    hide IsLocal;
    var next := Put(sys, slug, st);
    forall n | n != slug ensures IsListedLocal(reg, next, n) == IsListedLocal(reg, sys, n) {
    }
    if st.folder.value.metadata.Some? {
      LoadedIsSaved(st.folder.value.metadata.value);
    }
    forall n | IsListedLocal(reg, sys, n) ensures n in sys.shelves.sessions && HasLocal(reg, sys) {
    }
  }

  lemma LaunchKeepsInv(reg: Registry, sys: System, i: Inputs, slug: string, at: int, o: Oracle)
    requires reg.Valid() && Offered(reg, i) && o.hash != "" && Inv(reg, sys)
    ensures Inv(reg, LaunchOn(reg, sys, i, slug, at, o))
  {
    BlankIsOk(reg, i, slug, at);
    LaunchedIsOk(reg, i, slug, at, o);
    hide Inv, Launched, Begun, Blank, MetadataOk, Put, IsLocal, HasLocal, Taken;
    if Taken(sys, slug) || (!i.cloud && (HasLocal(reg, sys) || (HasKind(i) && FindHostBins in o.breaks))) {
    } else if MakeFolder in o.breaks {
      PutNewKeepsInv(reg, sys, slug, State(Blank(i, slug, at), Some(EMPTY), UNTOUCHED));
    } else if i.cloud && GeneratePassword in o.breaks {
      PutNewKeepsInv(reg, sys, slug,
        State(Blank(i, slug, at), Some(Folder(Some(Blank(i, slug, at)), Some(map[]))), UNTOUCHED));
    } else {
      PutNewKeepsInv(reg, sys, slug, Launched(Begun(i, slug, at), i, o).0);
    }
  }

  // --------------------------------------------------------- destroy keeps it

  lemma ListedIsSaved(reg: Registry, sys: System, name: string)
    requires Inv(reg, sys) && Listed(sys.shelves.sessions, name).Some?
    ensures name in sys.outs && name in sys.shelves.sessions
    ensures var m := Listed(sys.shelves.sessions, name).value;
      && sys.shelves.sessions[name].metadata == Some(m)
      && MetadataOk(reg, name, m, sys.outs[name].live)
  {
    hide Held, ReadyHasItsKey, ProvidersKnown;
    LoadedIsSaved(sys.shelves.sessions[name].metadata.value);
  }

  /** What the release half leaves of a listed session. */
  lemma ReleasedIsOk(reg: Registry, sys: System, name: string, o: Oracle)
    requires reg.Valid() && Inv(reg, sys) && Listed(sys.shelves.sessions, name).Some?
    ensures var m := Listed(sys.shelves.sessions, name).value;
      var (st, gone) := Released(Sight(sys, name, m), reg, o);
      && Synced(st) && MetadataOk(reg, name, st.mem, st.out.live)
      && IsLocal(reg, st.mem) == IsLocal(reg, m)
      && (gone <==> AllWork(ReleaseSteps(reg, m), o))
      && (gone ==> st.out.live == NOTHING)
      && st.mem == m.(status := if gone then Destroying else FailedDestroy)
  {
    hide Inv, Released, Held, Role, IsLocal, ProvidersKnown, AllWork, ReleaseSteps, Left;
    var m := Listed(sys.shelves.sessions, name).value;
    var st := Sight(sys, name, m);
    ListedIsSaved(reg, sys, name);
    ReleasedExactly(reg, st, o);
    ReleaseLeavesNothing(reg, st, o);
    FailedReleaseStaysConsistent(reg, st, o);
    RolesDecide(reg, m, Released(st, reg, o).0.mem);
  }

  /** Changing the folder of a listed session for one just as consistent. */
  lemma PutSameKeepsInv(reg: Registry, sys: System, name: string, st: State)
    requires Inv(reg, sys) && Listed(sys.shelves.sessions, name).Some? && Synced(st)
    requires MetadataOk(reg, name, st.mem, st.out.live)
    requires IsLocal(reg, st.mem) == IsLocal(reg, Listed(sys.shelves.sessions, name).value)
    ensures Inv(reg, Put(sys, name, st))
    ensures Listed(Put(sys, name, st).shelves.sessions, name) == Some(st.mem)
  {
    hide SitesOk, OneLocal, MetadataOk, IsLocal;
    PutSameNames(sys, name, st);
    ListedIsSaved(reg, sys, name);
    MetadataLoads(reg, name, st.mem, st.out.live);
    PutSameSites(reg, sys, name, st);
    PutSameLocals(reg, sys, name, st);
  }

  lemma MetadataLoads(reg: Registry, name: string, m: Metadata, live: Live)
    requires MetadataOk(reg, name, m, live)
    ensures Loaded(m) == m
  {
    hide Held, ReadyHasItsKey, ProvidersKnown, Loaded;
    LoadedIsSaved(m);
  }

  lemma PutSameNames(sys: System, name: string, st: State)
    requires NamesOk(sys) && name in sys.shelves.sessions && Synced(st)
    requires Listed(sys.shelves.sessions, name).Some?
    ensures NamesOk(Put(sys, name, st))
  {
    hide Loaded;
  }

  lemma PutSameSites(reg: Registry, sys: System, name: string, st: State)
    requires SitesOk(reg, sys) && Synced(st) && MetadataOk(reg, name, st.mem, st.out.live)
    ensures SitesOk(reg, Put(sys, name, st))
  {
    hide MetadataOk;
  }

  lemma PutSameLocals(reg: Registry, sys: System, name: string, st: State)
    requires OneLocal(reg, sys) && Synced(st) && Loaded(st.mem) == st.mem
    requires Listed(sys.shelves.sessions, name).Some?
    requires IsLocal(reg, st.mem) == IsLocal(reg, Listed(sys.shelves.sessions, name).value)
    ensures OneLocal(reg, Put(sys, name, st))
    ensures Listed(Put(sys, name, st).shelves.sessions, name) == Some(st.mem)
  {
    hide IsLocal, Loaded;
    var next := Put(sys, name, st);
    forall n ensures IsListedLocal(reg, next, n) == IsListedLocal(reg, sys, n) {
    }
  }

  lemma ArchiveKeepsInv(reg: Registry, sys: System, name: string, faults: ArchiveFaults)
    requires Inv(reg, sys) && Listed(sys.shelves.sessions, name).Some? && sys.outs[name].live == NOTHING
    ensures Inv(reg, sys.(shelves := Archived(sys.shelves, name, name, faults).0))
  {
    ListedIsSaved(reg, sys, name);
    var now := Archived(sys.shelves, name, name, faults).0;
    var next := sys.(shelves := now);
    SlugOfMetadata(reg, sys, name);
    ArchivedApart(sys.shelves, name, faults);
    hide Archived, MetadataOk, IsLocal, Listed, Loaded, Candidate, ArchiveName;
    SitesAfterArchive(reg, sys, next, name);
    NamesAfterArchive(sys, next, name);
    LocalsAfterArchive(reg, sys, next, name);
  }

  lemma SlugOfMetadata(reg: Registry, sys: System, name: string)
    requires name in sys.shelves.sessions && sys.shelves.sessions[name].metadata.Some? && name in sys.outs
    requires MetadataOk(reg, name, sys.shelves.sessions[name].metadata.value, sys.outs[name].live)
    ensures sys.shelves.sessions[name].metadata.value.slug == name
  {
  }

  /** A folder that lost its metadata, or kept it, or is gone; everything else
      as before. */
  predicate SameButFor(before: map<string, Folder>, after: map<string, Folder>, name: string) {
    && after - {name} == before - {name}
    && (name in after && after[name].metadata.Some? ==>
          name in before && after[name].metadata == before[name].metadata)
  }

  /** What archiving does to the shelves: the session's metadata stays, or moves
      to a new entry; the name stays taken. */
  lemma ArchivedApart(at: Shelves, name: string, faults: ArchiveFaults)
    requires name in at.sessions && at.sessions[name].metadata.Some?
    ensures var now := Archived(at, name, name, faults).0;
      && SameButFor(at.sessions, now.sessions, name)
      && (forall n :: n in at.archive ==> n in now.archive && now.archive[n] == at.archive[n])
      && (name in now.sessions || name in now.archive)
      && (forall n :: n in now.archive && n !in at.archive && now.archive[n].metadata.Some? ==>
            now.archive[n].metadata == at.sessions[name].metadata
            && !(name in now.sessions && now.sessions[name].metadata.Some?))
  {
    ArchiveMoves(at, name, name, faults);
    ArchiveTakesName(at, name, faults);
  }

  lemma SitesAfterArchive(reg: Registry, sys: System, next: System, name: string)
    requires SitesOk(reg, sys) && next.outs == sys.outs && name in sys.outs && sys.outs[name].live == NOTHING
    requires SameButFor(sys.shelves.sessions, next.shelves.sessions, name)
    ensures SitesOk(reg, next)
  {
    hide MetadataOk;
    OthersStay(sys.shelves.sessions, next.shelves.sessions, name);
  }

  lemma NamesAfterArchive(sys: System, next: System, name: string)
    requires NamesOk(sys) && next.outs == sys.outs && name in sys.outs
    requires SameButFor(sys.shelves.sessions, next.shelves.sessions, name)
    requires name in sys.shelves.sessions && sys.shelves.sessions[name].metadata.Some?
    requires sys.shelves.sessions[name].metadata.value.slug == name
    requires forall n :: n in sys.shelves.archive ==>
      n in next.shelves.archive && next.shelves.archive[n] == sys.shelves.archive[n]
    requires Taken(next, name)
    requires forall n :: n in next.shelves.archive && n !in sys.shelves.archive && next.shelves.archive[n].metadata.Some? ==>
      next.shelves.archive[n].metadata == sys.shelves.sessions[name].metadata
      && Listed(next.shelves.sessions, name).None?
    ensures NamesOk(next)
  {
    hide Loaded;
    OthersStay(sys.shelves.sessions, next.shelves.sessions, name);
  }

  lemma LocalsAfterArchive(reg: Registry, sys: System, next: System, name: string)
    requires OneLocal(reg, sys) && SameButFor(sys.shelves.sessions, next.shelves.sessions, name)
    ensures OneLocal(reg, next)
  {
    OthersStay(sys.shelves.sessions, next.shelves.sessions, name);
    hide IsLocal, Loaded;
    forall n | IsListedLocal(reg, next, n) ensures IsListedLocal(reg, sys, n) {
    }
  }

  lemma OthersStay(before: map<string, Folder>, after: map<string, Folder>, name: string)
    requires after - {name} == before - {name}
    ensures forall n :: n != name ==> (n in after <==> n in before) && (n in before ==> after[n] == before[n])
  {
    forall n | n != name ensures (n in after <==> n in before) && (n in before ==> after[n] == before[n]) {
      assert n in after <==> n in after - {name};
      assert n in before <==> n in before - {name};
    }
  }

  /** Once a session folder is gone, the archive has an entry of its name. */
  lemma ArchiveTakesName(at: Shelves, name: string, faults: ArchiveFaults)
    ensures var (now, ok) := Archived(at, name, name, faults);
      && (ok ==> name in now.archive)
      && (!ok && name in at.sessions ==> name in now.sessions)
  {
    hide ArchiveName;
    ArchiveNameIsFirstFree(name, at.archive.Keys);
  }

  lemma DestroyKeepsInv(reg: Registry, sys: System, name: string, o: Oracle, faults: ArchiveFaults)
    requires reg.Valid() && Inv(reg, sys)
    ensures Inv(reg, DestroyOn(reg, sys, name, o, faults).0)
  {
    hide Inv, Released, MetadataOk, Archived, Sight, Put, Prepared, Listed, Synced, AllWork, ReleaseSteps;
    var m := Listed(sys.shelves.sessions, name);
    if m.Some? && Prepared(reg, m.value, o) {
      ReleasedIsOk(reg, sys, name, o);
      var (st, gone) := Released(Sight(sys, name, m.value), reg, o);
      PutSameKeepsInv(reg, sys, name, st);
      if gone {
        SlugIsName(reg, name, st);
        PutOut(sys, name, st);
        ArchiveKeepsInv(reg, Put(sys, name, st), name, faults);
      }
    }
  }

  lemma SlugIsName(reg: Registry, name: string, st: State)
    requires MetadataOk(reg, name, st.mem, st.out.live)
    ensures st.mem.slug == name
  {
  }

  lemma PutOut(sys: System, name: string, st: State)
    ensures name in Put(sys, name, st).outs && Put(sys, name, st).outs[name] == st.out
  {
  }

  /** Every command keeps the invariant, whatever fails inside it. */
  lemma ApplyKeepsInv(reg: Registry, sys: System, op: Op)
    requires reg.Valid() && Sane(reg, op) && Inv(reg, sys)
    ensures Inv(reg, Apply(reg, sys, op))
  {
    match op
    case Launch(i, slug, at, o) => LaunchKeepsInv(reg, sys, i, slug, at, o);
    case Destroy(name, o, faults) => DestroyKeepsInv(reg, sys, name, o, faults);
  }

  // -------------------------------------------------------------- theorems

  ghost predicate AllSane(reg: Registry, ops: seq<Op>) {
    forall k :: 0 <= k < |ops| ==> Sane(reg, ops[k])
  }

  lemma {:induction false} InvAfter(reg: Registry, sys: System, ops: seq<Op>)
    requires reg.Valid() && AllSane(reg, ops) && Inv(reg, sys)
    ensures Inv(reg, AfterAll(reg, sys, ops))
    decreases |ops|
  {
    hide Inv, Apply;
    if ops != [] {
      ApplyKeepsInv(reg, sys, ops[0]);
      InvAfter(reg, Apply(reg, sys, ops[0]), ops[1..]);
    }
  }

  lemma NewMachineIsOk(reg: Registry)
    ensures Inv(reg, NEW_MACHINE)
  {
  }

  /** The safety of whole histories.  Whatever was launched and destroyed, in any
      order and with any steps failing: a session in the archive has nothing
      running; anything that runs belongs to a listed session; every listed session
      records what runs for it, so that a destroy can find it, and once ready has the
      ai role exactly when it has a key; and at most one local session is listed. */
  lemma EveryHistoryIsSafe(reg: Registry, ops: seq<Op>)
    requires reg.Valid() && AllSane(reg, ops)
    ensures var sys := AfterAll(reg, NEW_MACHINE, ops);
      && (forall n :: n in sys.shelves.archive && sys.shelves.archive[n].metadata.Some? ==>
            var slug := sys.shelves.archive[n].metadata.value.slug;
            slug in sys.outs && sys.outs[slug].live == NOTHING)
      && (forall n :: n in sys.outs && sys.outs[n].live != NOTHING ==> Listed(sys.shelves.sessions, n).Some?)
      && (forall n :: Listed(sys.shelves.sessions, n).Some? ==> RecordsAll(reg, sys, n))
      && OneLocal(reg, sys)
  {
    hide *;
    NewMachineIsOk(reg);
    InvAfter(reg, NEW_MACHINE, ops);
    var sys := AfterAll(reg, NEW_MACHINE, ops);
    InvIsSafe(reg, sys);
    forall n ensures Listed(sys.shelves.sessions, n).Some? ==> RecordsAll(reg, sys, n) {
      if Listed(sys.shelves.sessions, n).Some? {
        ListedRecordsAll(reg, sys, n);
      }
    }
  }

  /** A listed session records what runs for it, and is ready only with its key. */
  predicate RecordsAll(reg: Registry, sys: System, n: string) {
    var m := Listed(sys.shelves.sessions, n);
    m.Some? && n in sys.outs && Held(reg, m.value, sys.outs[n].live) && ReadyHasItsKey(m.value)
  }

  lemma ListedRecordsAll(reg: Registry, sys: System, n: string)
    requires Inv(reg, sys) && Listed(sys.shelves.sessions, n).Some?
    ensures RecordsAll(reg, sys, n)
  {
    hide Inv, Held, ReadyHasItsKey, ProvidersKnown, Listed;
    ListedIsSaved(reg, sys, n);
  }

  lemma InvIsSafe(reg: Registry, sys: System)
    requires Inv(reg, sys)
    ensures forall n :: n in sys.shelves.archive && sys.shelves.archive[n].metadata.Some? ==>
      var slug := sys.shelves.archive[n].metadata.value.slug;
      slug in sys.outs && sys.outs[slug].live == NOTHING
    ensures forall n :: n in sys.outs && sys.outs[n].live != NOTHING ==> Listed(sys.shelves.sessions, n).Some?
    ensures OneLocal(reg, sys)
  {
    hide Held, IsLocal, ReadyHasItsKey, ProvidersKnown, Loaded;
  }

  /** A destroy of a listed session starts unless its configuration, or for a VM
      its terraform, cannot be found; its providers are always known. */
  predicate CannotStart(reg: Registry, m: Metadata, o: Oracle) {
    LoadConfig in o.breaks || (!IsLocal(reg, m) && (FindTerraform in o.breaks || PluginCache in o.breaks))
  }

  lemma StartsUnlessItCannot(reg: Registry, name: string, m: Metadata, live: Live, o: Oracle)
    requires reg.Valid() && MetadataOk(reg, name, m, live)
    ensures Prepared(reg, m, o) <==> !CannotStart(reg, m, o)
  {
    hide Role, Held;
  }

  /** Archiving stops before the metadata has left the session folder. */
  predicate StopsEarly(faults: ArchiveFaults) {
    faults.mkdir || faults.moveMetadata
  }

  /** Some step of archiving fails; there may be no logs to move. */
  predicate ArchiveFails(faults: ArchiveFaults, logs: bool) {
    StopsEarly(faults) || (faults.moveLogs && logs) || faults.remove
  }

  /** The record `m` is in the archive under a name it did not have before. */
  predicate MovedTo(sys: System, next: System, name: string, m: Metadata) {
    var dst := ArchiveName(name, sys.shelves.archive.Keys);
    dst !in sys.shelves.archive && dst in next.shelves.archive && next.shelves.archive[dst].metadata == Some(m)
  }

  /** Where the logs of a session are once its metadata has moved: with the record,
      or left behind in the session folder when moving them failed. */
  predicate LogsAre(sys: System, next: System, name: string, logs: Option<Logs>, behind: bool) {
    var dst := ArchiveName(name, sys.shelves.archive.Keys);
    var kept := if name in next.shelves.sessions then next.shelves.sessions[name].logs else None;
    && dst in next.shelves.archive
    && next.shelves.archive[dst].logs == (if behind then None else logs)
    && kept == (if behind then logs else None)
  }

  /** What a destroy of a listed session comes to, in every case.  A refused one
      changes nothing; a failed release leaves the session listed as failed-destroy
      with everything else it recorded; after a successful release nothing runs.  When
      archiving then fails, the session stays listed if its metadata had not moved; if
      it had, the record is in the archive, and only an unlisted folder stays. */
  predicate Outcome(reg: Registry, sys: System, name: string, m: Metadata, o: Oracle, faults: ArchiveFaults,
                    next: System, result: Result)
    requires name in sys.shelves.sessions
  {
    var logs, gone := sys.shelves.sessions[name].logs, m.(status := Destroying);
    match result
    case NotFound => false
    case Refused => CannotStart(reg, m, o) && next == sys
    case ReleaseFailed =>
      && !CannotStart(reg, m, o) && !AllWork(ReleaseSteps(reg, m), o)
      && Listed(next.shelves.sessions, name) == Some(m.(status := FailedDestroy))
    case NotArchived =>
      && !CannotStart(reg, m, o) && AllWork(ReleaseSteps(reg, m), o)
      && name in next.outs && next.outs[name].live == NOTHING && name in next.shelves.sessions
      && ArchiveFails(faults, logs.Some?)
      && (if StopsEarly(faults) then
            Listed(next.shelves.sessions, name) == Some(gone) && next.shelves.sessions[name].logs == logs
          else
            && Listed(next.shelves.sessions, name).None?
            && MovedTo(sys, next, name, gone) && LogsAre(sys, next, name, logs, faults.moveLogs))
    case Destroyed =>
      && !CannotStart(reg, m, o) && AllWork(ReleaseSteps(reg, m), o)
      && name in next.outs && next.outs[name].live == NOTHING
      && !ArchiveFails(faults, logs.Some?) && name !in next.shelves.sessions
      && MovedTo(sys, next, name, gone) && LogsAre(sys, next, name, logs, false)
  }

  lemma ListedHasFolder(sys: System, name: string)
    requires Listed(sys.shelves.sessions, name).Some?
    ensures name in sys.shelves.sessions
  {
  }

  lemma DestroyOutcome(reg: Registry, sys: System, name: string, o: Oracle, faults: ArchiveFaults)
    requires reg.Valid() && Inv(reg, sys) && Listed(sys.shelves.sessions, name).Some?
    ensures var m := Listed(sys.shelves.sessions, name).value;
      var (next, result) := DestroyOn(reg, sys, name, o, faults);
      name in sys.shelves.sessions && Outcome(reg, sys, name, m, o, faults, next, result)
  {
    hide Inv, Released, MetadataOk, Archived, Sight, Put, Prepared, CannotStart, Listed, AllWork, ReleaseSteps,
      ArchiveName, MovedTo, LogsAre, DestroyOn;
    var m := Listed(sys.shelves.sessions, name).value;
    ListedIsSaved(reg, sys, name);
    StartsUnlessItCannot(reg, name, m, sys.outs[name].live, o);
    if Prepared(reg, m, o) && Released(Sight(sys, name, m), reg, o).1 {
      GoneOutcome(reg, sys, name, o, faults);
    } else if Prepared(reg, m, o) {
      ReleaseOutcome(reg, sys, name, o);
      BrokenOutcome(reg, sys, name, o, faults);
    } else {
      RefusedOutcome(reg, sys, name, o, faults);
    }
  }

  lemma RefusedOutcome(reg: Registry, sys: System, name: string, o: Oracle, faults: ArchiveFaults)
    requires Listed(sys.shelves.sessions, name).Some? && !Prepared(reg, Listed(sys.shelves.sessions, name).value, o)
    ensures DestroyOn(reg, sys, name, o, faults) == (sys, Refused)
  {
    hide Prepared, Listed;
  }

  lemma BrokenOutcome(reg: Registry, sys: System, name: string, o: Oracle, faults: ArchiveFaults)
    requires Listed(sys.shelves.sessions, name).Some?
    requires var m := Listed(sys.shelves.sessions, name).value;
      Prepared(reg, m, o) && !Released(Sight(sys, name, m), reg, o).1
    ensures var m := Listed(sys.shelves.sessions, name).value;
      DestroyOn(reg, sys, name, o, faults) == (Put(sys, name, Released(Sight(sys, name, m), reg, o).0), ReleaseFailed)
  {
    hide Prepared, Listed, Released, Put, Sight;
  }

  lemma GoneOutcome(reg: Registry, sys: System, name: string, o: Oracle, faults: ArchiveFaults)
    requires reg.Valid() && Inv(reg, sys) && Listed(sys.shelves.sessions, name).Some?
    requires var m := Listed(sys.shelves.sessions, name).value;
      Released(Sight(sys, name, m), reg, o).1 && !CannotStart(reg, m, o) && Prepared(reg, m, o)
    ensures var m := Listed(sys.shelves.sessions, name).value;
      var (next, result) := DestroyOn(reg, sys, name, o, faults);
      name in sys.shelves.sessions && Outcome(reg, sys, name, m, o, faults, next, result)
  {
    hide Inv, Released, Archived, Sight, Put, Prepared, CannotStart, Listed, AllWork, ReleaseSteps, ArchiveName,
      StopsEarly, DestroyOn;
    var m := Listed(sys.shelves.sessions, name).value;
    var st := Released(Sight(sys, name, m), reg, o).0;
    ReleaseOutcome(reg, sys, name, o);
    ArchiveOutcome(reg, Put(sys, name, st), name, st.mem, faults);
    GoneThenArchived(reg, sys, name, o, faults);
  }

  lemma GoneThenArchived(reg: Registry, sys: System, name: string, o: Oracle, faults: ArchiveFaults)
    requires Listed(sys.shelves.sessions, name).Some?
    requires var m := Listed(sys.shelves.sessions, name).value;
      Prepared(reg, m, o) && Released(Sight(sys, name, m), reg, o).1
    ensures var m := Listed(sys.shelves.sessions, name).value;
      var st := Released(Sight(sys, name, m), reg, o).0;
      var after := Put(sys, name, st);
      var (shelves, ok) := Archived(after.shelves, name, st.mem.slug, faults);
      DestroyOn(reg, sys, name, o, faults) == (after.(shelves := shelves), if ok then Destroyed else NotArchived)
  {
    hide Prepared, Listed, Released, Put, Sight, Archived;
  }

  lemma ReleaseOutcome(reg: Registry, sys: System, name: string, o: Oracle)
    requires reg.Valid() && Inv(reg, sys) && Listed(sys.shelves.sessions, name).Some?
    ensures var m := Listed(sys.shelves.sessions, name).value;
      var (st, gone) := Released(Sight(sys, name, m), reg, o);
      var after := Put(sys, name, st);
      && st.mem == m.(status := if gone then Destroying else FailedDestroy) && st.mem.slug == name
      && (gone <==> AllWork(ReleaseSteps(reg, m), o))
      && name in after.outs && (gone ==> after.outs[name].live == NOTHING)
      && Listed(after.shelves.sessions, name) == Some(st.mem)
      && name in after.shelves.sessions && after.shelves.sessions[name].metadata == Some(st.mem)
      && name in sys.shelves.sessions && after.shelves.sessions[name].logs == sys.shelves.sessions[name].logs
      && after.shelves.archive == sys.shelves.archive
  {
    hide Inv, Released, MetadataOk, Sight, Put, Listed, Synced, AllWork, ReleaseSteps;
    var m := Listed(sys.shelves.sessions, name).value;
    ListedIsSaved(reg, sys, name);
    ReleasedIsOk(reg, sys, name, o);
    var st := Released(Sight(sys, name, m), reg, o).0;
    PutSameKeepsInv(reg, sys, name, st);
    SlugIsName(reg, name, st);
    PutOut(sys, name, st);
    PutKeepsLogs(reg, sys, name, m, o);
    PutKeepsMetadata(sys, name, st);
  }

  lemma PutKeepsMetadata(sys: System, name: string, st: State)
    requires Synced(st)
    ensures var after := Put(sys, name, st);
      name in after.shelves.sessions && after.shelves.sessions[name].metadata == Some(st.mem)
  {
  }

  lemma ExecuteKeepsLogs(st: State, c: Command, o: Oracle)
    requires st.folder.Some?
    ensures var next := Execute(st, c, o).0; next.folder.Some? && next.folder.value.logs == st.folder.value.logs
  {
    hide Changed, After, AfterBreak;
  }

  lemma {:induction false} RunKeepsLogs(st: State, script: seq<Command>, o: Oracle)
    requires st.folder.Some?
    ensures var next := Run(st, script, o).0; next.folder.Some? && next.folder.value.logs == st.folder.value.logs
    decreases |script|
  {
    if script != [] {
      ExecuteKeepsLogs(st, script[0], o);
      hide Execute;
      if Execute(st, script[0], o).1 {
        RunKeepsLogs(Execute(st, script[0], o).0, script[1..], o);
      }
    }
  }

  lemma PutKeepsLogs(reg: Registry, sys: System, name: string, m: Metadata, o: Oracle)
    requires name in sys.shelves.sessions
    ensures var st := Released(Sight(sys, name, m), reg, o).0;
      var after := Put(sys, name, st);
      && name in after.shelves.sessions && after.shelves.sessions[name].logs == sys.shelves.sessions[name].logs
      && after.shelves.archive == sys.shelves.archive
  {
    hide Released;
    ReleaseKeepsLogs(Sight(sys, name, m), reg, o);
  }

  lemma ReleaseKeepsLogs(st: State, reg: Registry, o: Oracle)
    requires st.folder.Some?
    ensures var next := Released(st, reg, o).0; next.folder.Some? && next.folder.value.logs == st.folder.value.logs
  {
    hide Run, Teardown, Execute, Role;
    var (down, ok) := Run(st, Teardown(reg, st.mem), o);
    RunKeepsLogs(st, Teardown(reg, st.mem), o);
    ExecuteKeepsLogs(down, Try(RevokeKey), o);
    var next := if ok then Revoked(down, reg, o).0 else down;
    ExecuteKeepsLogs(next, Mark(FailedDestroy), o);
  }

  lemma ArchiveOutcome(reg: Registry, sys: System, name: string, m: Metadata, faults: ArchiveFaults)
    requires name in sys.shelves.sessions && Listed(sys.shelves.sessions, name) == Some(m)
    requires sys.shelves.sessions[name].metadata == Some(m)
    ensures var (now, ok) := Archived(sys.shelves, name, name, faults);
      var dst, f := ArchiveName(name, sys.shelves.archive.Keys), sys.shelves.sessions[name];
      var behind := faults.moveLogs && f.logs.Some?;
      && dst !in sys.shelves.archive
      && (ok <==> !ArchiveFails(faults, f.logs.Some?))
      && (StopsEarly(faults) ==> now.sessions == sys.shelves.sessions)
      && (!StopsEarly(faults) ==>
            && dst in now.archive
            && now.archive[dst] == Folder(f.metadata, if behind then None else f.logs)
            && Listed(now.sessions, name).None?
            && (name in now.sessions <==> !ok)
            && (!ok ==> now.sessions[name] == Folder(None, if behind then f.logs else None)))
  {
    hide ArchiveName;
    ArchiveNameIsFirstFree(name, sys.shelves.archive.Keys);
  }

  /** A destroy that started leaves the session listed as failed-destroy exactly
      when a step of the release broke; when only archiving fails, the session is
      not marked so, whatever the destroy command documents. */
  lemma FailedDestroyExactly(reg: Registry, sys: System, name: string, o: Oracle, faults: ArchiveFaults)
    requires reg.Valid() && Inv(reg, sys) && Listed(sys.shelves.sessions, name).Some?
    requires !CannotStart(reg, Listed(sys.shelves.sessions, name).value, o)
    ensures var m := Listed(sys.shelves.sessions, name).value;
      var now := Listed(DestroyOn(reg, sys, name, o, faults).0.shelves.sessions, name);
      (now.Some? && now.value.status == FailedDestroy) <==> !AllWork(ReleaseSteps(reg, m), o)
  {
    hide DestroyOn, Inv, CannotStart, AllWork, ReleaseSteps, Loaded;
    DestroyOutcome(reg, sys, name, o, faults);
  }

  const NO_FAULTS := ArchiveFaults(false, false, false, false)

  lemma NothingStops(reg: Registry, m: Metadata, o: Oracle)
    requires o.breaks == {}
    ensures !CannotStart(reg, m, o) && AllWork(ReleaseSteps(reg, m), o)
  {
  }

  /** When a destroy can be run again.  After one that started, the session is still
      listed exactly when a step of the release broke, or archiving stopped before the
      metadata moved; then a run in which everything works finishes the job.  Otherwise
      every further run finds nothing to destroy. */
  lemma RerunExactly(reg: Registry, sys: System, name: string, o: Oracle, faults: ArchiveFaults,
                     again: Oracle, more: ArchiveFaults)
    requires reg.Valid() && Inv(reg, sys) && Listed(sys.shelves.sessions, name).Some?
    requires !CannotStart(reg, Listed(sys.shelves.sessions, name).value, o)
    ensures var m := Listed(sys.shelves.sessions, name).value;
      var next := DestroyOn(reg, sys, name, o, faults).0;
      var open := !AllWork(ReleaseSteps(reg, m), o) || faults.mkdir || faults.moveMetadata;
      && (Listed(next.shelves.sessions, name).Some? <==> open)
      && (open && again.breaks == {} ==> DestroyOn(reg, next, name, again, NO_FAULTS).1 == Destroyed)
      && (!open ==> DestroyOn(reg, next, name, again, more) == (next, NotFound))
  {
    hide Inv, DestroyOn, CannotStart, AllWork, ReleaseSteps, Listed, MovedTo, LogsAre;
    var next := DestroyOn(reg, sys, name, o, faults).0;
    DestroyOutcome(reg, sys, name, o, faults);
    DestroyKeepsInv(reg, sys, name, o, faults);
    DestroyedIsUnlisted(next, name);
    if Listed(next.shelves.sessions, name).Some? {
      if again.breaks == {} {
        CleanAttempt(reg, next, name, again);
      }
    } else {
      NothingToDestroy(reg, next, name, again, more);
    }
  }

  lemma DestroyedIsUnlisted(sys: System, name: string)
    ensures name !in sys.shelves.sessions ==> Listed(sys.shelves.sessions, name).None?
  {
  }

  lemma NothingToDestroy(reg: Registry, sys: System, name: string, o: Oracle, faults: ArchiveFaults)
    requires Listed(sys.shelves.sessions, name).None?
    ensures DestroyOn(reg, sys, name, o, faults) == (sys, NotFound)
  {
    hide Listed;
  }

  /** One input outside that condition: only removing the session folder fails.  The
      command fails, the session is no longer listed at all, its folder stays, and
      running the command again finds nothing to destroy. */
  lemma LeftoverFolderCannotBeDestroyed(reg: Registry, sys: System, name: string, o: Oracle, again: Oracle)
    requires reg.Valid() && Inv(reg, sys) && Listed(sys.shelves.sessions, name).Some? && o.breaks == {}
    ensures var (next, result) := DestroyOn(reg, sys, name, o, NO_FAULTS.(remove := true));
      && result == NotArchived && name in next.shelves.sessions
      && Listed(next.shelves.sessions, name).None?
      && DestroyOn(reg, next, name, again, NO_FAULTS) == (next, NotFound)
  {
    hide Inv, DestroyOn, CannotStart, AllWork, ReleaseSteps, Listed, MovedTo, LogsAre;
    NothingStops(reg, Listed(sys.shelves.sessions, name).value, o);
    DestroyOutcome(reg, sys, name, o, NO_FAULTS.(remove := true));
    NothingToDestroy(reg, DestroyOn(reg, sys, name, o, NO_FAULTS.(remove := true)).0, name, again, NO_FAULTS);
  }

  /** The other: only moving the logs fails.  The record is in the archive without its
      logs, they stay in a folder that is no longer listed, and no rerun moves them. */
  lemma LogsStayBehind(reg: Registry, sys: System, name: string, o: Oracle, again: Oracle, more: ArchiveFaults)
    requires reg.Valid() && Inv(reg, sys) && Listed(sys.shelves.sessions, name).Some? && o.breaks == {}
    requires name in sys.shelves.sessions && sys.shelves.sessions[name].logs.Some?
    ensures var m := Listed(sys.shelves.sessions, name).value;
      var (next, result) := DestroyOn(reg, sys, name, o, NO_FAULTS.(moveLogs := true));
      && result == NotArchived && Listed(next.shelves.sessions, name).None?
      && name in next.shelves.sessions && next.shelves.sessions[name].logs == sys.shelves.sessions[name].logs
      && MovedTo(sys, next, name, m.(status := Destroying))
      && LogsAre(sys, next, name, sys.shelves.sessions[name].logs, true)
      && DestroyOn(reg, next, name, again, more) == (next, NotFound)
  {
    hide Inv, DestroyOn, CannotStart, AllWork, ReleaseSteps, Listed, MovedTo, ArchiveName;
    NothingStops(reg, Listed(sys.shelves.sessions, name).value, o);
    DestroyOutcome(reg, sys, name, o, NO_FAULTS.(moveLogs := true));
    NothingToDestroy(reg, DestroyOn(reg, sys, name, o, NO_FAULTS.(moveLogs := true)).0, name, again, more);
  }

  ghost predicate AllDestroy(name: string, ops: seq<Op>) {
    forall k :: 0 <= k < |ops| ==> ops[k].Destroy? && ops[k].name == name
  }

  /** An archive entry holds the record `m`. */
  predicate InArchive(sys: System, m: Metadata) {
    exists n :: n in sys.shelves.archive && sys.shelves.archive[n].metadata == Some(m)
  }

  /** The session is listed with everything it recorded but the status, or the record
      is in the archive and nothing runs for it. */
  predicate SameRecord(sys: System, name: string, m: Metadata) {
    var now := Listed(sys.shelves.sessions, name);
    if now.Some? then now.value == m.(status := now.value.status)
    else name in sys.outs && sys.outs[name].live == NOTHING && InArchive(sys, m.(status := Destroying))
  }

  lemma OneAttempt(reg: Registry, sys: System, name: string, m: Metadata, o: Oracle, faults: ArchiveFaults)
    requires reg.Valid() && Inv(reg, sys) && SameRecord(sys, name, m)
    ensures SameRecord(DestroyOn(reg, sys, name, o, faults).0, name, m)
  {
    hide DestroyOn, Inv, CannotStart, AllWork, ReleaseSteps, Listed, ArchiveName, LogsAre, InArchive;
    if Listed(sys.shelves.sessions, name).Some? {
      var next := DestroyOn(reg, sys, name, o, faults).0;
      DestroyOutcome(reg, sys, name, o, faults);
      DestroyedIsUnlisted(next, name);
      MovedIsInArchive(sys, next, name, m.(status := Destroying));
    } else {
      NothingToDestroy(reg, sys, name, o, faults);
    }
  }

  lemma MovedIsInArchive(sys: System, next: System, name: string, m: Metadata)
    ensures MovedTo(sys, next, name, m) ==> InArchive(next, m)
  {
    hide ArchiveName;
  }

  lemma {:induction false} ManyAttempts(reg: Registry, sys: System, name: string, m: Metadata, ops: seq<Op>)
    requires reg.Valid() && Inv(reg, sys) && AllDestroy(name, ops) && SameRecord(sys, name, m)
    ensures var now := AfterAll(reg, sys, ops); Inv(reg, now) && SameRecord(now, name, m)
    decreases |ops|
  {
    if ops != [] {
      assert ops[0].Destroy? && ops[0].name == name;
      OneAttempt(reg, sys, name, m, ops[0].answers, ops[0].faults);
      DestroyKeepsInv(reg, sys, name, ops[0].answers, ops[0].faults);
      hide Inv, SameRecord, DestroyOn;
      ManyAttempts(reg, Apply(reg, sys, ops[0]), name, m, ops[1..]);
    }
  }

  /** The liveness of destroy.  After any attempts whatever, failing anywhere, one
      attempt in which everything works leaves nothing running and the session in the
      archive with all it recorded; it succeeds if the session was still listed. */
  lemma ReleasedInTheEnd(reg: Registry, sys: System, name: string, ops: seq<Op>, o: Oracle)
    requires reg.Valid() && Inv(reg, sys) && Listed(sys.shelves.sessions, name).Some?
    requires AllDestroy(name, ops) && o.breaks == {}
    ensures var m := Listed(sys.shelves.sessions, name).value;
      var before := AfterAll(reg, sys, ops);
      var (next, result) := DestroyOn(reg, before, name, o, NO_FAULTS);
      && name in next.outs && next.outs[name].live == NOTHING
      && Listed(next.shelves.sessions, name).None? && InArchive(next, m.(status := Destroying))
      && (Listed(before.shelves.sessions, name).Some? ==>
            result == Destroyed && MovedTo(before, next, name, m.(status := Destroying)))
  {
    hide AfterAll, Inv, AllDestroy, Listed, ArchiveName, DestroyOn, InArchive, MovedTo;
    var m := Listed(sys.shelves.sessions, name).value;
    var before := AfterAll(reg, sys, ops);
    ManyAttempts(reg, sys, name, m, ops);
    if Listed(before.shelves.sessions, name).Some? {
      var next := DestroyOn(reg, before, name, o, NO_FAULTS).0;
      CleanAttempt(reg, before, name, o);
      DestroyedIsUnlisted(next, name);
      MovedIsInArchive(before, next, name, m.(status := Destroying));
    } else {
      NothingToDestroy(reg, before, name, o, NO_FAULTS);
    }
  }

  lemma CleanAttempt(reg: Registry, sys: System, name: string, o: Oracle)
    requires reg.Valid() && Inv(reg, sys) && Listed(sys.shelves.sessions, name).Some? && o.breaks == {}
    ensures var m := Listed(sys.shelves.sessions, name).value;
      var (next, result) := DestroyOn(reg, sys, name, o, NO_FAULTS);
      && result == Destroyed && name in next.outs && next.outs[name].live == NOTHING
      && name !in next.shelves.sessions && MovedTo(sys, next, name, m.(status := Destroying))
  {
    hide DestroyOn, Inv, CannotStart, AllWork, ReleaseSteps, Listed, MovedTo, LogsAre;
    DestroyOutcome(reg, sys, name, o, NO_FAULTS);
    NothingStops(reg, Listed(sys.shelves.sessions, name).value, o);
  }

  /** The session a command is about. */
  function Subject(op: Op): string {
    if op.Launch? then op.slug else op.name
  }

  /** Everything under name `n` is as it was, and so is an archive entry `n`. */
  predicate Untouched(sys: System, next: System, n: string) {
    && (n in next.shelves.sessions <==> n in sys.shelves.sessions)
    && (n in sys.shelves.sessions ==> next.shelves.sessions[n] == sys.shelves.sessions[n])
    && (n in next.outs <==> n in sys.outs)
    && (n in sys.outs ==> next.outs[n] == sys.outs[n])
  }

  predicate EntryKept(sys: System, next: System, n: string) {
    n in sys.shelves.archive ==> n in next.shelves.archive && next.shelves.archive[n] == sys.shelves.archive[n]
  }

  /** A command touches its own session only: other session folders, what runs
      for them, and earlier archive entries stay as they were. */
  lemma OthersAreUntouched(reg: Registry, sys: System, op: Op, n: string)
    ensures var next := Apply(reg, sys, op);
      (n != Subject(op) ==> Untouched(sys, next, n)) && EntryKept(sys, next, n)
  {
    hide LaunchOn, DestroyOn, Untouched, EntryKept;
    if op.Destroy? {
      DestroyTouchesItsOwn(reg, sys, op.name, op.answers, op.faults, n);
    } else {
      LaunchTouchesItsOwn(reg, sys, op.inputs, op.slug, op.at, op.answers, n);
    }
  }

  lemma LaunchTouchesItsOwn(reg: Registry, sys: System, i: Inputs, slug: string, at: int, o: Oracle, n: string)
    ensures var next := LaunchOn(reg, sys, i, slug, at, o);
      (n != slug ==> Untouched(sys, next, n)) && EntryKept(sys, next, n)
  {
    hide Launched, Begun, Blank, HasLocal, HasKind;
  }

  lemma DestroyTouchesItsOwn(reg: Registry, sys: System, name: string, o: Oracle, faults: ArchiveFaults, n: string)
    ensures var next := DestroyOn(reg, sys, name, o, faults).0;
      (n != name ==> Untouched(sys, next, n)) && EntryKept(sys, next, n)
  {
    var m := Listed(sys.shelves.sessions, name);
    if m.Some? {
      var st := Released(Sight(sys, name, m.value), reg, o).0;
      var after := Put(sys, name, st);
      ArchiveKeepsOthers(after.shelves, name, st.mem.slug, faults, n);
      PutKeepsOthers(sys, name, st, n);
      hide Released, Archived, Sight, Put, Prepared, Listed;
    }
  }

  lemma PutKeepsOthers(sys: System, name: string, st: State, n: string)
    ensures var after := Put(sys, name, st);
      (n != name ==> Untouched(sys, after, n)) && after.shelves.archive == sys.shelves.archive
  {
  }

  lemma ArchiveKeepsOthers(at: Shelves, name: string, slug: string, faults: ArchiveFaults, n: string)
    ensures var now := Archived(at, name, slug, faults).0;
      && (n != name ==> (n in now.sessions <==> n in at.sessions)
                        && (n in at.sessions ==> now.sessions[n] == at.sessions[n]))
      && (n in at.archive ==> n in now.archive && now.archive[n] == at.archive[n])
  {
    hide Archived, ArchiveName;
    ArchiveMoves(at, name, slug, faults);
    OthersStay(at.sessions, Archived(at, name, slug, faults).0.sessions, name);
  }
}
