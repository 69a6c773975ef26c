/** What histories keep: no session's record is ever lost. */
module Records {
  import opened Options
  import opened Sessions
  import opened Lifecycle
  import opened LaunchRuns
  import opened DestroyRuns
  import opened Histories

  /** The session's record exists: it is listed, or an archive entry holds it. */
  predicate OnRecord(sys: System, slug: string) {
    Listed(sys.shelves.sessions, slug).Some? || Shelved(sys, slug)
  }

  predicate Shelved(sys: System, slug: string) {
    exists n :: n in sys.shelves.archive && HoldsRecord(sys, n, slug)
  }

  predicate HoldsRecord(sys: System, n: string, slug: string)
    requires n in sys.shelves.archive
  {
    sys.shelves.archive[n].metadata.Some? && sys.shelves.archive[n].metadata.value.slug == slug
  }

  lemma ShelvedStays(reg: Registry, sys: System, op: Op, slug: string)
    requires Shelved(sys, slug)
    ensures Shelved(Apply(reg, sys, op), slug)
  {
    hide Apply;
    var n :| n in sys.shelves.archive && HoldsRecord(sys, n, slug);
    OthersAreUntouched(reg, sys, op, n);
    assert HoldsRecord(Apply(reg, sys, op), n, slug);
  }

  lemma ListedElsewhereStays(reg: Registry, sys: System, op: Op, slug: string)
    requires Listed(sys.shelves.sessions, slug).Some? && slug != Subject(op)
    ensures Listed(Apply(reg, sys, op).shelves.sessions, slug) == Listed(sys.shelves.sessions, slug)
  {
    hide Apply, Loaded;
    OthersAreUntouched(reg, sys, op, slug);
  }

  lemma DestroyKeepsRecord(reg: Registry, sys: System, name: string, o: Oracle, faults: ArchiveFaults)
    requires reg.Valid() && Inv(reg, sys) && Listed(sys.shelves.sessions, name).Some?
    ensures OnRecord(DestroyOn(reg, sys, name, o, faults).0, name)
  {
    hide Inv, DestroyOn, CannotStart, AllWork, ReleaseSteps, Listed, MovedTo, LogsAre, Shelved;
    var m := Listed(sys.shelves.sessions, name).value;
    DestroyOutcome(reg, sys, name, o, faults);
    RecordHasSlug(reg, sys, name);
    MovedIsShelved(sys, DestroyOn(reg, sys, name, o, faults).0, name, m.(status := Destroying));
  }

  lemma RecordHasSlug(reg: Registry, sys: System, name: string)
    requires Inv(reg, sys) && Listed(sys.shelves.sessions, name).Some?
    ensures Listed(sys.shelves.sessions, name).value.slug == name
  {
    hide Inv, Listed, Held, ReadyHasItsKey, ProvidersKnown;
    ListedIsSaved(reg, sys, name);
  }

  lemma MovedIsShelved(sys: System, next: System, name: string, m: Metadata)
    ensures MovedTo(sys, next, name, m) ==> Shelved(next, m.slug)
  {
    hide ArchiveName;
    var dst := ArchiveName(name, sys.shelves.archive.Keys);
    assert MovedTo(sys, next, name, m) ==> HoldsRecord(next, dst, m.slug);
  }

  /** No command loses a record. */
  lemma RecordStays(reg: Registry, sys: System, op: Op, slug: string)
    requires reg.Valid() && Inv(reg, sys) && OnRecord(sys, slug)
    ensures OnRecord(Apply(reg, sys, op), slug)
  {
    hide Inv, Listed, Shelved, LaunchOn, DestroyOn;
    if Shelved(sys, slug) {
      ShelvedStays(reg, sys, op, slug);
    } else if slug != Subject(op) {
      ListedElsewhereStays(reg, sys, op, slug);
    } else if op.Destroy? {
      DestroyKeepsRecord(reg, sys, slug, op.answers, op.faults);
    } else {
      TakenIsLeftAlone(reg, sys, op);
    }
  }

  lemma TakenIsLeftAlone(reg: Registry, sys: System, op: Op)
    requires op.Launch? && Listed(sys.shelves.sessions, op.slug).Some?
    ensures Apply(reg, sys, op) == sys
  {
  }

  lemma {:induction false} RecordStaysThrough(reg: Registry, sys: System, ops: seq<Op>, slug: string)
    requires reg.Valid() && Inv(reg, sys) && AllSane(reg, ops) && OnRecord(sys, slug)
    ensures OnRecord(AfterAll(reg, sys, ops), slug)
    decreases |ops|
  {
    hide Inv, OnRecord, Apply;
    if ops != [] {
      RecordStays(reg, sys, ops[0], slug);
      ApplyKeepsInv(reg, sys, ops[0]);
      RecordStaysThrough(reg, Apply(reg, sys, ops[0]), ops[1..], slug);
    }
  }

  /** The launch gets as far as writing the session's metadata. */
  predicate WritesRecord(reg: Registry, sys: System, op: Op) {
    && op.Launch? && !Taken(sys, op.slug) && MakeFolder !in op.answers.breaks
    && (op.inputs.cloud || !(HasLocal(reg, sys) || (HasKind(op.inputs) && FindHostBins in op.answers.breaks)))
  }

  lemma LaunchIsOnRecord(reg: Registry, sys: System, op: Op)
    requires reg.Valid() && Sane(reg, op) && WritesRecord(reg, sys, op)
    ensures OnRecord(Apply(reg, sys, op), op.slug)
  {
    LaunchedIsOk(reg, op.inputs, op.slug, op.at, op.answers);
    hide Launched, Begun, Blank, HasLocal, HasKind, Taken, Loaded, Shelved, MetadataOk;
  }

  lemma {:induction false} HistoryJoins(reg: Registry, sys: System, a: seq<Op>, b: seq<Op>)
    ensures AfterAll(reg, sys, a + b) == AfterAll(reg, AfterAll(reg, sys, a), b)
    decreases |a|
  {
    hide Apply;
    if a == [] {
      assert a + b == b;
    } else {
      assert (a + b)[1..] == a[1..] + b;
      HistoryJoins(reg, Apply(reg, sys, a[0]), a[1..], b);
    }
  }

  /** No record is ever lost.  Of every session whose metadata a launch of the history
      wrote, the record is listed at the end, or is in the archive. */
  lemma EveryRecordIsKept(reg: Registry, ops: seq<Op>, k: nat)
    requires reg.Valid() && AllSane(reg, ops) && k < |ops|
    requires WritesRecord(reg, AfterAll(reg, NEW_MACHINE, ops[..k]), ops[k])
    ensures OnRecord(AfterAll(reg, NEW_MACHINE, ops), ops[k].slug)
  {
    assert ops[k].Launch?;
    hide *;
    var a, op, b := ops[..k], ops[k], ops[k + 1..];
    var sys := AfterAll(reg, NEW_MACHINE, a);
    SaneParts(reg, ops, k);
    NewMachineIsOk(reg);
    InvAfter(reg, NEW_MACHINE, a);
    ApplyKeepsInv(reg, sys, op);
    LaunchIsOnRecord(reg, sys, op);
    RecordStaysThrough(reg, Apply(reg, sys, op), b, op.slug);
    HistoryJoins(reg, NEW_MACHINE, a, [op] + b);
    HistoryJoins(reg, sys, [op], b);
    OneCommand(reg, sys, op);
  }

  lemma SaneParts(reg: Registry, ops: seq<Op>, k: nat)
    requires AllSane(reg, ops) && k < |ops|
    ensures AllSane(reg, ops[..k]) && Sane(reg, ops[k]) && AllSane(reg, ops[k + 1..])
    ensures ops == ops[..k] + ([ops[k]] + ops[k + 1..])
  {
    hide Sane;
  }

  lemma OneCommand(reg: Registry, sys: System, op: Op)
    ensures AfterAll(reg, sys, [op]) == Apply(reg, sys, op)
  {
    assert [op][1..] == [];
    hide Apply;
  }
}
