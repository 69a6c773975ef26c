/** The state directory: one folder per session, and the archive that destroyed
    sessions move to. */
module Sessions {
  import opened Options
  import Decimal

  datatype Status = Launching | Ready | Failed | Destroying | FailedDestroy

  /** What a session is doing; launch persists it before each step. */
  datatype Phase =
    | Created | Stage | TerraformInit | TerraformApply | Outputs | WaitSsh | CloudInit
    | PushStack | PullStack | InstallKind | PushPayload | CreateCluster | AiMint
    | ComposeUp | Setup | Summary

  /** The roles of a session name a provider each; JSON `null` is None. */
  type Roles = Option<map<string, string>>

  /** The fields of metadata.json. */
  datatype Metadata = Metadata(
    schema: int, slug: string, createdAt: int,
    region: string, size: string, image: string,
    profile: string, pack: string, bundle: string, kind: bool,
    roles: Roles, sshUser: string, binary: string, version: string,
    ip: string, fqdn: string, aiKeyHash: string, aiCapUsd: real,
    gatewayPassword: string, url: string, status: Status, phase: Phase)

  /** Reading a missing role gives the empty string. */
  function Role(m: Metadata, role: string): string {
    if m.roles.Some? && role in m.roles.value then m.roles.value[role] else ""
  }

  type Logs = map<string, string>

  /** The parts of a session or archive folder that outlive a destroy. */
  datatype Folder = Folder(metadata: Option<Metadata>, logs: Option<Logs>)

  const EMPTY := Folder(None, None)

  // ------------------------------------------------------------- defaults

  /** What reading back a saved document gives: documents from before roles
      and ssh users existed are filled in. */
  function Loaded(m: Metadata): Metadata {
    var r := if m.roles.None? then m.(roles := Some(map["vm" := "digitalocean"])) else m;
    if r.sshUser == "" && r.schema < 2 then r.(sshUser := "root") else r
  }

  /** Reading gives back what was saved exactly when roles were recorded and
      an old document names its ssh user; a second reading changes nothing.  What
      an old document lacks is its provider, DigitalOcean then, and the user root. */
  lemma LoadedIsSaved(m: Metadata)
    ensures var r := Loaded(m);
      && r == m.(roles := r.roles, sshUser := r.sshUser)
      && r.roles == (if m.roles.Some? then m.roles else Some(map["vm" := "digitalocean"]))
      && r.sshUser == (if m.sshUser == "" && m.schema < 2 then "root" else m.sshUser)
    ensures Loaded(m) == m <==> m.roles.Some? && (m.sshUser == "" ==> m.schema >= 2)
    ensures Loaded(Loaded(m)) == Loaded(m)
  {
    assert m.roles.None? ==> Loaded(m).roles.Some?;
    assert m.sshUser == "" && m.schema < 2 ==> Loaded(m).sshUser == "root";
  }

  /** The metadata a session folder can be listed with. */
  function Listed(sessions: map<string, Folder>, name: string): Option<Metadata> {
    if name in sessions && sessions[name].metadata.Some? then Some(Loaded(sessions[name].metadata.value))
    else None
  }

  // -------------------------------------------------------- archive names

  /** The names Archive tries: `slug`, `slug-2`, `slug-3` and so on. */
  function Candidate(slug: string, n: nat): string {
    if n <= 1 then slug else slug + "-" + Decimal.FormatInt(n)
  }

  lemma CandidatesDiffer(slug: string, m: nat, n: nat)
    requires 1 <= m && 1 <= n && Candidate(slug, m) == Candidate(slug, n)
    ensures m == n
  {
    assert m > 1 ==> |Candidate(slug, m)| > |slug|;
    assert n > 1 ==> |Candidate(slug, n)| > |slug|;
    if m > 1 && n > 1 {
      var k := |slug| + 1;
      assert Candidate(slug, m)[k..] == Decimal.Digits(m);
      assert Candidate(slug, n)[k..] == Decimal.Digits(n);
      Decimal.DigitsInjective(m, n);
    }
  }

  /** The first candidate from number `n` on that is not taken. */
  function NameFrom(slug: string, n: nat, taken: set<string>): string
    decreases |taken|
  {
    var c := Candidate(slug, n);
    if c in taken then NameFrom(slug, n + 1, taken - {c}) else c
  }

  function ArchiveName(slug: string, taken: set<string>): string {
    NameFrom(slug, 1, taken)
  }

  /** Leaving out names tried earlier does not change what is found. */
  lemma {:induction false} NameFromIgnoresEarlier(slug: string, n: nat, taken: set<string>, m: nat)
    requires 1 <= m < n
    ensures NameFrom(slug, n, taken - {Candidate(slug, m)}) == NameFrom(slug, n, taken)
    decreases |taken|
  {
    var c, e := Candidate(slug, n), Candidate(slug, m);
    if c == e {
      CandidatesDiffer(slug, m, n);
    }
    if c in taken {
      NameFromIgnoresEarlier(slug, n + 1, taken - {c}, m);
      assert taken - {e} - {c} == taken - {c} - {e};
    }
  }

  /** Candidates before number `n`. */
  ghost predicate Tried(slug: string, tried: set<string>, n: nat) {
    forall c :: c in tried ==> exists k: nat :: 1 <= k < n && c == Candidate(slug, k)
  }

  lemma TryAnother(slug: string, tried: set<string>, n: nat)
    requires n >= 1 && Tried(slug, tried, n)
    ensures Candidate(slug, n) !in tried && Tried(slug, tried + {Candidate(slug, n)}, n + 1)
  {
    hide Candidate;
    if Candidate(slug, n) in tried {
      var k: nat :| 1 <= k < n && Candidate(slug, n) == Candidate(slug, k);
      CandidatesDiffer(slug, k, n);
    }
  }

  lemma NameFromNext(slug: string, n: nat, taken: set<string>)
    requires n >= 1 && Candidate(slug, n) in taken
    ensures NameFrom(slug, n, taken) == NameFrom(slug, n + 1, taken)
  {
    NameFromIgnoresEarlier(slug, n + 1, taken, n);
  }

  lemma {:induction false} NameFromIsFree(slug: string, n: nat, taken: set<string>) returns (k: nat)
    requires n >= 1
    ensures k >= n && NameFrom(slug, n, taken) == Candidate(slug, k) && Candidate(slug, k) !in taken
    ensures forall i :: n <= i < k ==> Candidate(slug, i) in taken
    decreases |taken|
  {
    var c := Candidate(slug, n);
    if c in taken {
      k := NameFromIsFree(slug, n + 1, taken - {c});
      if Candidate(slug, k) == c {
        CandidatesDiffer(slug, k, n);
      }
    } else {
      k := n;
    }
  }

  /** Archive picks the slug itself, or the first of `slug-2`, `slug-3` and so on that
      does not exist yet. */
  lemma ArchiveNameIsFirstFree(slug: string, taken: set<string>)
    ensures ArchiveName(slug, taken) !in taken
    ensures slug !in taken ==> ArchiveName(slug, taken) == slug
    ensures slug in taken ==> exists k: nat ::
      && k >= 2 && ArchiveName(slug, taken) == slug + "-" + Decimal.FormatInt(k)
      && forall i: nat :: 2 <= i < k ==> slug + "-" + Decimal.FormatInt(i) in taken
  {
    var k := NameFromIsFree(slug, 1, taken);
    assert Candidate(slug, 1) == slug;
    if slug in taken {
      assert k >= 2;
      forall i: nat | 2 <= i < k ensures slug + "-" + Decimal.FormatInt(i) in taken {
        assert Candidate(slug, i) in taken;
      }
    }
  }

  // --------------------------------------------------------------- archive

  /** Which step of Archive fails, if any. */
  datatype ArchiveFaults = ArchiveFaults(mkdir: bool, moveMetadata: bool, moveLogs: bool, remove: bool)

  datatype Shelves = Both(sessions: map<string, Folder>, archive: map<string, Folder>)

  function Archived(at: Shelves, name: string, slug: string, faults: ArchiveFaults): (Shelves, bool) {
    var dst := ArchiveName(slug, at.archive.Keys);
    if faults.mkdir then (at, false)
    else if faults.moveMetadata || name !in at.sessions || at.sessions[name].metadata.None? then
      (at.(archive := at.archive[dst := EMPTY]), false)
    else
      var f := at.sessions[name];
      if f.logs.Some? && faults.moveLogs then
        (Both(at.sessions[name := f.(metadata := None)], at.archive[dst := f.(logs := None)]), false)
      else if faults.remove then
        (Both(at.sessions[name := EMPTY], at.archive[dst := f]), false)
      else
        (Both(at.sessions - {name}, at.archive[dst := f]), true)
  }

  /** Of two places, one holds the thing and the other nothing. */
  predicate InOnePlace<T(==)>(thing: Option<T>, here: Option<T>, there: Option<T>) {
    (here == thing && there == None) || (here == None && there == thing)
  }

  /** Whatever fails, metadata and logs end up in exactly one place, unchanged:
      still with the session, or under a name the archive did not have.  Other
      sessions and earlier archive entries are untouched, and success means the
      session folder is gone. */
  lemma ArchiveMoves(at: Shelves, name: string, slug: string, faults: ArchiveFaults)
    ensures var (now, ok) := Archived(at, name, slug, faults);
      var dst := ArchiveName(slug, at.archive.Keys);
      && dst !in at.archive
      && (forall n :: n in at.archive ==> n in now.archive && now.archive[n] == at.archive[n])
      && now.archive.Keys <= at.archive.Keys + {dst}
      && now.sessions - {name} == at.sessions - {name}
      && (name in at.sessions ==>
           var before := at.sessions[name];
           var kept := if name in now.sessions then now.sessions[name] else EMPTY;
           var moved := if dst in now.archive then now.archive[dst] else EMPTY;
           && InOnePlace(before.metadata, kept.metadata, moved.metadata)
           && InOnePlace(before.logs, kept.logs, moved.logs))
      && (ok <==> name in at.sessions && at.sessions[name].metadata.Some? && !faults.mkdir && !faults.moveMetadata
                  && !(faults.moveLogs && at.sessions[name].logs.Some?) && !faults.remove)
      && (ok ==> name !in now.sessions && now.archive == at.archive[dst := at.sessions[name]])
  {
    ArchiveNameIsFirstFree(slug, at.archive.Keys);
  }

  // ------------------------------------------------------ the state folder

  /** The folders under $XDG_STATE_HOME/interview. */
  class StateDir {
    var sessions: map<string, Folder>
    var archive: map<string, Folder>

    constructor ()
      ensures sessions == map[] && archive == map[]
    {
      sessions, archive := map[], map[];
    }

    function View(): Shelves
      reads this
    {
      Both(sessions, archive)
    }

    /** The first drawn name that no session or archive entry has; None while
        every draw so far was taken. */
    method NewSlug(draws: seq<string>) returns (slug: Option<string>)
      ensures slug.Some? ==> slug.value !in sessions && slug.value !in archive
      ensures slug.Some? ==>
        exists i :: 0 <= i < |draws| && draws[i] == slug.value
          && forall j :: 0 <= j < i ==> draws[j] in sessions || draws[j] in archive
      ensures slug.None? ==> forall d :: d in draws ==> d in sessions || d in archive
    {
      for i := 0 to |draws|
        invariant forall j :: 0 <= j < i ==> draws[j] in sessions || draws[j] in archive
      {
        if draws[i] !in sessions && draws[i] !in archive {
          return Some(draws[i]);
        }
      }
      slug := None;
    }

    method Get(name: string) returns (meta: Option<Metadata>)
      ensures meta == Listed(sessions, name)
    {
      if name !in sessions || sessions[name].metadata.None? {
        return None;
      }
      var m := sessions[name].metadata.value;
      if m.roles.None? {
        m := m.(roles := Some(map["vm" := "digitalocean"]));
      }
      if m.sshUser == "" && m.schema < 2 {
        m := m.(sshUser := "root");
      }
      meta := Some(m);
    }

    /** Counts up until a candidate is free; the tried names are distinct
        archive entries, so a finite archive bounds the search. */
    method FreeName(slug: string) returns (dst: string)
      ensures dst == ArchiveName(slug, archive.Keys)
    {
      dst := slug;
      var i := 2;
      ghost var tried: set<string> := {};
      while dst in archive
        invariant i >= 2 && dst == Candidate(slug, i - 1)
        invariant NameFrom(slug, i - 1, archive.Keys) == ArchiveName(slug, archive.Keys)
        invariant Tried(slug, tried, i - 1)
        decreases |archive.Keys - tried|
      {
        hide NameFrom, ArchiveName, Tried;
        NameFromNext(slug, i - 1, archive.Keys);
        TryAnother(slug, tried, i - 1);
        Shrinks(archive.Keys, tried, dst);
        tried := tried + {dst};
        dst := slug + "-" + Decimal.FormatInt(i);
        i := i + 1;
      }
    }

    /** Moves metadata and logs to the archive and removes the session folder. */
    method Archive(name: string, slug: string, faults: ArchiveFaults) returns (ok: bool)
      modifies this
      ensures (View(), ok) == Archived(old(View()), name, slug, faults)
    {
      var dst := FreeName(slug);
      hide ArchiveName;
      if faults.mkdir {
        return false;
      }
      archive := archive[dst := EMPTY];
      if faults.moveMetadata || name !in sessions || sessions[name].metadata.None? {
        return false;
      }
      var f := sessions[name];
      archive := archive[dst := archive[dst].(metadata := f.metadata)];
      sessions := sessions[name := f.(metadata := None)];
      SetTwice(old(archive), dst, EMPTY, f.(logs := None));
      if f.logs.Some? {
        if faults.moveLogs {
          return false;
        }
        archive := archive[dst := archive[dst].(logs := f.logs)];
        sessions := sessions[name := EMPTY];
        SetTwice(old(archive), dst, f.(logs := None), f);
        SetTwice(old(sessions), name, f.(metadata := None), EMPTY);
      }
      if faults.remove {
        return false;
      }
      sessions := sessions - {name};
      SetThenDrop(old(sessions), name, EMPTY);
      ok := true;
    }
  }

  lemma SetTwice<K, V>(m: map<K, V>, k: K, a: V, b: V)
    ensures m[k := a][k := b] == m[k := b]
  {
  }

  lemma SetThenDrop<K, V>(m: map<K, V>, k: K, a: V)
    ensures m[k := a] - {k} == m - {k}
  {
  }

  lemma Shrinks(s: set<string>, tried: set<string>, x: string)
    requires x in s && x !in tried
    ensures |s - (tried + {x})| < |s - tried|
  {
    assert s - (tried + {x}) == (s - tried) - {x};
  }
}
