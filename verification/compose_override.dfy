/** The compose override the engine writes for a bundle, as text and as what
    compose reads from it: mounts and networks. */
module ComposeOverride {
  import opened Options
  import opened Text

  datatype Mount = Mount(source: string, target: string, mode: string)

  const WORKSPACE := Mount("./payload/workspace", "/home/user/scenarios", "rw")
  const LAB := Mount("./payload/lab", "/opt/interview/lab", "ro")
  const KUBECONFIG := Mount("./payload/kubeconfig", "/home/user/.kube/config", "ro")

  const ITEM := "      - "
  const JOIN_KIND := "    networks: [default, kind]"
  const EXTERNAL := ["networks:", "  kind:", "    external: true"]

  function VolumeLine(m: Mount): string {
    ITEM + (m.source + ":" + m.target + ":" + m.mode)
  }

  /** Lines, each ended by a newline. */
  function Unlines(lines: seq<string>): string {
    if lines == [] then "" else Unlines(lines[..|lines| - 1]) + (lines[|lines| - 1] + "\n")
  }

  function Wanted(workspace: bool, lab: bool, kind: bool): seq<Mount> {
    (if workspace then [WORKSPACE] else []) + (if lab then [LAB] else []) + (if kind then [KUBECONFIG] else [])
  }

  function VolumeLines(mounts: seq<Mount>): seq<string> {
    seq(|mounts|, k requires 0 <= k < |mounts| => VolumeLine(mounts[k]))
  }

  function OverrideLines(workspace: bool, lab: bool, kind: bool): seq<string> {
    ["services:", "  vscode:"] + (if kind then [JOIN_KIND] else []) + ["    volumes:"]
    + VolumeLines(Wanted(workspace, lab, kind)) + (if kind then EXTERNAL else [])
  }

  lemma UnlinesAppend(a: seq<string>, line: string)
    ensures Unlines(a + [line]) == Unlines(a) + (line + "\n")
  {
    assert (a + [line])[..|a|] == a;
  }

  /** Renders the override: the services' own part, then networks for kind. */
  method Override(workspace: bool, lab: bool, kind: bool) returns (text: string)
    ensures text == Unlines(OverrideLines(workspace, lab, kind))
  {
    var vols: seq<Mount>, nets: seq<string> := [], [];
    if workspace {
      vols := vols + [WORKSPACE];
    }
    if lab {
      vols := vols + [LAB];
    }
    if kind {
      vols := vols + [KUBECONFIG];
      nets := nets + [JOIN_KIND];
    }
    assert vols == Wanted(workspace, lab, kind);
    assert nets == if kind then [JOIN_KIND] else [];
    hide Wanted, Unlines, VolumeLines, WORKSPACE, LAB, KUBECONFIG, JOIN_KIND, EXTERNAL;
    ghost var head := ["services:", "  vscode:"];
    Header();
    text := AddLines("services:\n  vscode:\n", head, nets);
    text := AddLines(text, head + nets, ["    volumes:"]);
    text := AddVolumes(text, head + nets + ["    volumes:"], vols);
    if kind {
      Footer(head + nets + ["    volumes:"] + VolumeLines(vols));
      text := text + "networks:\n  kind:\n    external: true\n";
    } else {
      assert head + nets + ["    volumes:"] + VolumeLines(vols) + []
          == head + nets + ["    volumes:"] + VolumeLines(vols);
    }
  }

  /** Writes lines to the builder, each with its newline. */
  method AddLines(before: string, ghost lines: seq<string>, more: seq<string>) returns (text: string)
    requires before == Unlines(lines)
    ensures text == Unlines(lines + more)
  {
    text := before;
    assert lines + more[..0] == lines;
    for n := 0 to |more|
      invariant text == Unlines(lines + more[..n])
    {
      UnlinesAppend(lines + more[..n], more[n]);
      assert lines + more[..n + 1] == lines + more[..n] + [more[n]];
      text := text + (more[n] + "\n");
    }
    assert more[..|more|] == more;
  }

  method AddVolumes(before: string, ghost lines: seq<string>, vols: seq<Mount>) returns (text: string)
    requires before == Unlines(lines)
    ensures text == Unlines(lines + VolumeLines(vols))
  {
    hide *;
    text := before;
    NoVolumeLines(lines, vols);
    for n := 0 to |vols|
      invariant text == Unlines(lines + VolumeLines(vols[..n]))
    {
      UnlinesAppend(lines + VolumeLines(vols[..n]), VolumeLine(vols[n]));
      NextVolumeLine(lines, vols, n);
      text := text + (VolumeLine(vols[n]) + "\n");
    }
    assert vols[..|vols|] == vols;
  }

  lemma NoVolumeLines(lines: seq<string>, vols: seq<Mount>)
    ensures lines + VolumeLines(vols[..0]) == lines
  {
  }

  lemma NextVolumeLine(lines: seq<string>, vols: seq<Mount>, n: nat)
    requires n < |vols|
    ensures lines + VolumeLines(vols[..n + 1]) == lines + VolumeLines(vols[..n]) + [VolumeLine(vols[n])]
  {
    hide VolumeLine;
  }

  lemma Header()
    ensures Unlines(["services:", "  vscode:"]) == "services:\n  vscode:\n"
  {
    UnlinesAppend([], "services:");
    UnlinesAppend(["services:"], "  vscode:");
    assert [] + ["services:"] == ["services:"] && ["services:"] + ["  vscode:"] == ["services:", "  vscode:"];
    assert "" + ("services:" + "\n") + ("  vscode:" + "\n") == "services:\n  vscode:\n";
  }

  lemma Footer(lines: seq<string>)
    ensures Unlines(lines + EXTERNAL) == Unlines(lines) + "networks:\n  kind:\n    external: true\n"
  {
    FooterText();
    ThreeLines(lines, "networks:", "  kind:", "    external: true");
  }

  lemma FooterText()
    ensures ("networks:" + "\n") + ("  kind:" + "\n") + ("    external: true" + "\n")
         == "networks:\n  kind:\n    external: true\n"
  {
  }

  lemma ThreeLines(lines: seq<string>, a: string, b: string, c: string)
    ensures Unlines(lines + [a, b, c]) == Unlines(lines) + ((a + "\n") + (b + "\n") + (c + "\n"))
  {
    hide *;
    UnlinesAppend(lines, a);
    UnlinesAppend(lines + [a], b);
    UnlinesAppend(lines + [a] + [b], c);
    assert lines + [a, b, c] == lines + [a] + [b] + [c];
    Regroup(Unlines(lines), a + "\n", b + "\n", c + "\n");
  }

  lemma Regroup(x: string, a: string, b: string, c: string)
    ensures x + a + b + c == x + (a + b + c)
  {
  }

  // -------------------------------------------------------------- reading it

  /** A short-form volume: source, target and mode. */
  function MountOf(line: string): Option<Mount> {
    if |ITEM| <= |line| && line[..|ITEM|] == ITEM then
      var parts := Split(line[|ITEM|..], ':');
      if |parts| == 3 then Some(Mount(parts[0], parts[1], parts[2])) else None
    else None
  }

  function Mounts(lines: seq<string>): seq<Mount> {
    if lines == [] then []
    else
      var rest := Mounts(lines[1..]);
      var m := MountOf(lines[0]);
      if m.Some? then [m.value] + rest else rest
  }

  lemma {:induction false} SplitUnlines(lines: seq<string>)
    requires forall k :: 0 <= k < |lines| ==> '\n' !in lines[k]
    ensures Split(Unlines(lines), '\n') == lines + [""]
    decreases |lines|
  {
    if lines == [] {
      assert Split("", '\n') == [""];
    } else {
      UnlinesFirst(lines);
      SplitUnlines(lines[1..]);
      SplitUpTo(lines[0], Unlines(lines[1..]), '\n');
      assert [lines[0]] + (lines[1..] + [""]) == lines + [""];
    }
  }

  lemma {:induction false} UnlinesFirst(lines: seq<string>)
    requires lines != []
    ensures Unlines(lines) == lines[0] + ['\n'] + Unlines(lines[1..])
    decreases |lines|
  {
    var n := |lines| - 1;
    if n > 0 {
      UnlinesFirst(lines[..n]);
      assert lines[..n][1..] == lines[1..][..n - 1];
      assert lines[1..][n - 1] == lines[n];
      assert lines[0] + ['\n'] + Unlines(lines[1..][..n - 1]) + (lines[n] + "\n")
          == lines[0] + ['\n'] + (Unlines(lines[1..][..n - 1]) + (lines[n] + "\n"));
    } else {
      assert lines[..0] == [] && lines[1..] == [];
      assert "" + (lines[0] + "\n") == lines[0] + ['\n'] + "";
    }
  }

  lemma {:induction false} MountsAppend(a: seq<string>, b: seq<string>)
    ensures Mounts(a + b) == Mounts(a) + Mounts(b)
    decreases |a|
  {
    if a == [] {
      assert a + b == b;
    } else {
      assert (a + b)[1..] == a[1..] + b;
      MountsAppend(a[1..], b);
    }
  }

  predicate Plain(m: Mount) {
    (':' !in m.source && ':' !in m.target && ':' !in m.mode) &&
    ('\n' !in m.source && '\n' !in m.target && '\n' !in m.mode)
  }

  lemma VolumeLineReads(m: Mount)
    requires Plain(m)
    ensures MountOf(VolumeLine(m)) == Some(m) && '\n' !in VolumeLine(m)
  {
    var line, spec := VolumeLine(m), m.source + ":" + m.target + ":" + m.mode;
    assert line[..|ITEM|] == ITEM && line[|ITEM|..] == spec;
    assert spec == m.source + [':'] + (m.target + [':'] + m.mode);
    SplitUpTo(m.source, m.target + [':'] + m.mode, ':');
    SplitUpTo(m.target, m.mode, ':');
    SplitWhole(m.mode, ':');
    assert '\n' !in ITEM;
  }

  lemma {:induction false} VolumesRead(mounts: seq<Mount>)
    requires forall k :: 0 <= k < |mounts| ==> Plain(mounts[k])
    ensures Mounts(VolumeLines(mounts)) == mounts
    ensures forall k :: 0 <= k < |VolumeLines(mounts)| ==> '\n' !in VolumeLines(mounts)[k]
    decreases |mounts|
  {
    if mounts != [] {
      VolumeLineReads(mounts[0]);
      VolumesRead(mounts[1..]);
      assert VolumeLines(mounts)[1..] == VolumeLines(mounts[1..]);
      assert VolumeLines(mounts) == [VolumeLine(mounts[0])] + VolumeLines(mounts[1..]);
    }
  }

  lemma WorkspaceIsPlain()
    ensures Plain(WORKSPACE)
  {
    WorkspacePaths();
  }

  lemma WorkspacePaths()
    ensures ':' !in "./payload/workspace" && '\n' !in "./payload/workspace"
    ensures ':' !in "/home/user/scenarios" && '\n' !in "/home/user/scenarios"
  {
    WorkspaceSource();
    WorkspaceTarget();
  }

  lemma WorkspaceSource()
    ensures ':' !in "./payload/workspace" && '\n' !in "./payload/workspace"
  {
  }

  lemma WorkspaceTarget()
    ensures ':' !in "/home/user/scenarios" && '\n' !in "/home/user/scenarios"
  {
  }

  lemma LabIsPlain()
    ensures Plain(LAB)
  {
    LabSource();
    LabTarget();
  }

  lemma LabSource()
    ensures ':' !in "./payload/lab" && '\n' !in "./payload/lab"
  {
  }

  lemma LabTarget()
    ensures ':' !in "/opt/interview/lab" && '\n' !in "/opt/interview/lab"
  {
  }

  lemma KubeconfigIsPlain()
    ensures Plain(KUBECONFIG)
  {
    KubeconfigSource();
    KubeconfigTarget();
  }

  lemma KubeconfigSource()
    ensures ':' !in "./payload/kubeconfig" && '\n' !in "./payload/kubeconfig"
  {
  }

  lemma KubeconfigTarget()
    ensures ':' !in "/home/user/.kube/config" && '\n' !in "/home/user/.kube/config"
  {
  }

  lemma NotAnItem(line: string)
    requires |line| < 8 || line[6] != '-'
    ensures MountOf(line) == None
  {
    assert ITEM[6] == '-' && |ITEM| == 8;
    if |line| >= 8 {
      assert line[..8][6] == line[6];
    }
  }

  predicate Fixed(line: string) {
    MountOf(line) == None && '\n' !in line
  }

  lemma FixedLines()
    ensures Fixed("services:") && Fixed("  vscode:") && Fixed("    volumes:")
  {
    NotAnItem("services:");
    NotAnItem("  vscode:");
    NotAnItem("    volumes:");
    hide MountOf;
    assert '\n' !in "services:" && '\n' !in "  vscode:" && '\n' !in "    volumes:";
  }

  lemma JoinLine()
    ensures Fixed(JOIN_KIND)
  {
    hide MountOf;
    NotAnItem(JOIN_KIND);
  }

  lemma ExternalLines()
    ensures forall k :: 0 <= k < |EXTERNAL| ==> Fixed(EXTERNAL[k])
  {
    NotAnItem("networks:");
    NotAnItem("  kind:");
    NotAnItem("    external: true");
    hide MountOf;
    assert '\n' !in "networks:" && '\n' !in "  kind:" && '\n' !in "    external: true";
  }

  lemma {:induction false} NoMounts(lines: seq<string>)
    requires forall k :: 0 <= k < |lines| ==> Fixed(lines[k])
    ensures Mounts(lines) == []
  {
    if lines != [] {
      NoMounts(lines[1..]);
    }
  }

  /** What compose reads from the override: the workspace, lab and kubeconfig
      mounts exactly as flagged, in that order, and the kind network exactly for
      kind bundles. */
  lemma OverrideReads(workspace: bool, lab: bool, kind: bool)
    ensures var lines := Split(Unlines(OverrideLines(workspace, lab, kind)), '\n');
      && Mounts(lines) == Wanted(workspace, lab, kind)
      && (JOIN_KIND in lines <==> kind)
      && ("    external: true" in lines <==> kind)
    ensures Wanted(workspace, lab, kind)
         == (if workspace then [Mount("./payload/workspace", "/home/user/scenarios", "rw")] else [])
            + (if lab then [Mount("./payload/lab", "/opt/interview/lab", "ro")] else [])
            + (if kind then [Mount("./payload/kubeconfig", "/home/user/.kube/config", "ro")] else [])
  {
    WantedIs(workspace, lab, kind);
    OverrideLinesRead(workspace, lab, kind);
    var ls := OverrideLines(workspace, lab, kind);
    SplitUnlines(ls);
    MountsAppend(ls, [""]);
    NotAnItem("");
    NoMounts([""]);
    hide OverrideLines, Mounts, MountOf, Wanted;
    assert Wanted(workspace, lab, kind) + [] == Wanted(workspace, lab, kind);
    assert forall x: string :: x != "" ==> (x in ls + [""] <==> x in ls);
    assert JOIN_KIND != "" && "    external: true" != "";
  }

  lemma WantedIs(workspace: bool, lab: bool, kind: bool)
    ensures Wanted(workspace, lab, kind)
         == (if workspace then [Mount("./payload/workspace", "/home/user/scenarios", "rw")] else [])
            + (if lab then [Mount("./payload/lab", "/opt/interview/lab", "ro")] else [])
            + (if kind then [Mount("./payload/kubeconfig", "/home/user/.kube/config", "ro")] else [])
  {
  }

  lemma OverrideLinesRead(workspace: bool, lab: bool, kind: bool)
    ensures var lines := OverrideLines(workspace, lab, kind);
      && Mounts(lines) == Wanted(workspace, lab, kind)
      && (forall k :: 0 <= k < |lines| ==> '\n' !in lines[k])
      && (JOIN_KIND in lines <==> kind)
      && ("    external: true" in lines <==> kind)
  {
    WantedReads(workspace, lab, kind);
    HeadReads(kind);
    FootReads(kind);
    var w := Wanted(workspace, lab, kind);
    VolumesAreNotNetworks(w);
    hide *;
    Combine(Head(kind), VolumeLines(w), Foot(kind), w);
    LinesAre(workspace, lab, kind);
    InAll(Head(kind), VolumeLines(w), Foot(kind), JOIN_KIND);
    InAll(Head(kind), VolumeLines(w), Foot(kind), "    external: true");
  }

  function Head(kind: bool): seq<string> {
    ["services:", "  vscode:"] + (if kind then [JOIN_KIND] else []) + ["    volumes:"]
  }

  function Foot(kind: bool): seq<string> {
    if kind then EXTERNAL else []
  }

  lemma LinesAre(workspace: bool, lab: bool, kind: bool)
    ensures OverrideLines(workspace, lab, kind) == Head(kind) + VolumeLines(Wanted(workspace, lab, kind)) + Foot(kind)
  {
  }

  lemma InAll(a: seq<string>, b: seq<string>, c: seq<string>, x: string)
    ensures x in a + b + c <==> x in a || x in b || x in c
  {
  }

  lemma Combine(head: seq<string>, vols: seq<string>, foot: seq<string>, w: seq<Mount>)
    requires Mounts(head) == [] && Mounts(vols) == w && Mounts(foot) == []
    requires forall k :: 0 <= k < |head| ==> '\n' !in head[k]
    requires forall k :: 0 <= k < |vols| ==> '\n' !in vols[k]
    requires forall k :: 0 <= k < |foot| ==> '\n' !in foot[k]
    ensures Mounts(head + vols + foot) == w
    ensures forall k :: 0 <= k < |head + vols + foot| ==> '\n' !in (head + vols + foot)[k]
  {
    hide Mounts;
    MountsAppend(head, vols);
    MountsAppend(head + vols, foot);
    assert [] + w + [] == w;
  }

  lemma WantedReads(workspace: bool, lab: bool, kind: bool)
    ensures var w := Wanted(workspace, lab, kind);
      Mounts(VolumeLines(w)) == w && forall k :: 0 <= k < |VolumeLines(w)| ==> '\n' !in VolumeLines(w)[k]
  {
    WorkspaceIsPlain();
    LabIsPlain();
    KubeconfigIsPlain();
    hide Plain, WORKSPACE, LAB, KUBECONFIG, Mounts, VolumeLines;
    VolumesRead(Wanted(workspace, lab, kind));
  }

  lemma HeadReads(kind: bool)
    ensures Mounts(Head(kind)) == [] && forall k :: 0 <= k < |Head(kind)| ==> '\n' !in Head(kind)[k]
    ensures (JOIN_KIND in Head(kind) <==> kind) && "    external: true" !in Head(kind)
  {
    FixedLines();
    JoinLine();
    hide MountOf, Mounts;
    NoMounts(Head(kind));
    assert JOIN_KIND != "services:" && JOIN_KIND != "  vscode:" && JOIN_KIND != "    volumes:";
    assert JOIN_KIND[4] != "    external: true"[4] && "    volumes:"[4] != "    external: true"[4];
  }

  lemma FootReads(kind: bool)
    ensures Mounts(Foot(kind)) == [] && forall k :: 0 <= k < |Foot(kind)| ==> '\n' !in Foot(kind)[k]
    ensures JOIN_KIND !in Foot(kind) && ("    external: true" in Foot(kind) <==> kind)
  {
    ExternalLines();
    hide MountOf, Mounts;
    NoMounts(Foot(kind));
    assert EXTERNAL[2] == "    external: true";
    assert JOIN_KIND[4] != "    external: true"[4];
  }

  lemma VolumesAreNotNetworks(mounts: seq<Mount>)
    ensures JOIN_KIND !in VolumeLines(mounts) && "    external: true" !in VolumeLines(mounts)
  {
    forall k | 0 <= k < |mounts|
      ensures VolumeLines(mounts)[k] != JOIN_KIND && VolumeLines(mounts)[k] != "    external: true"
    {
      assert VolumeLine(mounts[k])[6] == ITEM[6] == '-';
      assert JOIN_KIND[6] == 't' && "    external: true"[6] == 't';
    }
  }

  // --------------------------------------------------------- line by line

  lemma WorkspaceLine()
    ensures VolumeLine(WORKSPACE) == "      - " + ("./payload/workspace" + ":" + "/home/user/scenarios" + ":" + "rw")
  {
  }

  lemma LabLine()
    ensures VolumeLine(LAB) == "      - " + ("./payload/lab" + ":" + "/opt/interview/lab" + ":" + "ro")
  {
  }

  lemma KubeconfigLine()
    ensures VolumeLine(KUBECONFIG) == "      - " + ("./payload/kubeconfig" + ":" + "/home/user/.kube/config" + ":" + "ro")
  {
  }

  /** The override, line by line. */
  lemma OverrideIs(workspace: bool, lab: bool, kind: bool)
    ensures Split(Unlines(OverrideLines(workspace, lab, kind)), '\n')
         == ["services:", "  vscode:"] + (if kind then ["    networks: [default, kind]"] else []) + ["    volumes:"]
            + ((if workspace then ["      - " + ("./payload/workspace" + ":" + "/home/user/scenarios" + ":" + "rw")] else [])
               + (if lab then ["      - " + ("./payload/lab" + ":" + "/opt/interview/lab" + ":" + "ro")] else [])
               + (if kind then ["      - " + ("./payload/kubeconfig" + ":" + "/home/user/.kube/config" + ":" + "ro")] else []))
            + (if kind then ["networks:", "  kind:", "    external: true"] else []) + [""]
  {
    OverrideLinesRead(workspace, lab, kind);
    assert JOIN_KIND == "    networks: [default, kind]" && EXTERNAL == ["networks:", "  kind:", "    external: true"];
    hide VolumeLines, JOIN_KIND, EXTERNAL, Mounts, Wanted, WORKSPACE, LAB, KUBECONFIG;
    SplitUnlines(OverrideLines(workspace, lab, kind));
    VolumeLinesAre(workspace, lab, kind);
  }

  lemma VolumeLinesAre(workspace: bool, lab: bool, kind: bool)
    ensures VolumeLines(Wanted(workspace, lab, kind))
         == (if workspace then ["      - " + ("./payload/workspace" + ":" + "/home/user/scenarios" + ":" + "rw")] else [])
            + (if lab then ["      - " + ("./payload/lab" + ":" + "/opt/interview/lab" + ":" + "ro")] else [])
            + (if kind then ["      - " + ("./payload/kubeconfig" + ":" + "/home/user/.kube/config" + ":" + "ro")] else [])
  {
    WorkspaceLine();
    LabLine();
    KubeconfigLine();
    hide VolumeLine, WORKSPACE, LAB, KUBECONFIG;
  }
}
