/** The shell text the engine sends to a session VM, and what a POSIX shell
    makes of it. */
module StackCommands {
  import opened Options
  import opened ShellWords
  import opened Text
  import opened Ordering
  import opened DirNames
  import Bundles
  import LocalStack

  const REMOTE_DIR := "/opt/interview"

  // ------------------------------------------------------------- commands

  // The fixed parts of the commands.
  const CD := "cd " + REMOTE_DIR + "/docker && "
  const EXPORT := "set -a && "
  const SOURCE := ". /dev/stdin && "
  const UNEXPORT := "set +a && "
  const COMPOSE := "docker compose "
  const FILES := "-f compose.yaml " + "-f override.yaml "
  const P_PROJECT := "-p interview-"
  const UP := " up -d --wait"
  const EXEC_SESSION := " exec -T -e " + SESSION_VAR
  const E_BUNDLE := " -e " + BUNDLE_VAR
  const E_SCENARIOS := " -e " + SCENARIOS_VAR
  const E_LAB_DIR := " -e " + LAB_VAR
  const HOOK := " vscode bash " + SCRIPT

  const SESSION_VAR := "INTERVIEW_SESSION_ID="
  const BUNDLE_VAR := "INTERVIEW_BUNDLE="
  const SCENARIOS_VAR := "INTERVIEW_SCENARIOS="
  const LAB_VAR := "INTERVIEW_LAB_DIR=/opt/interview/lab"
  const SCRIPT := "/opt/interview/lab/setup.sh"

  /** Starts the stack; the environment arrives by sourcing stdin. */
  function ComposeUpCmd(slug: string, withOverride: bool): string {
    CD + EXPORT + SOURCE + UNEXPORT + COMPOSE + (if withOverride then FILES else "") +
    P_PROJECT + slug + UP
  }

  /** Pulls the session's two images; their references cross as inline environment. */
  function PullCmd(gatewayRef: string, vscodeRef: string): string {
    CD + "GATEWAY_IMAGE='" + gatewayRef + "' " + "VSCODE_IMAGE='" + vscodeRef + "' " + "docker compose pull"
  }

  /** Calls the hook of a bundle's lab in the session's editor container. */
  function SetupCmd(slug: string, bundle: string, scenarios: string): string {
    CD + COMPOSE + FILES + P_PROJECT + slug + EXEC_SESSION + slug + E_BUNDLE + bundle +
    E_SCENARIOS + scenarios + E_LAB_DIR + HOOK
  }

  // -------------------------------------- the same runs on the local engine

  /** The docker arguments of a local compose up. */
  function LocalUpArgs(slug: string, withOverride: bool): seq<string> {
    ["compose"]
    + (if withOverride then ["-f", "compose.yaml", "-f", "override.yaml"] else [])
    + ["-p", "interview-" + slug, "up", "-d", "--wait"]
  }

  /** The docker arguments of a local setup run. */
  function LocalSetupArgs(slug: string, bundle: string, scenarios: string): seq<string> {
    ["compose", "-f", "compose.yaml", "-f", "override.yaml",
     "-p", "interview-" + slug, "exec", "-T",
     "-e", "INTERVIEW_SESSION_ID=" + slug,
     "-e", "INTERVIEW_BUNDLE=" + bundle,
     "-e", "INTERVIEW_SCENARIOS=" + scenarios,
     "-e", "INTERVIEW_LAB_DIR=/opt/interview/lab",
     "vscode", "bash", "/opt/interview/lab/setup.sh"]
  }

  // --------------------------------------------------------- accepted texts

  predicate RefChar(c: char) {
    'a' <= c <= 'z' || 'A' <= c <= 'Z' || '0' <= c <= '9' || c in "._/:@-"
  }

  /** The pattern an image reference is validated against. */
  predicate IsImageRef(s: string) {
    s != "" && RefChar(s[0]) && s[0] !in "._/:@-" && forall i :: 0 <= i < |s| ==> RefChar(s[i])
  }

  predicate ListChar(c: char) {
    LowerAlnum(c) || c == '-'
  }

  lemma DirNameIsPlain(s: string)
    requires IsDirName(s)
    ensures s != "" && AllPlain(s) && ',' !in s
  {
    DirNameChars(s, false);
    assert forall i :: 0 <= i < |s| ==> ListChar(s[i]);
  }

  lemma {:induction false} JoinIsPlain(names: seq<string>)
    requires names != [] && forall i :: 0 <= i < |names| ==> names[i] != "" && AllPlain(names[i])
    ensures AllPlain(Join(names, ",")) && Join(names, ",") != ""
    decreases |names|
  {
    if |names| > 1 {
      JoinIsPlain(names[1..]);
    }
  }

  /** Scenario names survive their trip through INTERVIEW_SCENARIOS: the list
      is plain shell text and splitting it on commas gives the names in order. */
  lemma ScenarioList(names: seq<string>)
    requires names != [] && forall i :: 0 <= i < |names| ==> IsDirName(names[i])
    ensures Split(Join(names, ","), ',') == names
    ensures AllPlain(Join(names, ",")) && Join(names, ",") != ""
  {
    forall i | 0 <= i < |names| ensures names[i] != "" && AllPlain(names[i]) && ',' !in names[i] {
      DirNameIsPlain(names[i]);
    }
    SplitJoin(names, ',');
    JoinIsPlain(names);
  }

  // ----------------------------------------------- the texts, word by word

  lemma Spaced1(a: string)
    ensures Spaced([a]) == a + " "
  {
    assert a + " " + Spaced([]) == a + " ";
  }

  lemma Spaced2(a: string, b: string)
    ensures Spaced([a, b]) == a + " " + b + " "
  {
    Spaced1(b);
    assert [a, b][1..] == [b];
  }

  lemma Spaced3(a: string, b: string, c: string)
    ensures Spaced([a, b, c]) == a + " " + b + " " + c + " "
  {
    Spaced2(b, c);
    assert [a, b, c][1..] == [b, c];
  }

  // The words those parts complete.
  const CD_WORDS := ["cd", "/opt/interview/docker", "&&"]
  const EXPORT_WORDS := ["set", "-a", "&&"]
  const SOURCE_WORDS := [".", "/dev/stdin", "&&"]
  const UNEXPORT_WORDS := ["set", "+a", "&&"]
  const COMPOSE_WORDS := ["docker", "compose"]
  const FILE_WORDS := ["-f", "compose.yaml", "-f", "override.yaml"]
  const P_WORDS := ["-p"]
  const UP_WORDS := ["up", "-d"]
  const EXEC_WORDS := ["exec", "-T", "-e"]
  const E_WORDS := ["-e"]
  const HOOK_WORDS := ["vscode", "bash"]
  const PROJECT := "interview-"
  const WAIT := "--wait"

  lemma CdText()
    ensures CD == Spaced(CD_WORDS)
  {
    var b := "cd" + " " + "/opt/interview/docker" + " " + "&&" + " ";
    Spaced3("cd", "/opt/interview/docker", "&&");
    forall i | 0 <= i < |CD| ensures CD[i] == b[i] { }
    assert CD == b;
  }

  lemma CdWords()
    ensures Arguments(CD_WORDS)
  {
    assert Argument("cd") && Argument("/opt/interview/docker") && Argument("&&");
  }

  lemma SourceTexts()
    ensures EXPORT == Spaced(EXPORT_WORDS) && SOURCE == Spaced(SOURCE_WORDS)
    ensures UNEXPORT == Spaced(UNEXPORT_WORDS)
  {
    Spaced3("set", "-a", "&&");
    Spaced3(".", "/dev/stdin", "&&");
    Spaced3("set", "+a", "&&");
    assert EXPORT == "set" + " " + "-a" + " " + "&&" + " ";
    assert SOURCE == "." + " " + "/dev/stdin" + " " + "&&" + " ";
    assert UNEXPORT == "set" + " " + "+a" + " " + "&&" + " ";
  }

  lemma SourceWords()
    ensures Arguments(EXPORT_WORDS) && Arguments(SOURCE_WORDS) && Arguments(UNEXPORT_WORDS)
  {
    assert Argument("set") && Argument("-a") && Argument(".") && Argument("/dev/stdin");
    assert Argument("+a") && Argument("&&");
  }

  lemma ComposeTexts()
    ensures COMPOSE == Spaced(COMPOSE_WORDS)
    ensures P_PROJECT == Spaced(P_WORDS) + PROJECT
  {
    Spaced2("docker", "compose");
    Spaced1("-p");
    assert COMPOSE == "docker" + " " + "compose" + " ";
    assert P_PROJECT == "-p" + " " + "interview-";
  }

  lemma FilesText()
    ensures FILES == Spaced(FILE_WORDS)
  {
    assert FILES == "-f compose.yaml " + "-f override.yaml ";
    assert ["-f", "compose.yaml"] + ["-f", "override.yaml"] == FILE_WORDS;
    hide *;
    ComposeFile();
    OverrideFile();
    Spaced2("-f", "compose.yaml");
    Spaced2("-f", "override.yaml");
    SpacedAppend(["-f", "compose.yaml"], ["-f", "override.yaml"]);
  }

  lemma ComposeFile()
    ensures "-f compose.yaml " == "-f" + " " + "compose.yaml" + " "
  {
  }

  lemma OverrideFile()
    ensures "-f override.yaml " == "-f" + " " + "override.yaml" + " "
  {
  }

  lemma ComposeWords()
    ensures Arguments(COMPOSE_WORDS) && Arguments(FILE_WORDS) && Arguments(P_WORDS)
    ensures PROJECT != "" && AllPlain(PROJECT)
  {
    assert Argument("docker") && Argument("compose") && Argument("-p");
    assert Argument("-f") && Argument("compose.yaml") && Argument("override.yaml");
  }

  lemma UpText()
    ensures UP == " " + Spaced(UP_WORDS) + WAIT
    ensures Arguments(UP_WORDS) && WAIT != "" && AllPlain(WAIT)
  {
    Spaced2("up", "-d");
    assert UP == " " + ("up" + " " + "-d" + " ") + "--wait";
    assert Argument("up") && Argument("-d");
  }

  lemma ExecText()
    ensures EXEC_SESSION == " " + Spaced(EXEC_WORDS) + SESSION_VAR
  {
    Spaced3("exec", "-T", "-e");
    assert " exec -T -e " == " " + ("exec" + " " + "-T" + " " + "-e" + " ");
  }

  lemma ExecWords()
    ensures Arguments(EXEC_WORDS) && SESSION_VAR != "" && AllPlain(SESSION_VAR)
  {
    assert Argument("exec") && Argument("-T") && Argument("-e");
  }

  lemma OptionTexts()
    ensures E_BUNDLE == " " + Spaced(E_WORDS) + BUNDLE_VAR
    ensures E_SCENARIOS == " " + Spaced(E_WORDS) + SCENARIOS_VAR
    ensures E_LAB_DIR == " " + Spaced(E_WORDS) + LAB_VAR
  {
    Spaced1("-e");
    assert " -e " == " " + ("-e" + " ");
  }

  lemma OptionWords()
    ensures BUNDLE_VAR != "" && AllPlain(BUNDLE_VAR) && SCENARIOS_VAR != "" && AllPlain(SCENARIOS_VAR)
    ensures Arguments(E_WORDS)
  {
    assert Argument("-e");
  }

  lemma LabWord()
    ensures LAB_VAR != "" && AllPlain(LAB_VAR)
  {
  }

  lemma HookText()
    ensures HOOK == " " + Spaced(HOOK_WORDS) + SCRIPT
  {
    Spaced2("vscode", "bash");
    assert " vscode bash " == " " + ("vscode" + " " + "bash" + " ");
  }

  lemma HookWords()
    ensures Arguments(HOOK_WORDS) && SCRIPT != "" && AllPlain(SCRIPT)
  {
    assert Argument("vscode") && Argument("bash");
  }

  /** The shape of SetupCmd, for any fixed texts around the three values. */
  lemma SetupShape(head: string, files: string, exec: string, eb: string, es: string, dir: string, hook: string,
                   hw: seq<string>, fw: seq<string>, xw: seq<string>, ew: seq<string>, kw: seq<string>,
                   fl: string, xl: string, bl: string, sl: string, dl: string, hl: string,
                   slug: string, bundle: string, scenarios: string)
    requires slug != "" && AllPlain(slug) && bundle != "" && AllPlain(bundle)
    requires scenarios != "" && AllPlain(scenarios)
    requires head == Spaced(hw) && files == Spaced(fw) + fl && exec == " " + Spaced(xw) + xl
    requires eb == " " + Spaced(ew) + bl && es == " " + Spaced(ew) + sl
    requires dir == " " + Spaced(ew) + dl && hook == " " + Spaced(kw) + hl
    requires Arguments(hw) && Arguments(fw) && Arguments(xw) && Arguments(ew) && Arguments(kw)
    requires fl != "" && xl != "" && bl != "" && sl != "" && dl != "" && hl != ""
    requires AllPlain(fl) && AllPlain(xl) && AllPlain(bl) && AllPlain(sl) && AllPlain(dl) && AllPlain(hl)
    ensures Tokens(head + files + slug + exec + slug + eb + bundle + es + scenarios + dir + hook)
         == Some(TokensOf(hw + fw + [fl + slug] + xw + [xl + slug] + ew + [bl + bundle] + ew
                          + [sl + scenarios] + ew + [dl] + kw + [hl]))
  {
    PlainIsNotAnd(fl, slug);
    hide *;
    var s2 := head + files + slug;
    var s3 := s2 + exec + slug;
    var s4 := s3 + eb + bundle;
    var s5 := s4 + es + scenarios;
    var w1 := hw + fw;
    var w3 := w1 + [fl + slug] + xw;
    var w4 := w3 + [xl + slug] + ew;
    var w5 := w4 + [bl + bundle] + ew;
    RunHead(head, files, hw, fw, fl, slug);
    RunOption(s2, w1, fl + slug, exec, xw, xl, slug);
    RunOption(s3, w3, xl + slug, eb, ew, bl, bundle);
    RunOption(s4, w4, bl + bundle, es, ew, sl, scenarios);
    RunTail(s5, w5, sl + scenarios, dir, ew, dl);
    RunTail(s5 + dir, w5 + [sl + scenarios] + ew, dl, hook, kw, hl);
  }

  lemma SetupParse(slug: string, bundle: string, scenarios: string)
    requires slug != "" && AllPlain(slug) && bundle != "" && AllPlain(bundle)
    requires scenarios != "" && AllPlain(scenarios)
    ensures Parse(SetupCmd(slug, bundle, scenarios))
         == Some([Command([], ["cd", "/opt/interview/docker"]),
                  Command([], ["docker"] + LocalSetupArgs(slug, bundle, scenarios))])
  {
    hide Run, Tokens, AndList, TokensOf, LocalSetupArgs, SetupCmd, AllPlain, Runs;
    SetupTokens(slug, bundle, scenarios);
    SetupArgsRun(slug, bundle, scenarios);
    CdThenRun(["docker"] + LocalSetupArgs(slug, bundle, scenarios));
  }

  /** A shell reads SetupCmd as a `cd` followed by exactly the docker run that
      a local session makes. */
  lemma SetupCmdMatchesLocalRun(slug: string, bundle: string, names: seq<string>)
    requires IsDirName(slug) && IsDirName(bundle)
    requires names != [] && forall i :: 0 <= i < |names| ==> IsDirName(names[i])
    ensures var scenarios := Join(names, ",");
      Parse(SetupCmd(slug, bundle, scenarios))
        == Some([Command([], ["cd", "/opt/interview/docker"]),
                 Command([], ["docker"] + LocalSetupArgs(slug, bundle, scenarios))])
    ensures LocalSetupArgs(slug, bundle, Join(names, ","))
         == ["compose", "-f", "compose.yaml", "-f", "override.yaml", "-p", "interview-" + slug, "exec", "-T",
             "-e", "INTERVIEW_SESSION_ID=" + slug, "-e", "INTERVIEW_BUNDLE=" + bundle,
             "-e", "INTERVIEW_SCENARIOS=" + Join(names, ","), "-e", "INTERVIEW_LAB_DIR=/opt/interview/lab",
             "vscode", "bash", "/opt/interview/lab/setup.sh"]
  {
    SetupCall(slug, bundle, Join(names, ","));
    hide *;
    DirNameIsPlain(slug);
    DirNameIsPlain(bundle);
    ScenarioList(names);
    SetupParse(slug, bundle, Join(names, ","));
  }

  lemma SetupCall(slug: string, bundle: string, scenarios: string)
    ensures LocalSetupArgs(slug, bundle, scenarios)
         == ["compose", "-f", "compose.yaml", "-f", "override.yaml", "-p", "interview-" + slug, "exec", "-T",
             "-e", "INTERVIEW_SESSION_ID=" + slug, "-e", "INTERVIEW_BUNDLE=" + bundle,
             "-e", "INTERVIEW_SCENARIOS=" + scenarios, "-e", "INTERVIEW_LAB_DIR=/opt/interview/lab",
             "vscode", "bash", "/opt/interview/lab/setup.sh"]
  {
  }

  lemma SetupArgsRun(slug: string, bundle: string, scenarios: string)
    ensures Runs(["docker"] + LocalSetupArgs(slug, bundle, scenarios))
  {
    assert forall x, y: string :: |x| > 2 ==> x + y != "&&";
  }

  lemma SetupHead() returns (hw: seq<string>)
    ensures hw == CD_WORDS + COMPOSE_WORDS + FILE_WORDS && Arguments(hw)
    ensures CD + COMPOSE + FILES == Spaced(hw)
  {
    CdText(); CdWords(); ComposeTexts(); ComposeWords(); FilesText();
    hide Spaced, Arguments, CD, COMPOSE, FILES, CD_WORDS, COMPOSE_WORDS, FILE_WORDS;
    hw := CD_WORDS + COMPOSE_WORDS + FILE_WORDS;
    SpacedAppend(CD_WORDS, COMPOSE_WORDS);
    SpacedAppend(CD_WORDS + COMPOSE_WORDS, FILE_WORDS);
    ArgumentsAppend(CD_WORDS, COMPOSE_WORDS);
    ArgumentsAppend(CD_WORDS + COMPOSE_WORDS, FILE_WORDS);
  }

  lemma SetupTokens(slug: string, bundle: string, scenarios: string)
    requires slug != "" && AllPlain(slug) && bundle != "" && AllPlain(bundle)
    requires scenarios != "" && AllPlain(scenarios)
    ensures Tokens(SetupCmd(slug, bundle, scenarios))
         == Some(TokensOf(CD_WORDS + (["docker"] + LocalSetupArgs(slug, bundle, scenarios))))
  {
    SetupWords(slug, bundle, scenarios);
    var hw := SetupHead();
    ComposeTexts(); ComposeWords();
    ExecText(); ExecWords();
    OptionTexts(); OptionWords(); LabWord();
    HookText(); HookWords();
    hide Run, Tokens, TokensOf, Spaced, AllPlain, Arguments, LocalSetupArgs, CD, COMPOSE, FILES, P_PROJECT,
      EXEC_SESSION, E_BUNDLE, E_SCENARIOS, E_LAB_DIR, HOOK, CD_WORDS, COMPOSE_WORDS, FILE_WORDS, P_WORDS,
      EXEC_WORDS, E_WORDS, HOOK_WORDS, PROJECT, SESSION_VAR, BUNDLE_VAR, SCENARIOS_VAR, LAB_VAR, SCRIPT;
    SetupShape(CD + COMPOSE + FILES, P_PROJECT, EXEC_SESSION, E_BUNDLE, E_SCENARIOS, E_LAB_DIR, HOOK,
               hw, P_WORDS, EXEC_WORDS, E_WORDS, HOOK_WORDS,
               PROJECT, SESSION_VAR, BUNDLE_VAR, SCENARIOS_VAR, LAB_VAR, SCRIPT,
               slug, bundle, scenarios);
  }

  lemma SetupWords(slug: string, bundle: string, scenarios: string)
    ensures CD_WORDS + COMPOSE_WORDS + FILE_WORDS + P_WORDS + [PROJECT + slug] + EXEC_WORDS
            + [SESSION_VAR + slug] + E_WORDS + [BUNDLE_VAR + bundle] + E_WORDS + [SCENARIOS_VAR + scenarios]
            + E_WORDS + [LAB_VAR] + HOOK_WORDS + [SCRIPT]
         == CD_WORDS + (["docker"] + LocalSetupArgs(slug, bundle, scenarios))
  {
    hide *;
    SetupArgsAre(slug, bundle, scenarios);
    var a := COMPOSE_WORDS + FILE_WORDS + P_WORDS + [PROJECT + slug] + EXEC_WORDS;
    var b := [SESSION_VAR + slug] + E_WORDS + [BUNDLE_VAR + bundle] + E_WORDS + [SCENARIOS_VAR + scenarios];
    FiveMore(CD_WORDS, COMPOSE_WORDS, FILE_WORDS, P_WORDS, [PROJECT + slug], EXEC_WORDS);
    FiveMore(CD_WORDS + a, [SESSION_VAR + slug], E_WORDS, [BUNDLE_VAR + bundle], E_WORDS, [SCENARIOS_VAR + scenarios]);
    FiveMore(CD_WORDS + a + b, E_WORDS, [LAB_VAR], HOOK_WORDS, [SCRIPT], []);
    FiveMore(CD_WORDS, a, b, E_WORDS + [LAB_VAR] + HOOK_WORDS + [SCRIPT], [], []);
  }

  lemma FiveMore(z: seq<string>, a: seq<string>, b: seq<string>, c: seq<string>, d: seq<string>, e: seq<string>)
    ensures z + a + b + c + d + e == z + (a + b + c + d + e)
    ensures z + a + b + c + d == z + (a + b + c + d)
    ensures z + a + b + c == z + (a + b + c)
  {
  }

  /** The local arguments, in the groups the remote text has them in. */
  lemma SetupArgsAre(slug: string, bundle: string, scenarios: string)
    ensures ["docker"] + LocalSetupArgs(slug, bundle, scenarios)
         == COMPOSE_WORDS + FILE_WORDS + P_WORDS + [PROJECT + slug] + EXEC_WORDS
            + ([SESSION_VAR + slug] + E_WORDS + [BUNDLE_VAR + bundle] + E_WORDS + [SCENARIOS_VAR + scenarios])
            + (E_WORDS + [LAB_VAR] + HOOK_WORDS + [SCRIPT])
  {
  }

  /** `cd <dir> &&` and any plain command. */
  lemma CdThenRun(argv: seq<string>)
    requires Runs(argv)
    ensures AndList([], NOTHING, TokensOf(CD_WORDS + argv))
         == Some([Command([], ["cd", "/opt/interview/docker"]), Command([], argv)])
  {
    var cd := ["cd", "/opt/interview/docker"];
    assert CD_WORDS + argv == cd + ["&&"] + argv;
    hide AndList, TokensOf;
    FirstCommand([], cd, argv);
    assert [] + [Command([], cd)] == [Command([], cd)];
    LastCommand([Command([], cd)], argv);
    assert [Command([], cd)] + [Command([], argv)] == [Command([], cd), Command([], argv)];
  }

  // ------------------------------------------------------------ compose up

  function UpLead(withOverride: bool): seq<string> {
    CD_WORDS + EXPORT_WORDS + SOURCE_WORDS + UNEXPORT_WORDS + COMPOSE_WORDS
    + (if withOverride then FILE_WORDS else [])
  }

  lemma UpHead(withOverride: bool)
    ensures Arguments(UpLead(withOverride))
    ensures CD + EXPORT + SOURCE + UNEXPORT + COMPOSE + (if withOverride then FILES else "")
         == Spaced(UpLead(withOverride))
  {
    CdText(); SourceTexts(); ComposeTexts(); FilesText();
    CdWords(); SourceWords(); ComposeWords();
    assert Spaced([]) == "" && Arguments([]);
    hide Spaced, Arguments, CD, EXPORT, SOURCE, UNEXPORT, COMPOSE, FILES,
      CD_WORDS, EXPORT_WORDS, SOURCE_WORDS, UNEXPORT_WORDS, COMPOSE_WORDS, FILE_WORDS;
    var w2 := CD_WORDS + EXPORT_WORDS;
    var w3 := w2 + SOURCE_WORDS;
    var w4 := w3 + UNEXPORT_WORDS;
    var fw := if withOverride then FILE_WORDS else [];
    SpacedAppend(CD_WORDS, EXPORT_WORDS);
    SpacedAppend(w2, SOURCE_WORDS);
    SpacedAppend(w3, UNEXPORT_WORDS);
    SpacedAppend(w4, COMPOSE_WORDS);
    SpacedAppend(w4 + COMPOSE_WORDS, fw);
    ArgumentsAppend(CD_WORDS, EXPORT_WORDS);
    ArgumentsAppend(w2, SOURCE_WORDS);
    ArgumentsAppend(w3, UNEXPORT_WORDS);
    ArgumentsAppend(w4, COMPOSE_WORDS);
    ArgumentsAppend(w4 + COMPOSE_WORDS, fw);
  }

  lemma UpTokens(slug: string, withOverride: bool)
    requires slug != "" && AllPlain(slug)
    ensures Tokens(ComposeUpCmd(slug, withOverride))
         == Some(TokensOf(UpLead(withOverride) + P_WORDS + [PROJECT + slug] + UP_WORDS + [WAIT]))
  {
    UpHead(withOverride);
    ComposeTexts(); ComposeWords(); UpText();
    PlainIsNotAnd(PROJECT, slug);
    hide Run, Tokens, TokensOf, Spaced, AllPlain, Arguments, UpLead, CD, EXPORT, SOURCE, UNEXPORT, COMPOSE,
      FILES, P_PROJECT, UP, P_WORDS, UP_WORDS, WAIT, PROJECT;
    var head := CD + EXPORT + SOURCE + UNEXPORT + COMPOSE + (if withOverride then FILES else "");
    var hw := UpLead(withOverride);
    RunHead(head, P_PROJECT, hw, P_WORDS, PROJECT, slug);
    RunTail(head + P_PROJECT + slug, hw + P_WORDS, PROJECT + slug, UP, UP_WORDS, WAIT);
  }

  lemma UpWords(slug: string, withOverride: bool)
    ensures UpLead(withOverride) + P_WORDS + [PROJECT + slug] + UP_WORDS + [WAIT]
         == ["cd", "/opt/interview/docker"] + ["&&"] + (["set", "-a"] + ["&&"]
              + ([".", "/dev/stdin"] + ["&&"] + (["set", "+a"] + ["&&"]
              + (["docker"] + LocalUpArgs(slug, withOverride)))))
  {
  }

  lemma FiveCommands(a: seq<string>, b: seq<string>, c: seq<string>, d: seq<string>, e: seq<string>)
    requires Runs(a) && Runs(b) && Runs(c) && Runs(d) && Runs(e)
    ensures AndList([], NOTHING, TokensOf(a + ["&&"] + (b + ["&&"] + (c + ["&&"] + (d + ["&&"] + e)))))
         == Some([Command([], a), Command([], b), Command([], c), Command([], d), Command([], e)])
  {
    hide AndList, TokensOf, Runs;
    var ca, cb, cc, cd := Command([], a), Command([], b), Command([], c), Command([], d);
    FirstCommand([], a, b + ["&&"] + (c + ["&&"] + (d + ["&&"] + e)));
    assert [] + [ca] == [ca];
    FirstCommand([ca], b, c + ["&&"] + (d + ["&&"] + e));
    assert [ca] + [cb] == [ca, cb];
    FirstCommand([ca, cb], c, d + ["&&"] + e);
    assert [ca, cb] + [cc] == [ca, cb, cc];
    FirstCommand([ca, cb, cc], d, e);
    assert [ca, cb, cc] + [cd] == [ca, cb, cc, cd];
    LastCommand([ca, cb, cc, cd], e);
    assert [ca, cb, cc, cd] + [Command([], e)] == [ca, cb, cc, cd, Command([], e)];
  }

  lemma UpCall(slug: string, withOverride: bool)
    ensures LocalUpArgs(slug, withOverride)
         == ["compose"] + (if withOverride then ["-f", "compose.yaml", "-f", "override.yaml"] else [])
            + ["-p", "interview-" + slug, "up", "-d", "--wait"]
  {
  }

  lemma UpArgsRun(slug: string, withOverride: bool)
    ensures Runs(["docker"] + LocalUpArgs(slug, withOverride))
  {
    assert forall x, y: string :: |x| > 2 ==> x + y != "&&";
  }

  /** A shell reads ComposeUpCmd as entering the stack directory, exporting what
      stdin assigns, and exactly the docker run that a local session makes. */
  lemma ComposeUpCmdMatchesLocalRun(slug: string, withOverride: bool)
    requires IsDirName(slug)
    ensures Parse(ComposeUpCmd(slug, withOverride))
         == Some([Command([], ["cd", "/opt/interview/docker"]),
                  Command([], ["set", "-a"]),
                  Command([], [".", "/dev/stdin"]),
                  Command([], ["set", "+a"]),
                  Command([], ["docker"] + LocalUpArgs(slug, withOverride))])
    ensures LocalUpArgs(slug, withOverride)
         == ["compose"] + (if withOverride then ["-f", "compose.yaml", "-f", "override.yaml"] else [])
            + ["-p", "interview-" + slug, "up", "-d", "--wait"]
  {
    UpCall(slug, withOverride);
    assert Runs(["cd", "/opt/interview/docker"]) && Runs(["set", "-a"]);
    assert Runs([".", "/dev/stdin"]) && Runs(["set", "+a"]);
    UpArgsRun(slug, withOverride);
    UpWords(slug, withOverride);
    hide Run, Tokens, AndList, TokensOf, LocalUpArgs, ComposeUpCmd, AllPlain, Runs, IsDirName, UpLead,
      P_WORDS, UP_WORDS, WAIT, PROJECT;
    DirNameIsPlain(slug);
    UpTokens(slug, withOverride);
    FiveCommands(["cd", "/opt/interview/docker"], ["set", "-a"], [".", "/dev/stdin"], ["set", "+a"],
                 ["docker"] + LocalUpArgs(slug, withOverride));
  }

  // -------------------------------------------------------------- the pull

  /** A bare name, `='`, a value without quotes, `'` and a blank. */
  lemma RunInlineValue(st: State, name: string, value: string)
    requires st.Reading? && st.mode == Bare && st.word.None?
    requires AllPlain(name) && '\'' !in value
    ensures Run(st, name + "='" + value + "' ")
         == st.(tokens := st.tokens + [Word(Pieces(name + "=", false) + Pieces(value, true))])
  {
    hide Run, AllPlain;
    RunAppend(st, name + "='" + value, "' ");
    RunAppend(st, name + "='", value);
    RunOpenQuote(st, name);
    RunQuoted(Run(st, name + "='"), value);
    RunCloseQuote(Run(st, name + "='" + value), ' ');
    assert "' " == ['\'', ' '];
    assert st.tokens + [Word(Pieces(name + "=", false) + Pieces(value, true))] + []
        == st.tokens + [Word(Pieces(name + "=", false) + Pieces(value, true))];
  }

  const GATEWAY := "GATEWAY_IMAGE"
  const VSCODE := "VSCODE_IMAGE"

  lemma PullNames()
    ensures IsName(GATEWAY) && AllPlain(GATEWAY) && IsName(VSCODE) && AllPlain(VSCODE)
  {
  }

  lemma PullText(g: string, v: string)
    ensures PullCmd(g, v)
         == CD + (GATEWAY + "='" + g + "' ") + (VSCODE + "='" + v + "' ") + ("docker compose " + "pull")
  {
    assert "GATEWAY_IMAGE='" == GATEWAY + "='" && "VSCODE_IMAGE='" == VSCODE + "='";
    assert "docker compose pull" == "docker compose " + "pull";
    var a, b, c := CD + "GATEWAY_IMAGE='" + g + "' ", GATEWAY + "='" + g + "' ", VSCODE + "='" + v + "' ";
    assert a == CD + b;
    assert a + "VSCODE_IMAGE='" + v + "' " == a + c;
  }

  lemma PullTokens(g: string, v: string)
    requires '\'' !in g && '\'' !in v
    ensures Tokens(PullCmd(g, v))
         == Some(TokensOf(["cd", "/opt/interview/docker", "&&"])
                 + [Word(Pieces(GATEWAY + "=", false) + Pieces(g, true))]
                 + [Word(Pieces(VSCODE + "=", false) + Pieces(v, true))]
                 + TokensOf(["docker", "compose", "pull"]))
  {
    assert CD_WORDS == ["cd", "/opt/interview/docker", "&&"];
    assert COMPOSE_WORDS + ["pull"] == ["docker", "compose", "pull"];
    hide Run, AllPlain, Spaced, PullCmd, CD, IsName, GATEWAY, VSCODE, TokensOf, CD_WORDS, COMPOSE_WORDS, Argument,
      Arguments;
    CdText(); CdWords(); PullNames(); PullText(g, v);
    var x, y, z := GATEWAY + "='" + g + "' ", VSCODE + "='" + v + "' ", "docker compose " + "pull";
    RunAppend(START, CD + x + y, z);
    RunAppend(START, CD + x, y);
    RunAppend(START, CD, x);
    RunSpaced(START, CD_WORDS);
    var t0 := TokensOf(CD_WORDS);
    assert [] + t0 == t0;
    var st0 := Reading(t0, None, Bare);
    RunInlineValue(st0, GATEWAY, g);
    var st1 := Run(st0, x);
    RunInlineValue(st1, VSCODE, v);
    var st2 := Run(st1, y);
    RunCompose(st2);
    assert Tokens(PullCmd(g, v)) == Some(st2.tokens + TokensOf(COMPOSE_WORDS + ["pull"]));
  }

  lemma RunCompose(st: State)
    requires st.Reading? && st.mode == Bare && st.word.None?
    ensures Run(st, "docker compose " + "pull")
         == Reading(st.tokens + TokensOf(COMPOSE_WORDS), Some(Pieces("pull", false)), Bare)
    ensures Flush(Run(st, "docker compose " + "pull")).tokens == st.tokens + TokensOf(COMPOSE_WORDS + ["pull"])
  {
    ComposeTexts(); ComposeWords();
    assert AllPlain("pull");
    hide Run, AllPlain, Spaced, TokensOf;
    RunAppend(st, "docker compose ", "pull");
    RunSpaced(st, COMPOSE_WORDS);
    RunPlain(Run(st, "docker compose "), "pull");
    assert [] + Pieces("pull", false) == Pieces("pull", false);
    TokensOfWord(COMPOSE_WORDS, "pull");
    assert st.tokens + TokensOf(COMPOSE_WORDS) + [BareWord("pull")]
        == st.tokens + (TokensOf(COMPOSE_WORDS) + [BareWord("pull")]);
  }

  /** PullCmd hands both image references over verbatim, for any references
      without a single quote; validated ones have none. */
  lemma PullCmdAssignsImages(g: string, v: string)
    requires '\'' !in g && '\'' !in v
    ensures Parse(PullCmd(g, v))
         == Some([Command([], ["cd", "/opt/interview/docker"]),
                  Command([("GATEWAY_IMAGE", g), ("VSCODE_IMAGE", v)], ["docker", "compose", "pull"])])
  {
    var wg := Pieces(GATEWAY + "=", false) + Pieces(g, true);
    var wv := Pieces(VSCODE + "=", false) + Pieces(v, true);
    var cd, argv := ["cd", "/opt/interview/docker"], ["docker", "compose", "pull"];
    PullTokens(g, v);
    PullNames();
    ReadAssignment(GATEWAY, g);
    ReadAssignment(VSCODE, v);
    assert Runs(cd) && Runs(argv);
    PullCommands(cd, wg, wv, argv, (GATEWAY, g), (VSCODE, v));
    assert cd + ["&&"] == ["cd", "/opt/interview/docker", "&&"];
  }

  /** Two leading assignments and the arguments they are set for. */
  lemma TwoAssignments(done: seq<Command>, wg: Word, wv: Word, argv: seq<string>,
                       ag: (string, string), av: (string, string))
    requires Runs(argv) && AsAssignment(wg) == Some(ag) && AsAssignment(wv) == Some(av)
    ensures AndList(done, NOTHING, [Word(wg)] + ([Word(wv)] + TokensOf(argv)))
         == Some(done + [Command([ag, av], argv)])
  {
    var one, both := Command([ag], []), Command([ag, av], []);
    assert Extend(NOTHING, wg) == one && Extend(one, wv) == both;
    hide AndList, Extend, AsAssignment, TokensOf;
    AndListStep(done, NOTHING, Word(wg), [Word(wv)] + TokensOf(argv));
    AndListStep(done, one, Word(wv), TokensOf(argv));
    AndListArguments(done, both, argv, []);
    assert [] + argv == argv && TokensOf(argv) + [] == TokensOf(argv);
    AndListStep(done, both.(argv := argv), AndIf, []);
  }

  /** A command without assignments, then a token list that goes on. */
  lemma CommandThen(argv: seq<string>, rest: seq<Token>)
    requires Runs(argv)
    ensures AndList([], NOTHING, TokensOf(argv + ["&&"]) + rest) == AndList([Command([], argv)], NOTHING, rest)
  {
    assert TokenOf("&&") == AndIf;
    assert TokensOf(argv + ["&&"]) == TokensOf(argv) + [AndIf];
    hide AndList, TokensOf;
    assert TokensOf(argv) + [AndIf] + rest == TokensOf(argv) + ([AndIf] + rest);
    AndListArguments([], NOTHING, argv, [AndIf] + rest);
    assert [] + argv == argv;
    AndListStep([], Command([], argv), AndIf, rest);
    assert [] + [Command([], argv)] == [Command([], argv)];
  }

  lemma PullCommands(cd: seq<string>, wg: Word, wv: Word, argv: seq<string>,
                     ag: (string, string), av: (string, string))
    requires Runs(cd) && Runs(argv) && AsAssignment(wg) == Some(ag) && AsAssignment(wv) == Some(av)
    ensures AndList([], NOTHING, TokensOf(cd + ["&&"]) + [Word(wg)] + [Word(wv)] + TokensOf(argv))
         == Some([Command([], cd), Command([ag, av], argv)])
  {
    hide *;
    var t := [Word(wg)] + ([Word(wv)] + TokensOf(argv));
    assert TokensOf(cd + ["&&"]) + [Word(wg)] + [Word(wv)] + TokensOf(argv) == TokensOf(cd + ["&&"]) + t;
    CommandThen(cd, t);
    TwoAssignments([Command([], cd)], wg, wv, argv, ag, av);
    assert [Command([], cd)] + [Command([ag, av], argv)] == [Command([], cd), Command([ag, av], argv)];
  }

  lemma ImageRefIsVerbatim(g: string, v: string)
    requires IsImageRef(g) && IsImageRef(v)
    ensures Parse(PullCmd(g, v))
         == Some([Command([], ["cd", "/opt/interview/docker"]),
                  Command([("GATEWAY_IMAGE", g), ("VSCODE_IMAGE", v)], ["docker", "compose", "pull"])])
  {
    assert '\'' !in g && '\'' !in v;
    PullCmdAssignsImages(g, v);
  }

  // ------------------------------------------------------ the environment

  /** Go's `strings.ReplaceAll(v, "'", `'\''`)`. */
  function EscapeQuotes(v: string): string {
    if v == "" then ""
    else EscapeQuotes(v[..|v| - 1]) + (if v[|v| - 1] == '\'' then "'\\''" else [v[|v| - 1]])
  }

  function EnvLine(key: string, value: string): string {
    key + "='" + EscapeQuotes(value) + "'\n"
  }

  function EnvLines(keys: seq<string>, vars: map<string, string>): string
    requires forall i :: 0 <= i < |keys| ==> keys[i] in vars
  {
    if keys == [] then ""
    else EnvLines(keys[..|keys| - 1], vars) + EnvLine(keys[|keys| - 1], vars[keys[|keys| - 1]])
  }

  /** The environment text: one line per variable, in key order. */
  ghost function EnvText(vars: map<string, string>): string {
    StringsTotal();
    EnvLines(Listing(StringLess, vars.Keys), vars)
  }

  lemma EnvLinesEmpty(vars: map<string, string>)
    ensures EnvLines([], vars) == ""
  {
  }

  lemma EnvLinesNext(keys: seq<string>, n: nat, vars: map<string, string>)
    requires n < |keys| && forall i :: 0 <= i < |keys| ==> keys[i] in vars
    ensures EnvLines(keys[..n + 1], vars) == EnvLines(keys[..n], vars) + EnvLine(keys[n], vars[keys[n]])
  {
    assert keys[..n + 1][..n] == keys[..n];
  }

  /** Collects the keys, sorts them and writes the lines; the text does not
      depend on the order of iteration. */
  method EnvBlob(vars: map<string, string>) returns (text: string)
    ensures text == EnvText(vars)
  {
    EnvLinesEmpty(vars);
    StringsTotal();
    hide Total, Sorted, StringLess, EnvLine, EnvLines;
    var keys := Elements(vars.Keys);
    keys := SortDistinct(StringLess, keys);
    ListingUnique(StringLess, vars.Keys, keys);
    text := "";
    for n := 0 to |keys|
      invariant forall i :: 0 <= i < |keys| ==> keys[i] in vars
      invariant text == EnvLines(keys[..n], vars)
    {
      text := text + EnvLine(keys[n], vars[keys[n]]);
      EnvLinesNext(keys, n, vars);
    }
    assert keys[..|keys|] == keys;
  }

  /** An escaped value read inside single quotes is the value, all of it quoted. */
  lemma {:induction false} RunEscaped(st: State, v: string)
    requires st.Reading? && st.mode == Quoted && st.word.Some?
    ensures Run(st, EscapeQuotes(v)) == st.(word := Some(st.word.value + Pieces(v, true)))
  {
    if v == "" {
      assert st.word.value + Pieces(v, true) == st.word.value;
    } else {
      var init, c := v[..|v| - 1], v[|v| - 1];
      RunEscaped(st, init);
      var st' := Run(st, EscapeQuotes(init));
      RunAppend(st, EscapeQuotes(init), if c == '\'' then "'\\''" else [c]);
      if c == '\'' {
        RunQuoteEscape(st');
      } else {
        RunChar(st', c);
      }
      assert st.word.value + Pieces(v, true)
          == st.word.value + Pieces(init, true) + [Piece(c, true)];
    }
  }

  lemma RunQuoteEscape(st: State)
    requires st.Reading? && st.mode == Quoted && st.word.Some?
    ensures Run(st, "'\\''") == st.(word := Some(st.word.value + [Piece('\'', true)]))
  {
    var s1, s2 := st.(mode := Bare), st.(mode := Escaped);
    var s3 := st.(word := Some(st.word.value + [Piece('\'', true)]), mode := Bare);
    assert Step(st, '\'') == s1 && Step(s1, '\\') == s2 && Step(s2, '\'') == s3;
    assert Step(s3, '\'') == s3.(mode := Quoted);
    RunChar(st, '\'');
    RunChar(s1, '\\');
    RunChar(s2, '\'');
    RunChar(s3, '\'');
    hide *;
    RunAppend(st, ['\''], ['\\']);
    RunAppend(st, ['\'', '\\'], ['\'']);
    RunAppend(st, ['\'', '\\', '\''], ['\'']);
    assert ['\''] + ['\\'] == ['\'', '\\'];
    assert ['\'', '\\'] + ['\''] == ['\'', '\\', '\''];
    assert ['\'', '\\', '\''] + ['\''] == "'\\''";
  }

  lemma NameIsPlain(key: string)
    requires IsName(key)
    ensures AllPlain(key)
  {
  }

  lemma RunEnvLine(st: State, key: string, value: string)
    requires st.Reading? && st.mode == Bare && st.word.None? && IsName(key)
    ensures Run(st, EnvLine(key, value))
         == st.(tokens := st.tokens + [Word(Pieces(key + "=", false) + Pieces(value, true)), Newline])
  {
    NameIsPlain(key);
    hide Run, IsName, AllPlain, EscapeQuotes;
    var e := EscapeQuotes(value);
    RunAppend(st, key + "='" + e, "'\n");
    RunAppend(st, key + "='", e);
    RunOpenQuote(st, key);
    RunEscaped(Run(st, key + "='"), value);
    RunCloseQuote(Run(st, key + "='" + e), '\n');
    assert "'\n" == ['\'', '\n'];
    assert st.tokens + [Word(Pieces(key + "=", false) + Pieces(value, true))] + [Newline]
        == st.tokens + [Word(Pieces(key + "=", false) + Pieces(value, true)), Newline];
  }

  // ---------------------------------------------- sourcing the environment

  /** The tokens of one line. */
  function LineTokens(key: string, value: string): seq<Token> {
    [Word(Pieces(key + "=", false) + Pieces(value, true)), Newline]
  }

  function LinesTokens(keys: seq<string>, vars: map<string, string>): seq<Token>
    requires forall i :: 0 <= i < |keys| ==> keys[i] in vars
  {
    if keys == [] then []
    else LinesTokens(keys[..|keys| - 1], vars) + LineTokens(keys[|keys| - 1], vars[keys[|keys| - 1]])
  }

  lemma {:induction false} RunEnvLines(keys: seq<string>, vars: map<string, string>)
    requires forall i :: 0 <= i < |keys| ==> keys[i] in vars && IsName(keys[i])
    ensures Run(START, EnvLines(keys, vars)) == Reading(LinesTokens(keys, vars), None, Bare)
  {
    hide EnvLine, IsName, LineTokens;
    if keys != [] {
      var init, k := keys[..|keys| - 1], keys[|keys| - 1];
      RunEnvLines(init, vars);
      RunAppend(START, EnvLines(init, vars), EnvLine(k, vars[k]));
      RunLine(LinesTokens(init, vars), k, vars[k]);
    }
  }

  lemma RunLine(ts: seq<Token>, key: string, value: string)
    requires IsName(key)
    ensures Run(Reading(ts, None, Bare), EnvLine(key, value))
         == Reading(ts + LineTokens(key, value), None, Bare)
  {
    hide Run, EnvLine, IsName;
    RunEnvLine(Reading(ts, None, Bare), key, value);
  }

  /** Sourcing a text and then another. */
  lemma {:induction false} AssignmentsAppend(a: seq<Token>, b: seq<Token>)
    requires Assignments(a).Some? && Assignments(b).Some?
    ensures Assignments(a + b) == Some(Assignments(a).value + Assignments(b).value)
    decreases |a|
  {
    hide AsAssignment, IsName;
    if a == [] {
      assert a + b == b;
      assert map[] + Assignments(b).value == Assignments(b).value;
    } else {
      assert (a + b)[1..] == a[1..] + b;
      AssignmentsAppend(a[1..], b);
      if a[0].Word? {
        var m := map[AsAssignment(a[0].word).value.0 := AsAssignment(a[0].word).value.1];
        InTurn(m, Assignments(a[1..]).value, Assignments(b).value);
      }
    }
  }

  lemma InTurn(a: map<string, string>, b: map<string, string>, c: map<string, string>)
    ensures a + (b + c) == a + b + c
  {
  }

  lemma LineAssigns(key: string, value: string)
    requires IsName(key)
    ensures Assignments(LineTokens(key, value)) == Some(map[key := value])
  {
    var w := Pieces(key + "=", false) + Pieces(value, true);
    ReadAssignment(key, value);
    hide IsName, Pieces, AsAssignment;
    assert [Word(w), Newline][1..] == [Newline];
    assert [Newline][1..] == [];
    assert map[key := value] + map[] == map[key := value];
  }

  /** The part of a map at the given keys. */
  function PartAt(vars: map<string, string>, keys: seq<string>): map<string, string> {
    map k | k in vars && k in keys :: vars[k]
  }

  lemma {:induction false} LinesAssign(keys: seq<string>, vars: map<string, string>)
    requires forall i :: 0 <= i < |keys| ==> keys[i] in vars && IsName(keys[i])
    ensures Assignments(LinesTokens(keys, vars)) == Some(PartAt(vars, keys))
  {
    hide Assignments, LineTokens, IsName;
    if keys == [] {
      NothingAssigned();
      assert PartAt(vars, keys) == map[];
    } else {
      var init, k := keys[..|keys| - 1], keys[|keys| - 1];
      LinesAssign(init, vars);
      LineAssigns(k, vars[k]);
      AssignmentsAppend(LinesTokens(init, vars), LineTokens(k, vars[k]));
      assert keys == init + [k];
      assert PartAt(vars, init) + map[k := vars[k]] == PartAt(vars, keys);
    }
  }

  lemma NothingAssigned()
    ensures Assignments([]) == Some(map[])
  {
  }

  /** Sourcing the environment text gives back exactly the variables it was
      made from, whatever the values hold, if and only if every key is a shell
      name. */
  lemma SourcedEnvIsTheMap(vars: map<string, string>)
    ensures Source(EnvText(vars)) == Some(vars) <==> forall k :: k in vars ==> IsName(k)
  {
    StringsTotal();
    var keys := Listing(StringLess, vars.Keys);
    if forall k :: k in vars ==> IsName(k) {
      assert forall i :: 0 <= i < |keys| ==> keys[i] in keys;
      RunEnvLines(keys, vars);
      LinesAssign(keys, vars);
      assert PartAt(vars, keys) == vars;
    }
  }

  /** Two different environments never print the same text. */
  lemma EnvTextIsInjective(a: map<string, string>, b: map<string, string>)
    requires EnvText(a) == EnvText(b)
    requires forall k :: k in a ==> IsName(k)
    requires forall k :: k in b ==> IsName(k)
    ensures a == b
  {
    SourcedEnvIsTheMap(a);
    SourcedEnvIsTheMap(b);
  }

  // ------------------------------------------------------- starting a stack

  /** What a VM's stack is started with; the key only when one was minted. */
  function UpEnv(password: string, gateway: string, vscode: string, aiKey: string): map<string, string> {
    map["GATEWAY_BIND" := "0.0.0.0:80", "GATEWAY_PASSWORD" := password, "GATEWAY_IMAGE" := gateway,
        "VSCODE_IMAGE" := vscode]
    + (if aiKey != "" then map["OPENROUTER_API_KEY" := aiKey] else map[])
  }

  lemma UpKeysAreNames()
    ensures IsName("GATEWAY_BIND") && IsName("GATEWAY_PASSWORD") && IsName("GATEWAY_IMAGE")
    ensures IsName("VSCODE_IMAGE") && IsName("OPENROUTER_API_KEY")
  {
  }

  /** The input and the command that start a VM's stack: whatever characters the
      password, the references and the key hold, the shell that sources the input
      has exactly that environment, and then runs the local engine's docker call. */
  method UpInput(slug: string, bundle: string, password: string, gateway: string, vscode: string, aiKey: string)
    returns (stdin: string, command: string)
    requires IsDirName(slug)
    ensures Source(stdin) == Some(
      map["GATEWAY_BIND" := "0.0.0.0:80", "GATEWAY_PASSWORD" := password, "GATEWAY_IMAGE" := gateway,
          "VSCODE_IMAGE" := vscode]
      + if aiKey != "" then map["OPENROUTER_API_KEY" := aiKey] else map[])
    ensures Source(stdin) == Some(UpEnv(password, gateway, vscode, aiKey))
    ensures Parse(command)
         == Some([Command([], ["cd", "/opt/interview/docker"]), Command([], ["set", "-a"]),
                  Command([], [".", "/dev/stdin"]), Command([], ["set", "+a"]),
                  Command([], ["docker"] + LocalUpArgs(slug, bundle != ""))])
    ensures LocalUpArgs(slug, bundle != "")
         == ["compose"] + (if bundle != "" then ["-f", "compose.yaml", "-f", "override.yaml"] else [])
            + ["-p", "interview-" + slug, "up", "-d", "--wait"]
  {
    hide Source, Parse, EnvText, ComposeUpCmd, IsName, IsDirName, LocalUpArgs;
    var env := map["GATEWAY_BIND" := "0.0.0.0:80", "GATEWAY_PASSWORD" := password, "GATEWAY_IMAGE" := gateway,
                   "VSCODE_IMAGE" := vscode];
    if aiKey != "" {
      env := env["OPENROUTER_API_KEY" := aiKey];
    }
    assert env == UpEnv(password, gateway, vscode, aiKey);
    stdin := EnvBlob(env);
    UpKeysAreNames();
    SourcedEnvIsTheMap(env);
    command := ComposeUpCmd(slug, bundle != "");
    ComposeUpCmdMatchesLocalRun(slug, bundle != "");
  }

  /** Reads a `NAME=value` entry of a process environment, cut at its first `=`. */
  function Entry(e: string): Option<(string, string)> {
    if e == "" then None
    else if e[0] == '=' then Some(("", e[1..]))
    else
      match Entry(e[1..])
      case None => None
      case Some(rest) => Some(([e[0]] + rest.0, rest.1))
  }

  lemma {:induction false} ReadEntry(name: string, value: string)
    requires '=' !in name
    ensures Entry(name + "=" + value) == Some((name, value))
  {
    var e := name + "=" + value;
    if name == "" {
      assert e[1..] == value;
    } else {
      ReadEntry(name[1..], value);
      assert e[1..] == name[1..] + "=" + value;
      assert [name[0]] + name[1..] == name;
    }
  }

  /** The variables a list of entries gives a process; a later entry wins. */
  function Environment(entries: seq<string>): map<string, string> {
    if entries == [] then map[]
    else
      var n := |entries| - 1;
      match Entry(entries[n])
      case None => Environment(entries[..n])
      case Some(e) => Environment(entries[..n])[e.0 := e.1]
  }

  lemma OneEntry(before: seq<string>, name: string, value: string)
    requires '=' !in name
    ensures Environment(before + [name + "=" + value]) == Environment(before)[name := value]
  {
    ReadEntry(name, value);
    assert (before + [name + "=" + value])[..|before|] == before;
  }

  /** The entries a local start appends to the host's. */
  function LocalEntries(gateway: string, vscode: string, aiKey: string): seq<string> {
    ["GATEWAY_PASSWORD" + "=" + LocalStack.PASSWORD, "GATEWAY_IMAGE" + "=" + gateway, "VSCODE_IMAGE" + "=" + vscode]
    + (if aiKey != "" then ["OPENROUTER_API_KEY" + "=" + aiKey] else [])
  }

  lemma ThreeEntries(host: seq<string>, gateway: string, vscode: string)
    ensures Environment(host + LocalEntries(gateway, vscode, ""))
         == Environment(host)["GATEWAY_PASSWORD" := LocalStack.PASSWORD]["GATEWAY_IMAGE" := gateway]["VSCODE_IMAGE" := vscode]
  {
    var p, g, v := "GATEWAY_PASSWORD" + "=" + LocalStack.PASSWORD, "GATEWAY_IMAGE" + "=" + gateway, "VSCODE_IMAGE" + "=" + vscode;
    assert host + LocalEntries(gateway, vscode, "") == host + [p] + [g] + [v];
    hide *;
    OneEntry(host, "GATEWAY_PASSWORD", LocalStack.PASSWORD);
    OneEntry(host + [p], "GATEWAY_IMAGE", gateway);
    OneEntry(host + [p] + [g], "VSCODE_IMAGE", vscode);
  }

  lemma LocalEntriesAre(host: seq<string>, gateway: string, vscode: string, aiKey: string)
    ensures host + LocalEntries(gateway, vscode, aiKey)
         == host + LocalEntries(gateway, vscode, "")
            + (if aiKey != "" then ["OPENROUTER_API_KEY" + "=" + aiKey] else [])
  {
  }

  /** What a local start sets. */
  lemma UpEnvWithoutBind(gateway: string, vscode: string, aiKey: string)
    ensures UpEnv(LocalStack.PASSWORD, gateway, vscode, aiKey) - {"GATEWAY_BIND"}
         == map["GATEWAY_PASSWORD" := LocalStack.PASSWORD, "GATEWAY_IMAGE" := gateway, "VSCODE_IMAGE" := vscode]
            + (if aiKey != "" then map["OPENROUTER_API_KEY" := aiKey] else map[])
  {
  }

  /** Appended to whatever the host has set, the entries give docker the variables
      of a VM's stack with the fixed local password, and no address to bind to. */
  lemma LocalEnvironment(host: seq<string>, gateway: string, vscode: string, aiKey: string)
    ensures Environment(host + LocalEntries(gateway, vscode, aiKey))
         == Environment(host) + (UpEnv(LocalStack.PASSWORD, gateway, vscode, aiKey) - {"GATEWAY_BIND"})
  {
    hide *;
    UpEnvWithoutBind(gateway, vscode, aiKey);
    ThreeEntries(host, gateway, vscode);
    LocalEntriesAre(host, gateway, vscode, aiKey);
    var three := host + LocalEntries(gateway, vscode, "");
    KeyEntry(three, aiKey);
    SetInTurn(Environment(host), "GATEWAY_PASSWORD", LocalStack.PASSWORD, "GATEWAY_IMAGE", gateway, "VSCODE_IMAGE", vscode,
              if aiKey != "" then map["OPENROUTER_API_KEY" := aiKey] else map[]);
  }

  lemma KeyEntry(before: seq<string>, aiKey: string)
    ensures Environment(before + (if aiKey != "" then ["OPENROUTER_API_KEY" + "=" + aiKey] else []))
         == Environment(before) + (if aiKey != "" then map["OPENROUTER_API_KEY" := aiKey] else map[])
  {
    if aiKey != "" {
      OneEntry(before, "OPENROUTER_API_KEY", aiKey);
    } else {
      assert before + [] == before;
    }
  }

  lemma SetInTurn(env: map<string, string>, a: string, x: string, b: string, y: string, c: string, z: string,
                  more: map<string, string>)
    ensures env[a := x][b := y][c := z] + more == env + (map[a := x, b := y, c := z] + more)
  {
  }

  /** The variables and arguments of a local start.  Beside what the host sets itself,
      docker sees what a VM's stack is started with, save the address to bind to; and
      it is called as the last command of the remote text calls it. */
  method LocalUp(slug: string, bundle: string, gateway: string, vscode: string, aiKey: string)
    returns (env: seq<string>, args: seq<string>)
    ensures forall host ::
      Environment(host + env) == Environment(host) + (UpEnv("openbuzz", gateway, vscode, aiKey) - {"GATEWAY_BIND"})
    ensures UpEnv("openbuzz", gateway, vscode, aiKey) - {"GATEWAY_BIND"}
         == map["GATEWAY_PASSWORD" := "openbuzz", "GATEWAY_IMAGE" := gateway, "VSCODE_IMAGE" := vscode]
            + if aiKey != "" then map["OPENROUTER_API_KEY" := aiKey] else map[]
    ensures args == ["compose"] + (if bundle != "" then ["-f", "compose.yaml", "-f", "override.yaml"] else [])
                    + ["-p", "interview-" + slug, "up", "-d", "--wait"]
    ensures IsDirName(slug) ==>
      var commands := Parse(ComposeUpCmd(slug, bundle != ""));
      commands.Some? && |commands.value| == 5 && commands.value[4] == Command([], ["docker"] + args)
  {
    env := ["GATEWAY_PASSWORD" + "=" + LocalStack.PASSWORD, "GATEWAY_IMAGE" + "=" + gateway, "VSCODE_IMAGE" + "=" + vscode];
    if aiKey != "" {
      env := env + ["OPENROUTER_API_KEY" + "=" + aiKey];
    }
    args := ["compose"];
    if bundle != "" {
      args := args + ["-f", "compose.yaml", "-f", "override.yaml"];
    }
    args := args + ["-p", "interview-" + slug, "up", "-d", "--wait"];
    LocalCall(slug, bundle, args);
    UpEnvWithoutBind(gateway, vscode, aiKey);
    assert env == LocalEntries(gateway, vscode, aiKey);
    assert LocalStack.PASSWORD == "openbuzz";
    hide *;
    forall host
      ensures Environment(host + env) == Environment(host) + (UpEnv(LocalStack.PASSWORD, gateway, vscode, aiKey) - {"GATEWAY_BIND"})
    {
      LocalEnvironment(host, gateway, vscode, aiKey);
    }
  }

  lemma LocalCall(slug: string, bundle: string, args: seq<string>)
    requires args == LocalUpArgs(slug, bundle != "")
    ensures IsDirName(slug) ==>
      var commands := Parse(ComposeUpCmd(slug, bundle != ""));
      commands.Some? && |commands.value| == 5 && commands.value[4] == Command([], ["docker"] + args)
  {
    hide *;
    if IsDirName(slug) {
      ComposeUpCmdMatchesLocalRun(slug, bundle != "");
    }
  }

  function NamesOf(b: Bundles.Bundle): seq<string> {
    seq(|b.scenarios|, k requires 0 <= k < |b.scenarios| => b.scenarios[k].name)
  }

  /** Joins a bundle's scenario names for the hook; the hook gets them back, in
      order, by splitting on commas. */
  method ScenarioCsv(b: Bundles.Bundle) returns (csv: string)
    ensures csv == Join(NamesOf(b), ",")
    ensures b.scenarios != [] && (forall k :: 0 <= k < |b.scenarios| ==> IsDirName(b.scenarios[k].name)) ==>
      Split(csv, ',') == NamesOf(b)
  {
    var names := [];
    for k := 0 to |b.scenarios|
      invariant names == NamesOf(b)[..k]
    {
      names := names + [b.scenarios[k].name];
    }
    assert NamesOf(b)[..|b.scenarios|] == NamesOf(b);
    csv := Join(names, ",");
    if b.scenarios != [] && forall k :: 0 <= k < |b.scenarios| ==> IsDirName(b.scenarios[k].name) {
      ScenarioList(names);
    }
  }
}
