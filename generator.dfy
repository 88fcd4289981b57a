/**
  The `CogGenerator` class: its options object, which `writing` updates in place, and
  the trace of everything it asks its collaborators to do, in order: log lines, file
  operations and subprocesses. Each method appends to that trace exactly what the
  corresponding method of the generator does, and its contract ties the new trace to
  a pure function of the options; the properties of the run are proved about those
  functions.
*/
module Generator {
  import opened Wrappers
  import Slug
  import Banner
  import Plan
  import Identifiers

  /** One observable action of the generator. */
  datatype Effect =
    | Log(line: string)
    | Fs(op: Plan.FileOp)
    | Spawn(cmd: Plan.Command)

  /** The options the command line hands to the generator. */
  datatype Config = Config(
    name: Option<string>,
    org: Option<string>,
    language: string,
    includeMitLicense: bool,
    includeExampleStep: bool)

  /** Each file operation performed, in order. */
  function FileEffects(ops: seq<Plan.FileOp>): seq<Effect>
  {
    seq(|ops|, i requires 0 <= i < |ops| => Fs(ops[i]))
  }

  /** The three lines of a banner, logged in order. */
  function BannerEffects(stepName: string): seq<Effect>
  {
    var lines := Banner.BannerLines(stepName);
    [Log(lines[0]), Log(lines[1]), Log(lines[2])]
  }

  /** JavaScript's rendering of an optional string in a template literal. */
  function Render(o: Option<string>): string
  {
    o.GetOr("undefined")
  }

  const ScaffoldingBanner: string := "Scaffolding Cog"
  const DependenciesBanner: string := "Loading Cog Dependencies"

  /** The banner `install` shows before the crank install; it names the start command only. */
  function CrankInstallBanner(startCommand: string): string
  {
    "$ crank cog:install --source=local --local-start-command=\"" + startCommand + "\" --debug"
  }

  function CrankReadmeBanner(cogName: string): string
  {
    "$ crank cog:readme " + cogName
  }

  function EndBanner(machineName: Option<string>): string
  {
    "All Done! Try It Out:  $ crank cog:step " + Render(machineName)
  }

  /** What `writing` does. */
  function WritingTrace(c: Config): seq<Effect>
  {
    BannerEffects(ScaffoldingBanner)
    + FileEffects(Plan.Manifest(c.language, c.includeMitLicense, c.includeExampleStep))
  }

  /** The first half of `install`: the banner, then `npm install` for TypeScript. */
  function DependencyTrace(language: string): seq<Effect>
  {
    BannerEffects(DependenciesBanner)
    + (if language == Plan.TypeScript then [Spawn(Plan.NpmInstall)] else [])
  }

  /** The second half of `install`: crank installs the cog, then updates its README. */
  function CrankTrace(startCommand: string, cogName: string): seq<Effect>
  {
    BannerEffects(CrankInstallBanner(startCommand))
    + [Log(""), Spawn(Plan.CrankInstall(cogName, startCommand))]
    + BannerEffects(CrankReadmeBanner(cogName))
    + [Log(""), Spawn(Plan.CrankReadme(cogName))]
  }

  /** What `install` does, for the cog name `machineName || ''`. */
  function InstallTrace(language: string, cogName: string): seq<Effect>
  {
    DependencyTrace(language) + CrankTrace(Plan.StartCommand(language), cogName)
  }

  /** What `end` does. */
  function EndTrace(machineName: Option<string>): seq<Effect>
  {
    BannerEffects(EndBanner(machineName))
  }

  /** A whole run: `writing`, then `install` and `end` with the identifiers `writing` derived. */
  function RunTrace(c: Config, prior: Identifiers.Ids): seq<Effect>
  {
    var ids := Identifiers.Derive(c.name, c.org, prior);
    WritingTrace(c) + InstallTrace(c.language, ids.machineName.GetOr("")) + EndTrace(ids.machineName)
  }

  /** The subprocesses of a trace, in order. */
  function Spawned(t: seq<Effect>): seq<Plan.Command>
  {
    if t == [] then [] else (if t[0].Spawn? then [t[0].cmd] else []) + Spawned(t[1..])
  }

  /** The file operations of a trace, in order. */
  function FileOps(t: seq<Effect>): seq<Plan.FileOp>
  {
    if t == [] then [] else (if t[0].Fs? then [t[0].op] else []) + FileOps(t[1..])
  }

  lemma FileEffectsConcat(a: seq<Plan.FileOp>, b: seq<Plan.FileOp>)
    ensures FileEffects(a + b) == FileEffects(a) + FileEffects(b)
  {
  }

  lemma AppendChain(start: seq<Effect>, a: seq<Effect>, b: seq<Effect>, c: seq<Effect>,
                    s1: seq<Effect>, s2: seq<Effect>, s3: seq<Effect>)
    requires s1 == start + a && s2 == s1 + b && s3 == s2 + c
    ensures s3 == start + (a + b + c)
  {
  }

  lemma WritingTraceSplit(c: Config)
    ensures WritingTrace(c) == BannerEffects(ScaffoldingBanner)
      + FileEffects(Plan.Shared(c.includeMitLicense)) + FileEffects(Plan.Profile(c.language, c.includeExampleStep))
  {
    FileEffectsConcat(Plan.Shared(c.includeMitLicense), Plan.Profile(c.language, c.includeExampleStep));
  }

  // ---------------------------------------------------------------------------
  // What a run does, read off its trace
  // ---------------------------------------------------------------------------

  predicate NoSpawn(t: seq<Effect>) { forall i :: 0 <= i < |t| ==> !t[i].Spawn? }

  predicate NoFileOp(t: seq<Effect>) { forall i :: 0 <= i < |t| ==> !t[i].Fs? }

  /** Every file operation of `t` comes before every subprocess of `t`. */
  predicate FilesBeforeSpawns(t: seq<Effect>)
  {
    forall i, j :: 0 <= i < j < |t| && t[i].Spawn? ==> !t[j].Fs?
  }

  lemma {:induction false} SpawnedConcat(a: seq<Effect>, b: seq<Effect>)
    ensures Spawned(a + b) == Spawned(a) + Spawned(b)
  {
    if a == [] {
      assert a + b == b;
    } else {
      var head := if a[0].Spawn? then [a[0].cmd] else [];
      assert (a + b)[0] == a[0];
      assert (a + b)[1..] == a[1..] + b;
      SpawnedConcat(a[1..], b);
      calc {
        Spawned(a + b);
        head + Spawned(a[1..] + b);
        head + (Spawned(a[1..]) + Spawned(b));
        (head + Spawned(a[1..])) + Spawned(b);
      }
    }
  }

  lemma {:induction false} FileOpsConcat(a: seq<Effect>, b: seq<Effect>)
    ensures FileOps(a + b) == FileOps(a) + FileOps(b)
  {
    if a == [] {
      assert a + b == b;
    } else {
      var head := if a[0].Fs? then [a[0].op] else [];
      assert (a + b)[0] == a[0];
      assert (a + b)[1..] == a[1..] + b;
      FileOpsConcat(a[1..], b);
      calc {
        FileOps(a + b);
        head + FileOps(a[1..] + b);
        head + (FileOps(a[1..]) + FileOps(b));
        (head + FileOps(a[1..])) + FileOps(b);
      }
    }
  }

  lemma {:induction false} SpawnedNone(t: seq<Effect>)
    requires NoSpawn(t)
    ensures Spawned(t) == []
  {
    if t != [] {
      SpawnedNone(t[1..]);
    }
  }

  lemma {:induction false} FileOpsNone(t: seq<Effect>)
    requires NoFileOp(t)
    ensures FileOps(t) == []
  {
    if t != [] {
      FileOpsNone(t[1..]);
    }
  }

  /** The file operations performed are exactly the manifest, in order. */
  lemma {:induction false} FileOpsOfFileEffects(ops: seq<Plan.FileOp>)
    ensures FileOps(FileEffects(ops)) == ops
  {
    if ops != [] {
      assert FileEffects(ops)[1..] == FileEffects(ops[1..]);
      FileOpsOfFileEffects(ops[1..]);
    }
  }

  /** `writing` runs no subprocess. */
  lemma WritingRunsNothing(c: Config)
    ensures NoSpawn(WritingTrace(c))
  {
    var b: seq<Effect> := BannerEffects(ScaffoldingBanner);
    var f: seq<Effect> := FileEffects(Plan.Manifest(c.language, c.includeMitLicense, c.includeExampleStep));
    var t: seq<Effect> := b + f;
    forall i | 0 <= i < |t|
      ensures !t[i].Spawn?
    {
      if i >= |b| {
        assert t[i] == f[i - |b|];
      }
    }
  }

  /** `install` touches no file. */
  lemma InstallWritesNothing(language: string, cogName: string)
    ensures NoFileOp(InstallTrace(language, cogName))
  {
  }

  /** `end` touches no file. */
  lemma EndWritesNothing(machineName: Option<string>)
    ensures NoFileOp(EndTrace(machineName))
  {
  }

  /** A banner only logs. */
  lemma BannerQuiet(stepName: string)
    ensures Spawned(BannerEffects(stepName)) == [] && FileOps(BannerEffects(stepName)) == []
  {
    SpawnedNone(BannerEffects(stepName));
    FileOpsNone(BannerEffects(stepName));
  }

  /** A blank log line followed by one subprocess runs just that subprocess. */
  lemma CallSpawns(cmd: Plan.Command)
    ensures Spawned([Log(""), Spawn(cmd)]) == [cmd]
  {
    var t := [Log(""), Spawn(cmd)];
    assert t[1..] == [Spawn(cmd)] && t[1..][1..] == [];
    assert Spawned(t[1..][1..]) == [];
    assert Spawned(t[1..]) == [cmd] + Spawned(t[1..][1..]);
  }

  /** The file operations of `writing` are the manifest, in order. */
  lemma WritingFileOps(c: Config)
    ensures FileOps(WritingTrace(c)) == Plan.Manifest(c.language, c.includeMitLicense, c.includeExampleStep)
  {
    var m := Plan.Manifest(c.language, c.includeMitLicense, c.includeExampleStep);
    FileOpsConcat(BannerEffects(ScaffoldingBanner), FileEffects(m));
    FileOpsOfFileEffects(m);
    BannerQuiet(ScaffoldingBanner);
  }

  lemma DependencySpawns(language: string)
    ensures Spawned(DependencyTrace(language)) ==
      if language == Plan.TypeScript then [Plan.NpmInstall] else []
  {
    var npm := if language == Plan.TypeScript then [Spawn(Plan.NpmInstall)] else [];
    SpawnedConcat(BannerEffects(DependenciesBanner), npm);
    BannerQuiet(DependenciesBanner);
  }

  lemma CrankSpawns(startCommand: string, cogName: string)
    ensures Spawned(CrankTrace(startCommand, cogName)) ==
      [Plan.CrankInstall(cogName, startCommand), Plan.CrankReadme(cogName)]
  {
    var b1, b2 := BannerEffects(CrankInstallBanner(startCommand)), BannerEffects(CrankReadmeBanner(cogName));
    var install := [Log(""), Spawn(Plan.CrankInstall(cogName, startCommand))];
    var readme := [Log(""), Spawn(Plan.CrankReadme(cogName))];
    SpawnedConcat(b1, install);
    SpawnedConcat(b1 + install, b2);
    SpawnedConcat(b1 + install + b2, readme);
    BannerQuiet(CrankInstallBanner(startCommand));
    BannerQuiet(CrankReadmeBanner(cogName));
    CallSpawns(Plan.CrankInstall(cogName, startCommand));
    CallSpawns(Plan.CrankReadme(cogName));
  }

  /** The subprocesses of `install` are its command list, in order. */
  lemma InstallSpawns(language: string, cogName: string)
    ensures Spawned(InstallTrace(language, cogName)) == Plan.InstallCommands(language, cogName)
  {
    DependencySpawns(language);
    CrankSpawns(Plan.StartCommand(language), cogName);
    SpawnedConcat(DependencyTrace(language), CrankTrace(Plan.StartCommand(language), cogName));
  }

  /** A trace that only writes files followed by one that writes none. */
  lemma FilesThenCommands(w: seq<Effect>, r: seq<Effect>)
    requires NoSpawn(w) && NoFileOp(r)
    ensures FileOps(w + r) == FileOps(w)
    ensures Spawned(w + r) == Spawned(r)
    ensures FilesBeforeSpawns(w + r)
  {
    FileOpsConcat(w, r);
    FileOpsNone(r);
    SpawnedConcat(w, r);
    SpawnedNone(w);
    var t := w + r;
    forall x, y | 0 <= x < y < |t| && t[x].Spawn?
      ensures !t[y].Fs?
    {
      assert x >= |w|;
      assert t[y] == r[y - |w|];
    }
  }

  /** `install` followed by `end` runs the install commands and writes no file. */
  lemma InstallThenEnd(language: string, cogName: string, machineName: Option<string>)
    ensures NoFileOp(InstallTrace(language, cogName) + EndTrace(machineName))
    ensures Spawned(InstallTrace(language, cogName) + EndTrace(machineName)) ==
      Plan.InstallCommands(language, cogName)
  {
    var i, e := InstallTrace(language, cogName), EndTrace(machineName);
    InstallWritesNothing(language, cogName);
    EndWritesNothing(machineName);
    InstallSpawns(language, cogName);
    SpawnedConcat(i, e);
    SpawnedNone(e);
  }

  /**
    A whole run writes exactly the manifest and then runs exactly the install
    commands, for the machine name `writing` derived; every file operation comes
    before every subprocess.
  */
  lemma RunPlan(c: Config, prior: Identifiers.Ids)
    ensures FileOps(RunTrace(c, prior)) == Plan.Manifest(c.language, c.includeMitLicense, c.includeExampleStep)
    ensures Spawned(RunTrace(c, prior)) ==
      Plan.InstallCommands(c.language, Identifiers.Derive(c.name, c.org, prior).machineName.GetOr(""))
    ensures FilesBeforeSpawns(RunTrace(c, prior))
  {
    var machineName := Identifiers.Derive(c.name, c.org, prior).machineName;
    var cogName := machineName.GetOr("");
    var w, r := WritingTrace(c), InstallTrace(c.language, cogName) + EndTrace(machineName);
    assert RunTrace(c, prior) == w + r;
    WritingRunsNothing(c);
    WritingFileOps(c);
    InstallThenEnd(c.language, cogName, machineName);
    FilesThenCommands(w, r);
  }

  /** A run opens with the scaffolding banner and closes with the one naming the machine name. */
  lemma RunBanners(c: Config, prior: Identifiers.Ids)
    ensures RunTrace(c, prior)[..3] == BannerEffects(ScaffoldingBanner)
    ensures RunTrace(c, prior)[|RunTrace(c, prior)| - 3..] ==
      BannerEffects(EndBanner(Identifiers.Derive(c.name, c.org, prior).machineName))
  {
  }

  class CogGenerator {
    const name: Option<string>
    const org: Option<string>
    const language: string
    const includeMitLicense: bool
    const includeExampleStep: bool
    var packageSafeName: Option<string>
    var machineName: Option<string>
    /** Everything the generator has done so far. */
    var effects: seq<Effect>

    function Options(): Config
      reads this
    {
      Config(name, org, language, includeMitLicense, includeExampleStep)
    }

    function Ids(): Identifiers.Ids
      reads this
    {
      Identifiers.Ids(packageSafeName, machineName)
    }

    constructor (c: Config)
      ensures Options() == c && Ids() == Identifiers.Unset && effects == []
    {
      name, org, language := c.name, c.org, c.language;
      includeMitLicense, includeExampleStep := c.includeMitLicense, c.includeExampleStep;
      packageSafeName, machineName := None, None;
      effects := [];
    }

    method Emit(e: Effect)
      modifies this`effects
      ensures effects == old(effects) + [e]
    {
      effects := effects + [e];
    }

    /** `_printStepBanner`. */
    method PrintStepBanner(stepName: string)
      modifies this`effects
      ensures effects == old(effects) + BannerEffects(stepName)
    {
      var length := Banner.Max(Banner.Utf16Length(stepName), Banner.MinWidth);
      var divider := Banner.Repeat('=', length);
      Emit(Log("\n" + divider));
      Emit(Log(stepName));
      Emit(Log(divider + "\n"));
    }

    /** `_crankInstallCog`. */
    method CrankInstallCog(cogName: string, startCommand: string)
      modifies this`effects
      ensures effects == old(effects) + [Log(""), Spawn(Plan.CrankInstall(cogName, startCommand))]
    {
      Emit(Log(""));
      Emit(Spawn(Plan.Command("crank", ["cog:install", "--source=local", cogName, "--local-start-command", startCommand, "--debug"])));
    }

    /** `_crankUpdateReadme`. */
    method CrankUpdateReadme(cogName: string)
      modifies this`effects
      ensures effects == old(effects) + [Log(""), Spawn(Plan.CrankReadme(cogName))]
    {
      Emit(Log(""));
      Emit(Spawn(Plan.Command("crank", ["cog:readme", cogName])));
    }

    /** `_writingTypescript`. */
    method WritingTypescript()
      modifies this`effects
      ensures effects == old(effects) + FileEffects(Plan.TypescriptManifest(includeExampleStep))
    {
      var ops: seq<Plan.FileOp> := [];
      ops := ops + [Plan.Copy(".gitignore", ".gitignore")];
      ops := ops + [Plan.Copy(".dockerignore", ".dockerignore")];
      ops := ops + [Plan.Copy("tslint.json", "tslint.json")];
      ops := ops + [Plan.Copy("tsconfig.json", "tsconfig.json")];
      ops := ops + [Plan.CopyTpl("package.json.ejs", "package.json")];
      ops := ops + [Plan.CopyTpl("Dockerfile.ejs", "Dockerfile")];
      ops := ops + [Plan.CopyTpl("README.md.ejs", "README.md")];
      ops := ops + [Plan.CopyTpl(".circleci/config.yml.ejs", ".circleci/config.yml")];
      ops := ops + [Plan.Copy("scripts", "scripts")];
      ops := ops + [Plan.Copy("src/core/grpc-server.ts", "src/core/grpc-server.ts")];
      ops := ops + [Plan.Copy("src/core/base-step.ts", "src/core/base-step.ts")];
      ops := ops + [Plan.Copy("src/core/cog.ts", "src/core/cog.ts")];
      ops := ops + [Plan.Copy("src/client/client-wrapper.ts", "src/client/client-wrapper.ts")];
      ops := ops + [Plan.Copy("../../../proto", "src/proto")];
      ops := ops + [Plan.CopyTpl("test/core/cog.ts.ejs", "test/core/cog.ts")];
      ops := ops + [Plan.Copy("test/client", "test/client")];
      assert ops == Plan.TypescriptFixed;
      if includeExampleStep {
        ops := ops + [Plan.Copy("src/steps", "src/steps")];
        ops := ops + [Plan.Copy("test/steps", "test/steps")];
      } else {
        ops := ops + [Plan.WriteEmpty("src/steps/.gitkeep")];
        ops := ops + [Plan.WriteEmpty("test/steps.gitkeep")];
      }
      effects := effects + FileEffects(ops);
    }

    /** `writing`: derive the identifiers, then write the shared files and the language profile. */
    method Writing()
      modifies this`effects, this`packageSafeName, this`machineName
      ensures Ids() == Identifiers.Derive(name, org, old(Ids()))
      ensures effects == old(effects) + WritingTrace(Options())
    {
      PrintStepBanner(ScaffoldingBanner);
      if Identifiers.Truthy(name) {
        packageSafeName := Some(Slug.Slug(name.value));
      }
      if Identifiers.Truthy(name) && Identifiers.Truthy(org) {
        var safeOrg := Slug.Slug(org.value);
        machineName := Some(safeOrg + "/" + packageSafeName.value);
      }
      assert Ids() == Identifiers.Derive(name, org, old(Ids()));
      ghost var banner := effects;
      assert banner == old(effects) + BannerEffects(ScaffoldingBanner);
      Emit(Fs(Plan.ProtoCopy));
      if includeMitLicense {
        Emit(Fs(Plan.LicenseCopy));
      }
      assert effects == banner + FileEffects(Plan.Shared(includeMitLicense));
      ghost var shared := effects;
      if language == Plan.TypeScript {
        WritingTypescript();
      }
      assert effects == shared + FileEffects(Plan.Profile(language, includeExampleStep));
      AppendChain(old(effects), BannerEffects(ScaffoldingBanner), FileEffects(Plan.Shared(includeMitLicense)),
        FileEffects(Plan.Profile(language, includeExampleStep)), banner, shared, effects);
      WritingTraceSplit(Options());
    }

    /** `install`: npm for TypeScript, then crank installs the cog and updates its README. */
    method Install()
      modifies this`effects
      ensures effects == old(effects) + InstallTrace(language, machineName.GetOr(""))
    {
      ghost var before := effects;
      var startCommand := "";
      PrintStepBanner(DependenciesBanner);
      if language == Plan.TypeScript {
        startCommand := "npm start";
        Emit(Spawn(Plan.Command("npm", ["install"])));
      }
      ghost var deps := effects;
      assert deps == before + DependencyTrace(language);
      assert startCommand == Plan.StartCommand(language);
      var cogName := machineName.GetOr("");
      PrintStepBanner(CrankInstallBanner(startCommand));
      ghost var s1 := effects;
      CrankInstallCog(cogName, startCommand);
      ghost var s2 := effects;
      PrintStepBanner(CrankReadmeBanner(cogName));
      ghost var s3 := effects;
      CrankUpdateReadme(cogName);
      AppendChain(deps, BannerEffects(CrankInstallBanner(startCommand)),
        [Log(""), Spawn(Plan.CrankInstall(cogName, startCommand))], BannerEffects(CrankReadmeBanner(cogName)), s1, s2, s3);
      assert effects == deps + CrankTrace(startCommand, cogName);
    }

    /** `end`. */
    method End()
      modifies this`effects
      ensures effects == old(effects) + EndTrace(machineName)
    {
      PrintStepBanner(EndBanner(machineName));
    }

    /** The order in which the generator framework calls the three phases. */
    method Run()
      modifies this`effects, this`packageSafeName, this`machineName
      ensures Ids() == Identifiers.Derive(name, org, old(Ids()))
      ensures effects == old(effects) + RunTrace(Options(), old(Ids()))
    {
      ghost var e0, ids0 := effects, Ids();
      Writing();
      ghost var e1, m := effects, machineName;
      Install();
      ghost var e2 := effects;
      End();
      AppendChain(e0, WritingTrace(Options()), InstallTrace(language, m.GetOr("")), EndTrace(m), e1, e2, effects);
    }
  }
}
