/**
  What the generator asks its collaborators to do, as data: the file operations of
  `writing` and `_writingTypescript` (a manifest), and the subprocesses of `install`,
  `_crankInstallCog` and `_crankUpdateReadme`. Template paths are the literal arguments
  given to `templatePath`, relative to the language's template directory; destinations
  are the arguments given to `destinationPath`.
*/
module Plan {

  /** The language whose profile the generator implements. */
  const TypeScript: string := "typescript"

  /** One call of `this.fs.copy`, `this.fs.copyTpl` or `this.fs.write(_, '')`. */
  datatype FileOp =
    | Copy(source: string, dest: string)
    | CopyTpl(source: string, dest: string)
    | WriteEmpty(dest: string)

  /** One call of `spawnCommandSync(program, args)`. */
  datatype Command = Command(program: string, args: seq<string>)

  const ProtoCopy: FileOp := Copy("../../proto/cog.proto", "proto/cog.proto")
  const LicenseCopy: FileOp := CopyTpl("../LICENSE.mit.ejs", "LICENSE")

  /** The entries `_writingTypescript` writes whatever the options are. */
  const TypescriptFixed: seq<FileOp> := [
    Copy(".gitignore", ".gitignore"),
    Copy(".dockerignore", ".dockerignore"),
    Copy("tslint.json", "tslint.json"),
    Copy("tsconfig.json", "tsconfig.json"),
    CopyTpl("package.json.ejs", "package.json"),
    CopyTpl("Dockerfile.ejs", "Dockerfile"),
    CopyTpl("README.md.ejs", "README.md"),
    CopyTpl(".circleci/config.yml.ejs", ".circleci/config.yml"),
    Copy("scripts", "scripts"),
    Copy("src/core/grpc-server.ts", "src/core/grpc-server.ts"),
    Copy("src/core/base-step.ts", "src/core/base-step.ts"),
    Copy("src/core/cog.ts", "src/core/cog.ts"),
    Copy("src/client/client-wrapper.ts", "src/client/client-wrapper.ts"),
    Copy("../../../proto", "src/proto"),
    CopyTpl("test/core/cog.ts.ejs", "test/core/cog.ts"),
    Copy("test/client", "test/client")
  ]

  const StepsSrcCopy: FileOp := Copy("src/steps", "src/steps")
  const StepsTestCopy: FileOp := Copy("test/steps", "test/steps")
  const StepsSrcKeep: FileOp := WriteEmpty("src/steps/.gitkeep")
  /** The source writes `test/steps.gitkeep`, with no `/` before `.gitkeep`. */
  const StepsTestKeep: FileOp := WriteEmpty("test/steps.gitkeep")

  /** The example steps, or two empty placeholder files in their place. */
  function StepsEntries(includeExampleStep: bool): seq<FileOp>
  {
    if includeExampleStep then [StepsSrcCopy, StepsTestCopy] else [StepsSrcKeep, StepsTestKeep]
  }

  /** The file operations of `_writingTypescript`, in order. */
  function TypescriptManifest(includeExampleStep: bool): seq<FileOp>
  {
    TypescriptFixed + StepsEntries(includeExampleStep)
  }

  /** The first operations of `writing`, before the language profile. */
  function Shared(includeMitLicense: bool): seq<FileOp>
  {
    [ProtoCopy] + (if includeMitLicense then [LicenseCopy] else [])
  }

  /** The operations of the language profile, if there is one. */
  function Profile(language: string, includeExampleStep: bool): seq<FileOp>
  {
    if language == TypeScript then TypescriptManifest(includeExampleStep) else []
  }

  /** The file operations of `writing`, in order. */
  function Manifest(language: string, includeMitLicense: bool, includeExampleStep: bool): seq<FileOp>
  {
    Shared(includeMitLicense) + Profile(language, includeExampleStep)
  }

  /** The destinations a manifest writes, in order. */
  function Destinations(m: seq<FileOp>): seq<string>
  {
    seq(|m|, i requires 0 <= i < |m| => m[i].dest)
  }

  /** The start command `install` hands to crank. */
  function StartCommand(language: string): string
  {
    if language == TypeScript then "npm start" else ""
  }

  const NpmInstall: Command := Command("npm", ["install"])

  /** `_crankInstallCog(cogName, startCommand)`. */
  function CrankInstall(cogName: string, startCommand: string): Command
  {
    Command("crank", ["cog:install", "--source=local", cogName, "--local-start-command", startCommand, "--debug"])
  }

  /** `_crankUpdateReadme(cogName)`. */
  function CrankReadme(cogName: string): Command
  {
    Command("crank", ["cog:readme", cogName])
  }

  /** The subprocesses of `install`, in order, for the cog name `machineName || ''`. */
  function InstallCommands(language: string, cogName: string): seq<Command>
  {
    (if language == TypeScript then [NpmInstall] else [])
    + [CrankInstall(cogName, StartCommand(language)), CrankReadme(cogName)]
  }

  // ---------------------------------------------------------------------------
  // The manifest
  // ---------------------------------------------------------------------------

  /** The destinations the example-step option decides about. */
  predicate IsStepsDest(d: string)
  {
    d == "src/steps" || d == "test/steps" || d == "src/steps/.gitkeep" || d == "test/steps.gitkeep"
  }

  /** The fixed entries copy, and leave the shared and the step destinations alone. */
  lemma FixedFacts()
    ensures forall i :: 0 <= i < |TypescriptFixed| ==>
      !TypescriptFixed[i].WriteEmpty? && !IsStepsDest(TypescriptFixed[i].dest) &&
      TypescriptFixed[i].dest != "LICENSE" && TypescriptFixed[i].dest != "proto/cog.proto"
  {
  }

  /** Every operation of a profile leaves `LICENSE` and `proto/cog.proto` alone. */
  lemma ProfileDestinations(language: string, includeExampleStep: bool)
    ensures forall i :: 0 <= i < |Profile(language, includeExampleStep)| ==>
      Profile(language, includeExampleStep)[i].dest != "LICENSE" &&
      Profile(language, includeExampleStep)[i].dest != "proto/cog.proto"
  {
    FixedFacts();
    var p := Profile(language, includeExampleStep);
    forall i | 0 <= i < |p|
      ensures p[i].dest != "LICENSE" && p[i].dest != "proto/cog.proto"
    {
      if i >= |TypescriptFixed| {
        assert p[i] == StepsEntries(includeExampleStep)[i - |TypescriptFixed|];
      }
    }
  }

  /** The shared `proto/cog.proto` copy is always written, and written first. */
  lemma ProtoFirst(language: string, includeMitLicense: bool, includeExampleStep: bool)
    ensures |Manifest(language, includeMitLicense, includeExampleStep)| >= 1
    ensures Manifest(language, includeMitLicense, includeExampleStep)[0] == ProtoCopy
    ensures ProtoCopy.dest == "proto/cog.proto"
  {
  }

  /** A `LICENSE` is written exactly when the MIT licence is asked for, and then rendered as a template. */
  lemma LicenseIff(language: string, includeMitLicense: bool, includeExampleStep: bool)
    ensures (exists i :: 0 <= i < |Manifest(language, includeMitLicense, includeExampleStep)| &&
               Manifest(language, includeMitLicense, includeExampleStep)[i].dest == "LICENSE")
            <==> includeMitLicense
    ensures forall i :: (0 <= i < |Manifest(language, includeMitLicense, includeExampleStep)| &&
              Manifest(language, includeMitLicense, includeExampleStep)[i].dest == "LICENSE") ==>
              Manifest(language, includeMitLicense, includeExampleStep)[i] == LicenseCopy
  {
    var m := Manifest(language, includeMitLicense, includeExampleStep);
    var head, tail := Shared(includeMitLicense), Profile(language, includeExampleStep);
    ProfileDestinations(language, includeExampleStep);
    forall i | 0 <= i < |m| && m[i].dest == "LICENSE"
      ensures m[i] == LicenseCopy && includeMitLicense
    {
      if i >= |head| {
        assert false;
      }
    }
    if includeMitLicense {
      assert m[1].dest == "LICENSE";
    }
  }

  /** A language other than TypeScript gets the shared proto file and the optional licence, nothing else. */
  lemma OtherLanguageOnlyShared(language: string, includeMitLicense: bool, includeExampleStep: bool)
    requires language != TypeScript
    ensures Manifest(language, includeMitLicense, includeExampleStep) ==
      if includeMitLicense then [ProtoCopy, LicenseCopy] else [ProtoCopy]
  {
  }

  /** Neither a placeholder nor a step destination. */
  predicate StepNeutral(op: FileOp) { !op.WriteEmpty? && !IsStepsDest(op.dest) }

  /** The example-step choice, for any entries before the steps that leave them alone. */
  lemma StepsChoice(head: seq<FileOp>, fixed: seq<FileOp>, includeExampleStep: bool)
    requires forall i :: 0 <= i < |head| ==> StepNeutral(head[i])
    requires forall i :: 0 <= i < |fixed| ==> StepNeutral(fixed[i])
    ensures forall op :: op in fixed ==> op in head + (fixed + StepsEntries(includeExampleStep))
    ensures includeExampleStep <==>
      StepsSrcCopy in head + (fixed + StepsEntries(includeExampleStep)) &&
      StepsTestCopy in head + (fixed + StepsEntries(includeExampleStep))
    ensures !includeExampleStep <==>
      StepsSrcKeep in head + (fixed + StepsEntries(includeExampleStep)) &&
      StepsTestKeep in head + (fixed + StepsEntries(includeExampleStep))
    ensures includeExampleStep ==>
      forall op :: op in head + (fixed + StepsEntries(includeExampleStep)) ==> !op.WriteEmpty?
    ensures !includeExampleStep ==>
      forall op :: op in head + (fixed + StepsEntries(includeExampleStep)) ==>
        op.dest != "src/steps" && op.dest != "test/steps"
  {
    var steps := StepsEntries(includeExampleStep);
    var m := head + (fixed + steps);
    forall op | op in m
      ensures includeExampleStep ==> !op.WriteEmpty?
      ensures !includeExampleStep ==> op.dest != "src/steps" && op.dest != "test/steps"
      ensures !StepNeutral(op) ==> op in steps
    {
      if op in head {
        var i :| 0 <= i < |head| && head[i] == op;
      } else if op in fixed {
        var i :| 0 <= i < |fixed| && fixed[i] == op;
      }
    }
    assert !StepNeutral(StepsSrcCopy) && !StepNeutral(StepsTestCopy);
    assert !StepNeutral(StepsSrcKeep) && !StepNeutral(StepsTestKeep);
  }

  /**
    For TypeScript every fixed entry is written, and the example-step option selects
    exactly one of two outcomes: the two step directories are copied and no
    placeholder is written, or the two placeholders are written and no step
    directory is copied.
  */
  lemma TypescriptSteps(includeMitLicense: bool, includeExampleStep: bool)
    ensures forall op :: op in TypescriptFixed ==> op in Manifest(TypeScript, includeMitLicense, includeExampleStep)
    ensures includeExampleStep <==>
      StepsSrcCopy in Manifest(TypeScript, includeMitLicense, includeExampleStep) &&
      StepsTestCopy in Manifest(TypeScript, includeMitLicense, includeExampleStep)
    ensures !includeExampleStep <==>
      StepsSrcKeep in Manifest(TypeScript, includeMitLicense, includeExampleStep) &&
      StepsTestKeep in Manifest(TypeScript, includeMitLicense, includeExampleStep)
    ensures includeExampleStep ==>
      forall op :: op in Manifest(TypeScript, includeMitLicense, includeExampleStep) ==> !op.WriteEmpty?
    ensures !includeExampleStep ==>
      forall op :: op in Manifest(TypeScript, includeMitLicense, includeExampleStep) ==>
        op.dest != "src/steps" && op.dest != "test/steps"
  {
    FixedFacts();
    var head := Shared(includeMitLicense);
    assert forall i :: 0 <= i < |head| ==> StepNeutral(head[i]);
    assert forall i :: 0 <= i < |TypescriptFixed| ==> StepNeutral(TypescriptFixed[i]);
    StepsChoice(head, TypescriptFixed, includeExampleStep);
  }

  /** Placeholder files are written only for TypeScript without the example step. */
  lemma WriteEmptyIff(language: string, includeMitLicense: bool, includeExampleStep: bool)
    ensures (exists i :: 0 <= i < |Manifest(language, includeMitLicense, includeExampleStep)| &&
               Manifest(language, includeMitLicense, includeExampleStep)[i].WriteEmpty?)
            <==> language == TypeScript && !includeExampleStep
  {
    var m := Manifest(language, includeMitLicense, includeExampleStep);
    var head, tail := Shared(includeMitLicense), Profile(language, includeExampleStep);
    FixedFacts();
    forall i | 0 <= i < |m| && m[i].WriteEmpty?
      ensures language == TypeScript && !includeExampleStep
    {
      assert m[i] == tail[i - |head|];
      if i - |head| >= |TypescriptFixed| {
        assert m[i] == StepsEntries(includeExampleStep)[i - |head| - |TypescriptFixed|];
      }
    }
    if language == TypeScript && !includeExampleStep {
      assert m[|head| + |TypescriptFixed|] == StepsSrcKeep;
    }
  }

  /** A TypeScript project holds at least the files every such project needs. */
  lemma TypescriptEssentials(includeMitLicense: bool, includeExampleStep: bool)
    ensures forall d :: d in [".gitignore", "package.json", "Dockerfile", "proto/cog.proto", "src/core/cog.ts", "src/proto"] ==>
      d in Destinations(Manifest(TypeScript, includeMitLicense, includeExampleStep))
  {
    var head, steps := Shared(includeMitLicense), StepsEntries(includeExampleStep);
    var fixed := Destinations(TypescriptFixed);
    assert fixed[0] == ".gitignore" && fixed[4] == "package.json" && fixed[5] == "Dockerfile";
    assert fixed[11] == "src/core/cog.ts" && fixed[13] == "src/proto";
    assert Destinations(head)[0] == "proto/cog.proto";
    DestinationsConcat(TypescriptFixed, steps);
    DestinationsConcat(head, TypescriptFixed + steps);
  }

  lemma DestinationsConcat(a: seq<FileOp>, b: seq<FileOp>)
    ensures Destinations(a + b) == Destinations(a) + Destinations(b)
  {
  }

  /** How many file operations `writing` performs. */
  lemma ManifestSize(language: string, includeMitLicense: bool, includeExampleStep: bool)
    ensures |Manifest(language, includeMitLicense, includeExampleStep)| ==
      1 + (if includeMitLicense then 1 else 0) + (if language == TypeScript then 18 else 0)
  {
  }

  // ---------------------------------------------------------------------------
  // The commands
  // ---------------------------------------------------------------------------

  /**
    `npm install` runs first and only for TypeScript; then crank installs the cog,
    then crank updates its README, both for the same cog name, with start command
    `npm start` for TypeScript and the empty string otherwise.
  */
  lemma CommandOrder(language: string, cogName: string)
    ensures |InstallCommands(language, cogName)| == if language == TypeScript then 3 else 2
    ensures NpmInstall in InstallCommands(language, cogName) <==> language == TypeScript
    ensures language == TypeScript ==> InstallCommands(language, cogName)[0] == NpmInstall
    ensures InstallCommands(language, cogName)[|InstallCommands(language, cogName)| - 2] ==
      Command("crank", ["cog:install", "--source=local", cogName, "--local-start-command",
                        if language == TypeScript then "npm start" else "", "--debug"])
    ensures InstallCommands(language, cogName)[|InstallCommands(language, cogName)| - 1] ==
      Command("crank", ["cog:readme", cogName])
  {
    var cs := InstallCommands(language, cogName);
    assert CrankInstall(cogName, StartCommand(language)) != NpmInstall;
    assert CrankReadme(cogName) != NpmInstall;
    if language != TypeScript {
      assert cs == [CrankInstall(cogName, StartCommand(language)), CrankReadme(cogName)];
    }
  }

  /** Crank is the last program run, twice, and every crank call names the same cog. */
  lemma CrankCallsShareCogName(language: string, cogName: string)
    ensures forall i :: (0 <= i < |InstallCommands(language, cogName)| &&
      InstallCommands(language, cogName)[i].program == "crank") ==>
        i >= |InstallCommands(language, cogName)| - 2 &&
        cogName in InstallCommands(language, cogName)[i].args
  {
  }
}
