# Cog generator scaffold, modelled in Dafny

This project models `CogGenerator` (`src/generators/cog.ts`). It is the generator
that scaffolds a new "cog", a plugin for the `crank` automation tool. One run has
three phases, in this order:

- `writing` prints a banner and derives two identifiers from the user's `name`
  and `org`. `packageSafeName` is the slug of the name. `machineName` is
  `<slug of org>/<packageSafeName>`.
- `writing` then copies templates into the new project: `proto/cog.proto`, an
  optional MIT `LICENSE`, and for the `typescript` profile 16 fixed entries (files
  and whole directories such as `scripts` and `test/client`) plus
  either the example step directories or two empty `.gitkeep` placeholders.
- `install` runs `npm install` for TypeScript. Then it runs
  `crank cog:install … --debug` and `crank cog:readme <machineName>`, each after its
  own banner.
- `end` prints a closing banner that names the machine name.

The modules follow the parts of the file:

- `Slug` (`slug.dfy`): the slug sanitiser.
- `Banner` (`banner.dfy`): the step-banner layout.
- `Identifiers` (`identifiers.dfy`): deriving the two identifiers.
- `Plan` (`plan.dfy`): the file manifest and the subprocess commands, as pure data.
- `Generator` (`generator.dfy`): the effect trace of each phase, as pure functions,
  and a class `CogGenerator`. Its fields are the options object that `writing`
  updates in place, plus the trace of effects the generator has produced so far.
  A log line, a file operation and a subprocess are each one effect. Each method
  appends what its TypeScript counterpart does. Its `ensures` ties the new trace
  and fields to the trace functions, and the lemmas prove the run's properties
  about those functions.
- `Wrappers` (`wrappers.dfy`): `Option`, which stands for an option that may be
  unset.

JavaScript truthiness of `name` and `org` is modelled as `Some(s)` with `s != ""`.
String lengths in the banner are UTF-16 code-unit counts, which is what `.length`
measures. Strings are sequences of Unicode scalar values, so a character outside
the Basic Multilingual Plane counts as two.

## Model

| member | source | states |
|---|---|---|
| Slug.SlugAlphabet | src/generators/cog.ts:59-64 | every character of a slug is a lower-case ASCII letter, a digit or `-`; so a slug has no upper-case letter, no whitespace and no `/` |
| Slug.SlugLength | src/generators/cog.ts:61-63 | a slug is never longer than its input |
| Slug.SlugFixedPoint | src/generators/cog.ts:59-64 | a string is its own slug exactly when it is over the slug alphabet |
| Slug.SlugIdempotent | src/generators/cog.ts:59-64 | slugging a slug changes nothing |
| Slug.SlugEmpty | src/generators/cog.ts:59-64 | the empty string slugs to the empty string |
| Slug.SlugKeepsAlnums | src/generators/cog.ts:61-63 | the letters and digits of the input survive, in order and lower-cased; nothing else alphanumeric enters |
| Slug.SlugIsOnePass | src/generators/cog.ts:61-63 | the three global passes equal a single left-to-right scan that turns each whitespace run into `-`, drops characters outside `[a-zA-Z0-9\-]` and lower-cases the rest |
| Slug.CollapseNoWhitespace | src/generators/cog.ts:61 | after the first pass no whitespace is left |
| Slug.StripAllKept | src/generators/cog.ts:62 | after the second pass only `[a-zA-Z0-9\-]` is left |
| Slug.LowerOfKept | src/generators/cog.ts:63 | lower-casing a string over `[a-zA-Z0-9\-]` gives one over the slug alphabet |
| Slug.AlnumsCollapse | src/generators/cog.ts:61 | the whitespace pass keeps every letter and digit, in order |
| Slug.AlnumsStrip | src/generators/cog.ts:62 | the stripping pass keeps every letter and digit, in order |
| Slug.AlnumsLower | src/generators/cog.ts:63 | lower-casing lower-cases the letters and keeps every digit in place |
| Slug.CollapseIdentity | src/generators/cog.ts:61 | the whitespace pass leaves a string without whitespace unchanged |
| Slug.StripIdentity | src/generators/cog.ts:62 | the stripping pass leaves a string over `[a-zA-Z0-9\-]` unchanged |
| Slug.LowerIdentity | src/generators/cog.ts:63 | lower-casing leaves a string without upper-case letters unchanged |
| Slug.StripConcat | src/generators/cog.ts:62 | the stripping pass works character by character: it distributes over concatenation |
| Slug.LowerConcat | src/generators/cog.ts:63 | lower-casing distributes over concatenation |
| Slug.Lower | src/generators/cog.ts:63 | lower-casing keeps the length |
| Slug.DropWhitespace | src/generators/cog.ts:61 | dropping a leading whitespace run leaves a string that does not start with whitespace, and is no longer |
| Banner.DividerShape | src/generators/cog.ts:66-68 | the divider is all `=`, at least 80 long and at least the step name's UTF-16 length; it is exactly that length when that is 80 or more, and exactly 80 otherwise |
| Banner.DividerWidthBmp | src/generators/cog.ts:67 | for a step name inside the Basic Multilingual Plane the width is `max(length, 80)` |
| Banner.Utf16LengthBounds | src/generators/cog.ts:67 | the UTF-16 length lies between the character count and twice it, and equals the count inside the Basic Multilingual Plane |
| Banner.BannerLayout | src/generators/cog.ts:66-71 | a banner is three log lines: a newline then the divider, the step name itself, then the same divider then a newline; both divider lines have 81 or more characters |
| Identifiers.PackageSafeName | src/generators/cog.ts:14-16 | `packageSafeName` is set exactly when `name` is truthy, and it is then the slug of `name` |
| Identifiers.MachineName | src/generators/cog.ts:18-21 | `machineName` is set exactly when both `name` and `org` are truthy; it is then `slug(org) + "/" + slug(name)` and holds exactly one `/` |
| Identifiers.DeriveKeepsPrior | src/generators/cog.ts:14-21 | when `name` is falsy the options keep both earlier values; when `org` is falsy `machineName` keeps its earlier value |
| Plan.ProtoFirst | src/generators/cog.ts:25-26 | every manifest, whatever the language and flags, starts with the copy of `../../proto/cog.proto` to `proto/cog.proto` |
| Plan.LicenseIff | src/generators/cog.ts:28-31 | some operation writes `LICENSE` exactly when the MIT flag is set, and any such operation is the template copy of `../LICENSE.mit.ejs` |
| Plan.OtherLanguageOnlyShared | src/generators/cog.ts:33-36 | a language other than `typescript` adds nothing to the proto copy and the optional license |
| Plan.TypescriptSteps | src/generators/cog.ts:112-120 | a TypeScript manifest holds all 16 fixed entries; it copies `src/steps` and `test/steps` exactly when the example-step flag is set, and writes the two empty `.gitkeep` placeholders exactly when it is not |
| Plan.WriteEmptyIff | src/generators/cog.ts:116-119 | an empty-file write occurs exactly for TypeScript without the example step |
| Plan.TypescriptEssentials | src/generators/cog.ts:85-106 | a TypeScript manifest writes `.gitignore`, `package.json`, `Dockerfile`, `proto/cog.proto`, `src/core/cog.ts` and `src/proto` |
| Plan.ManifestSize | src/generators/cog.ts:23-36 | the manifest has 1 entry, plus 1 with the license, plus 18 for TypeScript |
| Plan.StepsChoice | src/generators/cog.ts:112-120 | appending the steps choice to entries that write no steps path puts in the step copies exactly when the flag is set and the placeholders exactly when it is not |
| Plan.CommandOrder | src/generators/cog.ts:39-53 | install runs three commands for TypeScript and two otherwise; `npm install` runs exactly for TypeScript and then first; the last two are `crank cog:install` with the start command and `crank cog:readme` |
| Plan.CrankCallsShareCogName | src/generators/cog.ts:50-52 | both crank calls receive the same cog name |
| Generator.RunPlan | src/generators/cog.ts:11-57 | a whole run performs exactly the manifest's file operations, then exactly the install commands for the machine name that `writing` derived, and every file operation precedes every subprocess |
| Generator.RunBanners | src/generators/cog.ts:11-57 | a run opens with the "Scaffolding Cog" banner and closes with the `end` banner naming the machine name that `writing` derived |
| Generator.WritingRunsNothing | src/generators/cog.ts:11-37 | `writing` starts no subprocess |
| Generator.InstallWritesNothing | src/generators/cog.ts:39-53 | `install` touches no file |
| Generator.EndWritesNothing | src/generators/cog.ts:55-57 | `end` touches no file |
| Generator.InstallSpawns | src/generators/cog.ts:39-53 | the subprocesses of `install` are exactly the install commands, in order |
| Generator.WritingFileOps | src/generators/cog.ts:11-37 | the file operations of `writing` are exactly the manifest, in order |
| Generator.BannerQuiet | src/generators/cog.ts:66-71 | a banner only logs: it starts no subprocess and touches no file |
| Generator.CogGenerator.constructor | src/generators/cog.ts:7-9 | a new generator holds the given options, no derived identifiers and an empty trace |
| Generator.CogGenerator.PrintStepBanner | src/generators/cog.ts:66-71 | logs the three banner lines for the step name |
| Generator.CogGenerator.CrankInstallCog | src/generators/cog.ts:73-76 | logs a blank line, then runs `crank cog:install --source=local <cog> --local-start-command <start> --debug` |
| Generator.CogGenerator.CrankUpdateReadme | src/generators/cog.ts:78-81 | logs a blank line, then runs `crank cog:readme <cog>` |
| Generator.CogGenerator.WritingTypescript | src/generators/cog.ts:83-121 | appends the 16 fixed copies in source order, then the steps choice |
| Generator.CogGenerator.Writing | src/generators/cog.ts:11-37 | updates the identifiers as `Derive` says, and appends the banner then the manifest's file operations |
| Generator.CogGenerator.Install | src/generators/cog.ts:39-53 | appends the dependency banner, `npm install` for TypeScript, then each crank banner followed by its crank call, using `machineName \|\| ''` |
| Generator.CogGenerator.End | src/generators/cog.ts:55-57 | appends the closing banner naming the machine name |
| Generator.CogGenerator.Run | src/generators/cog.ts:11-57 | runs `writing`, `install` and `end` in order; the final trace is `RunTrace` of the options and the earlier identifiers |

## Left out

- The generator framework is not part of this model. That covers the base class,
  its in-memory file system, EJS rendering, `templatePath`/`destinationPath`, and
  the `sourceRoot` call at line 23. File operations are recorded by their literal
  arguments: a source path relative to the language's template directory, and a
  destination path relative to the root of the generated project. Rendering a
  template adds nothing to that record.
- Logging and subprocesses are recorded as trace entries. Console output, the
  subprocess's own output, and `spawnCommandSync`'s exit status and failure
  behaviour are left out.
- Run stands in for the framework's run loop, which calls `writing`, `install` and
  `end` in that order. That run loop is outside `cog.ts`.
- Slug.Lower lower-cases ASCII letters only. `toLowerCase` is Unicode-aware, but
  it runs only after every character outside `[a-zA-Z0-9\-]` has been deleted, so
  on every string it actually receives the two agree.
- Slug.SlugAlphabet and the other slug lemmas are proved for all inputs. No lemma
  evaluates the sanitiser on a concrete literal string.
- Generator.EndBanner renders an unset machine name as the literal `undefined`, as
  the template string does. The model keeps this behaviour and proves nothing
  more about it.
- Generator.CogGenerator.Install follows the code: the `cog:install` banner
  shows only the start command (line 49), while the crank call after it also
  receives the machine name (line 50).
- A language other than `typescript` gets only the shared files and no
  `npm install`, with no error. The model keeps this no-op as the code has it.
