# Multipacks command line core, modelled in Dafny

This project models the command-line layer of Multipacks, a resource-pack build tool, together with two small engine helpers:

- **The command framework** (`multipacks.cli.api.Command`). A command declares positional arguments, options and subcommands. On first use, `build` sorts the arguments and checks the rules on optional arguments. `execute` then walks a cursor over the tokens: it scans options, binds the arguments in sorted order, calls `onExecute`, dispatches to a subcommand and calls `postExecute`. `parse` converts a token for a String, integral or boolean target.
- **The `main` entry point** (`multipacks.cli.Main`). With no tokens it prints the usage text. Otherwise one pass over the tokens separates the regular arguments from the options `-F`/`--filter`, `-R`/`--repo`, `--skip`, `--ignore-errors` and `--ignore`.
- **The platform classifier** (`SystemEnum.getPlatform`).
- **The legacy repository-string dispatch** (`PacksRepository.parseRepository`).
- **The sprite templates** of the multi-sprites transform (`SpriteTemplate`): both constructors and `getFrom`.

Files:

| file | module | content |
|---|---|---|
| `wrappers.dfy` | `Wrappers` | `Option`, `Result`, `Outcome` |
| `text.dfy` | `Text` | ASCII case mapping, `startsWith`, `contains`, `equalsIgnoreCase` |
| `java_numbers.dfy` | `JavaNumbers` | decimal parsing in the manner of `Long.parseLong`/`Integer.parseInt`, and `toString` |
| `command.dfy` | `CliApi` | `Parameters` and `Command` classes, their specification functions and lemmas |
| `parse.dfy` | `CliParse` | `Command.parse` |
| `main_args.dfy` | `CliMain` | the argument loop of `main` |
| `system_enum.dfy` | `Platforms` | `getPlatform` |
| `packs_repository.dfy` | `LegacyRepositories` | `parseRepository` |
| `sprite_template.dfy` | `Multisprites` | `SpriteTemplate` |

`Command` is a class. Its declarations (which the program finds by reflection) are constant fields, and its build caches (`isBuilt`, `arguments`, `options`, `subcommands`) are mutable fields.

Whatever user code a command runs is recorded as a trace of `Effect`s, in order:

- an option setter receiving its raw string;
- an argument setter receiving its raw string;
- the `onExecute` hook or the `postExecute` hook.

Each method of the class is proved equal to a pure specification function over the declarations: `ScanOptions`, `BindArguments`, `Prepared`, `Run` and `Dispatched`. The lemmas then state what those functions promise.

The model follows the code where it departs from its own comments and usage text:

- Lines 92-94 of `Command.java` state the optional-argument rules for all arguments. Only field arguments set `hasOptionalArgs` (line 59; line 80 does not). So when no field argument is optional, an optional argument declared on a method escapes both rules (`CliApi.MethodOptionalEscapesCheck`). Once some field argument is optional, the loop at lines 99-102 checks every sorted argument, method ones included (`CliApi.MethodOptionalCheckedBesideField`).
- The usage text advertises `-I`, `-O` and `--output`, but the loop rejects them as unknown options (`CliMain.AdvertisedButUnknown`).

## Model

| member | source | states |
|---|---|---|
| CliApi.SortByIndex | multipacks-cli/src/main/java/multipacks/cli/api/Command.java:89-90 | the sorted argument list is ordered by the declared index and is a permutation of the declarations |
| CliApi.InsertByIndex | multipacks-cli/src/main/java/multipacks/cli/api/Command.java:89 | inserting into a sorted list keeps it sorted and adds exactly the new element |
| CliApi.CheckOrderAccepts | multipacks-cli/src/main/java/multipacks/cli/api/Command.java:97-102 | the order check passes if and only if no required argument follows an optional one |
| CliApi.CheckOrderRejects | multipacks-cli/src/main/java/multipacks/cli/api/Command.java:99-102 | when the check fails, its error names the first required argument after the first optional one, with only optional arguments between them |
| CliApi.CheckOrderFromPasses | multipacks-cli/src/main/java/multipacks/cli/api/Command.java:97-102 | the loop from any position and `currentOptionalState` passes exactly when the rest is ordered |
| CliApi.CheckOrderFromFails | multipacks-cli/src/main/java/multipacks/cli/api/Command.java:97-102 | a failing loop names a required argument that follows only optional ones after the first optional position |
| CliApi.CheckOrderFrom | multipacks-cli/src/main/java/multipacks/cli/api/Command.java:97-102 | the loop over the sorted arguments with `currentOptionalState`; `CheckOrderFromPasses` and `CheckOrderFromFails` state when it passes and what it reports |
| CliApi.RequiredThenOptionalSplits | multipacks-cli/src/main/java/multipacks/cli/api/Command.java:92-94 | an accepted list is a run of required arguments followed by a run of optional ones, and every such list is accepted |
| CliApi.CheckDeclarationsAccepts | multipacks-cli/src/main/java/multipacks/cli/api/Command.java:49-103 | `build` accepts exactly when there is no optional field argument, or there are no subcommands and the sorted list is required-then-optional; an optional field argument with subcommands gives the subcommand error |
| CliApi.CheckDeclarations | multipacks-cli/src/main/java/multipacks/cli/api/Command.java:95-103 | the validation of `build`: nothing to check without `hasOptionalArgs`, the subcommand error when there are subcommands, and otherwise the order loop; its meaning is stated by `CheckDeclarationsAccepts` |
| CliApi.MethodOptionalEscapesCheck | multipacks-cli/src/main/java/multipacks/cli/api/Command.java:49-96 | when no field argument is optional, an optional argument declared on a method does not set `hasOptionalArgs`, so it passes beside a subcommand |
| CliApi.MethodOptionalCheckedBesideField | multipacks-cli/src/main/java/multipacks/cli/api/Command.java:95-102 | once some field argument is optional and there are no subcommands, any optional argument, of either kind, sorted before a required one makes `build` fail |
| CliApi.HasOptionalFieldArgument | multipacks-cli/src/main/java/multipacks/cli/api/Command.java:55-60 | `hasOptionalArgs`: some argument declared on a field is optional (the method scan at line 80 never sets it) |
| CliApi.Command.Build | multipacks-cli/src/main/java/multipacks/cli/api/Command.java:46-106 | a built command is left unchanged; otherwise the caches hold the sorted arguments, options and subcommands, the outcome is the rule check, and `isBuilt` is set only when the check passes |
| CliApi.Command.BuildCheck | multipacks-cli/src/main/java/multipacks/cli/api/Command.java:46-103 | the outcome `build` reaches for this command's declarations; `Build` is proved to return it and `CheckDeclarationsAccepts` states when it passes |
| CliApi.SplitOption | multipacks-cli/src/main/java/multipacks/cli/api/Command.java:147 | a token splits at its first '=' into a name without '=' and the rest; a token without '=' has no value |
| CliApi.Parameters.constructor | multipacks-cli/src/main/java/multipacks/cli/api/Command.java:138-140 | a fresh cursor sits at the first of the given tokens |
| CliApi.Parameters.Current | multipacks-cli/src/main/java/multipacks/cli/api/Command.java:145 | the current token, absent (null) exactly at the end |
| CliApi.Parameters.EndOfParams | multipacks-cli/src/main/java/multipacks/cli/api/Command.java:116 | `endOfParams`: the cursor is past the last token (at the end), exactly when `Current` is absent |
| CliApi.Parameters.GetThenAdvance | multipacks-cli/src/main/java/multipacks/cli/api/Command.java:146 | returns the current token and moves the cursor past it, not beyond the end |
| CliApi.ScanOptions | multipacks-cli/src/main/java/multipacks/cli/api/Command.java:142-154 | the scan only moves the cursor forward, makes at most one setter call per consumed token, and fails only for an option without a value |
| CliApi.ScanOptionsStops | multipacks-cli/src/main/java/multipacks/cli/api/Command.java:145-150 | the scan consumes only dash tokens. It ends at a non-dash token or the end, or right after an undeclared option, or with an error naming a declared option written without '=' |
| CliApi.ScanOptionsSets | multipacks-cli/src/main/java/multipacks/cli/api/Command.java:149-152 | the k-th setter call is the one that the k-th consumed token names, with the part after its '=' |
| CliApi.ScanCallsSetters | multipacks-cli/src/main/java/multipacks/cli/api/Command.java:149-152 | the option scan only calls the setters of its own command and no hook |
| CliApi.Command.CheckOptions | multipacks-cli/src/main/java/multipacks/cli/api/Command.java:142-154 | the method's outcome, setter calls and new cursor are those of `ScanOptions` on the option cache |
| CliApi.BindStep | multipacks-cli/src/main/java/multipacks/cli/api/Command.java:114-121 | one pass of the argument loop binds its argument (to the last token it consumes) exactly when it goes on. If it stops without error the argument is optional and the tokens are used up; a required one at the end fails with its index |
| CliApi.BindArguments | multipacks-cli/src/main/java/multipacks/cli/api/Command.java:113-122 | the bound arguments are the prefix `args[k..next]` of the sorted list, each bound to one value. Binding stops early only at the end of the tokens, on an optional argument or with the required-argument error naming it, or on an option error |
| CliApi.BindWithoutOptions | multipacks-cli/src/main/java/multipacks/cli/api/Command.java:113-122 | with no dash tokens, the arguments take the next tokens one each, in order. The binding fails exactly when a required argument finds no token left |
| CliApi.BindCallsSetters | multipacks-cli/src/main/java/multipacks/cli/api/Command.java:113-122 | binding only calls the setters of its own command |
| CliApi.Command.BindNext | multipacks-cli/src/main/java/multipacks/cli/api/Command.java:114-121 | one pass of the loop agrees with `BindStep` in outcome, calls, cursor and whether the loop goes on |
| CliApi.Command.BindDeclaredArguments | multipacks-cli/src/main/java/multipacks/cli/api/Command.java:113-122 | the loop agrees with `BindArguments` on the argument cache |
| CliApi.Command.Prepare | multipacks-cli/src/main/java/multipacks/cli/api/Command.java:111-124 | options, then arguments, then options again, as `Prepared` |
| CliApi.Command.Prepared | multipacks-cli/src/main/java/multipacks/cli/api/Command.java:111-124 | the part of `execute` before `onExecute` as a function: options, the arguments in sorted order, options again, stopping at the first error; `Prepare` is proved equal to it and `PreparedCallsSetters` states what it calls |
| CliApi.Command.PreparedCallsSetters | multipacks-cli/src/main/java/multipacks/cli/api/Command.java:111-124 | before `onExecute` a command only calls its own setters |
| CliApi.Command.Execute | multipacks-cli/src/main/java/multipacks/cli/api/Command.java:108-136 | `execute` behaves as `Run` from the current cursor (outcome, trace, new cursor), keeps every reachable command's caches valid, leaves the command built exactly when it was built before or its declarations pass the checks, so a later `build` does nothing, and never unbuilds a command below it |
| CliApi.Command.Dispatch | multipacks-cli/src/main/java/multipacks/cli/api/Command.java:127-135 | the dispatch behaves as `Dispatched`, and every command below that was built stays built |
| CliApi.Command.Descend | multipacks-cli/src/main/java/multipacks/cli/api/Command.java:128-132 | the subcommand the current token names consumes that token and runs as its own `Run` on the rest, keeping every command below built once built |
| CliApi.Command.Dispatched | multipacks-cli/src/main/java/multipacks/cli/api/Command.java:127-135 | the part of `execute` after `onExecute` as a function; `Dispatch` is proved equal to it and `DispatchedOwned` states who acts and that `postExecute` comes last on success |
| CliApi.Command.ExecuteTokens | multipacks-cli/src/main/java/multipacks/cli/api/Command.java:138-140 | `execute(String...)` runs as `Run` from a fresh cursor at token 0, leaves the command built exactly when it was built before or its declarations pass the checks, and never unbuilds a command below it |
| CliApi.Command.Run | multipacks-cli/src/main/java/multipacks/cli/api/Command.java:108-136 | the whole of `execute` as a function of the declarations and the tokens; `Execute` is proved equal to it, and `RunHookOrder`, `RunFailureSkipsPostExecute`, `RunOwned`, `RunSubcommand`, `RunSubcommandNotFound` and `RunWithoutDispatch` state its properties |
| CliApi.Command.RunHookOrder | multipacks-cli/src/main/java/multipacks/cli/api/Command.java:108-136 | a successful run passed the build. Its trace is this command's own setter calls, then its `onExecute`, then only calls of the commands it reaches, and its `postExecute` last |
| CliApi.Command.RunFailureSkipsPostExecute | multipacks-cli/src/main/java/multipacks/cli/api/Command.java:129-135 | a failed run never calls this command's `postExecute` |
| CliApi.Command.RunOwned | multipacks-cli/src/main/java/multipacks/cli/api/Command.java:108-136 | every call in a run belongs to this command or to a command reachable through subcommands; `Valid` pins `Descendants` to exactly those commands (`DescendantsExact`) |
| CliApi.Command.DispatchedOwned | multipacks-cli/src/main/java/multipacks/cli/api/Command.java:127-135 | after `onExecute` only reachable commands act, then, on success, this command's `postExecute` last |
| CliApi.Command.RunSubcommandNotFound | multipacks-cli/src/main/java/multipacks/cli/api/Command.java:127-129 | with subcommands, a leftover token that names none fails after `onExecute`, with that name, and `postExecute` is not called |
| CliApi.Command.RunSubcommand | multipacks-cli/src/main/java/multipacks/cli/api/Command.java:127-135 | the named subcommand runs on the tokens after its name. Its error and cursor are the run's, and `postExecute` follows only when it succeeds |
| CliApi.Command.RunWithoutDispatch | multipacks-cli/src/main/java/multipacks/cli/api/Command.java:125-135 | without subcommands or without tokens left, the run ends with `onExecute`, `postExecute` and no error, whatever tokens remain |
| CliApi.Command.DescendantsExact | multipacks-cli/src/main/java/multipacks/cli/api/Command.java:127-132 | a valid command reaches nothing without subcommands, and otherwise exactly its subcommands and what they reach, so executing it changes no other command |
| CliApi.Command.constructor | multipacks-cli/src/main/java/multipacks/cli/api/Command.java:41-44 | a new command holds its declarations, is valid and not yet built, and reaches exactly its subcommands and what they reach (`Descendants`), which is the whole frame of its `Execute` |
| CliParse.Parse | multipacks-cli/src/main/java/multipacks/cli/api/Command.java:156-168 | text targets take the token as it is, integral targets give a value in their range or a number-format error and accept only decimal numerals, boolean never fails, and any other type is a conversion error naming it |
| CliParse.ParseIntegralRoundTrip | multipacks-cli/src/main/java/multipacks/cli/api/Command.java:159-162 | every in-range number written in decimal parses back to itself for long, int, short and byte |
| CliParse.ParseIntegralOutOfRange | multipacks-cli/src/main/java/multipacks/cli/api/Command.java:159-162 | a number beyond the range of the target type is a number-format error |
| CliParse.ParseBooleanIgnoresCase | multipacks-cli/src/main/java/multipacks/cli/api/Command.java:165 | a boolean is true exactly for "true" in any case and false for every other token |
| JavaNumbers.ParseFormatRoundTrip | multipacks-cli/src/main/java/multipacks/cli/api/Command.java:159-162 | decimal parsing with bounds [min, max] inverts `toString` exactly on the range and fails outside it |
| JavaNumbers.ParseInteger | multipacks-cli/src/main/java/multipacks/cli/api/Command.java:159-162 | a parsed value lies in the type's range; `ParseAcceptsOnlyNumerals`, `ParseRefusesMalformed`, `ParsePlusSign`, `ParseMinusSign`, `ParseLeadingZero` and `ParseFormatRoundTrip` state what it accepts and returns |
| JavaNumbers.ParseAcceptsOnlyNumerals | multipacks-cli/src/main/java/multipacks/cli/api/Command.java:159-162 | anything that parses, whatever the range, is an optional '+' or '-' followed by one or more decimal digits and nothing else |
| JavaNumbers.ParseRefusesMalformed | multipacks-cli/src/main/java/multipacks/cli/api/Command.java:159-162 | the empty string, a lone sign, trailing characters, surrounding blanks and a doubled sign are refused for every range |
| JavaNumbers.ParsePlusSign | multipacks-cli/src/main/java/multipacks/cli/api/Command.java:159-162 | a leading '+' before digits changes nothing |
| JavaNumbers.ParseMinusSign | multipacks-cli/src/main/java/multipacks/cli/api/Command.java:159-162 | a leading '-' negates: "-d" parses in [min, max] as "d" parses in [-max, -min], negated |
| JavaNumbers.ParseLeadingZero | multipacks-cli/src/main/java/multipacks/cli/api/Command.java:159-162 | a leading zero after the optional sign changes neither the value nor the verdict |
| CliMain.Interpret | multipacks-cli/src/main/java/multipacks/cli/Main.java:23-45 | the usage text is shown exactly when there are no tokens |
| CliMain.ScanStep | multipacks-cli/src/main/java/multipacks/cli/Main.java:50-110 | one pass of the loop moves strictly forward within the tokens |
| CliMain.ScanFrom | multipacks-cli/src/main/java/multipacks/cli/Main.java:50-112 | the loop never asks for the usage text |
| CliMain.Scan | multipacks-cli/src/main/java/multipacks/cli/Main.java:47-110 | the loop of `main` from the default options and no regular arguments; `ParseCommandLine` is proved to compute it through `Interpret`, and the lemmas below state what each option does |
| CliMain.ParseCommandLine | multipacks-cli/src/main/java/multipacks/cli/Main.java:23-112 | the imperative loop computes `Interpret` |
| CliMain.ScanAppend | multipacks-cli/src/main/java/multipacks/cli/Main.java:50-110 | an accepted command line is read to its end, so what follows it is read from the state it leaves |
| CliMain.AfterAccepted | multipacks-cli/src/main/java/multipacks/cli/Main.java:50-110 | the loop over tokens appended to an accepted command line resumes from that line's options and regular arguments |
| CliMain.PlainTokensAreRegular | multipacks-cli/src/main/java/multipacks/cli/Main.java:53-56 | tokens without a leading '-' become regular arguments, in their order |
| CliMain.WithoutOptions | multipacks-cli/src/main/java/multipacks/cli/Main.java:50-112 | a command line without options runs with the default options and all tokens as regular arguments |
| CliMain.RegularAppended | multipacks-cli/src/main/java/multipacks/cli/Main.java:53-56 | a regular token after an accepted line is appended to the regular arguments |
| CliMain.FilterLastWins | multipacks-cli/src/main/java/multipacks/cli/Main.java:60-63 | `-F id version` takes the next two tokens and replaces any earlier filter |
| CliMain.ShortFilterMissesValue | multipacks-cli/src/main/java/multipacks/cli/Main.java:60-62 | `-F` followed by fewer than two tokens fails with a missing value |
| CliMain.RepositoryLastWins | multipacks-cli/src/main/java/multipacks/cli/Main.java:64-89 | `-R x` replaces any earlier selection by what `x` selects, or fails as the selection fails |
| CliMain.SelectRepository | multipacks-cli/src/main/java/multipacks/cli/Main.java:65-89 | the `-R` argument: "#n" looks up the n-th configured repository, anything else goes to the repository parser; `SelectByIndex` and `SelectByParser` state the outcomes |
| CliMain.SelectMalformedIndex | multipacks-cli/src/main/java/multipacks/cli/Main.java:67-69 | "#" followed by anything that is not a decimal numeral is a malformed index, whatever the configured repositories |
| CliMain.SelectByIndex | multipacks-cli/src/main/java/multipacks/cli/Main.java:67-77 | "#n" selects the n-th repository when it exists. An index at or past the end is out of bounds, a negative one fails in the list lookup, and one outside the int range is malformed |
| CliMain.SelectByParser | multipacks-cli/src/main/java/multipacks/cli/Main.java:78-88 | a repository string without '#' never consults the configured repositories: the selection is the same for every list, and succeeds exactly when the parser answers, with its answer |
| CliMain.FlagsOnlySwitchOn | multipacks-cli/src/main/java/multipacks/cli/Main.java:90-93 | `--skip` and `--ignore-errors` switch on their flag alone and are idempotent |
| CliMain.IgnoreMatchesAnyCase | multipacks-cli/src/main/java/multipacks/cli/Main.java:94-104 | `--ignore x` records the upper-cased `x` when it names a feature, and fails with an unknown-feature error otherwise |
| CliMain.IgnoreCaseInsensitive | multipacks-cli/src/main/java/multipacks/cli/Main.java:94-104 | two spellings that differ only in case have the same effect |
| CliMain.TrailingOptionMissesValue | multipacks-cli/src/main/java/multipacks/cli/Main.java:64-95 | `-R` or `--ignore` as the last token fails with a missing value |
| CliMain.UnknownOptionRejected | multipacks-cli/src/main/java/multipacks/cli/Main.java:105-109 | any other dash token stops the command line with an unknown-option error, whatever follows |
| CliMain.AdvertisedButUnknown | multipacks-cli/src/main/java/multipacks/cli/Main.java:105-109 | `-I`, `-O` and `--output`, shown in the usage text, are rejected as unknown options |
| Platforms.GetPlatform | multipacks-cli/src/main/java/multipacks/cli/SystemEnum.java:44-49 | the classification of the lower-cased `os.name`, "windows" first, then the unix keywords; `GetPlatformIgnoresCase`, `WindowsAnywhere` and `UnixKeywordAnywhere` state its behaviour |
| Platforms.GetPlatformIgnoresCase | multipacks-cli/src/main/java/multipacks/cli/SystemEnum.java:45 | the classification does not depend on the case of the name |
| Platforms.WindowsAnywhere | multipacks-cli/src/main/java/multipacks/cli/SystemEnum.java:46 | "windows" in any case and at any position wins over the unix keywords |
| Platforms.UnixKeywordAnywhere | multipacks-cli/src/main/java/multipacks/cli/SystemEnum.java:47 | a unix keyword in any case and at any position gives unix-like unless "windows" also occurs |
| Text.EqualsIgnoreCaseIsLowerEquality | multipacks-cli/src/main/java/multipacks/cli/api/Command.java:165 | the character-wise case-insensitive comparison agrees with comparing lower-cased strings |
| Text.ToLowerIdempotent | multipacks-cli/src/main/java/multipacks/cli/SystemEnum.java:45 | lower-casing twice is lower-casing once |
| Text.StartsWith | multipacks-cli/src/main/java/multipacks/cli/Main.java:53 | `String.startsWith`: the string begins with the prefix |
| Text.Contains | multipacks-cli/src/main/java/multipacks/cli/SystemEnum.java:46-47 | `String.contains`: the keyword occurs at some position of the string; `ContainsInside` states that it is found wherever it stands |
| Text.ToLower | multipacks-cli/src/main/java/multipacks/cli/SystemEnum.java:45 | `String.toLowerCase` over ASCII: the result has the length of the input; `ToLowerIdempotent` and `ToLowerConcat` state its properties |
| Text.ToUpper | multipacks-cli/src/main/java/multipacks/cli/Main.java:98 | `String.toUpperCase` over ASCII: the result has the length of the input; `ToUpperOfLower` states that it forgets an earlier lower-casing |
| Text.EqualsIgnoreCase | multipacks-cli/src/main/java/multipacks/cli/api/Command.java:165 | `String.equalsIgnoreCase`, as `Boolean.parseBoolean` uses it, character by character; `EqualsIgnoreCaseIsLowerEquality` relates it to lower-casing |
| LegacyRepositories.ParseRepository | multipacks-engine/src/main/java/multipacks/management/legacy/PacksRepository.java:64-70 | the result is null exactly when every plugin answers null; otherwise it is the answer of the first plugin that answers |
| LegacyRepositories.FirstAnswerWins | multipacks-engine/src/main/java/multipacks/management/legacy/PacksRepository.java:65-67 | the first plugin that answers decides the result |
| LegacyRepositories.LaterPluginsNotConsulted | multipacks-engine/src/main/java/multipacks/management/legacy/PacksRepository.java:65-67 | the plugins after the first one that answers are never consulted: replacing them changes nothing |
| Multisprites.SpriteTemplate.FromJson | multipacks-engine/src/main/java/multipacks/transforms/defaults/multisprites/SpriteTemplate.java:22-28 | the JSON constructor succeeds exactly when all four keys are present, storing their values. Otherwise it fails naming the first missing key in the order x, y, width, height |
| Multisprites.ConstructorsAgree | multipacks-engine/src/main/java/multipacks/transforms/defaults/multisprites/SpriteTemplate.java:14-28 | the JSON constructor on the four keys builds the same template as the primary constructor |
| Multisprites.SpriteTemplate.GetFrom | multipacks-engine/src/main/java/multipacks/transforms/defaults/multisprites/SpriteTemplate.java:30-36 | the new image is `width` by `height`, each of its pixels is the source pixel at the offset (x, y), and the source is unchanged |

## Left out

- The reflection scan of `build` (lines 55-87 of `Command.java`): the annotated fields and methods are given to the constructor as declarations. `ArgumentInfo`, `OptionInfo` and the annotations are not part of this model. A setter is recorded as a call with its raw string. `CliParse.Parse` models the conversion the setter applies on its own, but the trace does not feed the conversion's outcome back into the run (see `CliApi.Command.Run` below).
- `Command.parse` for `double` and `float` (lines 163-164): floating point is not modelled, and those target types fall under `OtherType`. The text branch accepts any type a String can be assigned to, so `TextType` stands for all of them.
- `Parameters.java` is not part of this model. `CliApi.Parameters` is built from how `Command.java` uses `getCurrent`, `endOfParams` and `getThenAdvance`.
- A declared option written without '=' makes `split[1]` throw an out-of-bounds exception in the program; the model returns the `OptionWithoutValue` error. Likewise, the two `RuntimeException`s of `build` (an optional argument beside a subcommand, line 96; a required argument after an optional one, line 100) become the `BuildFailed` error of `execute`, every `CommandException` raised by `execute`, `checkOptions` and the dispatch becomes an error value, and nothing catches it on the way up. The exceptions a setter's conversion throws are not among them: see the next line.
- CliApi.Command.Run: setters, and the conversion they apply through `parse`, are assumed not to throw. In the program, a token that does not convert ("abc" for an int argument or option) throws `NumberFormatException` or `RuntimeException` out of the setter (lines 121 and 151 of `Command.java`, via lines 156-168), so `execute` stops there and `onExecute` never runs. In the model the run records the setter call and goes on. The same holds for `Prepared`, `Execute`, `Dispatch`, `Descend` and `ExecuteTokens`.
- `onExecute` and `postExecute` are user code: the model records that they are called, and assumes they do not throw.
- CliApi.Command.CheckOptions: returns from inside the loop where the program uses `break`. Both leave the loop and then the method, so the behaviour is the same.
- CliApi.Binding: the `next` field (where the argument loop stopped) is not state of the program. It is an output of the specification that the lemmas use.
- `Main.java` lines 14-21 (the unsupported-platform exit), the printing of the usage text, `System.exit`, `MultipacksCLI.exec` and the construction of `MultipacksCLI` are left out. The model returns what `main` goes on to do (`Invocation`).
- CliMain.PackFilter: keeps the identifier and the version string as written. The parsing inside `PackIdentifier` and `Version` is not part of this model.
- `Main.java` calls the non-legacy `PacksRepository.parseRepository`, and calls `BundleIgnore.valueOf`. Both are parameters: the repository parser and the set of feature names. The collection type of `bundleIgnoreFeatures` is not shown, so the ignored features are kept as a sequence in the order given.
- `SystemEnum.getPlatform` reads the `os.name` property; the model takes the string as a parameter. `getHomeDir` and the other `SystemEnum` members are left out.
- JavaNumbers.ParseInteger: accepts only the ASCII digits '0'..'9'. `Long.parseLong`, `Integer.parseInt`, `Short.parseShort` and `Byte.parseByte` go through `Character.digit`, which also accepts every other Unicode decimal digit (Arabic-Indic, Devanagari, fullwidth, ...); for such tokens the model reports a number-format error where Java returns a number.
- CliParse.Parse: through `ParseInteger`, an integral target rejects tokens written with non-ASCII Unicode decimal digits, which Java converts.
- CliMain.SelectRepository: through `ParseInt`, "#n" with non-ASCII Unicode decimal digits is reported as malformed, where Java selects repository n.
- CliApi.SortByIndex: the contract states that the result is ordered by index and is a permutation of the declarations; the stability `Collections.sort` guarantees (equal indices keep declaration order) holds of the definition but is not stated.
- CliApi.Command.Acyclic: the subcommand graph is required to be free of cycles (`Valid`, `Run`, `Dispatched`). Java accepts any `Command` in a subcommand field (lines 68-74 of `Command.java`), including the command itself or an ancestor, and still terminates because line 131 consumes a token before every nested `execute`. The model does not capture such self-referencing or cyclic commands: its declarations are fixed when a command is constructed, from commands that already exist, so a cycle cannot be built.
- Text.ToLower, Text.ToUpper: case mapping covers ASCII letters only; other characters are left unchanged, whereas Java's `toLowerCase`/`toUpperCase` are locale- and Unicode-aware.
- `PacksRepository`: only `parseRepository` is modelled; the global plugin list becomes a sequence parameter. `getPackAsync` (asynchronous) and the rest of the class are left out.
- Multisprites.SpriteTemplate.GetFrom: AWT drawing is modelled as a pixel-for-pixel copy of an in-bounds, non-empty window (`FitsIn`). Scaling, clipping of out-of-bounds windows, the ABGR pixel format and what AWT does with zero or negative sizes are left out.
- Multisprites.SpriteTemplate.FromJson: the JSON object is a map from key to integer. `getAsInt` on a value that is not a number is not modelled.
- Integer widths: the positional index of an argument and the repository index are unbounded integers. `Integer.parseInt` bounds the repository index to the int range.
