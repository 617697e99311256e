# npm-commands in Dafny

This project models the `npm` builder class of the package `npm-commands` (`index.ts`). The builder renders and runs command lines for npm's `install`, `remove`, `link`, `unlink` and `run` subcommands. An instance holds three pieces of state:

- the working directory `options.cwd`;
- the output mode `options.stdio` (`"inherit"` or `"ignore"`);
- the pass-through argument list `args`.

The fluent setters `cwd`, `output` and `arguments` change that state in place and return the same instance. Each subcommand builds one command line from a template and hands it to the process runner. Every synchronous subcommand returns the runner's output, and any failure becomes `null`.

The model has four modules:

- `Wrappers` (`wrappers.dfy`): `Option`. `None` stands for the source's `null`.
- `Flags` (`flags.dfy`): the pure rendering inside `arguments(map)`. This covers the yargs-key filter, the `--key` / `--key value` token rule and list values joined by single spaces. A JavaScript object is an ordered `seq<(string, Value)>`, with `Value = Str(string) | List(seq<string>)`. Its partners are `Kept`, an independent filter with its own membership contract, and `Split`, the inverse of the space join.
- `Commands` (`commands.dfy`): the save-mode rule and the exact command line for each subcommand (`Line`). Its partner is a parser (`ParseVerb`, `ParseModuleCommand`). Lemmas show the parser recovers the subcommand, and the operand of `remove`/`link`/`unlink`, from every line.
- `Builder` (`builder.dfy`): class `Npm` with fields `options`, of type `Options(cwd: Option<string>, stdio: Stdio)`, and `args: seq<string>`. The constructor takes the process argument vector as a parameter. The setters change only what the source changes and return `this`. A synchronous subcommand takes an `Executor`, a function `(string, Options) -> Option<string>` standing for `execSync(...).toString()`. It returns that function's value on the command line and the current options, so a failure (`None`) is returned as `None` and never escapes. An asynchronous subcommand returns the `Launch(command, options)` it hands to `exec`. Its command is built by the same `Line` as the synchronous form.

Where the code and its own documentation disagree, the model follows the code:

- `run` always emits the separator `--`, even with an empty argument list. The guard `this.args ? ... : ""` (index.ts:180) reads an array, and arrays are always truthy. So `run("build")` with no arguments runs `npm run build -- `.
- `install` never reads the argument list (index.ts:82), though the doc comment at index.ts:29-47 says it does.
- The key `"--no-save"` renders as `----no-save`, not `--no-save`.
- Omitted operands leave trailing spaces: `npm install  `, `npm link `, `npm unlink `.

## Model

| member | source | states |
|---|---|---|
| Flags.RenderToken | index.ts:63-67 | a token starts with `--key`; it is exactly `--key` iff the value is `""`, otherwise a space and the value follow; the value can be read back from the token |
| Flags.RenderEntry | index.ts:59-68 | a key's element is empty exactly when its value is the empty list; otherwise it starts with `--key` |
| Flags.RenderFlags | index.ts:55-69 | `arguments(map)` stores at most one element per entry of the map |
| Flags.Kept | index.ts:55-57 | the kept entries are exactly the entries whose key is neither `$0` nor `_`; never more entries than the map |
| Flags.RenderFlagsKept | index.ts:55-69 | `arguments(map)` stores one element per kept entry, in the kept order, each the rendering of that entry |
| Flags.KeptAppend | index.ts:55-57 | the yargs-key filter keeps the order: it distributes over concatenation of maps |
| Flags.RenderFlagsAppend | index.ts:55-69 | rendering keeps the key order: it distributes over concatenation of maps |
| Flags.RenderFlagsSingle | index.ts:57-69 | a one-entry map renders to no element for a yargs key and to its single rendered element otherwise |
| Flags.RenderFlagsOrdinary | index.ts:58-69 | a map without yargs keys renders to exactly one element per entry, at the same position |
| Flags.RenderFlagsCount | index.ts:55-58 | the number of stored elements equals the number of keys minus the occurrences of `$0` and `_` |
| Flags.JoinAppend | index.ts:65 | joining two non-empty lists is joining each and putting one space between them |
| Flags.JoinEnds | index.ts:65 | a join starts with the first element, ends with the last, and a space follows the first element whenever there are two or more |
| Flags.Split | index.ts:65 | splitting at spaces gives at least one word, and no word contains a space |
| Flags.SplitJoin | index.ts:65 | splitting a join of space-free words at spaces gives back the words: the separator is one space and nothing else |
| Flags.EmptyListEntry | index.ts:59-65 | an empty list value renders to the empty element `""` |
| Flags.SingletonListEntry | index.ts:59-68 | a one-element list renders exactly like the scalar it holds |
| Flags.ListEntryAppend | index.ts:59-65 | the element of a list value is the elements of its two halves joined by one space |
| Flags.JoinTokensPairs | index.ts:59-65 | with no empty element, the element of a list value is the words `--key`, `value`, ... joined by single spaces |
| Flags.Pairs | index.ts:59-65 | the reference word list of a list value: one `""` for an empty list, otherwise `--key` at every even position and the i-th element at position 2i+1 |
| Flags.ListEntrySplits | index.ts:59-65 | for space-free, non-empty values and key, the element of a list splits into `--key`, `value` pairs, one per list element, in order |
| Flags.DoubleDashKey | index.ts:67 | the key `--no-save` with the value `""` is stored as `----no-save` |
| Flags.TwoElementList | index.ts:61-65 | the list `["a", "b"]` under `tag` renders to the one element `--tag a --tag b` |
| Flags.HandWrittenMapExample | index.ts:55-69 | a map carrying the yargs keys loses `$0` and `_`, keeps the order, and an empty list leaves `""` |
| Commands.SaveMode | index.ts:74-79 | the flag is `--save` iff `save`; `--save-dev` iff not `save` and `saveDev`; empty iff neither |
| Commands.Prefix | index.ts:82-182 | every template head starts with `npm ` and ends with a space |
| Commands.Line | index.ts:82-182 | every command line starts with `npm ` and its subcommand's word and a space |
| Commands.ParseVerb | index.ts:82-182 | a recognised subcommand is one whose prefix the line starts with |
| Commands.PrefixesDiffer | index.ts:82-182 | no subcommand's prefix is a prefix of another's |
| Commands.VerbRoundTrip | index.ts:82-182 | the subcommand read off any command line is the one it was built from |
| Commands.ModuleCommandRoundTrip | index.ts:112-158 | a `remove`, `link` or `unlink` line parses back to exactly the command, operand included |
| Commands.ParseModuleCommand | index.ts:112-158 | whatever it parses is a `remove`, `link` or `unlink` command whose line is exactly the parsed line |
| Commands.SaveHasPriority | index.ts:75-82 | with `save` set, `saveDev` does not change the install line, which ends in ` --save` |
| Commands.InstallModeRecoverable | index.ts:82 | an install line is `npm install <pkg>`, then a space at the next position, then the save flag |
| Commands.InstallLastChar | index.ts:74-82 | the last character of an install line is `e` for `--save`, `v` for `--save-dev` and a space for no flag |
| Commands.InstallLineInjective | index.ts:73-82 | two install lines are equal only when the package and the save flag are equal |
| Commands.InstallExample | index.ts:73-82 | `install("x", {save: true, saveDev: true})` runs `npm install x --save` |
| Commands.InstallDefaults | index.ts:73-82 | `install()` runs `npm install` followed by two spaces |
| Commands.RunLineShape | index.ts:180-182 | a run line is `npm run <script> -- ` followed by the arguments joined by spaces, whatever the arguments |
| Commands.RunArgsRecoverable | index.ts:180-182 | non-empty space-free arguments can be split back off the run line |
| Commands.RunWithoutArgs | index.ts:180-182 | with no arguments, `run("build")` runs `npm run build -- ` |
| Commands.RunWithFlag | index.ts:180-182 | with the arguments `["--flag"]`, `run("build")` runs `npm run build -- --flag` |
| Commands.LinkDefaults | index.ts:133-158 | `link()` and `unlink()` run `npm link ` and `npm unlink ` |
| Builder.ArgsOf | index.ts:49-69 | `false` gives the empty list; a map gives one element per kept entry, each its rendering |
| Builder.Npm.constructor | index.ts:10-15 | output shown, no working directory, arguments are the argument vector after its first two entries (empty when shorter) |
| Builder.Npm.Cwd | index.ts:18-21 | sets the working directory, keeps the output mode and the arguments, returns the same instance |
| Builder.Npm.Output | index.ts:24-27 | output is shown iff `value` (default true); keeps the directory and the arguments; returns the same instance |
| Builder.Npm.Arguments | index.ts:49-71 | the arguments become the rendering of the source (`false` empties them whatever they held); options unchanged; returns the same instance |
| Builder.Npm.ComputeSaveMode | index.ts:74-79 | the imperative if/else computes the save flag of `SaveMode` |
| Builder.Npm.Install | index.ts:73-86 | returns the executor's result for the install line with the save flag, in the current options; ignores the arguments |
| Builder.Npm.InstallAsync | index.ts:88-98 | launches the same install line with the current options |
| Builder.Npm.Remove | index.ts:110-116 | returns the executor's result for `npm remove <pkg>` |
| Builder.Npm.RemoveAsync | index.ts:118-121 | launches the same remove line |
| Builder.Npm.Link | index.ts:133-139 | returns the executor's result for `npm link <pkg>` (`pkg` defaults to `""`) |
| Builder.Npm.LinkAsync | index.ts:141-144 | launches the same link line |
| Builder.Npm.Unlink | index.ts:156-162 | returns the executor's result for `npm unlink <pkg>` (`pkg` defaults to `""`) |
| Builder.Npm.UnlinkAsync | index.ts:164-167 | launches the same unlink line |
| Builder.Npm.Run | index.ts:179-186 | returns the executor's result for the run line built from the current arguments |
| Builder.Npm.RunAsync | index.ts:188-192 | launches the same run line |
| Builder.NewNpm | index.ts:206-208 | the default export returns a fresh builder in its initial state |
| Builder.DisabledArgumentsChain | index.ts:49-53 | after `cwd`, `output(false)` and `arguments(false)` on one chain, `run("build")` runs `npm run build -- ` in that directory with output hidden |
| Builder.DocExampleInstall | index.ts:31-34 | the doc comment's `--no-save` example stores `----no-save` and runs `npm install express ` |

## Left out

- Process execution (`execSync`, `exec`): an `Executor` parameter stands in for it. The effect of `cwd` and `stdio` on the child process is not modelled, and neither is the Buffer-to-string conversion. So the claim that hiding the output does not change the captured text is not modelled either.
- The Promise and callback behaviour of the `*Async` variants is not modelled: resolving with the output, and the `throw` inside the `exec` callback escaping the surrounding `try` (index.ts:96-107). Each async variant is modelled only by the command line and options it launches.
- `process.argv`: the constructor takes the argument vector as a parameter.
- Builder.Npm.Arguments: JavaScript's `Object.keys` order (integer-like keys first) is not modelled. The flag map's order is the order of the given sequence. Duplicate keys, which an object cannot have, are rendered once per entry.
- Values that are neither strings nor string arrays cannot occur under the source's type and are not modelled. Real yargs output also holds booleans (a bare `--flag` parses as `true`) and numbers. The source would call `.map` on them at index.ts:61 and throw. The model does not cover that case.
- The options object is passed to the runner by reference in the source. The model passes a value snapshot, which is what a synchronous call observes.
- The `Executor` is a pure function of the command line and the options. So the model gives two identical calls the same result, which a real process does not promise. No contract relies on this.
- Node's own behaviour of `execSync` is not modelled. Under `stdio: "inherit"` (the default), Node captures no stdout. If `execSync` then returns `null`, the `.toString()` at index.ts:82 and its siblings throws, and the synchronous call returns `null` even on success. This is not visible in the source text.
- The compiled `dist/index.js` mirrors `index.ts` and is not modelled separately. `dist/index.d.ts` holds declarations only.
