# gravel, the query pipeline and its rule modules, in Dafny

gravel is a keyboard-driven launcher: a hotkey shows a window, the typed text goes to a
query engine, the engine asks its providers for hits, scores and orders them, and running
a hit's action makes an external call and sends messages back to the front end.

This project models:

- the query engine (`QueryEngine`): registration, blank-query short cut, keyword routing,
  fan-out to the providers without a keyword, aggregation, scoring and ordering, running
  a hit's action;
- scoring: pinned scores, the fuzzy matcher as a parameter, the stable sort by score
  descending then title ascending;
- the hit and provider-result constructors, and three providers (exec, web search, system);
- start-up: provider registration from the configuration, hotkey registration;
- the emacs-style binding parser, the hotkey `Listener` list and the conversions to the
  hotkey library's codes;
- the re-indentation of plugin default configurations, the configuration-directory
  lookup, the verbosity-to-log-level rule;
- the default front end's `Scroll` state machine, the window-height formula, and the FLTK
  front end's message conversion.

Stateful parts keep their form.
- `QueryEngine`, `Listener`, `Scroll` and the front-end channel are classes whose methods
  state the whole new state.
- The loops (`check_keywords`, `inner_query`, `aggregate_results`, `parse_binding`,
  `convert_modifiers`, the two start-up loops) are methods with invariants.
- Each such method is proved equal to a function, and the properties are proved about
  that function.

What lies outside the model is a parameter:
- the skim fuzzy matcher, `(title, query) -> Option<i64>`;
- the URL encoder;
- the plugin registry lookup;
- the queries and actions of unmodelled providers;
- the outcome of each external call (`succeeded`);
- the environment (a map);
- the platform;
- the hotkey library's modifier masks and key codes.

A hit's action closure is a tag (`Action`) naming the function the provider stored. Its
run is an `Effect`: the external call, whether a failure is logged, and the messages sent.

In `gravel-core/src/engine.rs:107-109`, `inner_query` calls `score_hits`, `trim_hits` and
`order_hits`, which are not part of this model. The model has `inner_query` use
`get_scored_hits` (`gravel-core/src/scoring.rs:22-27`).

The hotkey-registration lemmas take the binding parser as a parameter and hold for any
parser; `InitHotkeys.RegisterHotkeys` instantiates it with `HotkeyParsing.Parse`.

The FLTK front end's `get_window_height` and the default front end's `get_window_size`
compute the same formula; `WindowLayout.WindowHeight` models both.

## Model

| member | source | states |
|---|---|---|
| Strings.Split | gravel-core/src/engine.rs:69 | `split(' ')` yields at least one piece, no piece contains the separator, and joining the pieces gives back the input |
| Strings.SplitJoin | gravel-core/src/hotkeys/parsing.rs:18 | splitting a join of separator-free parts gives back exactly those parts |
| Strings.TrimStart | gravel-core/src/engine.rs:76 | `trim_start` drops exactly a whitespace prefix and leaves a suffix that starts with a non-space |
| Strings.TrimEmptyIffBlank | gravel-core/src/engine.rs:39 | `trim().is_empty()` holds exactly when every character is whitespace |
| Strings.StrLessTotal | gravel-core/src/scoring.rs:41 | `str::cmp` is total and antisymmetric on distinct strings |
| Strings.StrLessTransitive | gravel-core/src/scoring.rs:41 | `str::cmp` returning `Less` is transitive |
| Strings.Lines | gravel-core/src/config.rs:67 | `lines()` pieces contain no newline; there are none exactly for the empty input |
| Strings.LinesCons | gravel-core/src/config.rs:67 | a line ended by `\n` is one piece, with the `\r` of a `\r\n` ending removed, followed by the lines of the rest |
| Strings.LinesIsSplit | gravel-core/src/config.rs:67 | without `\r` and without a final newline, the lines are exactly the pieces between the newlines |
| Strings.LinesFinalNewline | gravel-core/src/config.rs:67 | a final newline adds no empty line after the last one |
| Strings.ReplaceAbsent | gravel-provider-websearch/src/lib.rs:53 | `replace` leaves a string without the pattern unchanged |
| Strings.ReplaceFillsPlaceholders | gravel-provider-websearch/src/lib.rs:53 | replacing `{}` by a non-empty brace-free text leaves no `{}` |
| Strings.NoPlaceholderAcross | gravel-provider-websearch/src/lib.rs:53 | two texts free of `{}` join into one free of `{}` unless a `{` meets a `}` at the seam |
| Frontend.Channel.SendAll | gravel-provider-websearch/src/lib.rs:59 | sent messages are appended in order after all earlier ones |
| ProviderApi.NewResult | gravel-core/src/provider.rs:15-17 | `ProviderResult::new(v)` holds exactly `v` |
| ProviderApi.EmptyResult | gravel-core/src/provider.rs:19-21 | `empty()` has no hits |
| ProviderApi.SingleResult | gravel-core/src/provider.rs:23-25 | `single(h)` holds exactly `[h]` |
| ProviderApi.NewWithData | gravel-core/src/provider.rs:67-80 | title, subtitle, data and action stored as given; no override score |
| ProviderApi.NewHit | gravel-core/src/provider.rs:56-62 | `SimpleHit::new` is `new_with_data` with unit data |
| ProviderApi.WithScore | gravel-core/src/provider.rs:86-89 | the override becomes `Some(s)`; title, subtitle, data and action are unchanged |
| ProviderApi.WithScoreLastWins | gravel-core/src/provider.rs:86-89 | pinning twice keeps the later score; pinning leaves a hit unchanged exactly when it already had that score |
| Scoring.AsU32 | gravel-core/src/scoring.rs:36 | `s as u32` keeps scores in range and otherwise agrees modulo 2^32 |
| Scoring.GetScore | gravel-core/src/scoring.rs:35-37 | no score exactly when the matcher has none; otherwise the match score cast `as u32`, kept as it is when in range |
| Scoring.GetScoredHit | gravel-core/src/scoring.rs:29-33 | a pinned hit gets exactly its pinned score; otherwise the hit is dropped exactly when the matcher rejects it, and is kept with the match score cast `as u32` |
| Scoring.PinnedIgnoresMatcher | gravel-core/src/scoring.rs:30 | a pinned hit's scoring does not depend on the matcher |
| Scoring.ScoreEach | gravel-core/src/scoring.rs:23-24 | the `filter_map` keeps exactly the hits that get a score, each with it |
| Scoring.ScoreEachSnoc | gravel-core/src/scoring.rs:23-24 | one more hit appends its scored form, or nothing: input order and multiplicity are kept |
| Scoring.CompareHitsTotalPreorder | gravel-core/src/scoring.rs:39-44 | `compare_hits` is `Equal` exactly on equal (score, title), antisymmetric and transitive; "in order" is "not `Greater`" |
| Scoring.InOrderTransitive | gravel-core/src/scoring.rs:39-44 | the order `compare_hits` allows is transitive |
| Scoring.Insert | gravel-core/src/scoring.rs:25 | inserting adds exactly the one element (multiset) |
| Scoring.SortHits | gravel-core/src/scoring.rs:25 | the sort is a permutation of its input |
| Scoring.InsertSorted | gravel-core/src/scoring.rs:25 | inserting into a sorted list keeps it sorted |
| Scoring.SortHitsSorted | gravel-core/src/scoring.rs:25 | the sort's output is sorted by score descending, then title ascending |
| Scoring.SameKey | gravel-core/src/scoring.rs:25 | the selected elements all have the given score and title |
| Scoring.InsertSameKey | gravel-core/src/scoring.rs:25 | insertion puts the new element before all equal-key elements already there |
| Scoring.SortHitsStable | gravel-core/src/scoring.rs:25 | `sorted_by` is stable: elements with equal score and title keep their input order |
| Scoring.GetScoredHits | gravel-core/src/scoring.rs:22-27 | the output is sorted, a permutation of the `filter_map` result, no longer than the input, and holds exactly the scored survivors |
| Scoring.GetScoredHitsStable | gravel-core/src/scoring.rs:22-27 | hits with equal score and title come out in input order |
| Scoring.PinnedHitKept | gravel-core/src/scoring.rs:30 | a pinned hit always survives with its pinned score |
| Scoring.RejectedHitDropped | gravel-core/src/scoring.rs:24 | an unpinned hit the matcher rejects is absent, not present with score 0 |
| Scoring.MaxScoreFirst | gravel-core/src/scoring.rs:8-9 | a `MAX_SCORE` hit precedes every hit with a lower score |
| ExecPlugin.Query | gravel-provider-exec/src/lib.rs:35-39 | exactly one hit: title the query, the configured subtitle, pinned at `MIN_SCORE`, action `run_command` |
| ExecPlugin.RunCommandEffect | gravel-provider-exec/src/lib.rs:42-48 | the title runs as a shell command, a failure is logged, `Hide` is sent either way |
| ExecPlugin.QuerySurvivesScoring | gravel-provider-exec/src/lib.rs:36 | for every query, the empty one included, scoring keeps exactly this hit at `MIN_SCORE` |
| WebsearchPlugin.Query | gravel-provider-websearch/src/lib.rs:36-44 | exactly one hit: title the query, the configured subtitle and URL pattern, pinned at `MIN_SCORE` |
| WebsearchPlugin.DoSearchEffect | gravel-provider-websearch/src/lib.rs:51-60 | opens the pattern with `{}` replaced by the encoded title, logs a failure, sends `Hide` either way |
| WebsearchPlugin.PatternWithoutPlaceholder | gravel-provider-websearch/src/lib.rs:53 | a pattern without `{}` is opened as configured |
| WebsearchPlugin.UrlFullyFilled | gravel-provider-websearch/src/lib.rs:52-53 | with a brace-free non-empty encoding, no placeholder is left in the URL |
| WebsearchPlugin.QuerySurvivesScoring | gravel-provider-websearch/src/lib.rs:41 | scoring keeps exactly this hit at `MIN_SCORE` whatever the matcher |
| SystemPlugin.GetExit | gravel-provider-system/src/lib.rs:54-60 | the exit hit has the configured title and subtitle, no pinned score, and sends `Exit` |
| SystemPlugin.GetHit | gravel-provider-system/src/lib.rs:62-72 | a subcommand hit has the configured texts, no pinned score, and runs its operation |
| SystemPlugin.New | gravel-provider-system/src/lib.rs:34-45 | exactly six hits, in the order exit, lock, logout, restart, shutdown, sleep |
| SystemPlugin.Query | gravel-provider-system/src/lib.rs:49-51 | the stored hits, whatever the query |
| SystemPlugin.ExitEffect | gravel-provider-system/src/lib.rs:55-57 | sends `Exit` and calls nothing |
| SystemPlugin.SubcommandEffect | gravel-provider-system/src/lib.rs:63-69 | runs the operation, logs a failure, sends `Hide` either way |
| SystemPlugin.QueryIgnoresInput | gravel-provider-system/src/lib.rs:49-51 | any two queries give the same hits; none is pinned; only the first exits |
| Dispatch.RunProvider | gravel-core/src/engine.rs:102 | `provider.query` runs the query of the provider the entry holds |
| Dispatch.PerformAction | gravel-core/src/provider.rs:93-95 | `action` runs exactly the function stored in the hit, once, on the hit |
| Dispatch.BuiltInActionsSendOneMessage | gravel-core/src/provider.rs:93-95 | each modelled action sends exactly one message (`Exit` or `Hide`) regardless of the call's outcome |
| Engine.FirstWord | gravel-core/src/engine.rs:69-70 | the first word is a space-free prefix of the query, followed by a space or the end |
| Engine.KeywordIndex | gravel-core/src/engine.rs:85-94 | the first provider, in registration order, with exactly that keyword, or none when no provider has it |
| Engine.Unkeyworded | gravel-core/src/engine.rs:56-60 | exactly the providers without a keyword |
| Engine.UnkeywordedAppend | gravel-core/src/engine.rs:56-60 | the filter keeps registration order |
| Engine.ResultsOf | gravel-core/src/engine.rs:99-104 | one result per provider, each that provider's query result |
| Engine.Aggregate | gravel-core/src/engine.rs:115-123 | a hit is in the aggregate exactly when it is in one of the results |
| Engine.TotalHitsAppend | gravel-core/src/engine.rs:115-123 | hit counts add up over concatenated result lists |
| Engine.AggregateCount | gravel-core/src/engine.rs:115-123 | no deduplication: the aggregate's size is the sum of the parts |
| Engine.AggregateAppend | gravel-core/src/engine.rs:115-123 | aggregation concatenates in provider order |
| Engine.QueryEngine.constructor | gravel-core/src/engine.rs:19-24 | a new engine has no providers and keeps the sender |
| Engine.QueryEngine.Register | gravel-core/src/engine.rs:27-35 | appends exactly one entry with the given keyword; earlier entries are unchanged |
| Engine.QueryEngine.CheckKeywords | gravel-core/src/engine.rs:85-94 | the loop with early return finds the first matching keyword |
| Engine.QueryEngine.FullQuery | gravel-core/src/engine.rs:55-63 | every keyword-less provider, on the unchanged query |
| Engine.QueryEngine.TryKeywordQuery | gravel-core/src/engine.rs:68-82 | on a match, only that provider, on the query without the first word and the whitespace after it; otherwise none |
| Engine.QueryEngine.Query | gravel-core/src/engine.rs:38-48 | the engine's answer is the routing function's |
| Engine.QueryEngine.RunHitAction | gravel-core/src/engine.rs:50-52 | runs the hit's action once; its messages go to the engine's sender after earlier ones |
| Engine.KeywordIndexIs | gravel-core/src/engine.rs:86-88 | the first index with the keyword is the one found |
| Engine.KeywordIndexNone | gravel-core/src/engine.rs:93 | no provider with the keyword gives none |
| Engine.RunInnerQuery | gravel-core/src/engine.rs:98-112 | the loop queries every given provider in order, aggregates, then scores against the same input |
| Engine.AggregateResults | gravel-core/src/engine.rs:115-123 | the append loop concatenates the results' hits in order |
| Engine.BlankQuery | gravel-core/src/engine.rs:39-41 | an all-whitespace query reaches no provider and gives no hits |
| Engine.KeywordRouting | gravel-core/src/engine.rs:72-78 | a keyword match routes to that first provider alone, with the rest of the query left-trimmed and its trailing whitespace kept |
| Engine.SingleTarget | gravel-core/src/engine.rs:98-107 | the routed provider's own hits are scored against the input it received |
| Engine.FanOut | gravel-core/src/engine.rs:55-63 | without a keyword match, exactly the keyword-less providers get the unchanged query |
| Engine.RoutedHitCount | gravel-core/src/engine.rs:115-123 | a routed query's hits number the sum of its targets' hits |
| Engine.CalcExample | gravel-core/src/engine.rs:68-82 | `calc 2+2` with a `calc`-keyworded provider goes to it alone with input `2+2` |
| InitEngine.Registered | gravel/src/init/engine.rs:12-21 | no more entries than configs |
| InitEngine.RegisteredFromConfigs | gravel/src/init/engine.rs:13-20 | each entry is a provider some config's lookup found, with that config's keyword |
| InitEngine.RegisteredAppend | gravel/src/init/engine.rs:12-21 | configs are processed in list order |
| InitEngine.RegisteredOne | gravel/src/init/engine.rs:13-20 | a failed lookup registers nothing; a successful one exactly its entry |
| InitEngine.AllFound | gravel/src/init/engine.rs:12-21 | when every lookup succeeds, one entry per config, in order, with its keyword |
| InitEngine.BuildEngine | gravel/src/init/engine.rs:9-24 | a new engine with exactly the successfully looked-up configs registered, in order |
| HotkeyParsing.LowerChar | gravel-core/src/hotkeys/parsing.rs:41 | a character lowers to an ASCII letter only from an ASCII letter or the Kelvin sign |
| HotkeyParsing.Lowercase | gravel-core/src/hotkeys/parsing.rs:41 | each character is lowered by `LowerChar`, in place; this agrees with `to_lowercase` on which key names match |
| HotkeyParsing.LowercaseIdempotent | gravel-core/src/hotkeys/parsing.rs:41 | lowering twice is lowering once |
| HotkeyParsing.ConvertModifier | gravel-core/src/hotkeys/parsing.rs:30-38 | exactly `A`, `C`, `S`, `M` succeed; anything else is `InvalidModifier` |
| HotkeyParsing.ConvertKey | gravel-core/src/hotkeys/parsing.rs:40-87 | succeeds exactly when the lower-cased name is a key name; otherwise `InvalidKey` |
| HotkeyParsing.ConvertKeyCaseInsensitive | gravel-core/src/hotkeys/parsing.rs:41 | names equal after lowering give the same key |
| HotkeyParsing.ModifiersOf | gravel-core/src/hotkeys/parsing.rs:21-25 | succeeds exactly when every segment is a modifier, then holds exactly those modifiers |
| HotkeyParsing.Assemble | gravel-core/src/hotkeys/parsing.rs:20-27 | the key error wins over a modifier error |
| HotkeyParsing.ParseBinding | gravel-core/src/hotkeys/parsing.rs:17-28 | the loop with `?` returns what the parse function does |
| HotkeyParsing.FoldModifiers | gravel-core/src/hotkeys/parsing.rs:21-25 | the modifier loop returns the union of the segments' flags, or `InvalidModifier` at the first bad segment |
| HotkeyParsing.ModifiersOfPrefixFails | gravel-core/src/hotkeys/parsing.rs:24 | a bad modifier anywhere fails the whole parse |
| HotkeyParsing.ModifiersOfAppend | gravel-core/src/hotkeys/parsing.rs:23-25 | modifiers of concatenated segments are the union |
| HotkeyParsing.ParseSegments | gravel-core/src/hotkeys/parsing.rs:17-28 | the last segment is the key and the others are modifiers |
| HotkeyParsing.ParseOfSegments | gravel-core/src/hotkeys/parsing.rs:17-28 | a converted key segment and converted modifier segments give exactly that binding |
| HotkeyParsing.ErrorPrecedence | gravel-core/src/hotkeys/parsing.rs:20-25 | an invalid key is `InvalidKey` before modifiers are checked; then a bad modifier is `InvalidModifier`; otherwise success |
| HotkeyParsing.ParseCaseInsensitiveKey | gravel-core/src/hotkeys/parsing.rs:41 | the key segment is case-insensitive |
| HotkeyParsing.ModifiersTwice | gravel-core/src/hotkeys/parsing.rs:24 | writing the modifiers twice gives the same set |
| HotkeyParsing.RepeatedModifiers | gravel-core/src/hotkeys/parsing.rs:21-25 | repeating the modifiers leaves the parse unchanged |
| HotkeyParsing.ParseSingleKey | gravel-core/src/hotkeys/parsing.rs:96-98 | `q` is no modifiers and `Q` |
| HotkeyParsing.ParseSingleModifier | gravel-core/src/hotkeys/parsing.rs:101-103 | `C-a` is {Control} and `A` |
| HotkeyParsing.ParseControlA | gravel-core/src/hotkeys/parsing.rs:101-103 | the segments `C`, `a` are {Control} and `A` |
| HotkeyParsing.ControlAltShift | gravel-core/src/hotkeys/parsing.rs:106-108 | `C`, `A`, `S` are {Control, Alt, Shift} |
| HotkeyParsing.SegmentsOfControlAltShiftS | gravel-core/src/hotkeys/parsing.rs:106-108 | `C-A-S-s` has the segments `C`, `A`, `S`, `s` |
| HotkeyParsing.ParseMultiModifier | gravel-core/src/hotkeys/parsing.rs:106-108 | `C-A-S-s` is {Control, Alt, Shift} and `S` |
| HotkeyParsing.ParseControlAltShiftS | gravel-core/src/hotkeys/parsing.rs:106-108 | the segments `C`, `A`, `S`, `s` are {Control, Alt, Shift} and `S` |
| HotkeyParsing.NoTwelveCharacterKeyName | gravel-core/src/hotkeys/parsing.rs:40-87 | no key name has twelve characters |
| HotkeyParsing.ParseGarbage | gravel-core/src/hotkeys/parsing.rs:111-114 | `garbage in - garbage out` is rejected, with `InvalidKey` |
| Hotkeys.Listener.constructor | gravel-core/src/hotkeys/mod.rs:26-28 | a new listener has no hotkeys |
| Hotkeys.Listener.Register | gravel-core/src/hotkeys/mod.rs:31-37 | appends exactly one hotkey; earlier entries are unchanged |
| Hotkeys.Listener.RegisterEmacs | gravel-core/src/hotkeys/mod.rs:47-52 | on success appends the parsed binding; on failure returns the error and leaves the list unchanged |
| Hotkeys.ModifierBitsMembers | gravel-core/src/hotkeys/mod.rs:91-99 | a bit is set in the code exactly when it is set in some member's mask |
| Hotkeys.ModifierBitsLaws | gravel-core/src/hotkeys/mod.rs:91-99 | no modifiers is 0, one modifier is its mask, a union is the OR |
| Hotkeys.ConvertModifiers | gravel-core/src/hotkeys/mod.rs:91-99 | the loop's result is the OR of the members' masks |
| Hotkeys.LetterChar | gravel-core/src/hotkeys/mod.rs:112-137 | each letter key has an upper-case ASCII letter |
| Hotkeys.ConvertKey | gravel-core/src/hotkeys/mod.rs:110-156 | a letter key's code is its upper-case ASCII code; a named key's is the library's |
| Hotkeys.LetterKey | gravel-core/src/hotkeys/mod.rs:112-137 | each upper-case letter names a letter key |
| Hotkeys.LetterKeyOfLetterChar | gravel-core/src/hotkeys/mod.rs:112-137 | a letter key's letter names that key |
| Hotkeys.LetterCodes | gravel-core/src/hotkeys/mod.rs:112-137 | letter codes lie in 65..90 and differ for different letters |
| InitHotkeys.GetControlMessage | gravel/src/init/hotkeys.rs:20-27 | `ShowHide`, `Show`, `Hide` give `ShowOrHide`, `Show`, `Hide`; `ShowWith` gives its query or `""`; never `Exit` |
| InitHotkeys.ShowWithQueries | gravel/src/init/hotkeys.rs:25 | two `ShowWith` messages are equal exactly when their queries read the same |
| InitHotkeys.HotkeyOf | gravel/src/init/hotkeys.rs:11-14 | nothing exactly when the binding does not parse; otherwise the hotkey carries the action's message |
| InitHotkeys.ValidHotkeys | gravel/src/init/hotkeys.rs:10-15 | no more hotkeys than configurations |
| InitHotkeys.ValidHotkeysAppend | gravel/src/init/hotkeys.rs:10-15 | bindings are registered in configuration order |
| InitHotkeys.InvalidSkipped | gravel/src/init/hotkeys.rs:13 | an invalid binding is skipped without stopping the loop |
| InitHotkeys.AllValid | gravel/src/init/hotkeys.rs:10-15 | when all bindings parse, one hotkey per configuration, in order |
| InitHotkeys.RegisterHotkeys | gravel/src/init/hotkeys.rs:7-18 | the listener ends with exactly the valid bindings' hotkeys, in order |
| PluginConfig.PluginConfigKey | gravel-core/src/config.rs:37 | the key is `plugin_config.` followed by the alias |
| PluginConfig.PluginConfigKeyInjective | gravel-core/src/config.rs:37 | different aliases have different keys |
| PluginConfig.PrependTwoSpaces | gravel-core/src/config.rs:81-86 | two spaces, then the line |
| PluginConfig.IndentAll | gravel-core/src/config.rs:66-69 | every line indented, in order, none added or lost |
| PluginConfig.PreprocessPluginConfig | gravel-core/src/config.rs:61-79 | the output starts with `plugin_config:\n <alias>:\n` |
| PluginConfig.BodyLines | gravel-core/src/config.rs:66-70 | after the header come exactly the input's lines, indented, in order, one per input line |
| PluginConfig.NoLinesHeaderOnly | gravel-core/src/config.rs:66-78 | an input without lines gives only the header |
| PluginConfig.NoTrailingNewline | gravel-core/src/config.rs:70 | no newline follows the last line |
| Paths.PathFrom | gravel-core/src/paths.rs:12 | `PathBuf::from` keeps the string |
| Paths.JoinPath | gravel-core/src/paths.rs:20 | `join` appends that component |
| Paths.GetHome | gravel-core/src/paths.rs:5-13 | `HOME`, or `USERPROFILE` on Windows; unset is excluded (the panic) |
| Paths.GetXdgConfigHome | gravel-core/src/paths.rs:23-29 | `XDG_CONFIG_HOME` when set, else `.config` in the home directory |
| Paths.GetGravelConfigDir | gravel-core/src/paths.rs:15-21 | `GRAVEL_CONFIG_PATH` when set, else `gravel` in the XDG configuration home |
| Paths.ConfigDirCases | gravel-core/src/paths.rs:15-29 | the three cases as whole paths, in order of precedence |
| Paths.ExplicitPathWins | gravel-core/src/paths.rs:16-18 | with `GRAVEL_CONFIG_PATH` set, no other variable or platform matters |
| Paths.ConfigDirEndsInAppName | gravel-core/src/paths.rs:16-20 | `gravel` is appended exactly when `GRAVEL_CONFIG_PATH` is unset |
| Paths.OtherHomeIgnored | gravel-core/src/paths.rs:6-10 | each platform reads only its own home variable |
| Cli.WrapI8 | gravel/src/init/cli.rs:42 | `i8` wrap-around: in-range values unchanged, otherwise equal modulo 256 |
| Cli.VerbosityOf | gravel/src/init/cli.rs:40-43 | without wrap-around, `1 - quiet + verbose` |
| Cli.LevelOf | gravel/src/init/cli.rs:46-53 | ≤ -1 is `Off`, 0 `Error`, 1 `Warn`, 2 `Info`, 3 `Debug`, ≥ 4 `Trace`, over all of `i8` |
| Cli.LevelOfMonotone | gravel/src/init/cli.rs:46-53 | a higher verbosity never gives a quieter level |
| Cli.DefaultIsWarn | gravel/src/init/cli.rs:41 | no flags is verbosity 1 and `Warn` |
| Cli.ConflictFreeVerbosity | gravel/src/init/cli.rs:34 | with one count zero and no wrap-around, verbosity is `1 + verbose` or `1 - quiet` |
| Cli.LogLevelMonotone | gravel/src/init/cli.rs:42 | without wrap-around, more `-v` never lowers and more `-q` never raises the level |
| Cli.QuietLevels | gravel/src/init/cli.rs:47-48 | from 1 to 127 `-q`: one is `Error`, more are `Off` |
| Cli.ManyVerboseFlagsSilence | gravel/src/init/cli.rs:42 | 127 `-v` wraps to -128, which is `Off`; the same sum overflows in a debug build |
| Cli.DebugOverflowCases | gravel/src/init/cli.rs:42 | with one count zero, the `i8` arithmetic overflows for exactly 127 `-v`, or 128 or 129 `-q` |
| Cli.ManyQuietFlagsWrap | gravel/src/init/cli.rs:42 | 255 `-q` casts to -1, giving verbosity 2 and `Info`, with no overflow |
| Cli.SaturatingVerbosity | gravel/src/init/cli.rs:42 | the clamped verbosity agrees with the source wherever it does not wrap |
| Cli.IntendedQuietLevels | gravel/src/init/cli.rs:42-53 | with clamping, one `-q` is `Error` and any number more is `Off` |
| Cli.IntendedLogLevelMonotone | gravel/src/init/cli.rs:42-53 | with clamping, the level is monotone for all counts and `Trace` from 3 `-v` up |
| ScrollLogic.ViewSize | gravel-frontend-default/src/scroll.rs:87-89 | the smaller of the length and the view limit |
| ScrollLogic.NewValid | gravel-frontend-default/src/scroll.rs:18-25 | `new` and `set_length` give cursor 0 and scroll 0, store the length, and are valid for a non-empty list |
| ScrollLogic.MovesPreserveValid | gravel-frontend-default/src/scroll.rs:28-77 | every movement keeps the scroll within the list and the cursor inside the view, and leaves length and limit unchanged |
| ScrollLogic.CursorMovesByOne | gravel-frontend-default/src/scroll.rs:28-45 | down at the last item wraps to 0, up at 0 wraps to the last; otherwise one step |
| ScrollLogic.UpDownInverse | gravel-frontend-default/src/scroll.rs:28-45 | up after down and down after up restore the cursor |
| ScrollLogic.Paging | gravel-frontend-default/src/scroll.rs:48-65 | page down is a page forward, cursor on the last row, or the bottom; page up mirrors it toward the top |
| ScrollLogic.EmptyListCursor | gravel-frontend-default/src/scroll.rs:74-77 | on an empty list `bottom` and `cursor_up` make the cursor -1 |
| Scrolling.Scroll.constructor | gravel-frontend-default/src/scroll.rs:18-25 | the fields are the new state |
| Scrolling.Scroll.ViewSizeOf | gravel-frontend-default/src/scroll.rs:87-89 | the view size of the current fields |
| Scrolling.Scroll.Top | gravel-frontend-default/src/scroll.rs:68-71 | cursor and scroll 0; validity kept |
| Scrolling.Scroll.Bottom | gravel-frontend-default/src/scroll.rs:74-77 | cursor on the last item and the last page in view; validity kept |
| Scrolling.Scroll.CursorUp | gravel-frontend-default/src/scroll.rs:28-35 | acts as `cursor_up`; validity kept |
| Scrolling.Scroll.CursorDown | gravel-frontend-default/src/scroll.rs:38-45 | acts as `cursor_down`; validity kept |
| Scrolling.Scroll.PageUp | gravel-frontend-default/src/scroll.rs:48-55 | acts as `page_up`; validity kept |
| Scrolling.Scroll.PageDown | gravel-frontend-default/src/scroll.rs:58-65 | acts as `page_down`; validity kept |
| Scrolling.Scroll.SetLength | gravel-frontend-default/src/scroll.rs:80-84 | new length, cursor and scroll 0 |
| WindowLayout.WindowHeight | gravel-frontend-fltk/src/builder.rs:14-21 | no hits give the minimum height |
| WindowLayout.HeightAboveMinimum | gravel-frontend-default/src/builder.rs:5-12 | from one hit on, the height is minimum plus one hit height per hit plus the padding |
| WindowLayout.HeightStep | gravel-frontend-fltk/src/builder.rs:20 | from one hit on, each further hit adds exactly one hit height |
| WindowLayout.FirstHitStep | gravel-frontend-default/src/builder.rs:6-11 | the first hit adds its height and the padding |
| WindowLayout.HeightMonotone | gravel-frontend-default/src/builder.rs:5-12 | with non-negative hit height and padding, more hits never shrink the window |
| FltkMessages.FromFrontend | gravel-frontend-fltk/src/structs.rs:42-52 | the conversion never produces a message only the user interface makes |
| FltkMessages.FromFrontendInverse | gravel-frontend-fltk/src/structs.rs:44-50 | converting back gives the original, so the conversion is injective and keeps the query |
| FltkMessages.ConversionsAreTheRest | gravel-frontend-fltk/src/structs.rs:44-50 | exactly the messages that are not interface-only are conversions |

## Left out

- Threads, the `mpsc` receiver, `spawn_listener` and the hotkey crate's event loop: only the registration list and the conversions are modelled.
- The external effects of actions (the shell, opening a URL, the OS subcommands, the clipboard): each is an `ExternalCall` value and its outcome is the `succeeded` parameter.
- The skim fuzzy matcher, `urlencoding::encode`, the plugin registry and the providers outside the three modelled ones: parameters.
- The console messages printed for a provider that is not found and for an invalid hotkey binding. The provider message names the front end and says "exiting" although the loop goes on; this is console output only.
- YAML parsing and layering in `get_plugin_config`, and `ConfigManager::new`: only the key and the text preprocessing are modelled.
- `env::var` failing on a value that is not Unicode is not modelled: a variable is set or not.
- `PathBuf::join` is modelled for relative components only, which is what `gravel` and `.config` are.
- Scrolling.Scroll: the `i32` fields are unbounded integers, so overflow of `scroll + 2 * view_size` for lists near `i32::MAX` is not modelled.
- WindowLayout.WindowHeight: `i32` overflow for huge layouts is not modelled.
- Hotkeys.ConvertModifiers: a `u32` flag word is modelled as the set of its one-bit positions, with OR as union; the masks' actual values are parameters.
- Hotkeys.ConvertKey: the codes of the named keys are the library's constants, a parameter.
- Cli.VerbosityOf: the release build's wrap-around of the `i8` subtraction and addition is modelled; a debug build panics where one of them overflows, which is stated by `Cli.DebugOverflows` and not modelled as an outcome. The `as i8` casts wrap around in every build.
- HotkeyParsing.Lowercase: Rust's `to_lowercase` lowers every cased character and can change the length (`İ` becomes two characters). The model lowers only `A`..`Z` and the Kelvin sign and keeps every other character. Of the characters it keeps, only `İ` lowers to something holding an ASCII letter, and that result also holds a combining dot; so a value matches an ASCII key name under the model exactly when it does under `to_lowercase`.
- Frontend.Channel.SendAll: a send after the receiver has been dropped returns an error, which the source discards (`.ok()`), so the message is lost; the model records every message as sent.
- The FLTK and default front ends' widgets, event loops, timers and floating-point layout; the calculator, program and kill providers; the platform-specific files.
- `Hit::get_title`, `get_subtitle` and `get_override_score`, and `SimpleHit::get_data`: the datatype's field selectors.

## Findings

| source | as written | input that shows it | evidently intended | confidence | as-written member | corrected member |
|---|---|---|---|---|---|---|
| gravel/src/init/cli.rs:42 | `1 - (quiet as i8) + (verbose as i8)` in `i8` | 127 times `-v`: the sum wraps to -128 in a release build, so logging is `Off` (a debug build panics) | more `-v` never lowers the level; 127 `-v` give `Trace` | not executed | Cli.ManyVerboseFlagsSilence | Cli.IntendedLogLevelMonotone |
| gravel/src/init/cli.rs:42 | `quiet as i8` wraps around | 255 times `-q`: the cast gives -1 and the verbosity 2, so logging is `Info`, in a debug build too | more `-q` never raises the level; 255 `-q` give `Off` | not executed | Cli.ManyQuietFlagsWrap | Cli.IntendedQuietLevels |
