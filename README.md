# OpenUI front end, modelled in Dafny

OpenUI is a web front end. A user describes or screenshots a UI component, a language model
writes the HTML, and the user refines it over several turns. This project models the parts of
its TypeScript front end that compute or change state:

- the OpenAI client layer (`api/openai.ts`):
  - how `createOrRefine`, `createOrRefineWithTools` and `convert` build their requests;
  - the streaming loops, including the incremental assembly of tool calls from stream fragments.
- the client-side tool registry and executor (`lib/toolExecutor.ts`): the five built-in tools
  (`javascript`, `html_renderer`, `create_interactive_component`, `generate_sample_data`,
  `create_chart`), `registerTool`, `getAvailableTools` and `executeTool`.
- the builder page (`pages/AI/Builder.tsx`):
  - `fixHTML`;
  - the chapter headers `newChapter` writes and the split that shows the last chapter;
  - `saveMarkdown`, `newComponent`, `handleChatSubmit` and `handleSavePrompt`.
- the history sidebar's date labels (`pages/AI/index.tsx`).
- the tool-call panel (`components/ToolExecutor.tsx`).
- the settings-like pages: environment variables and secrets with the `KEY=VALUE` bulk parser,
  rules, model providers, settings and session memory.
- the saved-prompts store and the API-key store.

Modules follow the source files:

| module | models |
|---|---|
| `OpenAI` | `api/openai.ts` |
| `ToolLibrary` | `lib/toolExecutor.ts` |
| `Builder` | `pages/AI/Builder.tsx` |
| `History` | `pages/AI/index.tsx` |
| `ToolPanel` | `components/ToolExecutor.tsx` |
| `EnvSecrets` | `pages/EnvSecrets.tsx` |
| `Rules` | `pages/Rules.tsx` |
| `Mcp` | `pages/MCP.tsx` |
| `Settings` | `pages/Settings.tsx` |
| `Memory` | `pages/Memory.tsx` |
| `Prompts` | `stores/prompts.ts` |
| `ApiKeys` | `stores/apiKeys.ts` |

Four shared modules model the JavaScript semantics the pages rely on:

- `Text`:
  - `trim` (ECMAScript white space);
  - ASCII `toLowerCase`;
  - `startsWith` and `includes`;
  - `split` and `join` on one character;
  - `replaceAll` with a string pattern, including the `$` substitution patterns.
- `Json`:
  - tool-argument values and truthiness;
  - `String()`;
  - `parseInt`;
  - object spread.
- `Lists`: `filter`, `filter` by index, and `indexOf`.
- `Wrappers`: `Option`.

How the source's shapes are modelled:

- Objects whose fields change in place are classes:
  - the tool executor's registry;
  - the tool panel's two sets;
  - the builder page's state.
- A loop in the source is a method with its invariants, proved against a function:
  - the history label pass;
  - the bulk environment parser;
  - the stream loops;
  - the field projection.
- React state updates that build a new value from the old one are functions on a page record
  (`Page`).
- Regular expressions are written as matchers. Each matcher gives the length of the match at
  the start of a text. A generic scan (`Builder.ReplaceMatches`, `Builder.LastEnd`) applies a
  matcher the way `replaceAll` and `split` apply a global regular expression.
- These outside influences are parameters:
  - the clock (`now`, `Env.elapsed`);
  - random sample values (`Env.sample`);
  - the JavaScript evaluator (`Env.runScript`);
  - `JSON.parse` (`parse`, `None` when it throws);
  - fresh ids (`newId`);
  - whether the optional callbacks were passed (`listening`);
  - the page origin (`origin`).

## Model

| member | source | states |
|---|---|---|
| Text.Trim | frontend/src/pages/Rules.tsx:13-14 | `trim` removes only leading and trailing white space; the result is empty exactly for blank text |
| Text.Split | frontend/src/pages/EnvSecrets.tsx:51-55 | `split` on one character gives at least one piece, no piece holds the separator, and joining the pieces gives the text back |
| Text.SplitJoin | frontend/src/pages/EnvSecrets.tsx:55-57 | splitting pieces joined by a separator they do not hold gives the pieces back |
| Text.ReplaceAllFirst | frontend/src/pages/AI/Builder.tsx:42-44 | `replaceAll` with a `$`-free replacement replaces the first occurrence and continues after it |
| Text.LastPieceIsTail | frontend/src/api/openai.ts:99-104 | the last piece of a split is the text after the last separator |
| Json.ParseIntOfIntToString | frontend/src/stores/prompts.ts:24 | `parseInt` reads back an integer written in decimal, whatever non-digit follows |
| Json.ParseIntSkipsSpace | frontend/src/lib/toolExecutor.ts:845 | `parseInt` skips leading white space |
| Json.Spread | frontend/src/api/openai.ts:367-374 | spreading an object copies its fields; a string or array spreads into index keys; any other value adds nothing |
| Json.IndexedKeys | frontend/src/api/openai.ts:367-374 | the keys an array spreads into are exactly its indices in decimal, each mapped to its element |
| ApiKeys.GetAPIKey | frontend/src/stores/apiKeys.ts:19-34 | the key of the provider named in any letter case; `''` for an unknown provider |
| ApiKeys.KeyLookupIgnoresCase | frontend/src/stores/apiKeys.ts:20 | names that agree after lower-casing find the same key |
| ApiKeys.DefaultKeysEmpty | frontend/src/stores/apiKeys.ts:11-17 | every lookup in the initial store gives `''` |
| ApiKeys.ProviderFromModel | frontend/src/stores/apiKeys.ts:36-47 | `gpt-`/`o1-` give openai, `claude-` anthropic, `gemini-` google, anything else openai; the result is always one of the three |
| ApiKeys.OpenAIPrefixesOnly | frontend/src/stores/apiKeys.ts:37-44 | a `gpt-`/`o1-` name has neither other prefix, so the order of the tests does not matter |
| ApiKeys.ModelKey | frontend/src/stores/apiKeys.ts:19-47 | the key used for a model is the OpenAI, Anthropic or Google key, and the Anthropic key for `claude-` models |
| Prompts.NewPrompt | frontend/src/stores/prompts.ts:23-29 | text, category and tags are copied, `createdAt` is the clock reading, and the id parses back to that reading |
| Prompts.Dispatch | frontend/src/stores/prompts.ts:16-43 | `add` puts the new prompt first, followed by the old list; `remove` keeps exactly the prompts with other ids; `clear` empties the list |
| Prompts.RemoveKeepsOrder | frontend/src/stores/prompts.ts:33-35 | `remove` works part by part on a concatenation, so the order is kept |
| Prompts.RemoveUnknownId | frontend/src/stores/prompts.ts:34 | removing an id no prompt has leaves the list unchanged |
| Prompts.RemoveAfterAdd | frontend/src/stores/prompts.ts:22-35 | removing the new prompt's id undoes the add; it also drops older prompts that share that id |
| Rules.AddCustomRule | frontend/src/pages/Rules.tsx:12-17 | blank input changes nothing; otherwise the trimmed rule goes last and the input is cleared |
| Rules.RemoveCustomRule | frontend/src/pages/Rules.tsx:19-21 | exactly the rule at the index goes, the rest keep their order; an index outside the list removes nothing |
| Rules.RemoveAddedRule | frontend/src/pages/Rules.tsx:12-21 | removing the rule just added restores the list |
| Mcp.Flipped | frontend/src/pages/MCP.tsx:22 | the new status is `'active'` exactly when the old one was not |
| Mcp.ToggleProvider | frontend/src/pages/MCP.tsx:19-25 | providers with the name flip status; names, models and all other providers are unchanged |
| Mcp.ToggleTwice | frontend/src/pages/MCP.tsx:19-25 | toggling twice restores providers whose status is active or inactive |
| Mcp.AddProvider | frontend/src/pages/MCP.tsx:27-36 | blank input changes nothing; otherwise an inactive provider with the trimmed name and the two stub models goes last and the input is cleared |
| Mcp.ActiveCountAppend | frontend/src/pages/MCP.tsx:71 | the Active Providers figure grows by one exactly for an active provider |
| Mcp.AddKeepsActiveCount | frontend/src/pages/MCP.tsx:27-36 | adding a provider leaves the Active Providers figure unchanged |
| Settings.AddApiKey | frontend/src/pages/Settings.tsx:33-35 | the `key` argument, not the name, becomes an entry with value `''` (an old value is overwritten); every other entry and input is unchanged |
| Settings.AddCustomApiKey | frontend/src/pages/Settings.tsx:37-43 | nothing happens unless both inputs are non-blank; then the untrimmed key value, not its name, becomes an entry with value `''` and both inputs are cleared |
| Settings.RemoveApiKey | frontend/src/pages/Settings.tsx:45-51 | that key is gone and every other entry is unchanged |
| Settings.RemoveAfterAdd | frontend/src/pages/Settings.tsx:33-51 | removing a newly added key restores the page |
| Settings.SetRag | frontend/src/pages/Settings.tsx:220-221 | the checkbox of that database shows the checked value; every other checkbox is unchanged |
| Memory.AddMemory | frontend/src/pages/Memory.tsx:18-23 | blank input changes nothing; otherwise `Remembered: ` plus the trimmed input goes last and the input is cleared |
| Memory.RemoveMemory | frontend/src/pages/Memory.tsx:25-27 | exactly the entry at the index goes, the others keep their order |
| Memory.RemoveButtonRemovesFirst | frontend/src/pages/Memory.tsx:80 | the Remove button of an entry removes the first equal entry |
| Memory.FilteredMemory | frontend/src/pages/Memory.tsx:40-42 | shows exactly the entries that contain the search term, case-insensitively |
| Memory.EmptySearchShowsAll | frontend/src/pages/Memory.tsx:40-42 | an empty search shows every entry in order |
| Memory.SearchKeepsOrder | frontend/src/pages/Memory.tsx:40-42 | the search keeps the order of the entries |
| Memory.ClearAll | frontend/src/pages/Memory.tsx:154-158 | a confirmed Clear All empties the list; a declined one changes nothing |
| EnvSecrets.AddEnvVar | frontend/src/pages/EnvSecrets.tsx:19-25 | acts only when both trimmed inputs are non-empty; then the trimmed name maps to the trimmed value, the other variables are kept, and both inputs are cleared |
| EnvSecrets.AddSecret | frontend/src/pages/EnvSecrets.tsx:27-33 | the same rule for the secrets table |
| EnvSecrets.RemoveEnvVar | frontend/src/pages/EnvSecrets.tsx:35-41 | exactly that variable is deleted |
| EnvSecrets.RemoveSecret | frontend/src/pages/EnvSecrets.tsx:43-49 | exactly that secret is deleted |
| EnvSecrets.RemoveAfterAdd | frontend/src/pages/EnvSecrets.tsx:19-41 | removing a newly added variable restores the table |
| EnvSecrets.ParseBulkEnvs | frontend/src/pages/EnvSecrets.tsx:51-64 | the variables parsed from the bulk text are merged over the table and the text is cleared |
| EnvSecrets.AssignLines | frontend/src/pages/EnvSecrets.tsx:55-60 | the `forEach` loop builds exactly the line-by-line assignment of the parsed entries |
| EnvSecrets.BulkVarsSnoc | frontend/src/pages/EnvSecrets.tsx:55-60 | one more line makes one more assignment, on top of the earlier ones |
| EnvSecrets.LineEntryOf | frontend/src/pages/EnvSecrets.tsx:56-58 | `key=value`, with a non-empty key without `=`, sets the trimmed key to the trimmed value; later `=` stay in the value |
| EnvSecrets.LineWithoutEquals | frontend/src/pages/EnvSecrets.tsx:56-57 | a line without `=` sets nothing |
| EnvSecrets.LineStartingWithEquals | frontend/src/pages/EnvSecrets.tsx:56-57 | a line starting with `=` sets nothing |
| EnvSecrets.BlankLineSetsNothing | frontend/src/pages/EnvSecrets.tsx:56-57 | a whitespace-only line sets nothing |
| EnvSecrets.BlankLinesSetNothing | frontend/src/pages/EnvSecrets.tsx:52 | the blank-line filter changes nothing, because a blank line sets nothing |
| EnvSecrets.FoldLastWins | frontend/src/pages/EnvSecrets.tsx:55-60 | a name is defined exactly when some entry sets it and it is not `__proto__`; its value comes from the last entry that sets it |
| EnvSecrets.BulkVarsLastWins | frontend/src/pages/EnvSecrets.tsx:51-62 | the same for the lines: a name other than `__proto__` is defined exactly when some line sets it, and the last such line wins |
| History.Step | frontend/src/pages/AI/index.tsx:165-189 | for each of the three labels, the conditions under which an item gets it; an undated item gets none; `lastLabel` never moves back |
| History.Run | frontend/src/pages/AI/index.tsx:163-189 | one label per item |
| History.Labels | frontend/src/pages/AI/index.tsx:163-189 | the item-by-item loop with the mutable `lastLabel` computes the labels of the pass over the list |
| History.RunAdvances | frontend/src/pages/AI/index.tsx:73-189 | `lastLabel` only moves forward through `''`, Today, Previous 7 days, Previous 30 days, and each label moves it |
| History.LabelsOnce | frontend/src/pages/AI/index.tsx:163-189 | no two items get the same label |
| History.RunAt | frontend/src/pages/AI/index.tsx:163-189 | the k-th label is the step taken from the state after the items before it |
| History.NoDateNoLabel | frontend/src/pages/AI/index.tsx:167-168 | an item without a creation time never gets a label |
| History.TodayOnFirstRecent | frontend/src/pages/AI/index.tsx:166-172 | in a list of recent items, only the first gets Today |
| History.RecentRunIsToday | frontend/src/pages/AI/index.tsx:166-172 | after a non-empty run of recent items, `lastLabel` is Today |
| History.NoRecentNoLabels | frontend/src/pages/AI/index.tsx:166-189 | if no item is from the last day, `lastLabel` stays `''` and no item gets a label |
| ToolPanel.Reported | frontend/src/components/ToolExecutor.tsx:43-61 | the call passed to `onExecute` keeps its id, name and arguments; its status is `'completed'` exactly when the result succeeded; on a thrown error it has the error status and message |
| ToolPanel.ReportedTime | frontend/src/components/ToolExecutor.tsx:43-51 | a reported result carries the executor's elapsed time |
| ToolPanel.ReportedMissingTool | frontend/src/components/ToolExecutor.tsx:43-51 | a call to an unregistered tool is reported as an error with the not-found message |
| ToolPanel.Toggled | frontend/src/components/ToolExecutor.tsx:71-79 | the id is present exactly when it was absent; other ids are unchanged |
| ToolPanel.ToggleTwice | frontend/src/components/ToolExecutor.tsx:71-79 | toggling twice restores the set |
| ToolPanel.StatusIcon | frontend/src/components/ToolExecutor.tsx:138-151 | one icon per known status, and the question mark exactly for unknown ones |
| ToolPanel.StatusColor | frontend/src/components/ToolExecutor.tsx:153-166 | one colour pair per known status, and gray exactly for unknown ones |
| ToolPanel.StatusesDistinct | frontend/src/components/ToolExecutor.tsx:138-166 | different known statuses have different icons and colours |
| ToolPanel.Panel.constructor | frontend/src/components/ToolExecutor.tsx:23-24 | both sets start empty |
| ToolPanel.Panel.ToggleExpanded | frontend/src/components/ToolExecutor.tsx:71-79 | the expanded set is toggled at the id; the executing set is unchanged |
| ToolPanel.Panel.ExecuteToolCall | frontend/src/components/ToolExecutor.tsx:26-69 | skips a call that is already executing; otherwise hands the executor a running call with the same id, name and arguments, reports the executor's result when listening, and restores the executing set |
| ToolLibrary.RunJavaScript | frontend/src/lib/toolExecutor.ts:34-56 | succeeds exactly when the script runs; a failure is returned as a text result with the prefixed message, never rethrown |
| ToolLibrary.RenderHtml | frontend/src/lib/toolExecutor.ts:58-82 | always succeeds with HTML metadata; the page holds the html and the css only when the css is truthy |
| ToolLibrary.FeatureList | frontend/src/lib/toolExecutor.ts:214 | one feature per comma-separated piece: one more than the number of commas |
| ToolLibrary.CreateInteractiveComponent | frontend/src/lib/toolExecutor.ts:208-229 | a non-string `features` is reported before a non-string `componentType`, each with V8's TypeError text |
| ToolLibrary.ComponentFor | frontend/src/lib/toolExecutor.ts:217-228 | the template is chosen by the lower-cased type; each template includes exactly the feature blocks whose names are listed; any other type gets the generic list |
| ToolLibrary.ComponentCaseInsensitive | frontend/src/lib/toolExecutor.ts:217 | the choice of template ignores letter case |
| ToolLibrary.GenericListsEveryFeature | frontend/src/lib/toolExecutor.ts:214-228 | the generic template lists each trimmed feature, one per piece |
| ToolLibrary.FullRecord | frontend/src/lib/toolExecutor.ts:866-876 | a record has exactly its kind's fields, and `id` is its position plus one |
| ToolLibrary.Project | frontend/src/lib/toolExecutor.ts:879-887 | keeps exactly the requested fields the record defines, with their values |
| ToolLibrary.ProjectFields | frontend/src/lib/toolExecutor.ts:879-887 | the `forEach` loop computes the projection |
| ToolLibrary.Records | frontend/src/lib/toolExecutor.ts:866 | as many records as the count (none for a negative count), each record shaped by the field list |
| ToolLibrary.ItemCount | frontend/src/lib/toolExecutor.ts:845 | `parseInt(count) \|\| 10`: NaN and 0 fall back to 10 |
| ToolLibrary.GeneratorFor | frontend/src/lib/toolExecutor.ts:848-857 | the generator named by the key, otherwise users |
| ToolLibrary.GenerateSampleData | frontend/src/lib/toolExecutor.ts:839-859 | error order: fields first, then dataType; succeeds exactly when both are usable and the count fits an array; gives as many records as the count |
| ToolLibrary.SampleIds | frontend/src/lib/toolExecutor.ts:866-869 | records carry ids 1 to n in order whenever `id` is kept |
| ToolLibrary.SampleFields | frontend/src/lib/toolExecutor.ts:879-887 | with a field list, a record's keys are exactly the requested fields its kind defines |
| ToolLibrary.SampleFallback | frontend/src/lib/toolExecutor.ts:857 | an unknown data type gives user records |
| ToolLibrary.SampleDataIsRecordList | frontend/src/lib/toolExecutor.ts:839-891 | every record is an object with keys of the chosen kind; without a field list each record has an `id` |
| ToolLibrary.GenerateSampleDataAsWritten | frontend/src/lib/toolExecutor.ts:857-858 | the lookup as written: only `constructor` yields an object instead of a list, and `__proto__` throws |
| ToolLibrary.ConstructorIsInherited | frontend/src/lib/toolExecutor.ts:857 | `constructor` is found on the prototype, though no generator is named so |
| ToolLibrary.ConstructorDataType | frontend/src/lib/toolExecutor.ts:857-858 | a `Constructor` data type gives `{}` as written, but user records under the intended fallback |
| ToolLibrary.AsWrittenAgreesElsewhere | frontend/src/lib/toolExecutor.ts:839-859 | the lookup as written and the corrected one differ only at the two inherited names: for any other data type both give the same records or the same error |
| ToolLibrary.CreateChart | frontend/src/lib/toolExecutor.ts:1059-1068 | fails exactly for `options: null`; the data points are the array's length; the title defaults to Chart |
| ToolLibrary.WithTime | frontend/src/lib/toolExecutor.ts:143-146 | `executionTime` is set and every other metadata key is kept |
| ToolLibrary.BuiltinsThatNeverThrow | frontend/src/lib/toolExecutor.ts:34-82 | `html_renderer` always succeeds, and `javascript` never rejects |
| ToolLibrary.ToolExecutor.constructor | frontend/src/lib/toolExecutor.ts:28-133 | the executor holds the five built-ins in registration order |
| ToolLibrary.ToolExecutor.RegisterTool | frontend/src/lib/toolExecutor.ts:1095-1097 | the last registration wins, and a new name goes last in the key order |
| ToolLibrary.ToolExecutor.GetAvailableTools | frontend/src/lib/toolExecutor.ts:1100-1102 | each registered name exactly once |
| ToolLibrary.ToolExecutor.ExecuteTool | frontend/src/lib/toolExecutor.ts:135-171 | a handler's result comes back with `executionTime` added; a missing tool and a thrown error become failure results |
| ToolLibrary.FailureShape | frontend/src/lib/toolExecutor.ts:150-170 | a failure result is a text result with the message and the elapsed time |
| OpenAI.VisionModel | frontend/src/api/openai.ts:96-98 | `gpt` models become `gpt-4o`; others are kept |
| OpenAI.ImageFor | frontend/src/api/openai.ts:99-104 | an `ollama/` model gets the text after the last comma, which holds no comma; what is sent is always a suffix of the image |
| OpenAI.FixCommentDetected | frontend/src/api/openai.ts:131 | a `<!--FIX (n): note-->` annotation is found wherever it sits |
| OpenAI.NoMarkerNoFix | frontend/src/api/openai.ts:131 | html without `<!--FIX (` is never taken as annotated |
| OpenAI.BuildRequest | frontend/src/api/openai.ts:69-140 | the system prompt gains the frontmatter instructions exactly when there is no html; the screenshot, plain-create and refine messages; annotated html is answered with the FIX instruction |
| OpenAI.OpenAIToolsAreBuiltins | frontend/src/api/openai.ts:397-492 | every advertised tool is a registered built-in that requires only parameters it declares; `create_chart` is not advertised |
| OpenAI.BuildToolRequest | frontend/src/api/openai.ts:231-321 | the tool-enabled request: the guide and the tool list with `tool_choice: auto` exactly when tools are enabled |
| OpenAI.BuildConvertRequest | frontend/src/api/openai.ts:170-197 | the convert messages: the substituted template, then the html and the framework request |
| OpenAI.TemplateTextDollarFree | frontend/src/api/openai.ts:158-161 | the template's only `$` characters are in its placeholders |
| OpenAI.ConvertSubstitutes | frontend/src/api/openai.ts:158-179 | for a framework name without `$`, both placeholders become the name |
| OpenAI.StreamText | frontend/src/api/openai.ts:149-155 | the callback gets each chunk's content (or `''`) in order, and the result is their concatenation |
| OpenAI.Complete | frontend/src/api/openai.ts:345-351 | a pushed call is pending; a missing id or name becomes `''` |
| OpenAI.ConsumeFragments | frontend/src/api/openai.ts:339-376 | the fragment loop computes the fragment step function; `onToolCall` sees exactly the pushed calls |
| OpenAI.ConsumeToolStream | frontend/src/api/openai.ts:323-394 | the chunk loop computes the stream function: calls, response and text callbacks |
| OpenAI.ResponseIsCallbackText | frontend/src/api/openai.ts:331-336 | the callback gets exactly the truthy content pieces, and the response is their concatenation |
| OpenAI.CallsAppendOnly | frontend/src/api/openai.ts:341-391 | `toolCalls` only grows at the end, and every pushed call is pending |
| OpenAI.EveryCallPending | frontend/src/api/openai.ts:345-351 | every returned call is pending |
| OpenAI.IndexedFragmentOpens | frontend/src/api/openai.ts:341-364 | a fragment with an index pushes the open call, if any, and opens a new one with the fragment's id and name, even when the index repeats |
| OpenAI.ArgumentsMerge | frontend/src/api/openai.ts:367-374 | argument text that parses is spread over the open call's arguments and wins; text that does not parse changes nothing |
| OpenAI.FinishKeepsCall | frontend/src/api/openai.ts:379-391 | a finish pushes the open call without closing it, so a second finish pushes it again |
| OpenAI.UnfinishedCallDropped | frontend/src/api/openai.ts:327-394 | without a finish, a stream that opens n calls returns only n - 1 of them |
| OpenAI.OneCallSplitAsWritten | frontend/src/api/openai.ts:341-374 | as written, one call streamed in three fragments comes out as three calls with empty arguments |
| OpenAI.FragmentsOfOpenCall | frontend/src/api/openai.ts:341-374 | corrected assembly: fragments of the open call (same index, or none) push nothing and extend its argument text in order |
| OpenAI.Finished | frontend/src/api/openai.ts:345-351 | corrected assembly: a finished call's arguments are its whole argument text, parsed once |
| OpenAI.OneCallJoinedCorrected | frontend/src/api/openai.ts:341-391 | the corrected assembly gives one call with the id, the name and the parse of the joined argument text |
| Builder.NewChapterShape | frontend/src/pages/AI/Builder.tsx:74-77 | `newChapter(p)` is a blank line, the header `---\nprompt: p\n---`, and a blank line |
| Builder.HeaderOfNewChapter | frontend/src/pages/AI/Builder.tsx:74-99 | the header `newChapter` writes for a one-line prompt is matched by the split pattern, exactly up to its closing `---` |
| Builder.HeaderAt | frontend/src/pages/AI/Builder.tsx:99 | a header match starts with `---\nprompt:`, runs to the end of the line and ends with `\n---` |
| Builder.ScanLastMatch | frontend/src/pages/AI/Builder.tsx:99 | the last piece of the split starts after the last match the scan reaches |
| Builder.LastChapterOfNewChapter | frontend/src/pages/AI/Builder.tsx:171-172 | the page shows `"\n\n" + x` for `m + newChapter(p) + x`, when p is one line and x holds no header |
| Builder.AudioAt | frontend/src/pages/AI/Builder.tsx:46 | a match of the audio pattern covers at least its two quotes and lies within the text |
| Builder.AudioAtLink | frontend/src/pages/AI/Builder.tsx:46 | a quoted `.mp3`/`.wav` name, in either kind of quote, is matched up to and including its closing quote |
| Builder.CommentAt | frontend/src/pages/AI/Builder.tsx:48 | a comment match is at least `<!---->` long and lies within the text |
| Builder.CloseFrom | frontend/src/pages/AI/Builder.tsx:48 | the lazy `[\s\S]*?` finds the first `-->` from a position, or reports that there is none |
| Builder.CommentAtComment | frontend/src/pages/AI/Builder.tsx:48 | a comment whose body holds no `-->` is matched up to its closing `-->` |
| Builder.ScanCopies | frontend/src/pages/AI/Builder.tsx:46-48 | text where no match starts is copied unchanged by the global replacement |
| Builder.ScanReplaces | frontend/src/pages/AI/Builder.tsx:46-48 | a match at the start is replaced, and the scan resumes after it |
| Builder.FixHTMLStages | frontend/src/pages/AI/Builder.tsx:40-50 | the fixes run in order: gray to zinc, placeholder host, audio, comments; the first two replace every non-overlapping occurrence from left to right |
| Builder.AudioLinkRedirected | frontend/src/pages/AI/Builder.tsx:46 | a quoted `.mp3`/`.wav` name becomes the page's own sound, double-quoted |
| Builder.CommentDropped | frontend/src/pages/AI/Builder.tsx:48 | a comment is removed up to its first `-->` |
| Builder.FixHTMLUnchanged | frontend/src/pages/AI/Builder.tsx:40-50 | html without the two strings, quotes or `<` is unchanged |
| Builder.Page.constructor | frontend/src/pages/AI/Builder.tsx:99-106 | the page shows the last chapter of the item's markdown, is editing exactly when that chapter is non-empty, and starts from the item's html |
| Builder.Page.SaveMarkdown | frontend/src/pages/AI/Builder.tsx:179-193 | blank output leaves the page as it is; other output is appended to the item's markdown (a missing markdown counting as empty) and the history is saved once |
| Builder.Page.NewComponent | frontend/src/pages/AI/Builder.tsx:315-325 | the markdown is cleared, an item with the prompt and the creation time is registered under the new id, the id goes first in the history, and the page goes to `/ai/<id>?gen=1&clear=<clear>` |
| Builder.Page.HandleChatSubmit | frontend/src/pages/AI/Builder.tsx:327-345 | nothing with neither query nor screenshot; in create mode a new component, cleared exactly when there is no screenshot; otherwise the markdown is cleared, the item gains a chapter header for the query and the query in its prompts, and a refinement of the current html is requested |
| Builder.Page.HandleSavePrompt | frontend/src/pages/AI/Builder.tsx:353-362 | the prompt is added first to the saved prompts, filed as UI Modification when editing and UI Creation otherwise, tagged with the model and the action |
| Builder.SaveGuard | frontend/src/pages/AI/Builder.tsx:183-190 | saving changes the page exactly when the output is not blank, and then only appends the output to the markdown |
| Builder.RefineThenSave | frontend/src/pages/AI/Builder.tsx:337-342 | after a refinement and the save of its output, the page's current chapter is that output |
| Builder.SubmitCases | frontend/src/pages/AI/Builder.tsx:328-336 | nothing happens with neither text nor screenshot; a refinement is requested exactly when editing; a new component is made exactly when not editing |
| Builder.RefineRecordsQuery | frontend/src/pages/AI/Builder.tsx:337-344 | a refinement requests the query against the current html, clears the markdown and appends the query to the prompts, the first prompt staying first |
| Builder.CreateNavigates | frontend/src/pages/AI/Builder.tsx:315-325 | a new item is registered under its id at the head of the history, and the page goes to it asking to generate, with `clear` true exactly when there is no screenshot |
| Builder.SavedPromptTags | frontend/src/pages/AI/Builder.tsx:353-362 | the saved prompt comes first, filed as UI Modification when editing and UI Creation otherwise, and tagged with the model and the action |

## Left out

- Rendering, styling and every JSX tree are not modelled. Neither are the HTML text of the
  generated components, tool pages and charts. The model records what decides that text: the
  template, the feature blocks included, the css, the title and the data-point count.
- Network calls are not modelled: the OpenAI client, `getShare`, and the async streaming.
  - The model takes the stream as a sequence of chunks.
  - It takes a request as the values it is built from.
- `streamResponse` and the React effects are not modelled:
  - the effect that recomputes `editing`;
  - the effect that auto-submits an annotation, which appends `newChapter(comments[0])` to the
    markdown and streams a refinement (Builder.tsx lines 438-447);
  - the effect that parses the markdown into HTML and calls `fixHTML`;
  - the keyboard handlers.
  - A refinement is recorded as a request `Builder.Request`.
  - `parseMarkdown` (lib/markdown) is not part of this model.
- React state staleness, batching and concurrency between handlers are not modelled. Each
  handler sees the state it is called on.
- Integer widths and floating point are not modelled:
  - numbers are integers;
  - `Date` values are clock readings in milliseconds;
  - the `Date` objects in the history comparisons are those readings.
- The `executeJavaScript` sandbox is a parameter, `Env.runScript`.
- Random sample values, the clock and `nanoid` are parameters.
  - Several reads of `Date.now()` within one call are taken as one reading.
  - The push-time timestamp of streamed calls is not modelled.
- `JSON.parse` is a parameter. `JSON.stringify` of chart data is left out.
- Text.LowerChar is ASCII-only. JavaScript's `toLowerCase` also lowers non-ASCII letters.
  Every comparison in the source that lower-cases (provider names, component types, data
  types, the memory search) is modelled with ASCII lowering.
- Emoji are single characters (code points), not UTF-16 pairs. This affects only the length of
  `ToolPanel.StatusIcon`'s results.
- The key order of plain objects is lost.
  - Maps model the variable tables, the API keys and the tool arguments.
  - Insertion order is kept only for the tool registry (`ToolExecutor.names`).
- Inherited `Object.prototype` names are not modelled in the field projection of sample
  records. `(rec)[field] !== undefined` also sees names such as `toString`.
  - `ToolLibrary.Project` reads own fields only.
  - The same lookup in the generator table is modelled, as a finding.
- ToolLibrary.RunBuiltin runs the corrected `GenerateSampleData` for `generate_sample_data`, not the lookup as written at toolExecutor.ts:857-858. So `ToolExecutor.ExecuteTool` and `Panel.ExecuteToolCall` do not show the two failures in the Findings table. In the source, a `dataType` of `constructor` (in any letter case) resolves with `{}`, and `__proto__` ends in a failure result with `generator is not a function`. For every other data type the two agree (`ToolLibrary.AsWrittenAgreesElsewhere`).
- ToolPanel.Panel.ExecuteToolCall: the `catch` branch is unreachable through `executeTool`,
  which never rejects. That branch is modelled by `ToolPanel.Reported` on a thrown outcome.
- Builder.ReplaceMatches: a matcher that reports an empty or overlong match is treated as no
  match. The two regular expressions of `fixHTML` never do that.
- Builder.RedirectAudio takes `origin` literally. A `$` sequence in the origin, which
  `replaceAll` would expand, is not modelled. Origins hold no `$`.
- Builder.Page.NewComponent: the history atom family is a map from id to item. It assumes a
  fresh `newId`. An existing atom under the same id, which the family would reuse, is not
  modelled.
- Json.Interpolated writes a missing item markdown as `undefined`, as the template does.
  No lemma relies on the item's markdown being present.
- The page's `historySaves` counts `saveHistory()` calls. What `saveHistory` writes to storage
  is not part of this model.
- OpenAI.BuildRequest does not model system prompts other than the given one. The default
  `systemPrompt` text is not modelled.
- `savedPromptsActionsAtom`'s read side is the list itself.
- Settings.RagChecked reads a missing flag as unchecked (`!!undefined`).

## Findings

| source | as written | input that shows it | evidently intended | confidence | as-written member | corrected member |
|---|---|---|---|---|---|---|
| frontend/src/lib/toolExecutor.ts:857 | `generators[dataType.toLowerCase()] \|\| generators.users` also finds names inherited from `Object.prototype` | `dataType: "Constructor"` gives `{}` (the `Object` function called with no argument), and `"__proto__"` throws `generator is not a function` | any name that is not one of the six generators falls back to the user records | not executed | ToolLibrary.GenerateSampleDataAsWritten, ToolLibrary.ConstructorDataType | ToolLibrary.GenerateSampleData |
| frontend/src/api/openai.ts:341-364 | every fragment with an `index` closes the open call and opens a new one; each argument piece is parsed on its own | one call streamed as an opening fragment and two argument fragments, all with `index: 0`, comes out as three calls: the first with empty arguments, two with empty id and name | only a new index starts a new call, and the joined argument text is parsed once when the call is finished | not executed | OpenAI.OneCallSplitAsWritten | OpenAI.OneCallJoinedCorrected |
