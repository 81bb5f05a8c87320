# Trading-bot dashboard: verified model of its state logic

The dashboard is a single-page UI over mock trading bots. This project models the parts of it that
hold sequential logic, and proves what they promise:

- the bot record types and their per-strategy configuration shapes (`Types`);
- the bot registry of the Bots page (`Bots`): the seed roster, the row's start/stop toggle, the
  two-second PnL tick, save-by-id and add-with-default-config;
- the settings dialog (`BotConfigEditor`): the inputs rendered per strategy, the keyed field
  update and the save that replaces only the config;
- the add-bot dialog's submit guard (`AddBotForm`);
- the translation lookup `t` (`Localization`): the table lookup with key fallback and the
  sequential `{{name}}` substitution;
- the AI Brain chat (`AIBrainChat`) and the market-analysis request (`MarketAnalysisPanel`) as
  two-phase state machines: submit, then complete with a reply or an error.

`JsStrings` states the JavaScript string operations these rely on: `trim` with its full
whitespace set, ASCII `toUpperCase`, `indexOf`, and `replace` with a string pattern. That
`replace` replaces the first occurrence only and expands `$$`, `$&`, `` $` `` and `$'` in the
replacement text, as section 22.1.3.19.1 (GetSubstitution) of ECMA-262 says. `Wrappers` holds
the shared `Option` type.

Held component state becomes a class with one field per piece of state, and methods whose
`ensures` give the whole new state. A few fields stand instead for values an in-flight handler
closed over: `Chat.pending` is the handler's `newMessages`, and the `captured` fields of `Chat`
and `Panel` hold the language and tables of the `t` the handler was created with. The transforms inside them are pure functions with lemmas.
`t` is a method with a loop, proved against the function `Localization.Translate`.

Behaviour that may surprise a reader:
- Saving a config replaces the whole record whose id matches, with the bot the dialog hands
  back. It does not replace the config field alone.
- The toggle maps both Inactive and Error to Active.
- The add-bot guard rejects whitespace-only names and symbols as well as empty ones. Neither
  value is trimmed when passed on; the symbol is only upper-cased.

## Model

| member | source | states |
|---|---|---|
| Types.ParseFrequency | types.ts:17 | a string parses to a frequency exactly when it is that frequency's tag; any other string is rejected |
| Types.FrequencyRoundTrip | types.ts:17 | reading back a frequency's tag gives that frequency |
| Types.EnumValuesDistinct | types.ts:1-13 | distinct statuses, strategies and frequencies have distinct string values |
| Types.StatusValue | types.ts:1-5 | the string value of each bot status; EnumValuesDistinct states that the values are distinct |
| Types.StrategyValue | types.ts:7-13 | the string value of each strategy; EnumValuesDistinct states that the values are distinct |
| Types.FrequencyTag | types.ts:17 | the tag of each DCA frequency; ParseFrequency and FrequencyRoundTrip state that it is invertible |
| Types.StrategyOf | types.ts:15-36 | the strategy whose config interface a config value has; ConfigMatches ties it to a bot, and DefaultConfig and HandleChange keep it |
| Types.FieldsOf | types.ts:15-36 | each config shape has its fixed field set; only Arbitrage has none |
| Types.FieldValueOf | types.ts:15-36 | a field name has a value exactly when it is one of the config's fields |
| Types.FieldViewDetermines | types.ts:15-46 | two configs of one strategy that agree on every field are equal |
| Bots.InitialBots | components/Bots.tsx:7-13 | five seed bots with distinct ids '1'..'5', each config matching its strategy |
| Bots.Toggle | components/Bots.tsx:32-37 | Active becomes Inactive, Inactive and Error become Active; no other field changes |
| Bots.ToggleTwice | components/Bots.tsx:32-37 | two toggles restore an Active or Inactive bot and take an Error bot to Inactive |
| Bots.TickBotEffect | components/Bots.tsx:86-91 | a non-Active bot is unchanged; an Active bot changes only its pnl, by an amount in [-2.25, 2.75) |
| Bots.TickBot | components/Bots.tsx:87-90 | one bot's step of the tick; TickBotEffect states its effect and bound |
| Bots.TickScenario | components/Bots.tsx:88 | seed bot '1' with draw 0.5 moves from 450.21 to 450.46 |
| Bots.TickAll | components/Bots.tsx:86-91 | the tick over the whole registry, one draw per position; TickAllAt states it pointwise |
| Bots.TickAllAt | components/Bots.tsx:86-91 | the tick keeps length and order: position i holds bot i after its own step |
| Bots.TickKeepsMatch | components/Bots.tsx:86-91 | a tick keeps every config matching its strategy |
| Bots.SaveById | components/Bots.tsx:97 | the id-matching `map` of a save; SaveByIdAt states it pointwise and SaveUnknownId the unknown-id case |
| Bots.SaveByIdAt | components/Bots.tsx:97 | save keeps the length, replaces exactly the records with the saved id and keeps all others |
| Bots.SaveUnknownId | components/Bots.tsx:97 | saving an id that is not in the registry leaves it unchanged |
| Bots.SaveKeepsMatch | components/Bots.tsx:97 | a save keeps every config matching when the saved bot's config matches |
| Bots.DefaultConfig | components/Bots.tsx:102-116 | the default config of a strategy has that strategy's shape |
| Bots.NewBot | components/Bots.tsx:118-125 | the new bot has the given id, name, symbol and strategy, is Inactive with pnl 0 and allocation 0, and has the default config |
| Bots.Registry.constructor | components/Bots.tsx:79-81 | the registry starts as the seed roster, with no bot being edited and the add dialog closed |
| Bots.Registry.Tick | components/Bots.tsx:84-94 | the registry becomes the tick of the old one; non-Active bots are unchanged; Active ones change only pnl, within [-2.25, 2.75) |
| Bots.Registry.OpenEditor | components/Bots.tsx:158 | the settings button makes the row's bot the one being edited |
| Bots.Registry.CloseEditor | components/Bots.tsx:165 | closing the dialog clears the bot being edited |
| Bots.Registry.SaveConfig | components/Bots.tsx:96-99 | records with the saved id are replaced by it, all others kept; the dialog closes |
| Bots.Registry.OpenAddModal | components/Bots.tsx:135 | the add dialog opens |
| Bots.Registry.CloseAddModal | components/Bots.tsx:171 | the add dialog closes |
| Bots.Registry.AddBot | components/Bots.tsx:101-128 | exactly one new record is appended after the unchanged old ones, and the dialog closes |
| BotConfigEditor.EditorFieldsAreConfigFields | components/BotConfigModal.tsx:65-106 | the inputs rendered for a strategy are exactly its config's fields, in order; Arbitrage has none; the frequency is a select, the rest are number inputs |
| BotConfigEditor.EditorFields | components/BotConfigModal.tsx:65-106 | the inputs rendered per strategy; EditorFieldsAreConfigFields states that they are the config's fields with their kinds |
| BotConfigEditor.FrequencyOptions | components/BotConfigModal.tsx:69 | the options of the frequency select; FrequencyChoices states that they are the four tags |
| BotConfigEditor.FrequencyChoices | components/BotConfigModal.tsx:69 | the frequency options are exactly the four frequency tags |
| BotConfigEditor.HandleChange | components/BotConfigModal.tsx:53-59 | the named field now holds the event's value (a number for a number input, the raw option string for the select); every other field and the shape are kept |
| BotConfigEditor.ChangeLaws | components/BotConfigModal.tsx:53-59 | repeating a change changes nothing more; changes to two different fields commute |
| BotConfigEditor.ConfigEditor.constructor | components/BotConfigModal.tsx:46 | the edited config starts as the bot's config |
| BotConfigEditor.ConfigEditor.BotChanged | components/BotConfigModal.tsx:49-51 | a new bot resets the edited config to that bot's config |
| BotConfigEditor.ConfigEditor.Change | components/BotConfigModal.tsx:53-59 | the edited config becomes the keyed update of the old one and keeps the bot's strategy shape |
| BotConfigEditor.ConfigEditor.Save | components/BotConfigModal.tsx:61-63 | with no validation, the bot handed on equals the dialog's bot in every field but the config, which is the edited one |
| AddBotForm.InitialForm | components/AddBotModal.tsx:44-46 | the form opens with empty name and symbol and strategy DCA |
| AddBotForm.Submit | components/AddBotModal.tsx:49-56 | rejected exactly when the name or the symbol is all whitespace; otherwise passes the untrimmed name, the upper-cased symbol and the strategy |
| AddBotForm.BlankFormsRejected | components/AddBotModal.tsx:51-54 | the untouched form and any form whose name or symbol consists only of spaces are rejected |
| AddBotForm.SubmitDoesNotTrim | components/AddBotModal.tsx:55 | surrounding spaces of name and symbol are passed on |
| AddBotForm.AcceptedFormAdds | components/AddBotModal.tsx:51-55 | an accepted form yields an Inactive bot with the form's name, strategy and upper-cased symbol, none of them blank |
| JsStrings.SkipLeading | components/AddBotModal.tsx:51 | the scan stops at the first non-whitespace character at or after the start, or at the end; everything it passes is whitespace |
| JsStrings.SkipTrailing | components/AddBotModal.tsx:51 | the scan backs up past exactly the trailing whitespace of the range, stopping after its last non-whitespace character or at its start |
| JsStrings.Trim | components/AddBotModal.tsx:51 | `trim` never lengthens its argument; TrimSplits states what it keeps and BlankIffAllWhitespace when it is empty |
| JsStrings.IsBlank | components/AddBotModal.tsx:51 | the falsy test on a trimmed value; BlankIffAllWhitespace states that it holds exactly for all-whitespace strings |
| JsStrings.BlankIffAllWhitespace | components/AddBotModal.tsx:51 | a string trims to empty exactly when every character is whitespace |
| JsStrings.TrimSplits | components/AIBrain.tsx:53 | the trimmed text sits between a whitespace prefix and a whitespace suffix and neither starts nor ends with whitespace |
| JsStrings.ToUpper | components/AddBotModal.tsx:55 | upper-casing keeps the length |
| JsStrings.UpperProperties | components/AddBotModal.tsx:55 | no lower-case ASCII letter is left, other characters are kept, and upper-casing is idempotent |
| JsStrings.UpperKeepsBlank | components/AddBotModal.tsx:55 | a symbol is blank after upper-casing exactly when it was before |
| JsStrings.UpperCharKeepsWhitespace | components/AddBotModal.tsx:55 | upper-casing a character neither creates nor removes whitespace |
| JsStrings.FindFrom | contexts/LanguageContext.tsx:49 | the result is the first occurrence at or after the start, or none when there is none |
| JsStrings.IndexOf | contexts/LanguageContext.tsx:49 | the result is the first occurrence of the pattern in the whole string, or none when there is none |
| JsStrings.ExpandVerbatim | contexts/LanguageContext.tsx:49 | a replacement text without `$` is inserted verbatim |
| JsStrings.Expand | contexts/LanguageContext.tsx:49 | the replacement text with `$$`, `$&`, `` $` `` and `$'` expanded; ExpandVerbatim states that `$`-free text is kept as is |
| JsStrings.ReplaceFirst | contexts/LanguageContext.tsx:49 | `replace` with a string pattern; ReplaceFirstSpec, ReplaceVerbatim and ReplaceKeepsLaterOccurrence state what it does |
| JsStrings.ReplaceFirstSpec | contexts/LanguageContext.tsx:49 | for any replacement text: with no occurrence nothing changes; otherwise the text before the first occurrence, which holds none, is kept, the occurrence gives way to the expanded replacement, and the text after it is kept |
| JsStrings.ReplaceVerbatim | contexts/LanguageContext.tsx:49 | a replacement text without `$` replaces the first occurrence verbatim |
| JsStrings.ReplaceKeepsLaterOccurrence | contexts/LanguageContext.tsx:49 | for any replacement text, a later occurrence of the pattern survives, shifted by the change in length |
| JsStrings.VerbatimKeepsLaterOccurrence | contexts/LanguageContext.tsx:49 | with a `$`-free replacement text the shift is the replacement's length minus the pattern's |
| Localization.Placeholder | contexts/LanguageContext.tsx:49 | an option's placeholder is exactly its name wrapped in double braces |
| Localization.Template | contexts/LanguageContext.tsx:45 | the template is the key when the key is missing or translated to the empty string, and the translation otherwise |
| Localization.SubstituteAll | contexts/LanguageContext.tsx:47-51 | the options applied one after another in order; SubstituteOne, SubstituteTwo, AbsentPlaceholdersKeepText, FirstOccurrenceOnly and OptionsApplyInOrder state what it does |
| Localization.Translate | contexts/LanguageContext.tsx:39-53 | the value of `t`; NotLoadedGivesKey, NoOptionsGivesTemplate and LoadFailureFallsBackToKey state its cases, and LanguageProvider.T is proved equal to it |
| Localization.NotLoadedGivesKey | contexts/LanguageContext.tsx:40-43 | with no table loaded for the language, the key comes back unchanged, options or not |
| Localization.NoOptionsGivesTemplate | contexts/LanguageContext.tsx:45-52 | without options the result is the looked-up template, falling back to the key |
| Localization.AbsentPlaceholdersKeepText | contexts/LanguageContext.tsx:47-51 | options whose placeholders do not occur leave the text unchanged |
| Localization.SubstituteOne | contexts/LanguageContext.tsx:48-50 | one option is one first-occurrence replace |
| Localization.SubstituteTwo | contexts/LanguageContext.tsx:48-50 | two options are two replaces, the first option's first |
| Localization.FirstOccurrenceOnly | contexts/LanguageContext.tsx:49 | a second occurrence of a placeholder stays in the text |
| Localization.OptionsApplyInOrder | contexts/LanguageContext.tsx:48-50 | a later option fills a placeholder an earlier one inserted, and not in the other order |
| Localization.LoadFailedTables | contexts/LanguageContext.tsx:32 | after a failed load both languages have empty tables |
| Localization.LoadFailureFallsBackToKey | contexts/LanguageContext.tsx:29-33 | after a failed load the key is the template and its placeholders are still substituted |
| Localization.LanguageProvider.constructor | contexts/LanguageContext.tsx:16-17 | the language starts as 'vi' and no table is loaded |
| Localization.LanguageProvider.SetLanguage | contexts/LanguageContext.tsx:16 | the language becomes the chosen one |
| Localization.LanguageProvider.LoadSucceeded | contexts/LanguageContext.tsx:28 | both tables are the fetched ones |
| Localization.LanguageProvider.LoadFailed | contexts/LanguageContext.tsx:32 | both tables are empty |
| Localization.LanguageProvider.T | contexts/LanguageContext.tsx:39-53 | the substitution loop computes exactly Translate of the state, key and options |
| AIBrainChat.Chat.constructor | components/AIBrain.tsx:31-33 | the chat starts with no messages, an empty box and no request in flight |
| AIBrainChat.Chat.Type | components/AIBrain.tsx:139 | typing sets the box's text |
| AIBrainChat.Chat.Submit | components/AIBrain.tsx:51-59 | a blank input or a request in flight changes nothing; otherwise the trimmed text is appended as a user message, the box cleared, the latch set, the provider state of `t` kept for the completion, and the trimmed text sent |
| AIBrainChat.Chat.Reply | components/AIBrain.tsx:61-69 | the reply is appended as one AI message after the unchanged transcript and the latch is released |
| AIBrainChat.Chat.Fail | components/AIBrain.tsx:64-70 | one AI message "Error: " plus the error's message, or the fallback translated with the provider state kept at submission, is appended and the latch released |
| AIBrainChat.Exchange | components/AIBrain.tsx:51-70 | a whole exchange appends exactly the trimmed user message and the reply, or nothing for a blank input |
| MarketAnalysisPanel.Panel.constructor | components/MarketAnalysis.tsx:36-39 | topic 'BTC Halving', no analysis, no error, not loading |
| MarketAnalysisPanel.Panel.SetTopic | components/MarketAnalysis.tsx:73 | typing sets the topic |
| MarketAnalysisPanel.Panel.Analyze | components/MarketAnalysis.tsx:42-51 | a blank topic sets the translated `error_enterTopic` and touches nothing else; otherwise the latch is set, error and analysis cleared, the provider state of `t` kept for the completion, and the untrimmed topic sent |
| MarketAnalysisPanel.Panel.Succeed | components/MarketAnalysis.tsx:52-58 | the analysis becomes the result, the error stays cleared, the latch is released |
| MarketAnalysisPanel.Panel.Fail | components/MarketAnalysis.tsx:53-59 | the error becomes `error_fetchAnalysis` translated with the provider state kept when the request started, the analysis stays empty, the latch is released |

## Left out

- services/geminiService.ts is not part of this model. The replies of the generative-language service are opaque strings given to `Reply` and `Succeed`. A thrown failure is a parameter of `Fail`. The service itself catches every error and returns text, so the chat's error branch is defensive.
- Randomness: each `Math.random` draw of the tick is a parameter, one per registry position, and only Active positions use theirs.
- Ids: the new bot's id (`Date.now()` in the source) is a parameter. Nothing checks that ids are unique, and the model does not claim they are.
- Floating point: pnl, allocations and config numbers are exact reals. IEEE rounding, `toFixed`, `String(number)` and `parseFloat` are not modelled. A number input delivers its already-parsed number, so the NaN of a cleared field is not represented.
- The `language` argument sent with each advice or analysis request is not part of the request value. The handler's captured `t` is modelled by copying the provider's language and tables at submission.
- Timers and `await`: the interval tick and the two completions are explicit method calls. There is no interleaving.
- I/O: fetching the locale files becomes the two methods `LoadSucceeded` and `LoadFailed`. The blocking `alert()` on a rejected add is a `None` result.
- The row's local copy of its bot: `BotRow` copies the bot into its own state when it first renders, and a toggle changes only that copy. `Toggle` is a pure function on one bot. The toggled status reaches the registry only through a later save from that row's settings dialog: the row hands its copy to `setEditingBot` (components/Bots.tsx:56, 158), the dialog saves it with the edited config, and the save replaces the record with that id. That save also writes back the pnl of the copy, which is stale, over the ticked one. `Bots.Registry.OpenEditor`'s parameter stands for the row's copy; the row's own state is not a field of the model.
- Object keys in lookups: a table is a plain map. Inherited keys of a JavaScript object (such as `constructor`) are not modelled. Options are a sequence in `Object.keys` order, and the reordering of integer-like keys is not modelled.
- BotConfigEditor.HandleChange: requires that the event comes from an input rendered for the config's strategy, with a value of that input's kind. That is the only way the dialog raises one. A foreign name would add a stray key to the JavaScript object, and the model does not represent that.
- MarketAnalysisPanel.Panel.Analyze: requires that no request is in flight, because its button is disabled while loading.
- JsStrings.ToUpper: upper-cases ASCII letters only. Unicode case mapping is not modelled.
- Rendering: components/Sidebar.tsx, components/Header.tsx, App.tsx and components/SystemHealth.tsx are not modelled. Neither are the colour switches, the charts, the Dashboard random walk or `generatePriceData`. The `SystemStatus`, `SystemComponent` and `Page` declarations of types.ts are only used by rendering.
