# AI Translator add-on: a Dafny model

The add-on translates Minecraft chat. A player picks a language with `/translator set <code>`. When
someone chats, the add-on cancels the vanilla message. It asks an AI provider for one translation
per language in use, going through an expiring LRU cache. Each player then sees the line for their
language on a hologram under their name tag.

This project models that core and proves what it promises:

- `Cache` (translation_cache.dfy): the expiring LRU cache `TranslationCache`. A class keeps the map
  and an explicit recency order. The pure steps `PutStep` and `GetStep` say what `put` and `get` do.
  Lemmas prove the capacity bound, exact LRU eviction, the time-to-live rule (a strict `>`, so an
  entry exactly `ttl` seconds old is still served) and the key's normalisation and injectivity.
- `Service` (translation_service.dfy): `translateOncePerLanguage`, run as two phases.
  - The loop of cache `get`s turns hits into results and misses into tasks.
  - The tasks call the provider, post-process the reply, `put` it in the cache and record it.
  - The reply post-processing (trim, strip one pair of quotes, trim again) is a pure function with
    its own lemmas.
- `Registry` (lang_registry.dfy): the ISO 639-1 two-letter codes and `isValid`.
- `TabCompletion` (tab_completer.dfy) and `Addon.TabComplete` (translator.dfy): the two completers.
  `Addon` also holds the storage-backend choice of `onLoad`, the cache defaults and the test-mode
  registry.
- `Command` (translator_command.dfy): `/translator` dispatch as a function over the preference map
  and the test-mode set. The class method performs it on the store and the registry.
- `PlayerStore` (player_lang_store.dfy): the UUID-to-lowercase-code map and the YAML branch of
  `load`.
- `Hologram` (hologram_manager.dfy): the auto-split of `showEphemeral` into a `<name>` line and a
  message line, and the three per-player maps that `showEphemeral`, `clear` and `shutdown` update.
- `Chat` (chat_listener.dfy): `onChat`, as follows.
  - Recipients are grouped by stored language.
  - The target languages are the non-blank keys.
  - Each group gets its line, and the sender gets the "You" line.
  - The lines are shown on the holograms. `HologramsAfterChat` proves end to end what each
    player's hologram shows after one message.

`Base` (base.dfy) holds `Option` (Java's `null`), `Uuid` and sequence helpers. `Text` (text.dfy)
holds the `java.lang.String` operations the code uses: ASCII `toLowerCase`, `trim` (removes every
char up to U+0020), `isBlank`, `startsWith`, `endsWith` and `indexOf`.

Three behaviours of the code that its comments and names do not suggest:

- The javadoc of `translateOncePerLanguage` says it uses the cache "to dedupe"
  (TranslationService.java:51). But it neither lower-cases nor de-duplicates `targetLangs`
  (TranslationService.java:59-65); only the cache key is lower-cased (TranslationCache.java:66).
  Result keys are the strings as given. `Service.CaseVariantsAskedSeparately` shows that "ES",
  "es" and "Es" on a cold cache cause three provider calls.
- The chat listener prefixes every line with a colour code (U+00A7 followed by `7` or `b`). So the hologram's
  `<name> message` split never applies to chat lines: they are always shown as one line
  (`Hologram.ColouredTextIsOneLine`, `Chat.RenderedIsColoured`, `Chat.HologramsAfterChat`).
- In the split, the source's tests `end >= 1` and "the trimmed rest is non-empty" never decide
  anything. `Hologram.TwoLinesIff` shows that two lines are chosen exactly when the trimmed text
  starts with `<` and its first `>` is not its last char.

## Model

| member | source | states |
|---|---|---|
| Registry.NullIsInvalid | src/main/java/io/github/mcengine/extension/addon/translator/lang/LangRegistry.java:50 | `isValid(null)` is false |
| Registry.IsValidIgnoresCase | src/main/java/io/github/mcengine/extension/addon/translator/lang/LangRegistry.java:50 | a code and its lower-case form are equally valid |
| Registry.RegisteredIsTwoLowerLetters | src/main/java/io/github/mcengine/extension/addon/translator/lang/LangRegistry.java:13-45 | every registered code is two lower-case ASCII letters |
| Registry.RegisteredIsValid | src/main/java/io/github/mcengine/extension/addon/translator/lang/LangRegistry.java:46-53 | every code of `codes()` passes `isValid` |
| Registry.ValidIsRegistered | src/main/java/io/github/mcengine/extension/addon/translator/lang/LangRegistry.java:50 | a valid code has length two, and its lower-case form is a registered lower-case code |
| Registry.ValidityExamples | src/main/java/io/github/mcengine/extension/addon/translator/lang/LangRegistry.java:18-50 | "ES", "en" and "zu" are valid; "qq", "eng" and "" are not |
| Cache.Clamp | src/main/java/io/github/mcengine/extension/addon/translator/translate/TranslationCache.java:30-31 | `Math.max`: the result is at least the floor and the request, and is one of them |
| Cache.TranslationCache.constructor | src/main/java/io/github/mcengine/extension/addon/translator/translate/TranslationCache.java:29-40 | bounds clamped to at least 100 entries and 10 seconds; the cache starts empty and well formed |
| Cache.TranslationCache.Put | src/main/java/io/github/mcengine/extension/addon/translator/translate/TranslationCache.java:43-45 | the new state is `PutStep` of the old one under `keyOf`, stamped `now`; the invariant is kept |
| Cache.TranslationCache.Get | src/main/java/io/github/mcengine/extension/addon/translator/translate/TranslationCache.java:48-59 | the answer and the new state are those of `GetStep` under `keyOf` at `now`; the invariant is kept |
| Cache.PutPreservesWellFormed | src/main/java/io/github/mcengine/extension/addon/translator/translate/TranslationCache.java:32-45 | after `put` the order lists each key once and the size is at most `maxEntries` |
| Cache.GetPreservesWellFormed | src/main/java/io/github/mcengine/extension/addon/translator/translate/TranslationCache.java:48-59 | `get` keeps the same invariant |
| Cache.PutEvictsLeastRecentlyUsed | src/main/java/io/github/mcengine/extension/addon/translator/translate/TranslationCache.java:32-45 | after `put` the cache holds at most `maxEntries` entries; a new key in a full cache evicts exactly the least recently used key and no other; otherwise no key is lost |
| Cache.PutMakesMostRecent | src/main/java/io/github/mcengine/extension/addon/translator/translate/TranslationCache.java:32-45 | `put` stores the entry under its key, makes that key the most recently used, and leaves every other surviving key's value as it was |
| Cache.PutExistingKeepsSize | src/main/java/io/github/mcengine/extension/addon/translator/translate/TranslationCache.java:44 | overwriting a key replaces its value and timestamp and keeps the size |
| Cache.PutThenGet | src/main/java/io/github/mcengine/extension/addon/translator/translate/TranslationCache.java:44-58 | put then get returns the value iff `now - written <= ttl` |
| Cache.GetExpiredRemovesOnlyThatKey | src/main/java/io/github/mcengine/extension/addon/translator/translate/TranslationCache.java:53-57 | an expired entry is reported absent and removed; all other keys and values stay |
| Cache.GetHitRefreshesRecency | src/main/java/io/github/mcengine/extension/addon/translator/translate/TranslationCache.java:48-58 | a hit returns the stored value, keeps the map and moves the key to most recently used |
| Cache.GetHitIffFresh | src/main/java/io/github/mcengine/extension/addon/translator/translate/TranslationCache.java:50-58 | `get` hits exactly when the entry is present and within its time-to-live |
| Cache.GetKeepsFreshness | src/main/java/io/github/mcengine/extension/addon/translator/translate/TranslationCache.java:48-59 | a `get` changes no key's freshness or fresh value |
| Cache.ReadKeyOutlivesNextEviction | src/main/java/io/github/mcengine/extension/addon/translator/translate/TranslationCache.java:32-59 | in a full cache, a key just read survives insertion of a new key |
| Cache.KeyOfNullIsEmpty | src/main/java/io/github/mcengine/extension/addon/translator/translate/TranslationCache.java:65-66 | a null message and a null language key like "" |
| Cache.KeyOfIgnoresLangCase | src/main/java/io/github/mcengine/extension/addon/translator/translate/TranslationCache.java:66 | the language is keyed in lower case |
| Cache.KeyOfInjective | src/main/java/io/github/mcengine/extension/addon/translator/translate/TranslationCache.java:62-68 | for separator-free languages, two keys are equal iff messages are equal and languages are equal ignoring case |
| Cache.CaseAndBoundaryScenario | src/main/java/io/github/mcengine/extension/addon/translator/translate/TranslationCache.java:43-68 | a put under "es" is found under "ES" exactly at the 300-second boundary and is gone one second later |
| Service.UserPrompt | src/main/java/io/github/mcengine/extension/addon/translator/translate/TranslationService.java:65 | the prompt starts with the fixed head, holds the language right after it, and ends with the separator and the message |
| Service.UserPromptInjective | src/main/java/io/github/mcengine/extension/addon/translator/translate/TranslationService.java:65 | two languages give the same prompt iff they are equal |
| Service.PostProcess | src/main/java/io/github/mcengine/extension/addon/translator/translate/TranslationService.java:73-78 | the processed text is trimmed |
| Service.IsQuotedIff | src/main/java/io/github/mcengine/extension/addon/translator/translate/TranslationService.java:76 | the quote test holds iff the text is longer than one char and starts and ends with `"` |
| Service.PostProcessIsInfix | src/main/java/io/github/mcengine/extension/addon/translator/translate/TranslationService.java:73-78 | the processed text is one contiguous piece of the raw completion |
| Service.PostProcessStripsPair | src/main/java/io/github/mcengine/extension/addon/translator/translate/TranslationService.java:75-77 | a completion trimming to `"inner"` becomes `inner` trimmed |
| Service.PostProcessWithoutQuotes | src/main/java/io/github/mcengine/extension/addon/translator/translate/TranslationService.java:74-76 | text without quotes is only trimmed |
| Service.PostProcessUnquotedIsTrim | src/main/java/io/github/mcengine/extension/addon/translator/translate/TranslationService.java:74-76 | a completion whose trimmed text is not enclosed in a pair of quotes is only trimmed; `"abc` is kept as it is |
| Service.PostProcessUnquotesTrimmed | src/main/java/io/github/mcengine/extension/addon/translator/translate/TranslationService.java:75-77 | a completion that is a trimmed text in quotes comes back as that text |
| Service.PostProcessUnquotes | src/main/java/io/github/mcengine/extension/addon/translator/translate/TranslationService.java:76-77 | `"Bonjour"` becomes `Bonjour` |
| Service.PostProcessStripsOnePair | src/main/java/io/github/mcengine/extension/addon/translator/translate/TranslationService.java:76-77 | only one pair of quotes is stripped |
| Service.PostProcessKeepsLoneQuote | src/main/java/io/github/mcengine/extension/addon/translator/translate/TranslationService.java:76 | a lone `"` is kept |
| Service.PostProcessNullIsEmpty | src/main/java/io/github/mcengine/extension/addon/translator/translate/TranslationService.java:74 | a null completion becomes "" |
| Service.TranslationService.constructor | src/main/java/io/github/mcengine/extension/addon/translator/translate/TranslationService.java:34-48 | the service holds the given cache and AI settings |
| Service.TranslationService.TranslateOncePerLanguage | src/main/java/io/github/mcengine/extension/addon/translator/translate/TranslationService.java:55-88 | the cache ends as the two phases leave it; the result is hits plus stored replies; one prompt per miss |
| Service.TranslationService.LookUpAll | src/main/java/io/github/mcengine/extension/addon/translator/translate/TranslationService.java:59-62 | the loop performs `Gather`: one cache `get` per language, hits recorded, misses in order |
| Service.TranslationService.RunTasks | src/main/java/io/github/mcengine/extension/addon/translator/translate/TranslationService.java:63-86 | the tasks perform `Store`: one provider call per miss; a reply is processed, put and recorded; a failure changes nothing |
| Service.TranslationService.RunTask | src/main/java/io/github/mcengine/extension/addon/translator/translate/TranslationService.java:63-83 | one task: a failed provider call returns nothing and leaves the cache alone; a reply is post-processed, returned and `put` under the language's key stamped `now` |
| Service.GatherKeepsFreshness | src/main/java/io/github/mcengine/extension/addon/translator/translate/TranslationService.java:59-61 | the `get` loop changes no key's freshness or fresh value |
| Service.GatherSplitsByFreshness | src/main/java/io/github/mcengine/extension/addon/translator/translate/TranslationService.java:59-62 | a language is a hit iff its key was fresh at the start, with the cached value; otherwise it is a miss; distinct languages give distinct misses |
| Service.StoreRecordsReplies | src/main/java/io/github/mcengine/extension/addon/translator/translate/TranslationService.java:63-83 | a miss is translated iff the provider answers, and then to the processed answer |
| Service.PromptsOnePerMiss | src/main/java/io/github/mcengine/extension/addon/translator/translate/TranslationService.java:63-65 | exactly one prompt per miss, with that language's prompt; all distinct for distinct misses |
| Service.OutcomePerLanguage | src/main/java/io/github/mcengine/extension/addon/translator/translate/TranslationService.java:55-88 | per language: a fresh one gets the cached text and no call; any other is asked once and gets the processed reply, or is absent on failure; result keys are among the targets; no targets means no change |
| Service.CaseVariantsAskedSeparately | src/main/java/io/github/mcengine/extension/addon/translator/translate/TranslationService.java:59-65 | "ES", "es" and "Es" on a cold cache are three misses and three prompts |
| Service.StoreSkipsFailures | src/main/java/io/github/mcengine/extension/addon/translator/translate/TranslationService.java:81-83 | when every call fails, the cache and the translations are untouched |
| Service.StoreWithRoom | src/main/java/io/github/mcengine/extension/addon/translator/translate/TranslationService.java:79 | with room for every miss, the cache ends as its entries overridden by the written ones, nothing evicted |
| Service.WrittenHoldsEachReply | src/main/java/io/github/mcengine/extension/addon/translator/translate/TranslationService.java:79 | each successful language's key holds its processed text stamped `now` |
| Service.WrittenOnlyMissKeys | src/main/java/io/github/mcengine/extension/addon/translator/translate/TranslationService.java:79 | every key written is the cache key of one of the missed languages |
| TabCompletion.MatchingMembers | src/main/java/io/github/mcengine/extension/addon/translator/tabcompleter/TranslatorTabCompleter.java:29-31 | the filter keeps exactly the codes starting with the prefix, without repeats |
| TabCompletion.CappedMatching | src/main/java/io/github/mcengine/extension/addon/translator/tabcompleter/TranslatorTabCompleter.java:26-35 | at most 50 codes, each matching; all matches when fewer than 50; no repeats |
| TabCompletion.CompleteCodes | src/main/java/io/github/mcengine/extension/addon/translator/tabcompleter/TranslatorTabCompleter.java:27-35 | the loop with its counter and `break` yields the first 50 matching codes in order |
| TabCompletion.Complete | src/main/java/io/github/mcengine/extension/addon/translator/tabcompleter/TranslatorTabCompleter.java:16-38 | no args gives nothing; one arg gives the matching subcommands; `set` and a prefix give the capped codes; anything else gives nothing |
| TabCompletion.SubcommandsAreFiltered | src/main/java/io/github/mcengine/extension/addon/translator/tabcompleter/TranslatorTabCompleter.java:20-23 | the subcommand completion is the three `startsWith` tests in order |
| TabCompletion.EmptyOffersAllSubcommands | src/main/java/io/github/mcengine/extension/addon/translator/tabcompleter/TranslatorTabCompleter.java:20-23 | an empty argument offers set, get and clear |
| TabCompletion.UpperPrefixOffersSet | src/main/java/io/github/mcengine/extension/addon/translator/tabcompleter/TranslatorTabCompleter.java:20-21 | "S" is lower-cased and offers only set |
| TabCompletion.UnknownPrefixOffersNothing | src/main/java/io/github/mcengine/extension/addon/translator/tabcompleter/TranslatorTabCompleter.java:20-24 | "x" offers nothing |
| Addon.SelectBackend | src/main/java/io/github/mcengine/extension/addon/translator/Translator.java:86-106 | the database backend iff configured and a connection is available; otherwise YAML |
| Addon.BackendExamples | src/main/java/io/github/mcengine/extension/addon/translator/Translator.java:86-87 | "YAML" and a missing setting select YAML; "mysql" selects the database |
| Addon.DefaultsSurviveClamp | src/main/java/io/github/mcengine/extension/addon/translator/Translator.java:110-113 | the defaults are kept by the cache's clamps |
| Addon.TabComplete | src/main/java/io/github/mcengine/extension/addon/translator/Translator.java:167-195 | null or empty args give nothing; a null arg is the empty prefix; a missing registry gives no codes; otherwise as the completer |
| Addon.CodeCompletionBounds | src/main/java/io/github/mcengine/extension/addon/translator/Translator.java:181-192 | at most 50 codes, each a registry code with the prefix, and all of them when fewer |
| Addon.RegistryCompletion | src/main/java/io/github/mcengine/extension/addon/translator/Translator.java:181-192 | over the registry's code set, every completion is a registered code with the prefix, none is offered twice, and all such codes are offered when fewer than 50 are |
| Addon.TestMode.constructor | src/main/java/io/github/mcengine/extension/addon/translator/command/TranslatorCommand.java:38-39 | test mode starts off for everyone |
| Addon.TestMode.Toggle | src/main/java/io/github/mcengine/extension/addon/translator/command/TranslatorCommand.java:100-102 | flips the player's test mode and reports the new state |
| Addon.Flip | src/main/java/io/github/mcengine/extension/addon/translator/command/TranslatorCommand.java:102 | only the toggled player's membership changes, and it changes |
| Addon.FlipTwice | src/main/java/io/github/mcengine/extension/addon/translator/command/TranslatorCommand.java:100-106 | toggling twice restores the set |
| Command.TranslatorCommand.constructor | src/main/java/io/github/mcengine/extension/addon/translator/command/TranslatorCommand.java:48-54 | the handler holds the given store and test-mode registry |
| Command.TranslatorCommand.OnCommand | src/main/java/io/github/mcengine/extension/addon/translator/command/TranslatorCommand.java:56-115 | returns true; the new store and test-mode state and the message are those of `Dispatch` |
| Command.ConsoleChangesNothing | src/main/java/io/github/mcengine/extension/addon/translator/command/TranslatorCommand.java:58-61 | a non-player sender is told so and nothing changes |
| Command.MissingArgumentsShowUsage | src/main/java/io/github/mcengine/extension/addon/translator/command/TranslatorCommand.java:65-73 | no arguments, or `set` alone, shows usage and changes nothing |
| Command.SetStoresOnlyValidCodes | src/main/java/io/github/mcengine/extension/addon/translator/command/TranslatorCommand.java:72-82 | an invalid code changes nothing; a valid one stores its lower-case registered form for the sender only |
| Command.ClearThenGet | src/main/java/io/github/mcengine/extension/addon/translator/command/TranslatorCommand.java:83-94 | after `clear`, `get` reports no language |
| Command.SetThenGetReports | src/main/java/io/github/mcengine/extension/addon/translator/command/TranslatorCommand.java:72-89 | after a valid `set`, `get` reports the lower-case code |
| Command.ModeTestOnlyForOperators | src/main/java/io/github/mcengine/extension/addon/translator/command/TranslatorCommand.java:95-110 | only `mode test` by an operator flips test mode, for the sender alone, with the matching message; a non-operator is refused and an operator's `mode` with any other argument gets the mode usage, both changing nothing |
| Command.UnknownSubcommandChangesNothing | src/main/java/io/github/mcengine/extension/addon/translator/command/TranslatorCommand.java:111-113 | an unknown subcommand shows usage and changes nothing |
| Command.SubcommandIgnoresCase | src/main/java/io/github/mcengine/extension/addon/translator/command/TranslatorCommand.java:70 | the subcommand is matched ignoring case |
| Command.OnlySenderAffected | src/main/java/io/github/mcengine/extension/addon/translator/command/TranslatorCommand.java:70-115 | no command changes another player's preference or test mode |
| PlayerStore.ReadYaml | src/main/java/io/github/mcengine/extension/addon/translator/player/PlayerLangStore.java:100-109 | the YAML loop builds `YamlPrefs` of the entries |
| PlayerStore.PlayerLangStore.constructor | src/main/java/io/github/mcengine/extension/addon/translator/player/PlayerLangStore.java:59-110 | null backend means YAML; the map is the repository's rows for the database backend with a repository, else the YAML load; all codes are lower case |
| PlayerStore.PlayerLangStore.Set | src/main/java/io/github/mcengine/extension/addon/translator/player/PlayerLangStore.java:68-78 | null removes the entry, anything else stores it lower-cased; codes stay lower case |
| PlayerStore.PlayerLangStore.Clear | src/main/java/io/github/mcengine/extension/addon/translator/player/PlayerLangStore.java:84-88 | removes the entry; codes stay lower case |
| PlayerStore.PlayerLangStore.Get | src/main/java/io/github/mcengine/extension/addon/translator/player/PlayerLangStore.java:81 | present iff the player has an entry, and then its code |
| PlayerStore.PlayerLangStore.Snapshot | src/main/java/io/github/mcengine/extension/addon/translator/player/PlayerLangStore.java:91 | the copy equals the map at the call; as a value it is unaffected by later changes |
| PlayerStore.SetThenGet | src/main/java/io/github/mcengine/extension/addon/translator/player/PlayerLangStore.java:73-81 | after `set(u, l)`, `get(u)` is `l` lower-cased |
| PlayerStore.RemovalThenGet | src/main/java/io/github/mcengine/extension/addon/translator/player/PlayerLangStore.java:69-85 | `set(u, null)` and `clear(u)` agree, and both make `get(u)` null |
| PlayerStore.OthersUnchanged | src/main/java/io/github/mcengine/extension/addon/translator/player/PlayerLangStore.java:68-88 | `set` and `clear` leave every other player's entry alone |
| PlayerStore.UpdatesKeepLower | src/main/java/io/github/mcengine/extension/addon/translator/player/PlayerLangStore.java:73 | every update keeps all stored codes lower case |
| PlayerStore.YamlPrefsAreLower | src/main/java/io/github/mcengine/extension/addon/translator/player/PlayerLangStore.java:106 | the YAML load stores only lower-case codes |
| PlayerStore.YamlPrefsFromValidEntries | src/main/java/io/github/mcengine/extension/addon/translator/player/PlayerLangStore.java:101-108 | a player is loaded iff some entry parses to their UUID and has a string; the code is the last such entry's, lower-cased |
| PlayerStore.YamlKeepsContributors | src/main/java/io/github/mcengine/extension/addon/translator/player/PlayerLangStore.java:101-108 | a player is loaded iff some entry parses to their UUID and has a string |
| PlayerStore.YamlLastContributorWins | src/main/java/io/github/mcengine/extension/addon/translator/player/PlayerLangStore.java:101-108 | a loaded player's code is the lower-cased string of the last entry for them |
| Hologram.HologramManager.constructor | src/main/java/io/github/mcengine/extension/addon/translator/hologram/HologramManager.java:86-88 | no stands and no tasks |
| Hologram.HologramManager.ShowEphemeral | src/main/java/io/github/mcengine/extension/addon/translator/hologram/HologramManager.java:97-124 | the new state is `ShowStep` of the old one with the text's `Split` and the new task |
| Hologram.HologramManager.ShowTrimmed | src/main/java/io/github/mcengine/extension/addon/translator/hologram/HologramManager.java:111-123 | the new state is `ShowStep` of the old one with the trimmed text's split and the new task |
| Hologram.HologramManager.ShowTwoLines | src/main/java/io/github/mcengine/extension/addon/translator/hologram/HologramManager.java:133-154 | both stands get their text and the player's task is the new one |
| Hologram.HologramManager.RenderSingleLine | src/main/java/io/github/mcengine/extension/addon/translator/hologram/HologramManager.java:217-232 | the bottom stand gets the line, the top stand is untouched, and the task is the new one |
| Hologram.HologramManager.Clear | src/main/java/io/github/mcengine/extension/addon/translator/hologram/HologramManager.java:161-172 | the player's entries are removed from all three maps |
| Hologram.HologramManager.Shutdown | src/main/java/io/github/mcengine/extension/addon/translator/hologram/HologramManager.java:197-212 | all three maps are empty |
| Hologram.NullIsEmptyLine | src/main/java/io/github/mcengine/extension/addon/translator/hologram/HologramManager.java:110 | null text is shown as the empty line |
| Hologram.OneLineIsWhole | src/main/java/io/github/mcengine/extension/addon/translator/hologram/HologramManager.java:123 | one-line mode shows the whole trimmed text |
| Hologram.TextIsTrimmed | src/main/java/io/github/mcengine/extension/addon/translator/hologram/HologramManager.java:110-123 | one-line mode shows the input trimmed, with null as "" |
| Hologram.TwoLinesIffTrimmed | src/main/java/io/github/mcengine/extension/addon/translator/hologram/HologramManager.java:111-117 | on trimmed text: two lines iff it starts with `<` and its first `>` is not the last char |
| Hologram.TwoLinesIff | src/main/java/io/github/mcengine/extension/addon/translator/hologram/HologramManager.java:110-117 | the same test, for any text |
| Hologram.TopLine | src/main/java/io/github/mcengine/extension/addon/translator/hologram/HologramManager.java:112-114 | the head through the first `>` starts with `<`, ends with `>`, and with the rest rebuilds the text |
| Hologram.TwoLinesCut | src/main/java/io/github/mcengine/extension/addon/translator/hologram/HologramManager.java:111-117 | a two-line split cuts after the first `>`, and the bottom is the non-empty trimmed rest |
| Hologram.TwoLinesShape | src/main/java/io/github/mcengine/extension/addon/translator/hologram/HologramManager.java:110-117 | two-line mode: top is the trimmed text through the first `>`, bottom is the trimmed rest, and `top + rest` is the trimmed text |
| Hologram.SplitNameAndMessage | src/main/java/io/github/mcengine/extension/addon/translator/hologram/HologramManager.java:109-117 | "<A> hi" becomes the lines "<A>" and "hi" |
| Hologram.NameAloneIsOneLine | src/main/java/io/github/mcengine/extension/addon/translator/hologram/HologramManager.java:111-123 | a bare "<A>" stays one line |
| Hologram.ColouredTextIsOneLine | src/main/java/io/github/mcengine/extension/addon/translator/hologram/HologramManager.java:110-123 | text starting with a colour code is one line, the text trimmed |
| Hologram.ClearLeavesOthers | src/main/java/io/github/mcengine/extension/addon/translator/hologram/HologramManager.java:161-172 | after `clear(p)` no map has `p`, and every other player's entries are unchanged |
| Hologram.ShowSchedulesOneClear | src/main/java/io/github/mcengine/extension/addon/translator/hologram/HologramManager.java:108-154 | showing replaces the player's pending clear with the new task and sets the stands of the layout |
| Hologram.ShowThenClear | src/main/java/io/github/mcengine/extension/addon/translator/hologram/HologramManager.java:150-172 | show then clear leaves nothing for that player |
| Chat.ChatListener.constructor | src/main/java/io/github/mcengine/extension/addon/translator/listener/ChatListener.java:37-47 | the listener holds its store, service, holograms and test-mode registry |
| Chat.ChatListener.OnChat | src/main/java/io/github/mcengine/extension/addon/translator/listener/ChatListener.java:50-110 | cancelled iff some target language exists; if not, nothing changes; if so, the cache is as the service leaves it and the holograms show the rendered lines in order |
| Chat.ChatListener.Deliver | src/main/java/io/github/mcengine/extension/addon/translator/listener/ChatListener.java:80-107 | the scheduled task shows the rendered lines, for an error as well as a result |
| Chat.ChatListener.ShowFallback | src/main/java/io/github/mcengine/extension/addon/translator/listener/ChatListener.java:81-86 | on error every player online now is shown the plain line |
| Chat.ChatListener.ShowTranslated | src/main/java/io/github/mcengine/extension/addon/translator/listener/ChatListener.java:88-106 | the groups' lines, then the "You" line outside test mode |
| Chat.ChatListener.ShowGroups | src/main/java/io/github/mcengine/extension/addon/translator/listener/ChatListener.java:88-101 | the loop over the groups shows their lines and counts them |
| Chat.ChatListener.ShowBlock | src/main/java/io/github/mcengine/extension/addon/translator/listener/ChatListener.java:98-100 | each player of a group is shown its text, in order |
| Chat.ChatListener.ShowOne | src/main/java/io/github/mcengine/extension/addon/translator/listener/ChatListener.java:99 | one `addLine` is one `showEphemeral` step |
| Chat.ChatListener.ShowLine | src/main/java/io/github/mcengine/extension/addon/translator/listener/ChatListener.java:105 | the "You" line's `addLine` is one more step |
| Chat.RecipientsMembers | src/main/java/io/github/mcengine/extension/addon/translator/listener/ChatListener.java:54-61 | a player is a recipient iff online and either in test mode or not the sender; no repeats |
| Chat.GroupMembers | src/main/java/io/github/mcengine/extension/addon/translator/listener/ChatListener.java:60-65 | a player is in the group of a key iff a recipient whose stored language, or "", is that key |
| Chat.TargetsEmptyIff | src/main/java/io/github/mcengine/extension/addon/translator/listener/ChatListener.java:67-74 | no target language iff every recipient's language is blank or unset |
| Chat.LinesToBlock | src/main/java/io/github/mcengine/extension/addon/translator/listener/ChatListener.java:98-100 | a group's block shows its text once to each member and to no one else |
| Chat.GroupLinesTo | src/main/java/io/github/mcengine/extension/addon/translator/listener/ChatListener.java:88-101 | a recipient is shown exactly their group's text once |
| Chat.DeliveredPerPlayer | src/main/java/io/github/mcengine/extension/addon/translator/listener/ChatListener.java:81-106 | with a result, each recipient gets their group's line and a sender outside test mode also gets the "You" line; on error, each player online now gets the plain line |
| Chat.TextsColoured | src/main/java/io/github/mcengine/extension/addon/translator/listener/ChatListener.java:92-96 | every chat line text starts with a colour code |
| Chat.GroupLinesColoured | src/main/java/io/github/mcengine/extension/addon/translator/listener/ChatListener.java:88-101 | the groups' lines all start with a colour code |
| Chat.RenderedIsColoured | src/main/java/io/github/mcengine/extension/addon/translator/listener/ChatListener.java:81-106 | every line the task shows starts with a colour code |
| Chat.ShownPerPlayer | src/main/java/io/github/mcengine/extension/addon/translator/listener/ChatListener.java:98-105 | after coloured lines are shown, top stands are untouched; a player sent nothing keeps their bottom stand and task; any other has their last line, trimmed, on the bottom stand |
| Chat.HologramsAfterChat | src/main/java/io/github/mcengine/extension/addon/translator/listener/ChatListener.java:88-106 | each player online throughout ends with their group's line, or the "You" line, trimmed on the bottom stand; they have a clear task and no top stand changes |

## Left out

- Concurrency. The provider calls run asynchronously and join; the cache methods are
  `synchronized`; the rendering is a scheduled task. The model runs it all in one legal sequential
  order: the `get` loop, then the tasks in list order, then the rendering. Other interleavings
  can give a different map and different lines. A task's `put` may finish before the loop's
  `get` for a later language. In a full cache that `put` can evict the later language's entry, so
  that language is asked again and, if the call fails, is missing from the result. And a case
  variant ("ES" after "es") can hit the value that was just put. The cache's final recency order
  depends on the interleaving too.
- The AI provider is a parameter (a function from platform, model, system prompt and user prompt
  to a reply or a failure). The `tokenType` test calls the provider identically in both branches,
  so it is not modelled. The player lookup in the non-server branch is unused and is also left out.
- `Instant.now()` is the parameter `now`; one `translateOncePerLanguage` call uses one `now`.
- Case conversion is ASCII only. `toLowerCase()` and `toLowerCase(Locale.ROOT)` are one function.
- `UUID.fromString` is a parameter, `parse`, that may fail.
- Set iteration order. The hash map of groups, the set of target languages and the registry's
  code set iterate in an order the model takes as parameters (`keys`, `targets`, `codes`).
- Cache.TranslationCache.constructor: builds a cache for every bound. In TranslationCache.java:31-33,
  the initial capacity `(int) (maxEntries / 0.75f) + 1` overflows once the bound reaches about
  1.61e9 (0.75 times 2^31). The cast saturates at `Integer.MAX_VALUE`, the `+ 1` wraps to a
  negative number and `LinkedHashMap` throws. The bound comes from `cache.maxEntries`
  (Translator.java:110-111), so `onLoad` fails for such a setting. The model does not have this
  failure, and it does not model the float rounding that fixes the exact threshold.
- Persistence. YAML saving in `PlayerLangStore.save`, the repository's `upsert`, `delete` and
  `findAll`, `ConfigUtil`, `DatabaseManager`, the SQL dialects and `JdbcLangPreferenceRepository`
  are not modelled. The repository's rows are taken as lower-cased.
- The command's store provider always yields the one shared store, so the model holds that store
  directly. The registry supplier is the constant `Registry.IsValid`.
- The command and the listener refer to `Translator.TestMode`, but Translator.java declares no
  nested `TestMode`.
  `Addon.TestMode` is the behaviour they rely on: a set of UUIDs whose toggle reports the new state.
- `Translator.onLoad` builds `ChatListener` with four arguments and `TranslatorCommand` with two,
  while their constructors declare five and three. The model's constructors take the declared
  parameters. The wiring, listener registration and reflective command registration are left out.
- Hologram geometry (`repositionSingleLine`, `repositionTwoLines`, `tickPosition`), the spawning
  in `ensureStand` (and its null-world return), `isValid` checks, stand removal, and the scheduler
  are left out. Stands are the text they show. A new clear task's id is a parameter. The
  scheduled auto-clear is not run; `clear` models what it does when it runs.
- `MoveListener`, `QuitListener`, the root `TranslatorCommand` (a constant message) and `onDisload`
  are not modelled.
- Chat.ChatListener.OnChat: the service never fails as a whole, so `OnChat` always passes a result
  to the rendering. The error branch is modelled in `Deliver` and `ShowFallback`, with the result
  as an `Option`.
- Players are their UUIDs. Only the sender's name enters the text. The online players at the
  message and at the rendering are parameters.
- The message is never null in a chat event, so `OnChat` takes a string.
