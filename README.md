# Crystal catalogue explorer — verified model

This project models the deterministic core of a small browser catalogue of
crystals, and proves properties of that model in Dafny:

- **the catalogue page** (`App.tsx`). It holds a case-insensitive search over
  each crystal's name and healing properties. It also holds the view state
  that the crystal-click, site-sync and close handlers update.
- **the fixed catalogue** (`constants.tsx`, record shapes from `types.ts`).
  It has six entries, which lets the filter be proved on concrete queries.
- **locale handling** (`i18n.tsx`):
  - `normalizeLocale`;
  - `formatMessage`, which replaces `{name}` placeholders;
  - the two message tables and the translator `t`, which falls back to English;
  - the provider's locale state, whose storage write may fail.
- **theme handling** (`theme.tsx`):
  - `normalizeTheme`;
  - the preferred-theme fallback chain;
  - the initial theme;
  - `setTheme` and `toggleTheme`.
- **normalisation of the AI provider's reply** (`services/geminiService.ts`).
  The fallback content, the web-only source list and the fixed error messages
  are modelled. The provider call is an input: a reply or an exception.

Modules, one per source file:

- `Text`: the ASCII `toLowerCase`, plus `startsWith` and `includes` as a scan.
  The scan is proved equal to "is a contiguous slice".
- `Wrappers`: `Option` and `Result`.
- `Catalogue`: the crystal record and the catalogue.
- `Enrichment`: the service's normalisation.
- `I18n`: locale handling.
- `Theme`: theme handling.
- `Explorer`: the page's filter and its view state.

Stateful parts are classes whose methods change their fields:

- `I18n.I18nProvider` and `Theme.ThemeProvider`.
- `Explorer.CatalogueView`. Each `async` handler is split into the step before
  its `await` and the step after it.

## Model

| member | source | states |
|---|---|---|
| Text.Lower | App.tsx:44-45 | `toLowerCase` keeps the length and lowers each character; only `A`-`Z` change |
| Text.StartsWith | i18n.tsx:84 | `startsWith`: the first characters of s are p; defined directly, and `I18n.NormalizeLocaleCases` states what it decides for the locale prefix |
| Text.Includes | App.tsx:44-45 | `includes` as a left-to-right scan; no contract of its own, and `Text.IncludesIff` states its meaning as "q is a contiguous slice of s" |
| Text.IncludesIff | App.tsx:44-45 | the `includes` scan holds exactly when the query is a contiguous slice of the string |
| Text.IncludesEmpty | App.tsx:44-45 | every string includes the empty string |
| Text.IncludesTransitive | App.tsx:44-45 | containment is transitive |
| Text.LowerKeepsIncludes | App.tsx:44-45 | lowering both sides keeps a containment |
| Text.LowerExcludesByLetter | App.tsx:44-45 | a string that lacks a letter of the query, in both cases, does not include the query after lowering |
| Text.LowerExcludedBySplit | App.tsx:44-45 | a string whose only occurrence of the query's first letter is not followed by the query's second letter does not include the query |
| Explorer.SomePropertyIncludes | App.tsx:45 | `some` holds exactly when one lowered property includes the lowered query |
| Explorer.Matches | App.tsx:44-45 | the filter callback; no contract of its own, and `Explorer.MatchesMeaning` states what it means |
| Explorer.Filter | App.tsx:43-46 | the result is no longer than the list, and every kept entry is in the list and matches |
| Explorer.MatchesMeaning | App.tsx:43-46 | an entry matches exactly when the lowered query is a slice of its lowered name or of one lowered healing property; no other field is searched |
| Explorer.FilterKeepsExactlyMatches | App.tsx:43-46 | an entry is in the result exactly when it is in the list and matches |
| Explorer.FilterIsSubsequence | App.tsx:43-46 | the result is a subsequence of the list, so catalogue order is kept |
| Explorer.EmptyQueryKeepsAll | App.tsx:43-46 | the empty query keeps every entry |
| Explorer.FilterIgnoresCase | App.tsx:44-45 | queries that agree after lowering give the same result |
| Explorer.MatchesNarrowing | App.tsx:44-45 | an entry that matches a query also matches every slice of that query |
| Explorer.FilterNarrowing | App.tsx:44-45 | the result for a query is a subsequence of the result for any slice of it |
| Explorer.FilterAppend | App.tsx:43 | filtering a concatenation filters each part |
| Explorer.RejectedByLetter | App.tsx:43-46 | an entry whose name and properties lack a letter of a lower-case query is not kept |
| Explorer.FilterCatalogue | App.tsx:43-46 | filtering the catalogue keeps the matching entries one by one, in catalogue order |
| Explorer.FilterLove | constants.tsx:16-19 | "love" finds only Rose Quartz |
| Explorer.FilterProtection | constants.tsx:6-9 | "protection" finds Amethyst and then Black Tourmaline, through their "Protection" property |
| Explorer.ProtectionRejectsClearQuartz | constants.tsx:39 | "Energy Amplification" contains every letter of "protection" and still does not match it |
| Explorer.FilterQuartz | constants.tsx:17 | "quartz" finds Rose Quartz and Clear Quartz, by name |
| Explorer.FilterNoMatch | App.tsx:43-46 | "xyz" finds nothing |
| Explorer.CatalogueView.constructor | App.tsx:9-16 | the page starts on the full catalogue with an empty query, no selection, no results and no pending request |
| Explorer.CatalogueView.Filtered | App.tsx:43-46 | the shown list is exactly the matching entries, in catalogue order; with an empty query it is the whole catalogue |
| Explorer.CatalogueView.SetSearchQuery | App.tsx:65 | typing sets the query and changes nothing else |
| Explorer.CatalogueView.ClearSearch | App.tsx:157 | "Clear search" empties the query, and the whole catalogue shows again |
| Explorer.CatalogueView.BeginCrystalClick | App.tsx:18-20 | a click selects the entry and starts loading; the old results stay |
| Explorer.CatalogueView.CompleteCrystalClick | App.tsx:21-28 | a result replaces the shown results and a failure keeps them; loading ends either way |
| Explorer.CatalogueView.HandleCrystalClick | App.tsx:18-29 | after a click the entry is selected, loading is over, and the results are the normalised reply, or the old results when the call threw |
| Explorer.CatalogueView.BeginSync | App.tsx:31-32 | sync sets the crawling flag |
| Explorer.CatalogueView.CompleteSync | App.tsx:33-40 | a result is stored and a failure keeps the old one; crawling ends either way |
| Explorer.CatalogueView.HandleSyncSite | App.tsx:31-41 | after a sync, crawling is over and the stored result is the normalised reply, or the old one when the call threw |
| Explorer.CatalogueView.CloseModal | App.tsx:183-186 | closing the modal clears the selection and the results and leaves everything else unchanged |
| Explorer.CatalogueView.DismissSyncResult | App.tsx:123 | closing the sync panel clears the stored sync result only |
| Explorer.SearchThenClear | App.tsx:65 | on a fresh page, "love" shows Rose Quartz alone, and clearing shows the whole catalogue |
| Explorer.ClickSucceedThenFail | App.tsx:18-29 | a failed lookup keeps the results of the previous successful one |
| Explorer.ClickFailThenClose | App.tsx:183-186 | a failed lookup followed by close leaves no selection, no results and no loading state |
| Catalogue.Ids | constants.tsx:4-65 | the id list has one id per entry, in order |
| Catalogue.InitialCatalogueShape | constants.tsx:4-65 | six entries with ids "1" to "6", pairwise distinct; each has a name, colours, healing properties, a chakra list and a hardness |
| Enrichment.ContentOr | services/geminiService.ts:31 | the reply text when it is non-empty, otherwise the fallback |
| Enrichment.FirstCandidateChunks | services/geminiService.ts:34 | the first candidate's grounding chunks; an empty list when any link of the chain is missing |
| Enrichment.WebSources | services/geminiService.ts:35-40 | there are no more sources than chunks |
| Enrichment.Normalize | services/geminiService.ts:31-42 | content with its fallback, and the web sources of the first candidate |
| Enrichment.SearchCrystalInfo | services/geminiService.ts:31-46 | a reply normalises with "No information found."; an exception, and only an exception, gives the fixed fetch error |
| Enrichment.CrawlSpecificSite | services/geminiService.ts:67-80 | a reply normalises with "No site data available."; an exception, and only an exception, gives the fixed access error |
| Enrichment.WebSourcesAppend | services/geminiService.ts:35-40 | the source list distributes over concatenation of chunks, so order is kept |
| Enrichment.WebSourcesMembership | services/geminiService.ts:35-40 | a source is listed exactly when some chunk has a web field with that title and uri |
| Enrichment.WebSourcesCount | services/geminiService.ts:35-42 | one source per web chunk, with no cap; all chunks are listed exactly when every chunk has a web field |
| Enrichment.WebSourcesDropsNonWeb | services/geminiService.ts:36 | chunks without a web field give no sources |
| Enrichment.OnlyFirstCandidateCounts | services/geminiService.ts:34 | later candidates never change the result |
| Enrichment.EmptyReply | services/geminiService.ts:31-42 | an empty reply with no candidates gives the fallback text and no sources |
| Enrichment.SearchAndCrawlDifferOnlyInTexts | services/geminiService.ts:31-46 | search and crawl give the same sources; they differ only in the fallback and error texts |
| I18n.NormalizeLocale | i18n.tsx:82-86 | a missing input gives English |
| I18n.NormalizeLocaleCases | i18n.tsx:82-86 | Chinese exactly when the first two characters are z and h in either case; the empty string gives English |
| I18n.NormalizeLocaleFixesTags | i18n.tsx:82-86 | each locale's tag maps to that locale, so normalising is idempotent |
| I18n.WordRun | i18n.tsx:90 | the longest prefix of `\w` characters |
| I18n.PlaceholderAt | i18n.tsx:90 | a recognised placeholder is `{`, a non-empty word and `}` |
| I18n.Replacement | i18n.tsx:90 | `values[key] ?? `{${key}}``; no contract of its own, and `I18n.PlaceholderAnywhere` and `I18n.MissingKeyKept` state what it inserts |
| I18n.Substitute | i18n.tsx:90 | the global replace of `/\{(\w+)\}/g`; no contract of its own: `I18n.PlaceholderAnywhere` states that every `{word}` becomes its value or stays when the key is missing, and `I18n.NoPlaceholderKept` that text without a `{word}` is left untouched |
| I18n.FormatMessage | i18n.tsx:88-91 | without a values object the template comes back unchanged |
| I18n.LiteralCopied | i18n.tsx:90 | text without an opening brace is copied verbatim |
| I18n.PlaceholderReplaced | i18n.tsx:90 | a `{word}` after plain text is replaced by its value, and the rest is processed on its own |
| I18n.SubstituteSplitAtBrace | i18n.tsx:90 | the pass restarts cleanly at every `{`: text before it is substituted on its own |
| I18n.PlaceholderAnywhere | i18n.tsx:90 | a `{word}` anywhere in the template becomes its replacement, and the text on each side is substituted independently |
| I18n.NoPlaceholderKept | i18n.tsx:90 | a template in which no position starts a `{word}` comes back unchanged, whatever other brace groups it holds |
| I18n.DoubledBracesKeepOuter | i18n.tsx:90 | in `{{key}}` only the inner placeholder is replaced, so "{{count}}" with 6 gives "{6}" |
| I18n.MissingKeyKept | i18n.tsx:90 | a placeholder whose key is missing stays literally, wherever it stands |
| I18n.SubstituteWithoutMatchingKeys | i18n.tsx:90 | when no key is a word, the template comes back unchanged |
| I18n.FormatWithEmptyValues | i18n.tsx:88-91 | an empty values object leaves the template unchanged |
| I18n.NonPlaceholdersKept | i18n.tsx:90 | "{}" and "{a-b}" are not placeholders and stay as they are |
| I18n.InsertedValueNotRescanned | i18n.tsx:90 | an inserted value that looks like a placeholder is not replaced again |
| I18n.EnglishHasEveryKey | i18n.tsx:10-44 | the English table defines every key |
| I18n.ChineseHasEveryKey | i18n.tsx:45-79 | the Chinese table defines every key |
| I18n.TablesShareKeys | i18n.tsx:9-80 | both tables define the same keys |
| I18n.Translate | i18n.tsx:121-127 | `messages[locale][key] ?? messages.en[key]` formatted with the values; no contract of its own, and `I18n.TranslateUsesOwnTable` states that the locale's own template is always found |
| I18n.TranslateUsesOwnTable | i18n.tsx:121-127 | lookup is total, and each locale uses its own template |
| I18n.ShowingResultsKey | i18n.tsx:25 | the key of the worked example is the tables' "section.showingResults" |
| I18n.ShowingResultsExample | i18n.tsx:25 | "section.showingResults" with a count gives "Showing <count> results" in English and "共 <count> 条结果" in Chinese |
| I18n.InitialLocale | i18n.tsx:102-107 | a saved non-empty entry is normalised; otherwise the browser language is normalised |
| I18n.SavedLocaleRestored | i18n.tsx:102-107 | a saved locale tag is restored whatever the browser language |
| I18n.I18nProvider.constructor | i18n.tsx:102-107 | the provider starts on the initial locale |
| I18n.I18nProvider.SetLocale | i18n.tsx:109-115 | the locale becomes the new one even when the storage write fails; the entry is written only when the write succeeds |
| I18n.I18nProvider.T | i18n.tsx:121-127 | the current locale's template, formatted with the values |
| I18n.ReloadAfterSetLocale | i18n.tsx:102-115 | a chosen locale survives a reload, and a later failed write leaves it in force |
| Theme.PreferredTheme | theme.tsx:7-14 | dark with no window or when `matchMedia` throws, light when `matchMedia` is missing, otherwise dark exactly when the dark-scheme query matches |
| Theme.NormalizeTheme | theme.tsx:16-18 | light exactly for the string "light" |
| Theme.NormalizeThemeFixesNames | theme.tsx:16-18 | each theme's name maps to that theme, normalising is idempotent, and "LIGHT" and a missing value give dark |
| Theme.InitialTheme | theme.tsx:29-33 | a saved non-empty entry is normalised and the system hint is ignored; otherwise the preferred theme |
| Theme.SavedThemeRestored | theme.tsx:29-33 | a saved theme name is restored whatever the media query says |
| Theme.Toggled | theme.tsx:43-45 | toggling always changes the theme |
| Theme.ToggleTwice | theme.tsx:43-45 | toggling twice restores the theme |
| Theme.ThemeProvider.constructor | theme.tsx:29-33 | the provider starts on the initial theme |
| Theme.ThemeProvider.SetTheme | theme.tsx:35-41 | the theme becomes the new one even when the storage write fails |
| Theme.ThemeProvider.ToggleTheme | theme.tsx:43-45 | dark becomes light and light becomes dark |
| Theme.ReloadAfterSet | theme.tsx:29-45 | a chosen theme survives a reload, and two toggles restore it |

## Left out

- JSX markup and rendering. This covers `components/`, `index.tsx`, the
  display fallbacks and the `slice` calls in the cards and modal.
- The provider SDK call, the API key, the model name and the prompt text.
  The reply, or the fact that the call threw, is an input. The search query
  only shapes the prompt, so `SearchCrystalInfo` does not take it.
- The browser environment is a parameter of the model. This covers:
  - `localStorage` reads;
  - `navigator.language`;
  - `matchMedia`;
  - the `typeof window` checks.
  A failed `localStorage` write is a boolean input. An exception from a
  `localStorage` read is not modelled.
- Races between overlapping handler runs. A stale reply could otherwise
  overwrite newer state. Each handler is a begin step and a complete step,
  applied in sequence.
- The sync button is disabled while crawling (`App.tsx:77`). This is a
  rendering guard, so `BeginSync` does not require it.
- Unicode case mapping: `toLowerCase` is modelled for ASCII letters only.
- `String(number)` in `formatMessage`: substitution values are strings.
- A values object's inherited JavaScript properties (such as `toString`) as
  keys are not modelled: a key is present only when it is in the map.
- `console.error`, `alert`, and the effects that set `document`'s `lang` and
  `data-theme`.
- The `crystals` state is never updated by the page. It is a constant field
  of `CatalogueView`.
- Web chunks whose `title` or `uri` is missing: a web reference always
  carries both strings.
- The translation strings are copied in full, but only the key sets and one
  worked example are proved about them.
- I18n.TablesShareKeys: states the shared key set through the 32-constructor
  key datatype rather than as a map cardinality of 32.
