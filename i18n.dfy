/** Locale handling of i18n.tsx: normalising a locale string, `{name}`
    placeholder substitution, the message tables with their English
    fallback, and the provider that holds the current locale. */
module I18n {
  import opened Wrappers
  import opened Text

  datatype Locale = En | ZhCN

  /** The string form of a locale, as stored and as used for `lang`. */
  function LocaleTag(l: Locale): string {
    match l
    case En => "en"
    case ZhCN => "zh-CN"
  }

  // ---------------------------------------------------------------------
  // normalizeLocale

  /** `(input || '').toLowerCase().startsWith('zh') ? 'zh-CN' : 'en'`. */
  function NormalizeLocale(input: Option<string>): (r: Locale)
    ensures input.None? ==> r == En
  {
    if StartsWith(Lower(input.GetOr("")), "zh") then ZhCN else En
  }

  /** Chinese exactly when the input starts with z or Z followed by h or H;
      everything else, the empty string included, is English. */
  lemma NormalizeLocaleCases(s: string)
    ensures NormalizeLocale(Some(s)) == ZhCN <==> |s| >= 2 && (s[0] == 'z' || s[0] == 'Z') && (s[1] == 'h' || s[1] == 'H')
    ensures NormalizeLocale(Some("")) == En
  {
    if |s| >= 2 {
      assert Lower(s)[..2] == [LowerChar(s[0]), LowerChar(s[1])];
    }
  }

  /** Every locale tag normalises to its own locale, so normalisation is idempotent. */
  lemma NormalizeLocaleFixesTags(l: Locale, input: Option<string>)
    ensures NormalizeLocale(Some(LocaleTag(l))) == l
    ensures NormalizeLocale(Some(LocaleTag(NormalizeLocale(input)))) == NormalizeLocale(input)
  {
    NormalizeLocaleCases(LocaleTag(l));
    NormalizeLocaleCases(LocaleTag(NormalizeLocale(input)));
  }

  // ---------------------------------------------------------------------
  // formatMessage

  /** `\w` of a JavaScript regular expression without the `u` flag. */
  predicate IsWordChar(c: char) {
    'A' <= c <= 'Z' || 'a' <= c <= 'z' || '0' <= c <= '9' || c == '_'
  }

  predicate IsWord(s: string) {
    s != [] && forall i :: 0 <= i < |s| ==> IsWordChar(s[i])
  }

  /** Length of the longest prefix of s made of word characters. */
  function WordRun(s: string): (n: nat)
    ensures n <= |s|
    ensures forall i :: 0 <= i < n ==> IsWordChar(s[i])
    ensures n < |s| ==> !IsWordChar(s[n])
  {
    if s == [] || !IsWordChar(s[0]) then 0 else 1 + WordRun(s[1..])
  }

  /** Length of the placeholder `{name}` starting t, or 0 when t does not
      start with one (what `/\{(\w+)\}/` matches at this position). */
  function PlaceholderAt(t: string): (n: nat)
    ensures n == 0 || (3 <= n <= |t| && t[0] == '{' && t[n - 1] == '}' && IsWord(t[1..n - 1]))
  {
    if t == [] || t[0] != '{' then 0
    else
      var w := WordRun(t[1..]);
      if w > 0 && 1 + w < |t| && t[1 + w] == '}' then w + 2 else 0
  }

  /** What replaces `{key}`: the value when the key is present, otherwise
      the placeholder itself (`values[key] ?? `{${key}}``). */
  function Replacement(values: map<string, string>, key: string): string {
    if key in values then values[key] else "{" + key + "}"
  }

  /** The global replace of `{name}` placeholders: one left-to-right pass,
      replacements are not scanned again. */
  function Substitute(t: string, values: map<string, string>): string
    decreases |t|
  {
    if t == [] then []
    else
      var n := PlaceholderAt(t);
      if n > 0 then Replacement(values, t[1..n - 1]) + Substitute(t[n..], values)
      else [t[0]] + Substitute(t[1..], values)
  }

  /** `formatMessage`: without a values object the template is returned as is. */
  function FormatMessage(template: string, values: Option<map<string, string>>): (r: string)
    ensures values.None? ==> r == template
  {
    match values
    case None => template
    case Some(v) => Substitute(template, v)
  }

  /** One step of the scan: a character that does not open a placeholder is copied. */
  lemma CopiesPlainCharacter(t: string, values: map<string, string>)
    requires t != [] && PlaceholderAt(t) == 0
    ensures Substitute(t, values) == [t[0]] + Substitute(t[1..], values)
  {
  }

  /** Text without an opening brace is copied verbatim. */
  lemma {:induction false} LiteralCopied(lit: string, rest: string, values: map<string, string>)
    requires '{' !in lit
    ensures Substitute(lit + rest, values) == lit + Substitute(rest, values)
  {
    if lit != [] {
      var t := lit + rest;
      assert t[0] == lit[0] && t[1..] == lit[1..] + rest;
      assert PlaceholderAt(t) == 0;
      CopiesPlainCharacter(t, values);
      LiteralCopied(lit[1..], rest, values);
      assert [lit[0]] + lit[1..] == lit;
    } else {
      assert lit + rest == rest;
    }
  }

  /** One step of the scan: a placeholder is replaced and the scan resumes after it. */
  lemma ReplacesPlaceholder(t: string, values: map<string, string>)
    requires PlaceholderAt(t) > 0
    ensures Substitute(t, values) == Replacement(values, t[1..PlaceholderAt(t) - 1]) + Substitute(t[PlaceholderAt(t)..], values)
  {
  }

  lemma {:induction false} WordRunOfWord(w: string, rest: string)
    requires forall i :: 0 <= i < |w| ==> IsWordChar(w[i])
    requires rest != [] && !IsWordChar(rest[0])
    ensures WordRun(w + rest) == |w|
  {
    if w != [] {
      assert (w + rest)[0] == w[0] && (w + rest)[1..] == w[1..] + rest;
      WordRunOfWord(w[1..], rest);
    } else {
      assert w + rest == rest;
    }
  }

  /** `{key}` with a word key is recognised as a placeholder of its full length. */
  lemma PlaceholderOfWord(key: string, rest: string)
    requires IsWord(key)
    ensures PlaceholderAt("{" + key + "}" + rest) == |key| + 2
  {
    var p := "{" + key + "}" + rest;
    var tail := "}" + rest;
    assert p[1..] == key + tail;
    WordRunOfWord(key, tail);
    assert p[1 + |key|] == '}';
  }

  /** A leading `{key}` with a word key is replaced, and the scan resumes after it. */
  lemma LeadingPlaceholder(key: string, rest: string, values: map<string, string>)
    requires IsWord(key)
    ensures Substitute("{" + key + "}" + rest, values) == Replacement(values, key) + Substitute(rest, values)
  {
    var p := "{" + key + "}" + rest;
    PlaceholderOfWord(key, rest);
    assert p[1..|key| + 1] == key && p[|key| + 2..] == rest by {
      assert p == "{" + key + ("}" + rest);
    }
    ReplacesPlaceholder(p, values);
  }

  /** A placeholder after literal text is replaced by its value, and the
      rest of the template is processed independently of what was inserted. */
  lemma PlaceholderReplaced(lit: string, key: string, rest: string, values: map<string, string>)
    requires '{' !in lit && IsWord(key)
    ensures Substitute(lit + ("{" + key + "}" + rest), values) == lit + (Replacement(values, key) + Substitute(rest, values))
  {
    LeadingPlaceholder(key, rest, values);
    LiteralCopied(lit, "{" + key + "}" + rest, values);
  }

  /** A recognised placeholder is an opening brace, its key and a closing brace. */
  lemma PlaceholderSplits(t: string)
    requires PlaceholderAt(t) > 0
    ensures t == "{" + t[1..PlaceholderAt(t) - 1] + "}" + t[PlaceholderAt(t)..]
  {
    var n := PlaceholderAt(t);
    assert t[..n] == "{" + t[1..n - 1] + "}";
    assert t == t[..n] + t[n..];
  }

  /** When no key of the values object is a word, every placeholder stays
      literally in place: the template comes back unchanged. */
  lemma {:induction false} SubstituteWithoutMatchingKeys(t: string, values: map<string, string>)
    requires forall k :: k in values ==> !IsWord(k)
    ensures Substitute(t, values) == t
    decreases |t|
  {
    if t != [] {
      var n := PlaceholderAt(t);
      if n > 0 {
        var key := t[1..n - 1];
        ReplacesPlaceholder(t, values);
        SubstituteWithoutMatchingKeys(t[n..], values);
        assert Replacement(values, key) == "{" + key + "}";
        PlaceholderSplits(t);
      } else {
        CopiesPlainCharacter(t, values);
        SubstituteWithoutMatchingKeys(t[1..], values);
        assert [t[0]] + t[1..] == t;
      }
    }
  }

  /** `formatMessage` with an empty values object is the identity. */
  lemma FormatWithEmptyValues(t: string)
    ensures FormatMessage(t, Some(map[])) == t
  {
    SubstituteWithoutMatchingKeys(t, map[]);
  }

  /** Brace groups that are not `{\w+}` are left untouched. */
  lemma NonPlaceholdersKept(values: map<string, string>)
    ensures FormatMessage("{}", Some(values)) == "{}"
    ensures FormatMessage("{a-b}", Some(values)) == "{a-b}"
  {
    var empty, dashed := "{}", "{a-b}";
    assert WordRun(empty[1..]) == 0;
    CopiesPlainCharacter(empty, values);
    LiteralCopied(empty[1..], "", values);
    assert empty[1..] + "" == empty[1..];
    assert WordRun(dashed[1..]) == 1 by {
      assert dashed[1..][1..] == "-b}";
    }
    CopiesPlainCharacter(dashed, values);
    LiteralCopied(dashed[1..], "", values);
    assert dashed[1..] + "" == dashed[1..];
  }

  /** Inserted values are not scanned again: when the value of `{k1}` is
      itself the placeholder `{k2}`, the output keeps that text and only the
      template's own `{k2}` is replaced. */
  lemma InsertedValueNotRescanned(k1: string, k2: string, values: map<string, string>)
    requires IsWord(k1) && IsWord(k2) && k1 in values && values[k1] == "{" + k2 + "}"
    ensures Substitute("{" + k1 + "}" + ("{" + k2 + "}"), values) == "{" + k2 + "}" + Replacement(values, k2)
  {
    var second := "{" + k2 + "}";
    LeadingPlaceholder(k1, second, values);
    LeadingPlaceholder(k2, "", values);
    assert second + "" == second;
  }

  /** A non-word character ends a word run, whatever follows it. */
  lemma {:induction false} WordRunBeforeNonWord(x: string, c: string)
    requires c != [] && !IsWordChar(c[0])
    ensures WordRun(x + c) == WordRun(x)
  {
    if x != [] {
      assert (x + c)[0] == x[0] && (x + c)[1..] == x[1..] + c;
      WordRunBeforeNonWord(x[1..], c);
    } else {
      assert x + c == c;
    }
  }

  /** Text that starts with an opening brace cannot complete a placeholder
      begun before it, so appending it does not change what is recognised. */
  lemma PlaceholderBeforeBrace(a: string, c: string)
    requires a != [] && c != [] && c[0] == '{'
    ensures PlaceholderAt(a + c) == PlaceholderAt(a)
  {
    var t := a + c;
    if a[0] == '{' {
      assert t[1..] == a[1..] + c;
      WordRunBeforeNonWord(a[1..], c);
      var w := WordRun(a[1..]);
      if 1 + w == |a| {
        assert t[1 + w] == c[0];
      } else {
        assert t[1 + w] == a[1 + w];
      }
    }
  }

  /** The scan restarts cleanly at an opening brace: text ending just
      before a `{` is substituted on its own. */
  lemma {:induction false} SubstituteSplitAtBrace(a: string, c: string, values: map<string, string>)
    requires c == [] || c[0] == '{'
    ensures Substitute(a + c, values) == Substitute(a, values) + Substitute(c, values)
    decreases |a|
  {
    if a == [] {
      assert a + c == c;
    } else if c == [] {
      assert a + c == a;
    } else {
      var t := a + c;
      var n := PlaceholderAt(a);
      PlaceholderBeforeBrace(a, c);
      if n > 0 {
        assert t[1..n - 1] == a[1..n - 1] && t[n..] == a[n..] + c;
        ReplacesPlaceholder(t, values);
        ReplacesPlaceholder(a, values);
        SubstituteSplitAtBrace(a[n..], c, values);
      } else {
        assert t[0] == a[0] && t[1..] == a[1..] + c;
        CopiesPlainCharacter(t, values);
        CopiesPlainCharacter(a, values);
        SubstituteSplitAtBrace(a[1..], c, values);
      }
    }
  }

  /** Wherever a `{word}` placeholder stands, it is replaced by its value
      (or kept when the key is missing), and the text before and after it
      is substituted independently. */
  lemma PlaceholderAnywhere(a: string, key: string, b: string, values: map<string, string>)
    requires IsWord(key)
    ensures Substitute(a + ("{" + key + "}" + b), values) == Substitute(a, values) + (Replacement(values, key) + Substitute(b, values))
  {
    SubstituteSplitAtBrace(a, "{" + key + "}" + b, values);
    LeadingPlaceholder(key, b, values);
  }

  /** A template in which no position starts a `{word}` placeholder comes
      back unchanged, whatever brace groups it holds. */
  lemma {:induction false} NoPlaceholderKept(t: string, values: map<string, string>)
    requires forall i :: 0 <= i < |t| ==> PlaceholderAt(t[i..]) == 0
    ensures Substitute(t, values) == t
    decreases |t|
  {
    if t != [] {
      assert t[0..] == t;
      CopiesPlainCharacter(t, values);
      forall i | 0 <= i < |t[1..]|
        ensures PlaceholderAt(t[1..][i..]) == 0
      {
        assert t[1..][i..] == t[i + 1..];
      }
      NoPlaceholderKept(t[1..], values);
      assert [t[0]] + t[1..] == t;
    }
  }

  /** A doubled brace keeps the outer braces: with count 6, "{{count}}" gives "{6}". */
  lemma DoubledBracesKeepOuter(key: string, value: string)
    requires IsWord(key)
    ensures FormatMessage("{" + ("{" + key + "}" + "}"), Some(map[key := value])) == "{" + value + "}"
  {
    var v := map[key := value];
    var open, close := "{", "}";
    assert Substitute(open, v) == open by {
      CopiesPlainCharacter(open, v);
      assert open[1..] == [];
    }
    assert Substitute(close, v) == close by {
      CopiesPlainCharacter(close, v);
      assert close[1..] == [];
    }
    assert Replacement(v, key) == value;
    PlaceholderAnywhere(open, key, close, v);
  }

  /** A placeholder whose key is missing from the values stays literally,
      wherever it stands. */
  lemma MissingKeyKept(a: string, key: string, b: string, values: map<string, string>)
    requires IsWord(key) && key !in values
    ensures Substitute(a + ("{" + key + "}" + b), values) == Substitute(a, values) + ("{" + key + "}" + Substitute(b, values))
  {
    PlaceholderAnywhere(a, key, b, values);
  }

  // ---------------------------------------------------------------------
  // Message tables and the translator

  /** The message keys (`keyof typeof messages.en`). */
  datatype MessageKey =
      SearchPlaceholder
    | NavSyncSource
    | NavSyncing
    | NavToggleToZh
    | NavToggleToEn
    | NavThemeLight
    | NavThemeDark
    | HeroTitleLine1
    | HeroTitleLine2
    | HeroSubtitle
    | BannerLatestDiscovery
    | BannerClose
    | SectionFeaturedCrystals
    | SectionShowingResults
    | EmptyNoResults
    | EmptyClearSearch
    | FooterDataFrom
    | FooterDataTail
    | FooterExplore
    | FooterHealing
    | FooterAbout
    | ModalHardness
    | ModalChakra
    | ModalElement
    | ModalDeepInsights
    | ModalConsulting
    | ModalSourcesFound
    | ModalNoAiData
    | CommonNa
    | CommonEarth
    | ErrorsSyncFailed
    | ErrorsFetchFailed

  /** The key's name in the source tables. */
  function KeyName(k: MessageKey): string {
    match k
    case SearchPlaceholder => "search.placeholder"
    case NavSyncSource => "nav.syncSource"
    case NavSyncing => "nav.syncing"
    case NavToggleToZh => "nav.toggleToZh"
    case NavToggleToEn => "nav.toggleToEn"
    case NavThemeLight => "nav.themeLight"
    case NavThemeDark => "nav.themeDark"
    case HeroTitleLine1 => "hero.titleLine1"
    case HeroTitleLine2 => "hero.titleLine2"
    case HeroSubtitle => "hero.subtitle"
    case BannerLatestDiscovery => "banner.latestDiscovery"
    case BannerClose => "banner.close"
    case SectionFeaturedCrystals => "section.featuredCrystals"
    case SectionShowingResults => "section.showingResults"
    case EmptyNoResults => "empty.noResults"
    case EmptyClearSearch => "empty.clearSearch"
    case FooterDataFrom => "footer.dataFrom"
    case FooterDataTail => "footer.dataTail"
    case FooterExplore => "footer.explore"
    case FooterHealing => "footer.healing"
    case FooterAbout => "footer.about"
    case ModalHardness => "modal.hardness"
    case ModalChakra => "modal.chakra"
    case ModalElement => "modal.element"
    case ModalDeepInsights => "modal.deepInsights"
    case ModalConsulting => "modal.consulting"
    case ModalSourcesFound => "modal.sourcesFound"
    case ModalNoAiData => "modal.noAiData"
    case CommonNa => "common.na"
    case CommonEarth => "common.earth"
    case ErrorsSyncFailed => "errors.syncFailed"
    case ErrorsFetchFailed => "errors.fetchFailed"
  }

  /** `messages.en`. */
  const EnMessages: map<MessageKey, string> := map[
    SearchPlaceholder := "Search crystal by name or property (e.g., Love, Protection)...",
    NavSyncSource := "Sync Source",
    NavSyncing := "Syncing...",
    NavToggleToZh := "中文",
    NavToggleToEn := "EN",
    NavThemeLight := "Light",
    NavThemeDark := "Dark",
    HeroTitleLine1 := "Discover the Hidden",
    HeroTitleLine2 := "Vibrations of Earth",
    HeroSubtitle := "A meticulously organized guide to crystals, mineral types, and their metaphysical healing properties. Powered by advanced AI search for real-time clarity.",
    BannerLatestDiscovery := "Latest Discovery from Source",
    BannerClose := "Close",
    SectionFeaturedCrystals := "Featured Crystals",
    SectionShowingResults := "Showing {count} results",
    EmptyNoResults := "No crystals found matching your search",
    EmptyClearSearch := "Clear search",
    FooterDataFrom := "Data synthesized from",
    FooterDataTail := "& other high-vibration sources.",
    FooterExplore := "Explore",
    FooterHealing := "Healing",
    FooterAbout := "About",
    ModalHardness := "Hardness",
    ModalChakra := "Chakra",
    ModalElement := "Element",
    ModalDeepInsights := "Deep Insights (Powered by AI)",
    ModalConsulting := "Consulting the cosmic database...",
    ModalSourcesFound := "Sources Found",
    ModalNoAiData := "No AI insights available for now.",
    CommonNa := "N/A",
    CommonEarth := "Earth",
    ErrorsSyncFailed := "Failed to sync with source site.",
    ErrorsFetchFailed := "Failed to fetch crystal data. Please try again."
  ]

  /** `messages['zh-CN']`. */
  const ZhMessages: map<MessageKey, string> := map[
    SearchPlaceholder := "按名称或功效搜索水晶（例如：爱情、守护）…",
    NavSyncSource := "同步来源",
    NavSyncing := "同步中…",
    NavToggleToZh := "中文",
    NavToggleToEn := "EN",
    NavThemeLight := "日间",
    NavThemeDark := "夜间",
    HeroTitleLine1 := "探索大地深处",
    HeroTitleLine2 := "隐藏的振动频率",
    HeroSubtitle := "一份系统整理的水晶与矿物指南，涵盖类别与身心灵疗愈属性。由 AI 搜索增强，带来更清晰的实时信息。",
    BannerLatestDiscovery := "来自来源站点的最新发现",
    BannerClose := "关闭",
    SectionFeaturedCrystals := "精选水晶",
    SectionShowingResults := "共 {count} 条结果",
    EmptyNoResults := "没有找到符合搜索条件的水晶",
    EmptyClearSearch := "清空搜索",
    FooterDataFrom := "数据综合自",
    FooterDataTail := "等高频来源。",
    FooterExplore := "探索",
    FooterHealing := "疗愈",
    FooterAbout := "关于",
    ModalHardness := "硬度",
    ModalChakra := "脉轮",
    ModalElement := "元素",
    ModalDeepInsights := "深度解读（AI 驱动）",
    ModalConsulting := "正在查询资料库…",
    ModalSourcesFound := "参考来源",
    ModalNoAiData := "暂时没有可用的 AI 解读。",
    CommonNa := "暂无",
    CommonEarth := "大地",
    ErrorsSyncFailed := "同步来源站点失败。",
    ErrorsFetchFailed := "获取水晶信息失败，请稍后重试。"
  ]

  function Messages(l: Locale): map<MessageKey, string> {
    match l
    case En => EnMessages
    case ZhCN => ZhMessages
  }

  /** `t(key, values)`: the locale's template, or the English one when the
      locale lacks the key, formatted with the values. Keys are those of the
      English table, as the `Translator` type demands. */
  function Translate(l: Locale, key: MessageKey, values: Option<map<string, string>>): (r: string)
  {
    var table := Messages(l);
    var template := if key in table then table[key] else (EnglishHasEveryKey(key); EnMessages[key]);
    FormatMessage(template, values)
  }

  /** The English table defines every key, as the `Translator` type relies on. */
  lemma EnglishHasEveryKey(key: MessageKey)
    ensures key in EnMessages
  {
  }

  /** The Chinese table defines every key too. */
  lemma ChineseHasEveryKey(key: MessageKey)
    ensures key in ZhMessages
  {
  }

  /** Both tables define the same keys: all 32 of them. */
  lemma TablesShareKeys()
    ensures EnMessages.Keys == ZhMessages.Keys
    ensures forall k: MessageKey :: k in EnMessages
  {
    forall k: MessageKey ensures k in EnMessages && k in ZhMessages {
      EnglishHasEveryKey(k);
      ChineseHasEveryKey(k);
    }
  }

  /** Lookup is total: the locale's own template is always found, so the
      English fallback is never taken. */
  lemma TranslateUsesOwnTable(l: Locale, key: MessageKey, values: Option<map<string, string>>)
    ensures key in Messages(l) && Translate(l, key, values) == FormatMessage(Messages(l)[key], values)
  {
    EnglishHasEveryKey(key);
    ChineseHasEveryKey(key);
  }

  /** A template with one `{count}` between brace-free texts. */
  lemma CountTemplate(lit: string, tail: string, count: string)
    requires '{' !in lit && '{' !in tail
    ensures Substitute(lit + ("{" + "count" + "}" + tail), map["count" := count]) == lit + (count + tail)
  {
    var v := map["count" := count];
    assert IsWord("count") && Replacement(v, "count") == count;
    PlaceholderReplaced(lit, "count", tail, v);
    LiteralCopied(tail, "", v);
    assert tail + "" == tail;
  }

  lemma ShowingResultsEnglishTemplate(count: string)
    ensures FormatMessage(EnMessages[SectionShowingResults], Some(map["count" := count])) == "Showing " + (count + " results")
  {
    assert EnMessages[SectionShowingResults] == "Showing " + ("{" + "count" + "}" + " results");
    CountTemplate("Showing ", " results", count);
  }

  lemma ShowingResultsChineseTemplate(count: string)
    ensures FormatMessage(ZhMessages[SectionShowingResults], Some(map["count" := count])) == "共 " + (count + " 条结果")
  {
    assert ZhMessages[SectionShowingResults] == "共 " + ("{" + "count" + "}" + " 条结果");
    CountTemplate("共 ", " 条结果", count);
  }

  /** The key behind the worked example below, as the tables name it. */
  lemma ShowingResultsKey()
    ensures KeyName(SectionShowingResults) == "section.showingResults"
  {
  }

  /** Worked example: the result count in both locales. */
  lemma ShowingResultsExample(count: string)
    ensures Translate(En, SectionShowingResults, Some(map["count" := count])) == "Showing " + (count + " results")
    ensures Translate(ZhCN, SectionShowingResults, Some(map["count" := count])) == "共 " + (count + " 条结果")
  {
    TranslateUsesOwnTable(En, SectionShowingResults, Some(map["count" := count]));
    TranslateUsesOwnTable(ZhCN, SectionShowingResults, Some(map["count" := count]));
    ShowingResultsEnglishTemplate(count);
    ShowingResultsChineseTemplate(count);
  }

  // ---------------------------------------------------------------------
  // The provider's locale state

  /** The initial locale: a saved non-empty entry wins over the browser language. */
  function InitialLocale(saved: Option<string>, browserLanguage: Option<string>): (r: Locale)
    ensures saved.Some? && saved.value != "" ==> r == NormalizeLocale(saved)
    ensures saved.None? || saved.value == "" ==> r == NormalizeLocale(browserLanguage)
  {
    if saved.Some? && saved.value != "" then NormalizeLocale(saved) else NormalizeLocale(browserLanguage)
  }

  /** A locale that was saved is restored on the next start, whatever the browser says. */
  lemma SavedLocaleRestored(l: Locale, browserLanguage: Option<string>)
    ensures InitialLocale(Some(LocaleTag(l)), browserLanguage) == l
  {
    NormalizeLocaleFixesTags(l, None);
  }

  /** `I18nProvider`: the held locale and the storage entry it writes.
      Storage is absent when there is no window; a failed write is an input. */
  class I18nProvider {
    var locale: Locale
    var stored: Option<string>  // the `crystalyze.locale` storage entry

    constructor (saved: Option<string>, browserLanguage: Option<string>)
      ensures locale == InitialLocale(saved, browserLanguage)
      ensures stored == saved
    {
      locale := InitialLocale(saved, browserLanguage);
      stored := saved;
    }

    /** `setLocale`: the state changes even when the storage write fails. */
    method SetLocale(next: Locale, writeFails: bool)
      modifies this
      ensures locale == next
      ensures stored == if writeFails then old(stored) else Some(LocaleTag(next))
    {
      locale := next;
      if !writeFails {
        stored := Some(LocaleTag(next));
      }
    }

    /** The translator bound to the current locale. */
    function T(key: MessageKey, values: Option<map<string, string>>): (r: string)
      reads this
      ensures key in Messages(locale) && r == FormatMessage(Messages(locale)[key], values)
    {
      TranslateUsesOwnTable(locale, key, values);
      Translate(locale, key, values)
    }
  }

  /** What a caller can rely on: a chosen locale survives a reload when the
      write succeeds, and a failed write leaves the earlier entry in force. */
  method ReloadAfterSetLocale(next: Locale, browserLanguage: Option<string>)
    returns (reloaded: Locale, reloadedAfterFailedWrite: Locale)
    ensures reloaded == next
    ensures reloadedAfterFailedWrite == next
  {
    var p := new I18nProvider(None, browserLanguage);
    p.SetLocale(next, false);
    var q := new I18nProvider(p.stored, browserLanguage);
    SavedLocaleRestored(next, browserLanguage);
    reloaded := q.locale;
    q.SetLocale(if next == En then ZhCN else En, true);
    var r := new I18nProvider(q.stored, browserLanguage);
    reloadedAfterFailedWrite := r.locale;
  }
}
