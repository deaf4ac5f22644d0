/**
 * `TranslationService.translateOncePerLanguage`: translate one chat message into
 * each requested language, at most once per language, through the cache.
 *
 * The source runs one asynchronous provider call per cache miss and joins them.
 * The model runs the same steps in one legal order: first the loop over the target
 * languages (a cache `get` each; hits go straight into the result, misses become
 * tasks), then the tasks one after another (provider call, post-processing, cache
 * `put`, result entry). The provider is a parameter: a function from
 * (platform, model, system prompt, user prompt) to its reply.
 */
module Service {
  import opened Base
  import opened Text
  import opened Cache

  /** What one provider round trip yields: an exception, or the completion text (maybe null). */
  datatype Reply = Failed | Content(text: Option<string>)

  /** `ai.getResponse` followed by `ai.getCompletionContent`. */
  type Provider = (string, string, string, string) -> Reply

  /** The service's fixed AI settings. */
  datatype AiConfig = AiConfig(platform: string, model: string, tokenType: string, systemPrompt: string)

  const PromptHead: string := "Target language code: "
  const PromptMid: string := "\nText:\n"

  /** The user prompt sent for `lang`. */
  function UserPrompt(lang: string, message: string): (r: string)
    ensures |r| == |PromptHead| + |lang| + |PromptMid| + |message|
    ensures StartsWith(r, PromptHead) && EndsWith(r, PromptMid + message)
    ensures r[|PromptHead|..|PromptHead| + |lang|] == lang
  {
    var r := PromptHead + lang + PromptMid + message;
    assert r[..|PromptHead|] == PromptHead;
    assert r[|r| - |PromptMid + message|..] == PromptMid + message;
    r
  }

  /** The provider's reply for one language. */
  function Ask(cfg: AiConfig, provider: Provider, lang: string, message: string): Reply {
    provider(cfg.platform, cfg.model, cfg.systemPrompt, UserPrompt(lang, message))
  }

  /** `p` stands somewhere inside `s`, in one piece. */
  predicate IsInfix(p: string, s: string) {
    exists i, j :: 0 <= i <= j <= |s| && s[i..j] == p
  }

  lemma InfixTransitive(a: string, b: string, c: string)
    requires IsInfix(a, b) && IsInfix(b, c)
    ensures IsInfix(a, c)
  {
    var i, j :| 0 <= i <= j <= |b| && b[i..j] == a;
    var k, l :| 0 <= k <= l <= |c| && c[k..l] == b;
    assert forall x :: 0 <= x < |a| ==> a[x] == b[i + x] == c[k + i + x];
    assert c[k + i..k + j] == a;
  }

  /** `trim` keeps one contiguous piece of its input. */
  lemma TrimIsInfix(s: string)
    ensures IsInfix(Trim(s), s)
  {
    var st := SkipLeading(s, 0);
    var len := SkipTrailing(s, st, |s|);
    assert s[st..len] == Trim(s);
  }

  /**
   * The post-processing of a completion: null becomes "", the text is trimmed, and
   * one enclosing pair of double quotes (on text longer than one char) is stripped
   * before a second trim.
   */
  function PostProcess(raw: Option<string>): (r: string)
    ensures IsTrimmed(r)
  {
    var t := Trim(raw.GetOr(""));
    if IsQuoted(t) then Trim(t[1..|t| - 1]) else t
  }

  /** The source's test for an enclosing pair: starts and ends with `"` and is longer than one char. */
  predicate IsQuoted(t: string) {
    StartsWith(t, "\"") && EndsWith(t, "\"") && |t| > 1
  }

  lemma IsQuotedIff(t: string)
    ensures IsQuoted(t) <==> |t| > 1 && t[0] == '"' && t[|t| - 1] == '"'
  {
    if |t| > 1 {
      assert t[..1] == [t[0]] && t[|t| - 1..] == [t[|t| - 1]];
    }
  }

  /** The processed text is one contiguous piece of the raw completion. */
  lemma PostProcessIsInfix(raw: Option<string>)
    ensures IsInfix(PostProcess(raw), raw.GetOr(""))
  {
    var s := raw.GetOr("");
    var t := Trim(s);
    TrimIsInfix(s);
    if IsQuoted(t) {
      var inner := t[1..|t| - 1];
      assert IsInfix(inner, t) by { assert t[1..|t| - 1] == inner; }
      TrimIsInfix(inner);
      InfixTransitive(Trim(inner), inner, t);
      InfixTransitive(Trim(inner), t, s);
    }
  }

  /** A completion that trims to `"inner"` comes back as `inner`, trimmed. */
  lemma PostProcessStripsPair(raw: string, inner: string)
    requires Trim(raw) == ['"'] + inner + ['"']
    ensures PostProcess(Some(raw)) == Trim(inner)
  {
    var t := Trim(raw);
    IsQuotedIff(t);
    assert t[1..|t| - 1] == inner;
  }

  /** Text without a double quote is only trimmed. */
  lemma PostProcessWithoutQuotes(raw: string)
    requires '"' !in raw
    ensures PostProcess(Some(raw)) == Trim(raw)
  {
    var t := Trim(raw);
    IsQuotedIff(t);
    TrimIsInfix(raw);
    if |t| > 0 {
      var i, j :| 0 <= i <= j <= |raw| && raw[i..j] == t;
      assert t[0] == raw[i];
    }
  }

  /** A completion whose trimmed text is not enclosed in a pair of quotes is only trimmed. */
  lemma PostProcessUnquotedIsTrim(raw: string)
    ensures !IsQuoted(Trim(raw)) ==> PostProcess(Some(raw)) == Trim(raw)
    ensures PostProcess(Some("\"abc")) == "\"abc"
  {
    var s := "\"abc";
    assert SkipLeading(s, 0) == 0;
    assert SkipTrailing(s, 0, |s|) == |s|;
    assert Trim(s) == s;
    IsQuotedIff(s);
  }

  /** A completion that is exactly a trimmed text in quotes comes back as that text. */
  lemma PostProcessUnquotesTrimmed(raw: string, inner: string)
    requires raw == ['"'] + inner + ['"'] && IsTrimmed(inner)
    ensures PostProcess(Some(raw)) == inner
  {
    TrimOfTrimmed(raw);
    PostProcessStripsPair(raw, inner);
    TrimOfTrimmed(inner);
  }

  /** Example: a quoted word comes back bare. */
  lemma PostProcessUnquotes(raw: string)
    requires raw == "\"Bonjour\""
    ensures PostProcess(Some(raw)) == "Bonjour"
  {
    PostProcessUnquotesTrimmed(raw, "Bonjour");
  }

  /** Example: only one pair of quotes is stripped. */
  lemma PostProcessStripsOnePair(raw: string)
    requires raw == "\"\"Hi\"\""
    ensures PostProcess(Some(raw)) == "\"Hi\""
  {
    PostProcessUnquotesTrimmed(raw, "\"Hi\"");
  }

  /** Example: a lone quote is kept. */
  lemma PostProcessKeepsLoneQuote(raw: string)
    requires raw == "\""
    ensures PostProcess(Some(raw)) == raw
  {
    TrimOfTrimmed(raw);
    IsQuotedIff(raw);
  }

  /** A null completion becomes the empty translation. */
  lemma PostProcessNullIsEmpty()
    ensures PostProcess(None) == ""
  {
  }

  // ---------- the two phases, as functions ----------

  /** State after the loop over the languages: the cache, the hits, and the misses in order. */
  datatype Gathered = Gathered(state: CacheState, hits: map<string, string>, misses: seq<string>)

  /** State after the tasks: the cache and the translations they produced. */
  datatype Stored = Stored(state: CacheState, translated: map<string, string>)

  /** The cache key of `lang` for this message. */
  function LangKey(message: string, lang: string): string {
    KeyOf(Some(message), Some(lang))
  }

  /** The loop over `langs`: one cache `get` per language, in order. */
  function Gather(st: CacheState, message: string, langs: seq<string>, now: int, ttlSeconds: int): Gathered
    decreases |langs|
  {
    if langs == [] then Gathered(st, map[], [])
    else
      var g := Gather(st, message, langs[..|langs| - 1], now, ttlSeconds);
      var lang := langs[|langs| - 1];
      var l := GetStep(g.state, LangKey(message, lang), now, ttlSeconds);
      if l.hit.Some? then Gathered(l.state, g.hits[lang := l.hit.value], g.misses)
      else Gathered(l.state, g.hits, g.misses + [lang])
  }

  /** The tasks for `misses`: on a reply, `put` the processed text and record it; on failure, nothing. */
  function Store(st: CacheState, message: string, misses: seq<string>, cfg: AiConfig, provider: Provider,
                 now: int, maxEntries: int): Stored
    decreases |misses|
  {
    if misses == [] then Stored(st, map[])
    else
      var s := Store(st, message, misses[..|misses| - 1], cfg, provider, now, maxEntries);
      var lang := misses[|misses| - 1];
      match Ask(cfg, provider, lang, message)
      case Failed => s
      case Content(text) =>
        var t := PostProcess(text);
        Stored(PutStep(s.state, LangKey(message, lang), Entry(t, now), maxEntries), s.translated[lang := t])
  }

  /** The user prompts of the provider calls, one per miss, in order. */
  function Prompts(misses: seq<string>, message: string): seq<string> {
    seq(|misses|, i requires 0 <= i < |misses| => UserPrompt(misses[i], message))
  }

  /** The map the returned future completes with. */
  function Outcome(g: Gathered, s: Stored): map<string, string> {
    g.hits + s.translated
  }

  // ---------- the class ----------

  /** `TranslationService`: the cache and the AI settings it was built with. */
  class TranslationService {
    const cache: TranslationCache
    const config: AiConfig

    constructor (cache: TranslationCache, platform: string, model: string, tokenType: string, systemPrompt: string)
      ensures this.cache == cache
      ensures config == AiConfig(platform, model, tokenType, systemPrompt)
    {
      this.cache := cache;
      this.config := AiConfig(platform, model, tokenType, systemPrompt);
    }

    /**
     * `translateOncePerLanguage(message, targetLangs)` at epoch second `now`, with the
     * languages in the set's iteration order. `prompts` records the provider calls.
     */
    method TranslateOncePerLanguage(message: string, targetLangs: seq<string>, provider: Provider, now: int)
      returns (result: map<string, string>, ghost prompts: seq<string>)
      requires cache.Valid()
      modifies cache
      ensures cache.Valid()
      ensures var g := Gather(old(cache.State()), message, targetLangs, now, cache.ttlSeconds);
        var s := Store(g.state, message, g.misses, config, provider, now, cache.maxEntries);
        && cache.State() == s.state
        && result == Outcome(g, s)
        && prompts == Prompts(g.misses, message)
    {
      var hits, tasks := LookUpAll(message, targetLangs, now);
      var translated;
      translated, prompts := RunTasks(message, tasks, provider, now);
      result := hits + translated;
    }

    /** The `for` loop: a cache `get` per language; a hit enters the result, a miss becomes a task. */
    method LookUpAll(message: string, targetLangs: seq<string>, now: int)
      returns (hits: map<string, string>, tasks: seq<string>)
      requires cache.Valid()
      modifies cache
      ensures cache.Valid()
      ensures Gather(old(cache.State()), message, targetLangs, now, cache.ttlSeconds)
        == Gathered(cache.State(), hits, tasks)
    {
      hits := map[];
      tasks := [];
      var i := 0;
      while i < |targetLangs|
        invariant 0 <= i <= |targetLangs|
        invariant cache.Valid()
        invariant Gather(old(cache.State()), message, targetLangs[..i], now, cache.ttlSeconds)
          == Gathered(cache.State(), hits, tasks)
      {
        var lang := targetLangs[i];
        assert targetLangs[..i + 1][..i] == targetLangs[..i];
        var cached := cache.Get(Some(message), Some(lang), now);
        if cached.Some? {
          hits := hits[lang := cached.value];
        } else {
          tasks := tasks + [lang];
        }
        i := i + 1;
      }
      assert targetLangs[..i] == targetLangs;
    }

    /**
     * The tasks, joined: per miss one provider call; a reply is post-processed, put
     * into the cache and into the result; a failure is logged and leaves both alone.
     */
    method RunTasks(message: string, tasks: seq<string>, provider: Provider, now: int)
      returns (translated: map<string, string>, ghost prompts: seq<string>)
      requires cache.Valid()
      modifies cache
      ensures cache.Valid()
      ensures Store(old(cache.State()), message, tasks, config, provider, now, cache.maxEntries)
        == Stored(cache.State(), translated)
      ensures prompts == Prompts(tasks, message)
    {
      translated := map[];
      prompts := [];
      var j := 0;
      while j < |tasks|
        invariant 0 <= j <= |tasks|
        invariant cache.Valid()
        invariant Store(old(cache.State()), message, tasks[..j], config, provider, now, cache.maxEntries)
          == Stored(cache.State(), translated)
        invariant prompts == Prompts(tasks[..j], message)
      {
        var lang := tasks[j];
        assert tasks[..j + 1] == tasks[..j] + [lang];
        PromptsAppend(tasks[..j], lang, message);
        prompts := prompts + [UserPrompt(lang, message)];
        StoreAppend(old(cache.State()), message, tasks[..j], lang, config, provider, now, cache.maxEntries);
        var t := RunTask(message, lang, provider, now);
        if t.Some? {
          translated := translated[lang := t.value];
        }
        j := j + 1;
      }
      assert tasks[..j] == tasks;
    }

    /**
     * One task: the provider call for `lang`; a reply is post-processed and put into
     * the cache, a failure leaves the cache alone.
     */
    method RunTask(message: string, lang: string, provider: Provider, now: int) returns (t: Option<string>)
      requires cache.Valid()
      modifies cache
      ensures cache.Valid()
      ensures Ask(config, provider, lang, message).Failed? ==> t == None && cache.State() == old(cache.State())
      ensures Ask(config, provider, lang, message).Content? ==>
        && t == Some(PostProcess(Ask(config, provider, lang, message).text))
        && cache.State() == PutStep(old(cache.State()), LangKey(message, lang), Entry(t.value, now), cache.maxEntries)
    {
      var reply := provider(config.platform, config.model, config.systemPrompt, UserPrompt(lang, message));
      match reply {
        case Failed =>
          t := None;
        case Content(text) =>
          var processed := PostProcess(text);
          cache.Put(Some(message), Some(lang), processed, now);
          t := Some(processed);
      }
    }
  }

  /** One more miss: a failure changes nothing, a reply is put and recorded last. */
  lemma StoreAppend(st: CacheState, message: string, misses: seq<string>, lang: string, cfg: AiConfig,
                    provider: Provider, now: int, maxEntries: int)
    ensures var s := Store(st, message, misses, cfg, provider, now, maxEntries);
      var reply := Ask(cfg, provider, lang, message);
      && (reply.Failed? ==> Store(st, message, misses + [lang], cfg, provider, now, maxEntries) == s)
      && (reply.Content? ==>
            Store(st, message, misses + [lang], cfg, provider, now, maxEntries)
            == Stored(PutStep(s.state, LangKey(message, lang), Entry(PostProcess(reply.text), now), maxEntries),
                      s.translated[lang := PostProcess(reply.text)]))
  {
    assert (misses + [lang])[..|misses|] == misses;
  }

  /** One more miss adds its prompt at the end. */
  lemma PromptsAppend(misses: seq<string>, lang: string, message: string)
    ensures Prompts(misses + [lang], message) == Prompts(misses, message) + [UserPrompt(lang, message)]
  {
    var ps := Prompts(misses + [lang], message);
    assert forall i :: 0 <= i < |misses| ==> ps[i] == UserPrompt(misses[i], message);
  }

  // ---------- properties ----------

  /** The `get` loop leaves every key exactly as fresh, with the same value, as it found it. */
  lemma {:induction false} GatherKeepsFreshness(st: CacheState, message: string, langs: seq<string>,
                                                now: int, ttlSeconds: int, key: string)
    ensures var s := Gather(st, message, langs, now, ttlSeconds).state;
      && (IsFresh(s, key, now, ttlSeconds) <==> IsFresh(st, key, now, ttlSeconds))
      && (IsFresh(st, key, now, ttlSeconds) ==> s.entries[key] == st.entries[key])
  {
    if langs != [] {
      var g := Gather(st, message, langs[..|langs| - 1], now, ttlSeconds);
      GatherKeepsFreshness(st, message, langs[..|langs| - 1], now, ttlSeconds, key);
      GetKeepsFreshness(g.state, LangKey(message, langs[|langs| - 1]), key, now, ttlSeconds);
    }
  }

  /**
   * A language is a hit exactly when its key was fresh when the call began, and it
   * then carries the cached value; every other language is a miss, in list order.
   */
  lemma {:induction false} GatherSplitsByFreshness(st: CacheState, message: string, langs: seq<string>,
                                                   now: int, ttlSeconds: int)
    ensures var g := Gather(st, message, langs, now, ttlSeconds);
      && (forall lang :: lang in g.hits <==> lang in langs && IsFresh(st, LangKey(message, lang), now, ttlSeconds))
      && (forall lang :: lang in g.hits ==> g.hits[lang] == st.entries[LangKey(message, lang)].value)
      && (forall lang :: lang in g.misses <==> lang in langs && !IsFresh(st, LangKey(message, lang), now, ttlSeconds))
      && (Distinct(langs) ==> Distinct(g.misses))
  {
    if langs != [] {
      var init := langs[..|langs| - 1];
      var lang := langs[|langs| - 1];
      var g := Gather(st, message, init, now, ttlSeconds);
      GatherSplitsByFreshness(st, message, init, now, ttlSeconds);
      GatherKeepsFreshness(st, message, init, now, ttlSeconds, LangKey(message, lang));
      GetHitIffFresh(g.state, LangKey(message, lang), now, ttlSeconds);
      assert forall x :: x in langs <==> x in init || x == lang;
      assert Distinct(langs) ==> lang !in init;
    }
  }

  /** A miss is translated exactly when the provider answers, and then to the processed answer. */
  lemma {:induction false} StoreRecordsReplies(st: CacheState, message: string, misses: seq<string>, cfg: AiConfig,
                                               provider: Provider, now: int, maxEntries: int)
    ensures var s := Store(st, message, misses, cfg, provider, now, maxEntries);
      && (forall lang :: lang in s.translated <==> lang in misses && Ask(cfg, provider, lang, message).Content?)
      && (forall lang :: lang in s.translated ==>
            s.translated[lang] == PostProcess(Ask(cfg, provider, lang, message).text))
  {
    if misses != [] {
      var init := misses[..|misses| - 1];
      StoreRecordsReplies(st, message, init, cfg, provider, now, maxEntries);
      assert forall x :: x in misses <==> x in init || x == misses[|misses| - 1];
    }
  }

  /** Distinct languages give distinct prompts: the prompt determines its language. */
  lemma UserPromptInjective(l1: string, l2: string, message: string)
    ensures UserPrompt(l1, message) == UserPrompt(l2, message) <==> l1 == l2
  {
    if UserPrompt(l1, message) == UserPrompt(l2, message) {
      assert |l1| == |l2|;
    }
  }

  /** Exactly one provider call per miss, each with that language's prompt. */
  lemma PromptsOnePerMiss(misses: seq<string>, message: string)
    ensures |Prompts(misses, message)| == |misses|
    ensures forall lang :: UserPrompt(lang, message) in Prompts(misses, message) <==> lang in misses
    ensures Distinct(misses) ==> Distinct(Prompts(misses, message))
  {
    var ps := Prompts(misses, message);
    forall lang
      ensures UserPrompt(lang, message) in ps <==> lang in misses
    {
      if UserPrompt(lang, message) in ps {
        var i :| 0 <= i < |ps| && ps[i] == UserPrompt(lang, message);
        UserPromptInjective(misses[i], lang, message);
      }
      if lang in misses {
        var i :| 0 <= i < |misses| && misses[i] == lang;
        assert ps[i] == UserPrompt(lang, message);
      }
    }
    forall i, j | 0 <= i < j < |ps|
      ensures Distinct(misses) ==> ps[i] != ps[j]
    {
      UserPromptInjective(misses[i], misses[j], message);
    }
  }

  /**
   * What the returned map holds, language by language: a language whose cache entry
   * was live gets the cached text and no provider call; any other language is asked
   * once and gets the processed reply, or is absent when the call failed. Nothing
   * else appears; no languages means no cache change and no call.
   */
  lemma OutcomePerLanguage(st: CacheState, message: string, targetLangs: seq<string>, cfg: AiConfig,
                           provider: Provider, now: int, ttlSeconds: int, maxEntries: int)
    ensures var g := Gather(st, message, targetLangs, now, ttlSeconds);
      var s := Store(g.state, message, g.misses, cfg, provider, now, maxEntries);
      var result := Outcome(g, s);
      var prompts := Prompts(g.misses, message);
      && (forall lang :: lang in result ==> lang in targetLangs)
      && (forall lang :: lang in targetLangs && IsFresh(st, LangKey(message, lang), now, ttlSeconds) ==>
            && lang in result && result[lang] == st.entries[LangKey(message, lang)].value
            && UserPrompt(lang, message) !in prompts)
      && (forall lang :: lang in targetLangs && !IsFresh(st, LangKey(message, lang), now, ttlSeconds) ==>
            && UserPrompt(lang, message) in prompts
            && (Ask(cfg, provider, lang, message).Failed? ==> lang !in result)
            && (Ask(cfg, provider, lang, message).Content? ==>
                  lang in result && result[lang] == PostProcess(Ask(cfg, provider, lang, message).text)))
      && (targetLangs == [] ==> result == map[] && s.state == st && prompts == [])
  {
    var g := Gather(st, message, targetLangs, now, ttlSeconds);
    GatherSplitsByFreshness(st, message, targetLangs, now, ttlSeconds);
    StoreRecordsReplies(g.state, message, g.misses, cfg, provider, now, maxEntries);
    PromptsOnePerMiss(g.misses, message);
  }

  /**
   * Languages are not normalised before the loop: "ES", "es" and "Es" share one cache
   * key, yet on a cold cache each of them is a miss and is asked for separately.
   */
  lemma CaseVariantsAskedSeparately(message: string, now: int, ttlSeconds: int)
    ensures var g := Gather(CacheState(map[], []), message, ["ES", "es", "Es"], now, ttlSeconds);
      g.misses == ["ES", "es", "Es"] && |Prompts(g.misses, message)| == 3
      && g.state == CacheState(map[], [])
  {
    var langs := ["ES", "es", "Es"];
    assert langs[..2][..1] == ["ES"] && langs[..2] == ["ES", "es"];
    assert ["ES"][..0] == [];
  }

  /** When every provider call fails, the tasks leave the cache as the `get` loop left it. */
  lemma {:induction false} StoreSkipsFailures(st: CacheState, message: string, misses: seq<string>, cfg: AiConfig,
                                              provider: Provider, now: int, maxEntries: int)
    requires forall lang :: lang in misses ==> Ask(cfg, provider, lang, message).Failed?
    ensures Store(st, message, misses, cfg, provider, now, maxEntries) == Stored(st, map[])
  {
    if misses != [] {
      StoreSkipsFailures(st, message, misses[..|misses| - 1], cfg, provider, now, maxEntries);
    }
  }

  /** The entries the successful tasks put, later puts of a key overriding earlier ones. */
  function Written(message: string, misses: seq<string>, cfg: AiConfig, provider: Provider, now: int): map<string, Entry>
    decreases |misses|
  {
    if misses == [] then map[]
    else
      var w := Written(message, misses[..|misses| - 1], cfg, provider, now);
      var lang := misses[|misses| - 1];
      match Ask(cfg, provider, lang, message)
      case Failed => w
      case Content(text) => w[LangKey(message, lang) := Entry(PostProcess(text), now)]
  }

  /**
   * With room in the cache for every miss, the tasks evict nothing: the cache ends as
   * the entries it had, overridden by the entries the successful tasks put.
   */
  lemma {:induction false} StoreWithRoom(st: CacheState, message: string, misses: seq<string>, cfg: AiConfig,
                                         provider: Provider, now: int, maxEntries: int)
    requires WellFormed(st, maxEntries) && |st.entries| + |misses| <= maxEntries
    ensures var s := Store(st, message, misses, cfg, provider, now, maxEntries).state;
      && WellFormed(s, maxEntries) && |s.entries| <= |st.entries| + |misses|
      && s.entries == st.entries + Written(message, misses, cfg, provider, now)
  {
    if misses != [] {
      var init := misses[..|misses| - 1];
      var lang := misses[|misses| - 1];
      StoreWithRoom(st, message, init, cfg, provider, now, maxEntries);
      var s := Store(st, message, init, cfg, provider, now, maxEntries).state;
      var w := Written(message, init, cfg, provider, now);
      var reply := Ask(cfg, provider, lang, message);
      if reply.Content? {
        var key, e := LangKey(message, lang), Entry(PostProcess(reply.text), now);
        assert Store(st, message, misses, cfg, provider, now, maxEntries).state == PutStep(s, key, e, maxEntries);
        assert Written(message, misses, cfg, provider, now) == w[key := e];
        PutWithRoom(s, key, e, maxEntries);
        UnionThenUpdate(st.entries, w, key, e);
      }
    }
  }

  /**
   * When no two languages share a cache key, each successful language's entry is
   * its processed text stamped `now`.
   */
  lemma {:induction false} WrittenHoldsEachReply(message: string, misses: seq<string>, cfg: AiConfig,
                                                 provider: Provider, now: int)
    requires forall i, j :: 0 <= i < j < |misses| ==> LangKey(message, misses[i]) != LangKey(message, misses[j])
    ensures var w := Written(message, misses, cfg, provider, now);
      forall lang :: lang in misses && Ask(cfg, provider, lang, message).Content? ==>
        LangKey(message, lang) in w
        && w[LangKey(message, lang)] == Entry(PostProcess(Ask(cfg, provider, lang, message).text), now)
  {
    if misses != [] {
      var last := |misses| - 1;
      var init, lang := misses[..last], misses[last];
      DistinctKeysOfInit(message, misses);
      WrittenHoldsEachReply(message, init, cfg, provider, now);
      var w0 := Written(message, init, cfg, provider, now);
      var w := Written(message, misses, cfg, provider, now);
      var key := LangKey(message, lang);
      assert forall k :: k != key ==> (k in w <==> k in w0) && (k in w ==> w[k] == w0[k]);
      forall x | x in misses && Ask(cfg, provider, x, message).Content?
        ensures LangKey(message, x) in w
        ensures w[LangKey(message, x)] == Entry(PostProcess(Ask(cfg, provider, x, message).text), now)
      {
        if x != lang {
          assert x in init;
        }
      }
    }
  }

  /** Distinct keys stay distinct without the last language, and none of them is its key. */
  lemma DistinctKeysOfInit(message: string, misses: seq<string>)
    requires |misses| > 0
    requires forall i, j :: 0 <= i < j < |misses| ==> LangKey(message, misses[i]) != LangKey(message, misses[j])
    ensures var init := misses[..|misses| - 1];
      && (forall i, j :: 0 <= i < j < |init| ==> LangKey(message, init[i]) != LangKey(message, init[j]))
      && (forall x :: x in init ==> LangKey(message, x) != LangKey(message, misses[|misses| - 1]))
  {
    var init := misses[..|misses| - 1];
    assert forall i :: 0 <= i < |init| ==> init[i] == misses[i];
    forall x | x in init
      ensures LangKey(message, x) != LangKey(message, misses[|misses| - 1])
    {
      var i :| 0 <= i < |init| && init[i] == x;
      assert misses[i] == x;
    }
  }

  /** Only the keys of the misses are written. */
  lemma {:induction false} WrittenOnlyMissKeys(message: string, misses: seq<string>, cfg: AiConfig,
                                               provider: Provider, now: int)
    ensures forall k :: k in Written(message, misses, cfg, provider, now) ==>
      exists lang :: lang in misses && k == LangKey(message, lang)
  {
    if misses != [] {
      var last := |misses| - 1;
      var init, lang := misses[..last], misses[last];
      WrittenOnlyMissKeys(message, init, cfg, provider, now);
      var w0 := Written(message, init, cfg, provider, now);
      var w := Written(message, misses, cfg, provider, now);
      var key := LangKey(message, lang);
      assert w.Keys <= w0.Keys + {key};
      forall k | k in w
        ensures exists lang :: lang in misses && k == LangKey(message, lang)
      {
        if k == key {
          assert lang in misses;
        } else {
          assert k in w0;
          var l :| l in init && k == LangKey(message, l);
          assert l in misses;
        }
      }
    }
  }

  lemma UnionThenUpdate(a: map<string, Entry>, b: map<string, Entry>, k: string, v: Entry)
    ensures (a + b)[k := v] == a + b[k := v]
  {
    assert (a + b)[k := v].Keys == (a + b[k := v]).Keys;
  }

  /** A `put` into a cache with room to spare evicts nothing. */
  lemma PutWithRoom(st: CacheState, key: string, entry: Entry, maxEntries: int)
    requires WellFormed(st, maxEntries) && |st.entries| < maxEntries
    ensures PutStep(st, key, entry, maxEntries).entries == st.entries[key := entry]
    ensures WellFormed(PutStep(st, key, entry, maxEntries), maxEntries)
  {
    PutPreservesWellFormed(st, key, entry, maxEntries);
  }
}
