/**
 * `ChatListener.onChat`: a chat message is translated once per language in use and
 * every online player is shown one line of it above their head.
 *
 * The recipients are the online players other than the sender (the sender too when
 * test mode is on for them), grouped by their stored language ("" for none). When no
 * group has a non-blank language the chat goes through untouched. Otherwise the chat
 * event is cancelled, the service translates the message into the non-blank
 * languages, and then each group is shown its line: the plain line for a blank
 * language, the tagged translation (or the original, when that language has no
 * translation) for any other; last, a sender not in test mode is shown the "You" line.
 *
 * Players are their UUIDs, and only the sender's name is used. The iteration orders
 * of the hash map of groups and of the set of target languages are parameters.
 */
module Chat {
  import opened Base
  import opened Text
  import opened PlayerStore
  import opened Hologram
  import Service
  import Addon

  // ---------- the chat line texts ----------

  /** `ChatColor.GRAY`, `ChatColor.AQUA` and `ChatColor.WHITE` as they print. */
  const Gray: string := "\U{A7}7"
  const Aqua: string := "\U{A7}b"
  const White: string := "\U{A7}f"

  /** The untranslated line: `<name> message` in grey. */
  function PlainLine(name: string, original: string): string {
    Gray + "<" + name + "> " + original
  }

  /** The translated line, tagged with its language. */
  function TaggedLine(lang: string, name: string, text: string): string {
    Aqua + "[T:" + lang + "] " + White + Gray + "<" + name + "> " + White + text
  }

  /** What the sender sees of their own message when not in test mode. */
  function YouLine(original: string): string {
    Gray + "<You> " + original
  }

  /** The line a language group is shown. */
  function GroupText(lang: string, name: string, original: string, result: map<string, string>): string {
    if IsBlank(lang) then PlainLine(name, original)
    else TaggedLine(lang, name, if lang in result then result[lang] else original)
  }

  // ---------- who is shown what ----------

  /** The online players that are sent the message, in their order. */
  function Recipients(online: seq<Uuid>, sender: Uuid, testEnabled: bool): seq<Uuid>
    decreases |online|
  {
    if online == [] then []
    else
      var init := Recipients(online[..|online| - 1], sender, testEnabled);
      var p := online[|online| - 1];
      if testEnabled || p != sender then init + [p] else init
  }

  /** The grouping key of a player: the stored language, or "" for none. */
  function LangOf(prefs: map<Uuid, string>, p: Uuid): string {
    Lookup(prefs, p).GetOr("")
  }

  /** The players of one group, in their order. */
  function Group(players: seq<Uuid>, prefs: map<Uuid, string>, lang: string): seq<Uuid>
    decreases |players|
  {
    if players == [] then []
    else
      var init := Group(players[..|players| - 1], prefs, lang);
      var p := players[|players| - 1];
      if LangOf(prefs, p) == lang then init + [p] else init
  }

  /** The keys of the groups. */
  function Langs(players: seq<Uuid>, prefs: map<Uuid, string>): set<string> {
    set p | p in players :: LangOf(prefs, p)
  }

  /** The languages translated into: the keys that are not blank. */
  function TargetLangs(langs: set<string>): set<string> {
    set l | l in langs && !IsBlank(l)
  }

  /** One `addLine(player, text)` call. */
  datatype Line = Line(to: Uuid, text: string)

  /** The same text for each of `players`, in their order. */
  function Block(players: seq<Uuid>, text: string): (r: seq<Line>)
    ensures |r| == |players|
  {
    seq(|players|, i requires 0 <= i < |players| => Line(players[i], text))
  }

  /** The lines of the groups, in the order of `keys`. */
  function GroupLines(keys: seq<string>, recipients: seq<Uuid>, prefs: map<Uuid, string>,
                      name: string, original: string, result: map<string, string>): seq<Line>
    decreases |keys|
  {
    if keys == [] then []
    else
      var lang := keys[|keys| - 1];
      GroupLines(keys[..|keys| - 1], recipients, prefs, name, original, result)
        + Block(Group(recipients, prefs, lang), GroupText(lang, name, original, result))
  }

  /**
   * The lines the scheduled task shows, in order: with no translation result every
   * online player gets the plain line; otherwise the groups' lines and then, outside
   * test mode, the sender's "You" line.
   */
  function Rendered(sender: Uuid, name: string, original: string, testEnabled: bool,
                    recipients: seq<Uuid>, prefs: map<Uuid, string>, keys: seq<string>,
                    result: Option<map<string, string>>, onlineNow: seq<Uuid>): seq<Line>
  {
    match result
    case None => Block(onlineNow, PlainLine(name, original))
    case Some(m) =>
      GroupLines(keys, recipients, prefs, name, original, m)
        + (if testEnabled then [] else [Line(sender, YouLine(original))])
  }

  /** The texts shown to player `id`, in order. */
  function LinesTo(lines: seq<Line>, id: Uuid): seq<string>
    decreases |lines|
  {
    if lines == [] then []
    else
      var init := LinesTo(lines[..|lines| - 1], id);
      var l := lines[|lines| - 1];
      if l.to == id then init + [l.text] else init
  }

  /** How the hologram manager lays out each line's text. */
  function LayoutsOf(lines: seq<Line>): (r: seq<Layout>)
    ensures |r| == |lines|
  {
    seq(|lines|, i requires 0 <= i < |lines| => Split(Some(lines[i].text)))
  }

  /** The holograms after the lines are shown one after another in the given layouts; the i-th line's clear task is `firstTask + i`. */
  function ShowAll(h: Holograms, lines: seq<Line>, layouts: seq<Layout>, firstTask: int): Holograms
    requires |layouts| == |lines|
    decreases |lines|
  {
    if lines == [] then h
    else
      var n := |lines| - 1;
      ShowStep(ShowAll(h, lines[..n], layouts[..n], firstTask), lines[n].to, layouts[n], firstTask + n)
  }

  /** The holograms after `addLine` is called for each line in turn. */
  function Shown(h: Holograms, lines: seq<Line>, firstTask: int): Holograms {
    ShowAll(h, lines, LayoutsOf(lines), firstTask)
  }

  // ---------- the listener ----------

  /** `ChatListener`: the store, the service, the hologram manager and the test mode registry (maybe null). */
  class ChatListener {
    const store: PlayerLangStore
    const translations: Service.TranslationService
    const holograms: HologramManager
    const testMode: Option<Addon.TestMode>

    constructor (store: PlayerLangStore, translations: Service.TranslationService,
                 holograms: HologramManager, testMode: Option<Addon.TestMode>)
      ensures this.store == store && this.translations == translations
      ensures this.holograms == holograms && this.testMode == testMode
    {
      this.store := store;
      this.translations := translations;
      this.holograms := holograms;
      this.testMode := testMode;
    }

    /** Whether test mode is on for `u`; a missing registry means it is off. */
    function TestEnabled(u: Uuid): bool
      reads if testMode.Some? then {testMode.value} else {}
    {
      testMode.Some? && testMode.value.IsEnabled(u)
    }

    /**
     * `onChat`, with the scheduled rendering run straight after the translation.
     * `online` are the players online when the message arrives and `onlineNow` those
     * online when the lines are shown; `keys` is the iteration order of the groups and
     * `targets` that of the target languages; `firstTask` is the id of the first clear
     * task the hologram manager schedules.
     */
    method OnChat(sender: Uuid, name: string, original: string, online: seq<Uuid>,
                  keys: seq<string>, targets: seq<string>, provider: Service.Provider, now: int,
                  onlineNow: seq<Uuid>, firstTask: int)
      returns (cancelled: bool)
      requires translations.cache.Valid()
      requires Distinct(keys) && Elements(keys) == Langs(Recipients(online, sender, TestEnabled(sender)), store.prefs)
      requires Distinct(targets) && Elements(targets) == TargetLangs(Elements(keys))
      modifies translations.cache, holograms
      ensures translations.cache.Valid()
      ensures cancelled <==> targets != []
      ensures !cancelled ==> (translations.cache.State() == old(translations.cache.State())
                              && holograms.State() == old(holograms.State()))
      ensures cancelled ==>
        var cache := translations.cache;
        var g := Service.Gather(old(cache.State()), original, targets, now, cache.ttlSeconds);
        var s := Service.Store(g.state, original, g.misses, translations.config, provider, now, cache.maxEntries);
        var te := TestEnabled(sender);
        && cache.State() == s.state
        && holograms.State() == Shown(old(holograms.State()),
             Rendered(sender, name, original, te, Recipients(online, sender, te), store.prefs, keys,
                      Some(Service.Outcome(g, s)), onlineNow), firstTask)
    {
      var testEnabled := TestEnabled(sender);
      if targets == [] {
        return false;
      }
      cancelled := true;
      var recipients := Recipients(online, sender, testEnabled);
      var result, prompts := translations.TranslateOncePerLanguage(original, targets, provider, now);
      Deliver(sender, name, original, testEnabled, recipients, store.prefs, keys, Some(result), onlineNow, firstTask);
    }

    /** The scheduled task: the `addLine` calls, in order. */
    method Deliver(sender: Uuid, name: string, original: string, testEnabled: bool,
                   recipients: seq<Uuid>, prefs: map<Uuid, string>, keys: seq<string>,
                   result: Option<map<string, string>>, onlineNow: seq<Uuid>, firstTask: int)
      modifies holograms
      ensures holograms.State() == Shown(old(holograms.State()),
        Rendered(sender, name, original, testEnabled, recipients, prefs, keys, result, onlineNow), firstTask)
    {
      if result.None? {
        ShowFallback(name, original, onlineNow, firstTask);
      } else {
        ShowTranslated(sender, name, original, testEnabled, recipients, prefs, keys, result.value, firstTask);
      }
    }

    /** The error branch: every player online now gets the plain line. */
    method ShowFallback(name: string, original: string, onlineNow: seq<Uuid>, firstTask: int)
      modifies holograms
      ensures holograms.State() == Shown(old(holograms.State()), Block(onlineNow, PlainLine(name, original)), firstTask)
    {
      var text := PlainLine(name, original);
      assert [] + Block(onlineNow, text) == Block(onlineNow, text);
      ShowBlock(holograms.State(), [], 0, onlineNow, text, firstTask);
    }

    /** The groups' lines, then the "You" line outside test mode. */
    method ShowTranslated(sender: Uuid, name: string, original: string, testEnabled: bool,
                          recipients: seq<Uuid>, prefs: map<Uuid, string>, keys: seq<string>,
                          result: map<string, string>, firstTask: int)
      modifies holograms
      ensures holograms.State() == Shown(old(holograms.State()),
        GroupLines(keys, recipients, prefs, name, original, result)
          + (if testEnabled then [] else [Line(sender, YouLine(original))]), firstTask)
    {
      ghost var h0 := holograms.State();
      var shown := ShowGroups(h0, name, original, recipients, prefs, keys, result, firstTask);
      ghost var before := GroupLines(keys, recipients, prefs, name, original, result);
      if !testEnabled {
        ShowLine(h0, before, shown, Line(sender, YouLine(original)), firstTask);
      } else {
        assert before + [] == before;
      }
    }

    /** `addLine(line.to, line.text)` after the lines `before`. */
    method ShowLine(ghost h0: Holograms, ghost before: seq<Line>, shown: int, line: Line, firstTask: int)
      requires shown == |before|
      requires holograms.State() == Shown(h0, before, firstTask)
      modifies holograms
      ensures holograms.State() == Shown(h0, before + [line], firstTask)
    {
      var task := firstTask + shown;
      ShownAppend(h0, before, line, firstTask, task);
      holograms.ShowEphemeral(line.to, Some(line.text), task);
    }

    /** The loop over the groups; `shown` counts the lines shown. */
    method ShowGroups(ghost h0: Holograms, name: string, original: string, recipients: seq<Uuid>,
                      prefs: map<Uuid, string>, keys: seq<string>, result: map<string, string>, firstTask: int)
      returns (shown: int)
      requires holograms.State() == h0
      modifies holograms
      ensures shown == |GroupLines(keys, recipients, prefs, name, original, result)|
      ensures holograms.State() == Shown(h0, GroupLines(keys, recipients, prefs, name, original, result), firstTask)
    {
      shown := 0;
      var i := 0;
      while i < |keys|
        invariant 0 <= i <= |keys|
        invariant shown == |GroupLines(keys[..i], recipients, prefs, name, original, result)|
        invariant holograms.State() == Shown(h0, GroupLines(keys[..i], recipients, prefs, name, original, result), firstTask)
      {
        var lang := keys[i];
        var players := Group(recipients, prefs, lang);
        var text := GroupText(lang, name, original, result);
        GroupLinesStep(keys, i, recipients, prefs, name, original, result);
        ShowBlock(h0, GroupLines(keys[..i], recipients, prefs, name, original, result), shown, players, text, firstTask);
        shown := shown + |players|;
        i := i + 1;
      }
      assert keys[..i] == keys;
    }

    /** `for (Player p : players) holograms.addLine(p, text)`, after the lines `before`. */
    method ShowBlock(ghost h0: Holograms, ghost before: seq<Line>, shown: int, players: seq<Uuid>, text: string,
                     firstTask: int)
      requires shown == |before|
      requires holograms.State() == Shown(h0, before, firstTask)
      modifies holograms
      ensures holograms.State() == Shown(h0, before + Block(players, text), firstTask)
    {
      var j := 0;
      BlockStep(before, players, 0, text);
      while j < |players|
        invariant 0 <= j <= |players|
        invariant holograms.State() == Shown(h0, before + Block(players[..j], text), firstTask)
      {
        ShowOne(h0, before, shown, players, j, text, firstTask);
        j := j + 1;
      }
      assert players[..j] == players;
    }

    /** One turn of that loop: `addLine(players[j], text)`. */
    method ShowOne(ghost h0: Holograms, ghost before: seq<Line>, shown: int, players: seq<Uuid>, j: nat, text: string,
                   firstTask: int)
      requires shown == |before| && j < |players|
      requires holograms.State() == Shown(h0, before + Block(players[..j], text), firstTask)
      modifies holograms
      ensures holograms.State() == Shown(h0, before + Block(players[..j + 1], text), firstTask)
    {
      var task := firstTask + shown + j;
      ShowBlockStep(h0, before, players, j, text, firstTask, task);
      holograms.ShowEphemeral(players[j], Some(text), task);
    }
  }

  /** The groups' lines grow by one block per key. */
  lemma GroupLinesStep(keys: seq<string>, i: nat, recipients: seq<Uuid>, prefs: map<Uuid, string>,
                       name: string, original: string, result: map<string, string>)
    requires i < |keys|
    ensures GroupLines(keys[..i + 1], recipients, prefs, name, original, result)
      == GroupLines(keys[..i], recipients, prefs, name, original, result)
       + Block(Group(recipients, prefs, keys[i]), GroupText(keys[i], name, original, result))
  {
    assert keys[..i + 1][..i] == keys[..i];
  }

  /** A block grows by one line per player; an empty block adds nothing. */
  lemma BlockStep(before: seq<Line>, players: seq<Uuid>, j: nat, text: string)
    requires j <= |players|
    ensures before + Block(players[..0], text) == before
    ensures j < |players| ==> before + Block(players[..j + 1], text) == before + Block(players[..j], text) + [Line(players[j], text)]
  {
    assert Block(players[..0], text) == [];
    if j < |players| {
      assert Block(players[..j + 1], text) == Block(players[..j], text) + [Line(players[j], text)];
    }
  }

  /** One more player of a block is one more `showEphemeral` step. */
  lemma ShowBlockStep(h0: Holograms, before: seq<Line>, players: seq<Uuid>, j: nat, text: string, firstTask: int,
                       task: int)
    requires j < |players| && task == firstTask + |before| + j
    ensures Shown(h0, before + Block(players[..j + 1], text), firstTask)
      == ShowStep(Shown(h0, before + Block(players[..j], text), firstTask), players[j], Split(Some(text)), task)
  {
    BlockStep(before, players, j, text);
    ShownAppend(h0, before + Block(players[..j], text), Line(players[j], text), firstTask, task);
  }

  /** Showing one more line is one more `showEphemeral` step. */
  lemma ShownAppend(h: Holograms, lines: seq<Line>, l: Line, firstTask: int, task: int)
    requires task == firstTask + |lines|
    ensures Shown(h, lines + [l], firstTask) == ShowStep(Shown(h, lines, firstTask), l.to, Split(Some(l.text)), task)
  {
    LayoutsOfAppend(lines, l);
    ShowAllAppend(h, lines, LayoutsOf(lines), l, Split(Some(l.text)), firstTask, task);
  }

  lemma ShowAllAppend(h: Holograms, lines: seq<Line>, layouts: seq<Layout>, l: Line, y: Layout, firstTask: int, task: int)
    requires |layouts| == |lines| && task == firstTask + |lines|
    ensures ShowAll(h, lines + [l], layouts + [y], firstTask)
      == ShowStep(ShowAll(h, lines, layouts, firstTask), l.to, y, task)
  {
    assert (lines + [l])[..|lines|] == lines;
    assert (layouts + [y])[..|lines|] == layouts;
  }

  lemma LayoutsOfAppend(lines: seq<Line>, l: Line)
    ensures LayoutsOf(lines + [l]) == LayoutsOf(lines) + [Split(Some(l.text))]
  {
  }

  // ---------- properties ----------

  /** A player is a recipient exactly when online and either not the sender or in test mode. */
  lemma {:induction false} RecipientsMembers(online: seq<Uuid>, sender: Uuid, testEnabled: bool)
    ensures forall p :: p in Recipients(online, sender, testEnabled) <==> p in online && (testEnabled || p != sender)
    ensures Distinct(online) ==> Distinct(Recipients(online, sender, testEnabled))
    decreases |online|
  {
    if online != [] {
      var init := online[..|online| - 1];
      RecipientsMembers(init, sender, testEnabled);
      assert forall x :: x in online <==> x in init || x == online[|online| - 1];
      assert Distinct(online) ==> Distinct(init) && online[|online| - 1] !in init;
    }
  }

  /** A player is in the group of `lang` exactly when they are among `players` with that key. */
  lemma {:induction false} GroupMembers(players: seq<Uuid>, prefs: map<Uuid, string>, lang: string)
    ensures forall p :: p in Group(players, prefs, lang) <==> p in players && LangOf(prefs, p) == lang
    ensures Distinct(players) ==> Distinct(Group(players, prefs, lang))
    decreases |players|
  {
    if players != [] {
      var init := players[..|players| - 1];
      GroupMembers(init, prefs, lang);
      assert forall x :: x in players <==> x in init || x == players[|players| - 1];
      assert Distinct(players) ==> Distinct(init) && players[|players| - 1] !in init;
    }
  }

  /** The chat is left alone exactly when every recipient's language is blank or unset. */
  lemma TargetsEmptyIff(recipients: seq<Uuid>, prefs: map<Uuid, string>)
    ensures TargetLangs(Langs(recipients, prefs)) == {}
      <==> forall p :: p in recipients ==> IsBlank(LangOf(prefs, p))
  {
    if TargetLangs(Langs(recipients, prefs)) == {} {
      forall p | p in recipients
        ensures IsBlank(LangOf(prefs, p))
      {
        var l := LangOf(prefs, p);
        assert l in Langs(recipients, prefs);
        assert l !in TargetLangs(Langs(recipients, prefs));
      }
    } else {
      var l :| l in TargetLangs(Langs(recipients, prefs));
      var p :| p in recipients && LangOf(prefs, p) == l;
    }
  }

  /** The lines to a player of two runs of lines are those of the first, then those of the second. */
  lemma {:induction false} LinesToConcat(a: seq<Line>, b: seq<Line>, id: Uuid)
    ensures LinesTo(a + b, id) == LinesTo(a, id) + LinesTo(b, id)
    decreases |b|
  {
    if b == [] {
      assert a + b == a;
    } else {
      var init := b[..|b| - 1];
      assert (a + b)[..|a + b| - 1] == a + init;
      LinesToConcat(a, init, id);
    }
  }

  /** A block shows its text once to each of its players and to no one else. */
  lemma {:induction false} LinesToBlock(players: seq<Uuid>, text: string, id: Uuid)
    requires Distinct(players)
    ensures LinesTo(Block(players, text), id) == if id in players then [text] else []
    decreases |players|
  {
    if players != [] {
      var init := players[..|players| - 1];
      assert Block(players, text)[..|players| - 1] == Block(init, text);
      LinesToBlock(init, text, id);
      assert id in players <==> id in init || id == players[|players| - 1];
    }
  }

  /** The groups' lines: a recipient whose key is among `keys` is shown the group's text once. */
  lemma {:induction false} GroupLinesTo(keys: seq<string>, recipients: seq<Uuid>, prefs: map<Uuid, string>,
                                        name: string, original: string, result: map<string, string>, id: Uuid)
    requires Distinct(keys) && Distinct(recipients)
    ensures LinesTo(GroupLines(keys, recipients, prefs, name, original, result), id)
      == if id in recipients && LangOf(prefs, id) in keys
         then [GroupText(LangOf(prefs, id), name, original, result)] else []
    decreases |keys|
  {
    if keys != [] {
      var init := keys[..|keys| - 1];
      var lang := keys[|keys| - 1];
      assert Distinct(init) && lang !in init;
      GroupLinesTo(init, recipients, prefs, name, original, result, id);
      GroupMembers(recipients, prefs, lang);
      LinesToConcat(GroupLines(init, recipients, prefs, name, original, result),
                    Block(Group(recipients, prefs, lang), GroupText(lang, name, original, result)), id);
      LinesToBlock(Group(recipients, prefs, lang), GroupText(lang, name, original, result), id);
      assert LangOf(prefs, id) in keys <==> LangOf(prefs, id) in init || LangOf(prefs, id) == lang;
    }
  }

  /**
   * What each player is shown. With a translation result, a recipient is shown the
   * line of their language group once, and a sender not in test mode the "You" line
   * once: so every online player gets exactly one line, and the sender sees their own
   * message translated only in test mode. Without a result every player online at
   * that time is shown the plain line once.
   */
  lemma DeliveredPerPlayer(sender: Uuid, name: string, original: string, testEnabled: bool,
                           online: seq<Uuid>, prefs: map<Uuid, string>, keys: seq<string>,
                           result: Option<map<string, string>>, onlineNow: seq<Uuid>, id: Uuid)
    requires Distinct(online) && Distinct(onlineNow)
    requires Distinct(keys) && Elements(keys) == Langs(Recipients(online, sender, testEnabled), prefs)
    ensures var lines := Rendered(sender, name, original, testEnabled, Recipients(online, sender, testEnabled),
                                  prefs, keys, result, onlineNow);
      && (result.None? ==> LinesTo(lines, id) == if id in onlineNow then [PlainLine(name, original)] else [])
      && (result.Some? ==>
            LinesTo(lines, id)
              == (if id in online && (testEnabled || id != sender)
                  then [GroupText(LangOf(prefs, id), name, original, result.value)] else [])
               + (if id == sender && !testEnabled then [YouLine(original)] else []))
  {
    var recipients := Recipients(online, sender, testEnabled);
    RecipientsMembers(online, sender, testEnabled);
    match result
    case None =>
      LinesToBlock(onlineNow, PlainLine(name, original), id);
    case Some(m) =>
      var groups := GroupLines(keys, recipients, prefs, name, original, m);
      var you: seq<Line> := if testEnabled then [] else [Line(sender, YouLine(original))];
      LinesToConcat(groups, you, id);
      GroupLinesTo(keys, recipients, prefs, name, original, m, id);
      if id in recipients {
        assert LangOf(prefs, id) in Langs(recipients, prefs);
      }
      if !testEnabled {
        assert you[..0] == [];
      }
  }

  /** A text that starts with the section sign of a colour code. */
  predicate Coloured(s: string) {
    |s| > 0 && s[0] == '\U{A7}'
  }

  /** Every line's text starts with a colour code. */
  predicate AllColoured(lines: seq<Line>) {
    forall i :: 0 <= i < |lines| ==> Coloured(lines[i].text)
  }

  /** Every line the listener shows starts with a colour code. */
  lemma RenderedIsColoured(sender: Uuid, name: string, original: string, testEnabled: bool,
                           recipients: seq<Uuid>, prefs: map<Uuid, string>, keys: seq<string>,
                           result: Option<map<string, string>>, onlineNow: seq<Uuid>)
    ensures var lines := Rendered(sender, name, original, testEnabled, recipients, prefs, keys, result, onlineNow);
      AllColoured(lines)
  {
    TextsColoured(name, original);
    match result
    case None =>
    case Some(m) =>
      GroupLinesColoured(keys, recipients, prefs, name, original, m);
      var you: seq<Line> := if testEnabled then [] else [Line(sender, YouLine(original))];
      assert forall i :: 0 <= i < |you| ==> you[i].text == YouLine(original);
      ConcatColoured(GroupLines(keys, recipients, prefs, name, original, m), you);
  }

  /** Two runs of coloured lines make one. */
  lemma ConcatColoured(a: seq<Line>, b: seq<Line>)
    requires AllColoured(a) && AllColoured(b)
    ensures AllColoured(a + b)
  {
    forall i | 0 <= i < |a + b|
      ensures Coloured((a + b)[i].text)
    {
      if i < |a| {
        assert (a + b)[i] == a[i];
      } else {
        assert (a + b)[i] == b[i - |a|];
      }
    }
  }

  /** Each of the line texts starts with a colour code. */
  lemma TextsColoured(name: string, original: string)
    ensures Coloured(PlainLine(name, original)) && Coloured(YouLine(original))
    ensures forall lang, text :: Coloured(TaggedLine(lang, name, text))
    ensures forall lang, result :: Coloured(GroupText(lang, name, original, result))
  {
  }

  /** The groups' lines start with a colour code. */
  lemma {:induction false} GroupLinesColoured(keys: seq<string>, recipients: seq<Uuid>, prefs: map<Uuid, string>,
                                              name: string, original: string, result: map<string, string>)
    ensures var lines := GroupLines(keys, recipients, prefs, name, original, result);
      AllColoured(lines)
    decreases |keys|
  {
    if keys != [] {
      var lang := keys[|keys| - 1];
      GroupLinesColoured(keys[..|keys| - 1], recipients, prefs, name, original, result);
      TextsColoured(name, original);
      var b := Block(Group(recipients, prefs, lang), GroupText(lang, name, original, result));
      assert Coloured(GroupText(lang, name, original, result));
      assert forall i :: 0 <= i < |b| ==> b[i].text == GroupText(lang, name, original, result);
      ConcatColoured(GroupLines(keys[..|keys| - 1], recipients, prefs, name, original, result), b);
    }
  }

  /** A coloured line is laid out as one line, the text trimmed. */
  lemma ColouredLayouts(lines: seq<Line>)
    requires AllColoured(lines)
    ensures forall i :: 0 <= i < |lines| ==> LayoutsOf(lines)[i] == OneLine(Trim(lines[i].text))
  {
    forall i | 0 <= i < |lines|
      ensures LayoutsOf(lines)[i] == OneLine(Trim(lines[i].text))
    {
      ColouredTextIsOneLine(lines[i].text);
    }
  }

  /**
   * Lines shown in one-line layouts, player by player: `shown` says how each text
   * appears on the stand.
   */
  lemma ShowAllPerPlayer(h: Holograms, lines: seq<Line>, layouts: seq<Layout>, shown: string -> string,
                         firstTask: int, id: Uuid)
    requires |layouts| == |lines|
    requires forall i :: 0 <= i < |lines| ==> layouts[i] == OneLine(shown(lines[i].text))
    ensures var s := ShowAll(h, lines, layouts, firstTask);
      var texts := LinesTo(lines, id);
      && s.top == h.top
      && (texts == [] ==>
            && (id in s.bottom <==> id in h.bottom) && (id in s.bottom ==> s.bottom[id] == h.bottom[id])
            && (id in s.tasks <==> id in h.tasks) && (id in s.tasks ==> s.tasks[id] == h.tasks[id]))
      && (texts != [] ==> id in s.bottom && s.bottom[id] == shown(texts[|texts| - 1]) && id in s.tasks)
  {
    OneLinesKeepTop(h, lines, layouts, shown, firstTask);
    if LinesTo(lines, id) == [] {
      OneLinesSkipOthers(h, lines, layouts, firstTask, id);
    } else {
      OneLinesShowLast(h, lines, layouts, shown, firstTask, id);
    }
  }

  /** One-line layouts never touch the top stands. */
  lemma {:induction false} OneLinesKeepTop(h: Holograms, lines: seq<Line>, layouts: seq<Layout>,
                                           shown: string -> string, firstTask: int)
    requires |layouts| == |lines|
    requires forall i :: 0 <= i < |lines| ==> layouts[i] == OneLine(shown(lines[i].text))
    ensures ShowAll(h, lines, layouts, firstTask).top == h.top
    decreases |lines|
  {
    if lines != [] {
      var n := |lines| - 1;
      assert forall i :: 0 <= i < n ==> lines[..n][i] == lines[i] && layouts[..n][i] == layouts[i];
      OneLinesKeepTop(h, lines[..n], layouts[..n], shown, firstTask);
    }
  }

  /** A player sent no line keeps their bottom stand and clear task, whatever the layouts. */
  lemma {:induction false} OneLinesSkipOthers(h: Holograms, lines: seq<Line>, layouts: seq<Layout>,
                                              firstTask: int, id: Uuid)
    requires |layouts| == |lines|
    requires LinesTo(lines, id) == []
    ensures var s := ShowAll(h, lines, layouts, firstTask);
      && (id in s.bottom <==> id in h.bottom) && (id in s.bottom ==> s.bottom[id] == h.bottom[id])
      && (id in s.tasks <==> id in h.tasks) && (id in s.tasks ==> s.tasks[id] == h.tasks[id])
    decreases |lines|
  {
    if lines != [] {
      var n := |lines| - 1;
      assert lines[n].to != id;
      OneLinesSkipOthers(h, lines[..n], layouts[..n], firstTask, id);
    }
  }

  /** A player sent some lines has the last of them, as shown, on the bottom stand and a clear task. */
  lemma {:induction false} OneLinesShowLast(h: Holograms, lines: seq<Line>, layouts: seq<Layout>,
                                            shown: string -> string, firstTask: int, id: Uuid)
    requires |layouts| == |lines|
    requires forall i :: 0 <= i < |lines| ==> layouts[i] == OneLine(shown(lines[i].text))
    requires LinesTo(lines, id) != []
    ensures var s := ShowAll(h, lines, layouts, firstTask);
      var texts := LinesTo(lines, id);
      id in s.bottom && s.bottom[id] == shown(texts[|texts| - 1]) && id in s.tasks
    decreases |lines|
  {
    var n := |lines| - 1;
    var l := lines[n];
    if l.to != id {
      assert forall i :: 0 <= i < n ==> lines[..n][i] == lines[i] && layouts[..n][i] == layouts[i];
      OneLinesShowLast(h, lines[..n], layouts[..n], shown, firstTask, id);
    }
  }

  /**
   * After coloured lines are shown, a player who was sent none keeps their bottom
   * stand and clear task; a player who was sent some has the trimmed last of them on
   * the bottom stand and a clear task. The top stands are never touched, since a
   * coloured line is never split into two.
   */
  lemma ShownPerPlayer(h: Holograms, lines: seq<Line>, firstTask: int, id: Uuid)
    requires AllColoured(lines)
    ensures var s := Shown(h, lines, firstTask);
      var texts := LinesTo(lines, id);
      && s.top == h.top
      && (texts == [] ==>
            && (id in s.bottom <==> id in h.bottom) && (id in s.bottom ==> s.bottom[id] == h.bottom[id])
            && (id in s.tasks <==> id in h.tasks) && (id in s.tasks ==> s.tasks[id] == h.tasks[id]))
      && (texts != [] ==> id in s.bottom && s.bottom[id] == Trim(texts[|texts| - 1]) && id in s.tasks)
  {
    ColouredLayouts(lines);
    ShowAllPerPlayer(h, lines, LayoutsOf(lines), t => Trim(t), firstTask, id);
  }

  /**
   * The end result of one translated chat message: each player online throughout ends
   * with exactly one new line on the bottom stand (their group's line, or the "You"
   * line for a sender outside test mode), and a clear task; no top stand changes.
   */
  lemma HologramsAfterChat(h: Holograms, sender: Uuid, name: string, original: string, testEnabled: bool,
                           online: seq<Uuid>, prefs: map<Uuid, string>, keys: seq<string>,
                           result: map<string, string>, firstTask: int, id: Uuid)
    requires Distinct(online)
    requires Distinct(keys) && Elements(keys) == Langs(Recipients(online, sender, testEnabled), prefs)
    requires id in online
    ensures var s := Shown(h, Rendered(sender, name, original, testEnabled, Recipients(online, sender, testEnabled),
                                       prefs, keys, Some(result), online), firstTask);
      && s.top == h.top
      && id in s.bottom && id in s.tasks
      && s.bottom[id] == Trim(if testEnabled || id != sender
                              then GroupText(LangOf(prefs, id), name, original, result)
                              else YouLine(original))
  {
    var recipients := Recipients(online, sender, testEnabled);
    var lines := Rendered(sender, name, original, testEnabled, recipients, prefs, keys, Some(result), online);
    DeliveredPerPlayer(sender, name, original, testEnabled, online, prefs, keys, Some(result), online, id);
    RenderedIsColoured(sender, name, original, testEnabled, recipients, prefs, keys, Some(result), online);
    ShownPerPlayer(h, lines, firstTask, id);
  }
}
