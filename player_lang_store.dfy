/**
 * `PlayerLangStore`: each player's preferred language, a map from UUID to a
 * lower-case language code. Writing through to YAML or to the database is not part
 * of this model; what is modelled is the in-memory map, how `set`, `clear`, `get`
 * and `snapshot` act on it, and how `load` fills it.
 */
module PlayerStore {
  import opened Base
  import opened Text

  /** Where preferences persist. */
  datatype Backend = Yaml | Db

  /** One key of the YAML `players` section and the string stored under it (maybe absent). */
  datatype YamlEntry = YamlEntry(key: string, lang: Option<string>)

  /** Every stored language is lower case. */
  predicate AllLower(prefs: map<Uuid, string>) {
    forall u :: u in prefs ==> IsLower(prefs[u])
  }

  /** `map.get(uuid)`: the stored code, or null. */
  function Lookup(prefs: map<Uuid, string>, u: Uuid): Option<string> {
    if u in prefs then Some(prefs[u]) else None
  }

  /** `set(uuid, lang)` on the map: null removes the entry, anything else stores it lower-cased. */
  function SetPref(prefs: map<Uuid, string>, u: Uuid, lang: Option<string>): map<Uuid, string> {
    match lang
    case None => prefs - {u}
    case Some(l) => prefs[u := ToLower(l)]
  }

  /** `clear(uuid)` on the map. */
  function ClearPref(prefs: map<Uuid, string>, u: Uuid): map<Uuid, string> {
    prefs - {u}
  }

  /**
   * The YAML branch of `load`, entry by entry in the section's order: a key that is
   * no UUID is skipped, an absent string is skipped, and otherwise the lower-cased
   * string is put under the parsed UUID (a later entry for the same UUID wins).
   */
  function YamlPrefs(entries: seq<YamlEntry>, parse: string -> Option<Uuid>): map<Uuid, string>
    decreases |entries|
  {
    if entries == [] then map[]
    else
      var m := YamlPrefs(entries[..|entries| - 1], parse);
      var e := entries[|entries| - 1];
      match parse(e.key)
      case None => m
      case Some(id) =>
        match e.lang
        case None => m
        case Some(l) => m[id := ToLower(l)]
  }

  /** The entry at `i` is one that `load` keeps for `u`. */
  predicate Contributes(entries: seq<YamlEntry>, i: int, parse: string -> Option<Uuid>, u: Uuid) {
    0 <= i < |entries| && parse(entries[i].key) == Some(u) && entries[i].lang.Some?
  }

  /** The YAML loop of `load`. */
  method ReadYaml(entries: seq<YamlEntry>, parse: string -> Option<Uuid>) returns (m: map<Uuid, string>)
    ensures m == YamlPrefs(entries, parse)
  {
    m := map[];
    var i := 0;
    while i < |entries|
      invariant 0 <= i <= |entries|
      invariant m == YamlPrefs(entries[..i], parse)
    {
      var e := entries[i];
      assert entries[..i + 1][..i] == entries[..i];
      var id := parse(e.key);
      if id.Some? && e.lang.Some? {
        m := m[id.value := ToLower(e.lang.value)];
      }
      i := i + 1;
    }
    assert entries[..i] == entries;
  }

  /** `PlayerLangStore`: the backend it persists to and the in-memory map. */
  class PlayerLangStore {
    const backend: Backend
    var prefs: map<Uuid, string>

    ghost predicate Valid()
      reads this
    {
      AllLower(prefs)
    }

    /**
     * The constructor and its `load`: with the database backend and a repository the
     * map is the repository's rows (which the repository reports lower-cased);
     * otherwise it is read from the YAML `players` section, when there is one.
     */
    constructor (backend: Option<Backend>, repository: Option<map<Uuid, string>>,
                 players: Option<seq<YamlEntry>>, parse: string -> Option<Uuid>)
      requires repository.Some? ==> AllLower(repository.value)
      ensures Valid()
      ensures this.backend == backend.GetOr(Yaml)
      ensures prefs == if this.backend == Db && repository.Some? then repository.value
                       else YamlPrefs(players.GetOr([]), parse)
    {
      this.backend := backend.GetOr(Yaml);
      if backend.GetOr(Yaml) == Db && repository.Some? {
        prefs := repository.value;
      } else {
        var m := ReadYaml(players.GetOr([]), parse);
        YamlPrefsAreLower(players.GetOr([]), parse);
        prefs := m;
      }
    }

    /** `set(uuid, lang)`. */
    method Set(u: Uuid, lang: Option<string>)
      requires Valid()
      modifies this
      ensures Valid()
      ensures prefs == SetPref(old(prefs), u, lang)
    {
      if lang.None? {
        prefs := prefs - {u};
      } else {
        prefs := prefs[u := ToLower(lang.value)];
        ToLowerIsLower(lang.value);
      }
    }

    /** `clear(uuid)`. */
    method Clear(u: Uuid)
      requires Valid()
      modifies this
      ensures Valid()
      ensures prefs == ClearPref(old(prefs), u)
    {
      prefs := prefs - {u};
    }

    /** `get(uuid)`. */
    function Get(u: Uuid): (r: Option<string>)
      reads this
      ensures r.Some? <==> u in prefs
      ensures r.Some? ==> r.value == prefs[u]
    {
      Lookup(prefs, u)
    }

    /** `snapshot()`: a copy of the map as it is now. */
    method Snapshot() returns (copy: map<Uuid, string>)
      ensures copy == prefs
    {
      copy := prefs;
    }
  }

  // ---------- properties ----------

  /** `set` with a code makes `get` answer that code lower-cased. */
  lemma SetThenGet(prefs: map<Uuid, string>, u: Uuid, lang: string)
    ensures Lookup(SetPref(prefs, u, Some(lang)), u) == Some(ToLower(lang))
  {
  }

  /** `set` with null and `clear` both make `get` answer null. */
  lemma RemovalThenGet(prefs: map<Uuid, string>, u: Uuid)
    ensures Lookup(SetPref(prefs, u, None), u) == None
    ensures Lookup(ClearPref(prefs, u), u) == None
    ensures SetPref(prefs, u, None) == ClearPref(prefs, u)
  {
  }

  /** `set` and `clear` on one player leave every other player's entry as it was. */
  lemma OthersUnchanged(prefs: map<Uuid, string>, u: Uuid, lang: Option<string>, other: Uuid)
    requires other != u
    ensures Lookup(SetPref(prefs, u, lang), other) == Lookup(prefs, other)
    ensures Lookup(ClearPref(prefs, u), other) == Lookup(prefs, other)
  {
  }

  /** Every update keeps the stored codes lower case. */
  lemma UpdatesKeepLower(prefs: map<Uuid, string>, u: Uuid, lang: Option<string>)
    requires AllLower(prefs)
    ensures AllLower(SetPref(prefs, u, lang))
    ensures AllLower(ClearPref(prefs, u))
  {
    if lang.Some? {
      ToLowerIsLower(lang.value);
    }
  }

  /** The YAML load stores only lower-case codes. */
  lemma {:induction false} YamlPrefsAreLower(entries: seq<YamlEntry>, parse: string -> Option<Uuid>)
    ensures AllLower(YamlPrefs(entries, parse))
    decreases |entries|
  {
    if entries != [] {
      YamlPrefsAreLower(entries[..|entries| - 1], parse);
      var e := entries[|entries| - 1];
      if e.lang.Some? {
        ToLowerIsLower(e.lang.value);
      }
    }
  }

  /**
   * The YAML load keeps a player exactly when some entry parses to that UUID and has
   * a string, and the stored code is the lower-cased string of the last such entry.
   */
  lemma YamlPrefsFromValidEntries(entries: seq<YamlEntry>, parse: string -> Option<Uuid>, u: Uuid)
    ensures var m := YamlPrefs(entries, parse);
      && (u in m <==> exists i :: Contributes(entries, i, parse, u))
      && (u in m ==> exists i :: (Contributes(entries, i, parse, u)
            && m[u] == ToLower(entries[i].lang.value)
            && forall j :: i < j < |entries| ==> !Contributes(entries, j, parse, u)))
  {
    YamlKeepsContributors(entries, parse, u);
    YamlLastContributorWins(entries, parse, u);
  }

  /** A player is kept exactly when some entry contributes a code for it. */
  lemma {:induction false} YamlKeepsContributors(entries: seq<YamlEntry>, parse: string -> Option<Uuid>, u: Uuid)
    ensures u in YamlPrefs(entries, parse) <==> exists i :: Contributes(entries, i, parse, u)
    decreases |entries|
  {
    if entries != [] {
      var init := entries[..|entries| - 1];
      var n := |entries| - 1;
      YamlKeepsContributors(init, parse, u);
      YamlLastEntry(entries, parse, u);
      assert forall i :: Contributes(init, i, parse, u) ==> Contributes(entries, i, parse, u);
      if !Contributes(entries, n, parse, u) && exists i :: Contributes(entries, i, parse, u) {
        var i :| Contributes(entries, i, parse, u);
        assert Contributes(init, i, parse, u);
      }
    }
  }

  /** The code kept for a player comes from the last entry contributing one. */
  lemma {:induction false} YamlLastContributorWins(entries: seq<YamlEntry>, parse: string -> Option<Uuid>, u: Uuid)
    ensures var m := YamlPrefs(entries, parse);
      u in m ==> exists i :: (Contributes(entries, i, parse, u)
            && m[u] == ToLower(entries[i].lang.value)
            && forall j :: i < j < |entries| ==> !Contributes(entries, j, parse, u))
    decreases |entries|
  {
    if entries != [] {
      var init := entries[..|entries| - 1];
      var n := |entries| - 1;
      YamlLastContributorWins(init, parse, u);
      YamlLastEntry(entries, parse, u);
      if Contributes(entries, n, parse, u) {
        assert forall j :: n < j < |entries| ==> !Contributes(entries, j, parse, u);
      } else if u in YamlPrefs(init, parse) {
        var i :| Contributes(init, i, parse, u) && YamlPrefs(init, parse)[u] == ToLower(init[i].lang.value)
          && forall j :: i < j < |init| ==> !Contributes(init, j, parse, u);
        assert Contributes(entries, i, parse, u);
        assert forall j :: i < j < |entries| ==> !Contributes(entries, j, parse, u) by {
          assert forall j :: i < j < n ==> (Contributes(entries, j, parse, u) <==> Contributes(init, j, parse, u));
        }
      }
    }
  }

  /** What the last entry does to a player's stored code in the YAML load. */
  lemma YamlLastEntry(entries: seq<YamlEntry>, parse: string -> Option<Uuid>, u: Uuid)
    requires entries != []
    ensures var m0 := YamlPrefs(entries[..|entries| - 1], parse);
      var m := YamlPrefs(entries, parse);
      var n := |entries| - 1;
      && (Contributes(entries, n, parse, u) ==> u in m && m[u] == ToLower(entries[n].lang.value))
      && (!Contributes(entries, n, parse, u) ==> (u in m <==> u in m0) && (u in m ==> m[u] == m0[u]))
  {
  }
}
