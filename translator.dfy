/**
 * `Translator`, the addon's entry point: which storage backend `onLoad` picks, the
 * cache bounds it configures, its own null-tolerant tab completion, and the test
 * mode set that the command and the chat listener share.
 */
module Addon {
  import opened Base
  import opened Text
  import opened Cache
  import opened PlayerStore
  import opened TabCompletion
  import opened Registry

  // ---------- storage backend ----------

  /** The configured `storage.backend`, defaulting to "yaml", lower-cased. */
  function ConfiguredBackend(configured: Option<string>): (b: Backend)
    ensures b == Yaml <==> ToLower(configured.GetOr("yaml")) == "yaml"
  {
    if ToLower(configured.GetOr("yaml")) == "yaml" then Yaml else Db
  }

  /**
   * The backend `onLoad` settles on: the configured one, except that the database
   * backend falls back to YAML when no shared connection can be had.
   */
  method SelectBackend(configured: Option<string>, connectionAvailable: bool) returns (backend: Backend)
    ensures backend == Db <==> ToLower(configured.GetOr("yaml")) != "yaml" && connectionAvailable
  {
    backend := ConfiguredBackend(configured);
    if backend == Db {
      if !connectionAvailable {
        backend := Yaml;
      }
    }
  }

  /** "yaml" in any letter case selects YAML; a missing setting does too. */
  lemma BackendExamples()
    ensures ConfiguredBackend(Some("YAML")) == Yaml
    ensures ConfiguredBackend(None) == Yaml
    ensures ConfiguredBackend(Some("mysql")) == Db
  {
    assert ToLower("YAML") == "yaml";
    assert ToLower("yaml") == "yaml";
    assert ToLower("mysql")[0] == 'm';
  }

  // ---------- cache configuration ----------

  const DefaultMaxEntries: int := 1000
  const DefaultTtlSeconds: int := 300

  /** `cache.maxEntries` and `cache.ttlSeconds`, with their defaults when absent. */
  function CacheSettings(maxEntries: Option<int>, ttlSeconds: Option<int>): (r: (int, int))
    ensures maxEntries.None? ==> r.0 == 1000
    ensures ttlSeconds.None? ==> r.1 == 300
    ensures maxEntries.Some? ==> r.0 == maxEntries.value
    ensures ttlSeconds.Some? ==> r.1 == ttlSeconds.value
  {
    (maxEntries.GetOr(DefaultMaxEntries), ttlSeconds.GetOr(DefaultTtlSeconds))
  }

  /** The defaults are above the cache's floors, so the cache keeps them as they are. */
  lemma DefaultsSurviveClamp()
    ensures var r := CacheSettings(None, None);
      Clamp(r.0, MinEntries) == 1000 && Clamp(r.1, MinTtlSeconds) == 300
  {
  }

  // ---------- tab completion ----------

  /** The prefix an argument gives: null counts as "", anything else is lower-cased. */
  function PrefixOf(arg: Option<string>): string {
    ToLower(arg.GetOr(""))
  }

  /**
   * `tabComplete(sender, alias, args)`: like the completer, but null arguments are
   * tolerated (a null array gives nothing, a null argument is the empty prefix, a
   * null first argument is not `set`) and a missing registry gives no codes.
   */
  method TabComplete(args: Option<seq<Option<string>>>, registry: Option<seq<string>>) returns (out: seq<string>)
    ensures args.None? ==> out == []
    ensures args.Some? && |args.value| == 0 ==> out == []
    ensures args.Some? && |args.value| == 1 ==> out == Matching(Subcommands, PrefixOf(args.value[0]))
    ensures args.Some? && |args.value| == 2 && args.value[0].Some? && EqualsIgnoreCase("set", args.value[0].value) ==>
      out == (if registry.None? then [] else Capped(Matching(registry.value, PrefixOf(args.value[1])), MaxCodes))
    ensures args.Some? && |args.value| == 2 && !(args.value[0].Some? && EqualsIgnoreCase("set", args.value[0].value)) ==>
      out == []
    ensures args.Some? && |args.value| > 2 ==> out == []
  {
    out := [];
    if args.None? {
      return;
    }
    var a := args.value;
    if |a| == 0 {
      return;
    }
    if |a| == 1 {
      var p := PrefixOf(a[0]);
      if StartsWith("set", p) { out := out + ["set"]; }
      if StartsWith("get", p) { out := out + ["get"]; }
      if StartsWith("clear", p) { out := out + ["clear"]; }
      SubcommandsAreFiltered(p);
      return;
    }
    if |a| == 2 && a[0].Some? && EqualsIgnoreCase("set", a[0].value) {
      var p := PrefixOf(a[1]);
      if registry.None? {
        return;
      }
      out := CompleteCodes(registry.value, p);
      return;
    }
  }

  /**
   * The code completion of `tabComplete` lists at most fifty codes of the registry,
   * each starting with the prefix, and all of them when fewer than fifty match.
   */
  lemma CodeCompletionBounds(codes: seq<string>, arg: Option<string>)
    ensures var out := Capped(Matching(codes, PrefixOf(arg)), MaxCodes);
      && |out| <= MaxCodes
      && (forall c :: c in out ==> c in codes && StartsWith(c, PrefixOf(arg)))
      && (|out| < MaxCodes ==> forall c :: c in codes && StartsWith(c, PrefixOf(arg)) ==> c in out)
  {
    CappedMatching(codes, PrefixOf(arg));
  }

  /**
   * When the codes are the registry's code set, listed once each, every completion is
   * a registered code, none is offered twice, and when fewer than fifty are offered
   * they are all the registered codes with the prefix.
   */
  lemma RegistryCompletion(codes: seq<string>, arg: Option<string>)
    requires Distinct(codes)
    requires forall c :: c in codes <==> IsRegistered(c)
    ensures var out := Capped(Matching(codes, PrefixOf(arg)), MaxCodes);
      && (forall c :: c in out ==> IsRegistered(c) && StartsWith(c, PrefixOf(arg)))
      && Distinct(out)
      && (|out| < MaxCodes ==> forall c :: IsRegistered(c) && StartsWith(c, PrefixOf(arg)) ==> c in out)
  {
    CappedMatching(codes, PrefixOf(arg));
  }

  // ---------- test mode ----------

  /**
   * The players for whom test mode is on. (The command and the chat listener refer to
   * `Translator.TestMode`, but Translator.java declares no nested `TestMode`; this is
   * the behaviour they rely on: a set of UUIDs whose toggle reports the new state.)
   */
  class TestMode {
    var enabled: set<Uuid>

    constructor ()
      ensures enabled == {}
    {
      enabled := {};
    }

    function IsEnabled(u: Uuid): bool
      reads this
    {
      u in enabled
    }

    /** Flip test mode for `u` and report whether it is now on. */
    method Toggle(u: Uuid) returns (on: bool)
      modifies this
      ensures enabled == Flip(old(enabled), u)
      ensures on == (u in enabled)
    {
      enabled := Flip(enabled, u);
      on := u in enabled;
    }
  }

  /** The set with `u` added when absent and removed when present. */
  function Flip(s: set<Uuid>, u: Uuid): (r: set<Uuid>)
    ensures u in r <==> u !in s
    ensures forall v :: v != u ==> (v in r <==> v in s)
  {
    if u in s then s - {u} else s + {u}
  }

  /** Toggling twice restores the set. */
  lemma FlipTwice(s: set<Uuid>, u: Uuid)
    ensures Flip(Flip(s, u), u) == s
  {
  }
}
