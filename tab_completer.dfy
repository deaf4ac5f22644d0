/**
 * `TranslatorTabCompleter.complete`: completions for `/translator`. One argument
 * completes the subcommand; `set <prefix>` completes a language code from the
 * registry, at most fifty of them. The registry is a hash set, so its iteration
 * order is a parameter here: `codes` lists the registry's codes in that order.
 */
module TabCompletion {
  import opened Base
  import opened Text

  /** The subcommands offered, in the order they are offered. */
  const Subcommands: seq<string> := ["set", "get", "clear"]

  /** The most language codes one completion lists. */
  const MaxCodes: int := 50

  /** The elements of `codes` that start with `p`, in their order. */
  function Matching(codes: seq<string>, p: string): (r: seq<string>)
    ensures |r| <= |codes|
    decreases |codes|
  {
    if codes == [] then []
    else
      var init := codes[..|codes| - 1];
      var c := codes[|codes| - 1];
      if StartsWith(c, p) then Matching(init, p) + [c] else Matching(init, p)
  }

  /** The completion holds exactly the codes starting with the prefix, none twice when the codes are distinct. */
  lemma {:induction false} MatchingMembers(codes: seq<string>, p: string)
    ensures forall c :: c in Matching(codes, p) <==> c in codes && StartsWith(c, p)
    ensures Distinct(codes) ==> Distinct(Matching(codes, p))
    decreases |codes|
  {
    if codes != [] {
      var init := codes[..|codes| - 1];
      var c := codes[|codes| - 1];
      MatchingMembers(init, p);
      assert forall x :: x in codes <==> x in init || x == c;
      assert Distinct(codes) ==> Distinct(init) && c !in init;
    }
  }

  /** The first `n` elements of `s`, or all of it when it is shorter. */
  function Capped(s: seq<string>, n: nat): (r: seq<string>)
    ensures |r| <= n && |r| <= |s|
    ensures r == s[..|r|]
    ensures |s| <= n ==> r == s
  {
    if |s| <= n then s else s[..n]
  }

  /** A completion of a prefix of the codes is a prefix of the completion of all of them. */
  lemma {:induction false} MatchingOfPrefix(codes: seq<string>, k: nat, p: string)
    requires k <= |codes|
    ensures var m := Matching(codes, p);
      |Matching(codes[..k], p)| <= |m| && Matching(codes[..k], p) == m[..|Matching(codes[..k], p)|]
    decreases |codes|
  {
    if k < |codes| {
      var init := codes[..|codes| - 1];
      assert init[..k] == codes[..k];
      MatchingOfPrefix(init, k, p);
    } else {
      assert codes[..k] == codes;
    }
  }

  /**
   * What the capped completion holds: at most fifty codes, each a code starting
   * with the prefix, every such code when fewer than fifty, and no repeats.
   */
  lemma CappedMatching(codes: seq<string>, p: string)
    ensures var out := Capped(Matching(codes, p), MaxCodes);
      && |out| <= MaxCodes
      && (forall c :: c in out ==> c in codes && StartsWith(c, p))
      && (|out| < MaxCodes ==> forall c :: c in codes && StartsWith(c, p) ==> c in out)
      && (Distinct(codes) ==> Distinct(out))
  {
    var m := Matching(codes, p);
    MatchingMembers(codes, p);
    var out := Capped(m, MaxCodes);
    assert forall c :: c in out ==> c in m;
  }

  /**
   * The loop over the registry: every code that starts with `p` is added, and the
   * loop stops once fifty have been added.
   */
  method CompleteCodes(codes: seq<string>, p: string) returns (out: seq<string>)
    ensures out == Capped(Matching(codes, p), MaxCodes)
  {
    out := [];
    var added := 0;
    var i := 0;
    while i < |codes|
      invariant 0 <= i <= |codes|
      invariant added == |out| < MaxCodes
      invariant out == Matching(codes[..i], p)
    {
      var c := codes[i];
      MatchingStep(codes, i, p);
      if StartsWith(c, p) {
        out := out + [c];
        added := added + 1;
        if added >= MaxCodes {
          StopAtCap(codes, i + 1, p);
          return;
        }
      }
      i := i + 1;
    }
    assert codes[..i] == codes;
  }

  /** One more code either extends the completion by itself or leaves it as it was. */
  lemma MatchingStep(codes: seq<string>, i: nat, p: string)
    requires i < |codes|
    ensures Matching(codes[..i + 1], p)
      == Matching(codes[..i], p) + (if StartsWith(codes[i], p) then [codes[i]] else [])
  {
    assert codes[..i + 1][..i] == codes[..i];
  }

  /** Once fifty codes of a prefix match, the capped completion of all codes is those fifty. */
  lemma StopAtCap(codes: seq<string>, k: nat, p: string)
    requires k <= |codes| && |Matching(codes[..k], p)| == MaxCodes
    ensures Capped(Matching(codes, p), MaxCodes) == Matching(codes[..k], p)
  {
    MatchingOfPrefix(codes, k, p);
  }

  /**
   * `complete(args, registry)`: nothing for no arguments; the subcommands starting
   * with the lower-cased argument for one; the capped code completion for `set`
   * (in any case) and a second argument; nothing for anything else.
   */
  method Complete(args: seq<string>, codes: seq<string>) returns (out: seq<string>)
    ensures |args| == 0 ==> out == []
    ensures |args| == 1 ==> out == Matching(Subcommands, ToLower(args[0]))
    ensures |args| == 2 && EqualsIgnoreCase("set", args[0]) ==>
      out == Capped(Matching(codes, ToLower(args[1])), MaxCodes)
    ensures |args| == 2 && !EqualsIgnoreCase("set", args[0]) ==> out == []
    ensures |args| > 2 ==> out == []
  {
    out := [];
    if |args| == 0 {
      return;
    }
    if |args| == 1 {
      var p := ToLower(args[0]);
      if StartsWith("set", p) { out := out + ["set"]; }
      if StartsWith("get", p) { out := out + ["get"]; }
      if StartsWith("clear", p) { out := out + ["clear"]; }
      SubcommandsAreFiltered(p);
      return;
    }
    if |args| == 2 && EqualsIgnoreCase("set", args[0]) {
      out := CompleteCodes(codes, ToLower(args[1]));
      return;
    }
  }

  /** The subcommand completion is the three tests in order. */
  lemma SubcommandsAreFiltered(p: string)
    ensures Matching(Subcommands, p)
      == (if StartsWith("set", p) then ["set"] else [])
       + (if StartsWith("get", p) then ["get"] else [])
       + (if StartsWith("clear", p) then ["clear"] else [])
  {
    assert Subcommands[..2][..1] == ["set"];
    assert Subcommands[..2] == ["set", "get"];
  }

  /** An empty argument offers every subcommand. */
  lemma EmptyOffersAllSubcommands()
    ensures Matching(Subcommands, ToLower("")) == Subcommands
  {
    SubcommandsAreFiltered("");
  }

  /** The argument is lower-cased first: `S` offers `set` and nothing else. */
  lemma UpperPrefixOffersSet()
    ensures Matching(Subcommands, ToLower("S")) == ["set"]
  {
    assert ToLower("S") == "s";
    SubcommandsAreFiltered("s");
    assert "get"[..1][0] == 'g' && "clear"[..1][0] == 'c';
  }

  /** Text that no subcommand starts with offers none. */
  lemma UnknownPrefixOffersNothing()
    ensures Matching(Subcommands, ToLower("x")) == []
  {
    assert ToLower("x") == "x";
    SubcommandsAreFiltered("x");
    assert "set"[..1][0] == 's' && "get"[..1][0] == 'g' && "clear"[..1][0] == 'c';
  }
}
