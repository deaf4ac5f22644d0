/**
 * `/translator` for players: `set <code>`, `get`, `clear`, and for operators
 * `mode test`. `Dispatch` says what one command does to the preference map and
 * the test mode set and which message the sender sees; `OnCommand` performs it on
 * the store and the test mode registry. (In the addon the store provider always
 * yields the one shared store, so the model holds that store directly.)
 */
module Command {
  import opened Base
  import opened Text
  import opened Registry
  import opened PlayerStore
  import opened Addon

  /** Who ran the command: the console (or any non-player), or a player. */
  datatype Sender = Console | PlayerSender(id: Uuid, isOp: bool)

  /** The message the sender is sent. */
  datatype Notice =
    | OnlyPlayers
    | Usage
    | InvalidCode
    | LanguageSet(code: string)
    | YourLanguage(code: string)
    | NoLanguage
    | Cleared
    | NoPermission
    | TestModeOn
    | TestModeOff
    | ModeUsage

  /** What the command acts on: the preference map and the players in test mode. */
  datatype CommandState = CommandState(prefs: map<Uuid, string>, testing: set<Uuid>)

  /** The state after the command and the message sent. */
  datatype Outcome = Outcome(state: CommandState, notice: Notice)

  /** `onCommand(sender, cmd, label, args)`; every branch returns true. */
  function Dispatch(st: CommandState, sender: Sender, args: seq<string>): Outcome {
    match sender
    case Console => Outcome(st, OnlyPlayers)
    case PlayerSender(id, isOp) =>
      if |args| == 0 then Outcome(st, Usage)
      else
        var sub := ToLower(args[0]);
        if sub == "set" then
          if |args| < 2 then Outcome(st, Usage)
          else
            var code := ToLower(args[1]);
            if !IsValid(Some(code)) then Outcome(st, InvalidCode)
            else Outcome(CommandState(SetPref(st.prefs, id, Some(code)), st.testing), LanguageSet(code))
        else if sub == "get" then
          match Lookup(st.prefs, id)
          case None => Outcome(st, NoLanguage)
          case Some(cur) => Outcome(st, YourLanguage(cur))
        else if sub == "clear" then
          Outcome(CommandState(ClearPref(st.prefs, id), st.testing), Cleared)
        else if sub == "mode" then
          if !isOp then Outcome(st, NoPermission)
          else if |args| >= 2 && EqualsIgnoreCase("test", args[1]) then
            var testing := Flip(st.testing, id);
            Outcome(CommandState(st.prefs, testing), if id in testing then TestModeOn else TestModeOff)
          else Outcome(st, ModeUsage)
        else Outcome(st, Usage)
  }

  /** `TranslatorCommand`: the player store and the test mode registry it acts on. */
  class TranslatorCommand {
    const store: PlayerLangStore
    const testMode: TestMode

    constructor (store: PlayerLangStore, testMode: TestMode)
      ensures this.store == store && this.testMode == testMode
    {
      this.store := store;
      this.testMode := testMode;
    }

    function State(): CommandState
      reads store, testMode
    {
      CommandState(store.prefs, testMode.enabled)
    }

    method OnCommand(sender: Sender, args: seq<string>) returns (handled: bool, notice: Notice)
      requires store.Valid()
      modifies store, testMode
      ensures store.Valid()
      ensures handled
      ensures Outcome(State(), notice) == Dispatch(old(State()), sender, args)
    {
      handled := true;
      if sender.Console? {
        notice := OnlyPlayers;
        return;
      }
      var id := sender.id;
      if |args| == 0 {
        notice := Usage;
        return;
      }
      var sub := ToLower(args[0]);
      if sub == "set" {
        if |args| < 2 {
          notice := Usage;
          return;
        }
        var code := ToLower(args[1]);
        if !IsValid(Some(code)) {
          notice := InvalidCode;
          return;
        }
        store.Set(id, Some(code));
        notice := LanguageSet(code);
      } else if sub == "get" {
        var cur := store.Get(id);
        notice := if cur.None? then NoLanguage else YourLanguage(cur.value);
      } else if sub == "clear" {
        store.Clear(id);
        notice := Cleared;
      } else if sub == "mode" {
        if !sender.isOp {
          notice := NoPermission;
          return;
        }
        if |args| >= 2 && EqualsIgnoreCase("test", args[1]) {
          var enabled := testMode.Toggle(id);
          notice := if enabled then TestModeOn else TestModeOff;
          return;
        }
        notice := ModeUsage;
      } else {
        notice := Usage;
      }
    }
  }

  // ---------- properties ----------

  /** A sender that is not a player is told so and nothing changes. */
  lemma ConsoleChangesNothing(st: CommandState, args: seq<string>)
    ensures Dispatch(st, Console, args) == Outcome(st, OnlyPlayers)
  {
  }

  /** No arguments, or `set` without a code, shows the usage and changes nothing. */
  lemma MissingArgumentsShowUsage(st: CommandState, id: Uuid, isOp: bool, args: seq<string>)
    requires |args| == 0 || (|args| == 1 && ToLower(args[0]) == "set")
    ensures Dispatch(st, PlayerSender(id, isOp), args) == Outcome(st, Usage)
  {
  }

  /**
   * `set <code>`: a code the registry rejects changes nothing; a valid one stores
   * its lower-case form for the sender and for no one else.
   */
  lemma SetStoresOnlyValidCodes(st: CommandState, id: Uuid, isOp: bool, sub: string, code: string)
    requires ToLower(sub) == "set"
    ensures var o := Dispatch(st, PlayerSender(id, isOp), [sub, code]);
      && (!IsValid(Some(code)) ==> o == Outcome(st, InvalidCode))
      && (IsValid(Some(code)) ==>
            && o.notice == LanguageSet(ToLower(code))
            && o.state.testing == st.testing
            && Lookup(o.state.prefs, id) == Some(ToLower(code))
            && IsRegistered(Lookup(o.state.prefs, id).value)
            && forall v :: v != id ==> Lookup(o.state.prefs, v) == Lookup(st.prefs, v))
  {
    IsValidIgnoresCase(code);
    ToLowerIdempotent(code);
    if IsValid(Some(code)) {
      ValidIsRegistered(code);
    }
  }

  /** After `clear`, `get` reports that no language is set. */
  lemma ClearThenGet(st: CommandState, id: Uuid, isOp: bool)
    ensures var cleared := Dispatch(st, PlayerSender(id, isOp), ["clear"]).state;
      Dispatch(cleared, PlayerSender(id, isOp), ["get"]).notice == NoLanguage
  {
    assert ToLower("clear") == "clear";
    assert ToLower("get") == "get";
  }

  /** After a valid `set`, `get` reports the lower-case code. */
  lemma SetThenGetReports(st: CommandState, id: Uuid, isOp: bool, code: string)
    requires IsValid(Some(code))
    ensures var afterSet := Dispatch(st, PlayerSender(id, isOp), ["set", code]).state;
      Dispatch(afterSet, PlayerSender(id, isOp), ["get"]).notice == YourLanguage(ToLower(code))
  {
    assert ToLower("set") == "set";
    assert ToLower("get") == "get";
    SetStoresOnlyValidCodes(st, id, isOp, "set", code);
  }

  /**
   * Test mode changes only through `mode test` by an operator, and then flips for the
   * sender alone; the message reports the new state. A non-operator's `mode`, and an
   * operator's `mode` with any other argument, change nothing.
   */
  lemma ModeTestOnlyForOperators(st: CommandState, id: Uuid, isOp: bool, args: seq<string>)
    ensures var o := Dispatch(st, PlayerSender(id, isOp), args);
      var toggles := |args| >= 2 && ToLower(args[0]) == "mode" && isOp && EqualsIgnoreCase("test", args[1]);
      && (toggles ==> o.state == CommandState(st.prefs, Flip(st.testing, id))
                      && o.notice == (if id in st.testing then TestModeOff else TestModeOn))
      && (!toggles ==> o.state.testing == st.testing)
      && (|args| >= 1 && ToLower(args[0]) == "mode" && !isOp ==> o == Outcome(st, NoPermission))
      && (|args| >= 1 && ToLower(args[0]) == "mode" && isOp && !(|args| >= 2 && EqualsIgnoreCase("test", args[1])) ==>
            o == Outcome(st, ModeUsage))
  {
  }

  /** A subcommand other than set, get, clear and mode shows the usage and changes nothing. */
  lemma UnknownSubcommandChangesNothing(st: CommandState, id: Uuid, isOp: bool, args: seq<string>)
    requires |args| >= 1
    requires ToLower(args[0]) !in {"set", "get", "clear", "mode"}
    ensures Dispatch(st, PlayerSender(id, isOp), args) == Outcome(st, Usage)
  {
  }

  /** Subcommands are matched ignoring case. */
  lemma SubcommandIgnoresCase(st: CommandState, sender: Sender, args: seq<string>)
    requires |args| >= 1
    ensures Dispatch(st, sender, args) == Dispatch(st, sender, [ToLower(args[0])] + args[1..])
  {
    ToLowerIdempotent(args[0]);
  }

  /** No command touches another player's preference or test mode. */
  lemma OnlySenderAffected(st: CommandState, id: Uuid, isOp: bool, args: seq<string>, other: Uuid)
    requires other != id
    ensures var o := Dispatch(st, PlayerSender(id, isOp), args).state;
      && Lookup(o.prefs, other) == Lookup(st.prefs, other)
      && (other in o.testing <==> other in st.testing)
  {
  }
}
