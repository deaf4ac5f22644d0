/**
 * `HologramManager`: the text shown under a player's name tag. A text shaped like
 * `<name> message` is split into a top and a bottom line; anything else is one line.
 * The manager keeps, per player UUID, the top stand, the bottom stand (which the
 * single-line mode reuses) and the pending auto-clear task. Stands are modelled by
 * the text they show; spawning, positioning and the scheduler itself are not modelled,
 * and a new task's id is a parameter.
 */
module Hologram {
  import opened Base
  import opened Text

  /** How a text is shown. */
  datatype Layout = OneLine(line: string) | TwoLines(top: string, bottom: string)

  /** The auto-split of `showEphemeral(player, text)`: the text is trimmed, then split. */
  function Split(text: Option<string>): Layout {
    SplitTrimmed(Trim(text.GetOr("")))
  }

  /**
   * The split of the trimmed text: `<name> rest` becomes the top line through the
   * first `>` and the trimmed rest below it.
   */
  function SplitTrimmed(trimmed: string): Layout {
    if StartsWith(trimmed, "<") && '>' in trimmed then
      var end := IndexOf(trimmed, '>');
      SplitAt(trimmed, end, Trim(trimmed[end + 1..]))
    else OneLine(trimmed)
  }

  /** The split at the first `>`, at position `end`, with `rest` the trimmed remainder. */
  function SplitAt(trimmed: string, end: int, rest: string): Layout
    requires 0 <= end < |trimmed|
  {
    if end >= 1 && end + 1 < |trimmed| then
      if rest != [] then TwoLines(trimmed[..end + 1], rest) else OneLine(trimmed)
    else OneLine(trimmed)
  }

  /** What the manager shows and has scheduled, per player. */
  datatype Holograms = Holograms(top: map<Uuid, string>, bottom: map<Uuid, string>, tasks: map<Uuid, int>)

  /**
   * `showEphemeral(player, text)`: the pending clear is replaced by a new one; two
   * lines go to the top and bottom stands, one line to the bottom stand only (a top
   * stand left from an earlier two-line text is not touched).
   */
  function ShowStep(h: Holograms, id: Uuid, layout: Layout, taskId: int): Holograms {
    match layout
    case OneLine(line) => Holograms(h.top, h.bottom[id := line], h.tasks[id := taskId])
    case TwoLines(t, b) => Holograms(h.top[id := t], h.bottom[id := b], h.tasks[id := taskId])
  }

  /** `clear(player)`: the player's task and both stands are removed. */
  function ClearStep(h: Holograms, id: Uuid): Holograms {
    Holograms(h.top - {id}, h.bottom - {id}, h.tasks - {id})
  }

  // ---------- the class ----------

  class HologramManager {
    var topStands: map<Uuid, string>
    var bottomStands: map<Uuid, string>
    var clearTasks: map<Uuid, int>

    function State(): Holograms
      reads this
    {
      Holograms(topStands, bottomStands, clearTasks)
    }

    constructor ()
      ensures State() == Holograms(map[], map[], map[])
    {
      topStands, bottomStands, clearTasks := map[], map[], map[];
    }

    /** `showEphemeral(player, text)` (and its alias `addLine`); `taskId` is the new clear task. */
    method ShowEphemeral(id: Uuid, text: Option<string>, taskId: int)
      modifies this
      ensures State() == ShowStep(old(State()), id, Split(text), taskId)
    {
      var trimmed := Trim(text.GetOr(""));
      ShowTrimmed(id, trimmed, taskId);
    }

    /** The split and display of the already trimmed text. */
    method ShowTrimmed(id: Uuid, trimmed: string, taskId: int)
      modifies this
      ensures State() == ShowStep(old(State()), id, SplitTrimmed(trimmed), taskId)
    {
      if StartsWith(trimmed, "<") && '>' in trimmed {
        var end := IndexOf(trimmed, '>');
        if end >= 1 && end + 1 < |trimmed| {
          var first := trimmed[..end + 1];
          var rest := Trim(trimmed[end + 1..]);
          if rest != [] {
            ShowTwoLines(id, first, rest, taskId);
            return;
          }
        }
      }
      RenderSingleLine(id, trimmed, taskId);
    }

    /** `showEphemeral(player, top, bottom)`. */
    method ShowTwoLines(id: Uuid, top: string, bottom: string, taskId: int)
      modifies this
      ensures State() == Holograms(old(topStands)[id := top], old(bottomStands)[id := bottom],
                                   old(clearTasks)[id := taskId])
    {
      clearTasks := clearTasks - {id};
      topStands := topStands[id := top];
      bottomStands := bottomStands[id := bottom];
      clearTasks := clearTasks[id := taskId];
    }

    /** `renderSingleLine(player, line)`: the bottom stand carries the line. */
    method RenderSingleLine(id: Uuid, line: string, taskId: int)
      modifies this
      ensures State() == Holograms(old(topStands), old(bottomStands)[id := line], old(clearTasks)[id := taskId])
    {
      clearTasks := clearTasks - {id};
      bottomStands := bottomStands[id := line];
      clearTasks := clearTasks[id := taskId];
    }

    /** `clear(player)`. */
    method Clear(id: Uuid)
      modifies this
      ensures State() == ClearStep(old(State()), id)
    {
      clearTasks := clearTasks - {id};
      topStands := topStands - {id};
      bottomStands := bottomStands - {id};
    }

    /** `shutdown()`: every stand removed, every task cancelled. */
    method Shutdown()
      modifies this
      ensures State() == Holograms(map[], map[], map[])
    {
      topStands := map[];
      bottomStands := map[];
      clearTasks := map[];
    }
  }

  // ---------- properties of the split ----------

  /** A null text is shown as the empty line. */
  lemma NullIsEmptyLine()
    ensures Split(None) == OneLine("")
  {
  }

  /** One line shows the trimmed text itself. */
  lemma OneLineIsWhole(t: string)
    ensures SplitTrimmed(t).OneLine? ==> SplitTrimmed(t).line == t
  {
  }

  /** Whatever the layout, what is shown comes from the trimmed text. */
  lemma TextIsTrimmed(text: Option<string>)
    ensures Split(text).OneLine? ==> Split(text).line == Trim(text.GetOr(""))
  {
    OneLineIsWhole(Trim(text.GetOr("")));
  }

  /** The two-line test on trimmed text. */
  lemma TwoLinesIffTrimmed(t: string)
    requires IsTrimmed(t)
    ensures SplitTrimmed(t).TwoLines? <==> |t| > 0 && t[0] == '<' && '>' in t && IndexOf(t, '>') < |t| - 1
  {
    if SplitTrimmed(t).TwoLines? {
      TwoLinesCut(t);
    }
    if |t| > 0 && t[0] == '<' && '>' in t && IndexOf(t, '>') < |t| - 1 {
      NameFirstIsTwoLines(t);
    }
  }

  /** A trimmed text that starts with `<` and has a `>` before its last char is split. */
  lemma NameFirstIsTwoLines(t: string)
    requires IsTrimmed(t)
    requires |t| > 0 && t[0] == '<' && '>' in t && IndexOf(t, '>') < |t| - 1
    ensures SplitTrimmed(t).TwoLines?
  {
    var end := IndexOf(t, '>');
    StartsWithAngle(t);
    TrimmedTailNotEmpty(t, end + 1);
    assert SplitAt(t, end, Trim(t[end + 1..])).TwoLines?;
  }

  lemma StartsWithAngle(t: string)
    ensures StartsWith(t, "<") <==> |t| > 0 && t[0] == '<'
  {
    if |t| > 0 {
      assert t[..1] == "<" <==> t[0] == '<' by { assert t[..1] == [t[0]]; }
    }
  }

  /** A non-empty tail of a trimmed text keeps its last char, so it does not trim to "". */
  lemma TrimmedTailNotEmpty(t: string, k: int)
    requires IsTrimmed(t) && 0 <= k < |t|
    ensures Trim(t[k..]) != []
  {
    var after := t[k..];
    assert after[|after| - 1] == t[|t| - 1];
    TrimEmptyIff(after);
  }

  /**
   * Two lines are shown exactly when the trimmed text starts with `<` and holds a
   * `>` that is not its last char. The source's further tests (`end >= 1`, a non-empty
   * remainder) therefore never decide anything: the first `>` comes after the `<`,
   * and the trimmed text ends in a char `trim` keeps.
   */
  lemma TwoLinesIff(text: Option<string>)
    ensures var t := Trim(text.GetOr(""));
      Split(text).TwoLines? <==> |t| > 0 && t[0] == '<' && '>' in t && IndexOf(t, '>') < |t| - 1
  {
    TwoLinesIffTrimmed(Trim(text.GetOr("")));
  }

  /** The text through the first `>` starts with the `<`, ends at that `>`, and holds no other. */
  lemma TopLine(t: string, end: int)
    requires |t| > 0 && t[0] == '<' && 0 <= end < |t| && end == IndexOf(t, '>')
    ensures var top := t[..end + 1];
      && top[0] == '<' && top[end] == '>'
      && top + t[end + 1..] == t
  {
  }

  /** A two-line split of trimmed text cuts it after its first `>`. */
  lemma {:induction false} TwoLinesCut(t: string)
    requires SplitTrimmed(t).TwoLines?
    ensures var end := IndexOf(t, '>');
      && |t| > 0 && t[0] == '<' && 0 <= end < |t| - 1
      && SplitTrimmed(t).top == t[..end + 1]
      && SplitTrimmed(t).bottom == Trim(t[end + 1..]) != []
  {
    assert StartsWith(t, "<") && '>' in t;
    var end := IndexOf(t, '>');
    var rest := Trim(t[end + 1..]);
    assert SplitTrimmed(t) == SplitAt(t, end, rest);
    SplitAtTwo(t, end, rest);
    assert t[..1] == "<" && t[..1][0] == t[0];
  }

  /** What a two-line split at `end` requires and yields. */
  lemma SplitAtTwo(t: string, end: int, rest: string)
    requires 0 <= end < |t| && SplitAt(t, end, rest).TwoLines?
    ensures end + 1 < |t| && rest != []
    ensures SplitAt(t, end, rest) == TwoLines(t[..end + 1], rest)
  {
  }

  /**
   * In two-line mode the top line runs from the `<` through the first `>`, the
   * bottom is the trimmed remainder, and nothing is lost between them.
   */
  lemma TwoLinesShape(text: Option<string>)
    requires Split(text).TwoLines?
    ensures var t := Trim(text.GetOr(""));
      var l := Split(text);
      var end := IndexOf(t, '>');
      && 0 <= end < |t| - 1
      && l.top == t[..end + 1] && l.top[0] == '<' && l.top[end] == '>'
      && l.bottom == Trim(t[end + 1..]) && l.bottom != []
      && l.top + t[end + 1..] == t
  {
    var t := Trim(text.GetOr(""));
    TwoLinesCut(t);
    TopLine(t, IndexOf(t, '>'));
  }

  /** Example: a chat line in the `<name> message` form is split. */
  lemma SplitNameAndMessage()
    ensures Split(Some("<A> hi")) == TwoLines("<A>", "hi")
  {
    var t := "<A> hi";
    TrimOfTrimmed(t);
    ExampleCut();
    ExampleRest();
    TwoLinesIffTrimmed(t);
    TwoLinesCut(t);
  }

  /** Where the example's `>` is. */
  lemma ExampleCut()
    ensures IndexOf("<A> hi", '>') == 2
    ensures "<A> hi"[..3] == "<A>"
    ensures "<A> hi"[3..] == " hi"
  {
  }

  /** The example's remainder, trimmed. */
  lemma ExampleRest()
    ensures Trim(" hi") == "hi"
  {
    var s := " hi";
    assert SkipLeading(s, 1) == 1;
    assert SkipLeading(s, 0) == 1;
    assert SkipTrailing(s, 1, 3) == 3;
    assert s[1..3] == "hi";
  }

  /** Example: a bare `<name>` has nothing below it and stays one line. */
  lemma NameAloneIsOneLine()
    ensures Split(Some("<A>")) == OneLine("<A>")
  {
    TrimOfTrimmed("<A>");
    assert IndexOf("<A>", '>') == 2;
  }

  /**
   * A text that starts with a colour code (the section sign) is never split: it is
   * one line, the whole text trimmed.
   */
  lemma ColouredTextIsOneLine(s: string)
    requires |s| > 0 && s[0] == '\U{A7}'
    ensures Split(Some(s)) == OneLine(Trim(s))
  {
    assert SkipLeading(s, 0) == 0;
    var t := Trim(s);
    assert t[0] == '\U{A7}' && !StartsWith(t, "<");
    OneLineIsWhole(t);
  }

  // ---------- properties of the bookkeeping ----------

  /** After `clear(p)` no map has an entry for `p`, and every other player's entries are as they were. */
  lemma ClearLeavesOthers(h: Holograms, id: Uuid, other: Uuid)
    requires other != id
    ensures var c := ClearStep(h, id);
      && id !in c.top && id !in c.bottom && id !in c.tasks
      && (other in c.top <==> other in h.top) && (other in c.top ==> c.top[other] == h.top[other])
      && (other in c.bottom <==> other in h.bottom) && (other in c.bottom ==> c.bottom[other] == h.bottom[other])
      && (other in c.tasks <==> other in h.tasks) && (other in c.tasks ==> c.tasks[other] == h.tasks[other])
  {
  }

  /** Showing a text always leaves exactly one pending clear for that player, and a bottom line. */
  lemma ShowSchedulesOneClear(h: Holograms, id: Uuid, layout: Layout, taskId: int)
    ensures var s := ShowStep(h, id, layout, taskId);
      && s.tasks == h.tasks[id := taskId]
      && id in s.bottom
      && (layout.OneLine? ==> s.bottom[id] == layout.line && s.top == h.top)
      && (layout.TwoLines? ==> s.top[id] == layout.top && s.bottom[id] == layout.bottom)
  {
  }

  /** Showing and then clearing leaves nothing for that player. */
  lemma ShowThenClear(h: Holograms, id: Uuid, layout: Layout, taskId: int)
    ensures var c := ClearStep(ShowStep(h, id, layout, taskId), id);
      id !in c.top && id !in c.bottom && id !in c.tasks
  {
  }
}
