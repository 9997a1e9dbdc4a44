/**
  Facts about every state the page can reach: at least one name always
  remains, the colour cursor always equals the number of segments (so
  `colorIndex % segmentColors.length` is always a valid palette index), and
  every segment the user added wears the palette colour of its position.
  Also: adding then removing is a no-op, and blank input is inert.
 */
module WheelInvariants {
  import opened Wrappers
  import opened JsSemantics
  import opened Wheel

  /** The invariant of every reachable state. */
  predicate Inv(s: State) {
    && |s.segments| >= 1
    && s.colorIndex == |s.segments|
    && (s.spinning ==> s.result == Message(SpinningText))
    && (forall k :: 0 <= k < |s.segments| ==> s.segments[k].text != [] && Trimmed(s.segments[k].text))
  }

  lemma InitInv(f0: Fill, f1: Fill, f2: Fill)
    ensures Inv(Init(f0, f1, f2))
  {
  }

  /** An accepted name is trimmed and non-empty, and lands after the
      untouched earlier segments, so the add handler keeps the invariant. */
  lemma AddInv(s: State, input: string)
    requires Inv(s)
    ensures Inv(AddClick(s, input).next)
  {
    TrimIsTrimmed(input);
  }

  /** Removal keeps every remaining segment, so it keeps the invariant. */
  lemma RemoveInv(s: State)
    requires Inv(s)
    ensures Inv(RemoveClick(s).next)
  {
  }

  /** Every event keeps the invariant. */
  lemma HandleInv(s: State, e: Event)
    requires Inv(s)
    ensures Inv(Handle(s, e).next)
  {
    match e
    case AddButton(input) => AddInv(s, input);
    case NameKey(key, input) => AddInv(s, input);
    case RemoveButton => RemoveInv(s);
    case _ =>
  }

  lemma {:induction false} RunInv(s: State, es: seq<Event>)
    requires Inv(s)
    ensures Inv(Run(s, es))
    decreases |es|
  {
    if |es| != 0 {
      HandleInv(s, es[0]);
      RunInv(Handle(s, es[0]).next, es[1..]);
    }
  }

  /** In a state satisfying the invariant the palette index the add handler
      computes lies in [0, 6), so the next segment gets a real colour. */
  lemma CursorSafe(s: State)
    requires Inv(s)
    ensures 0 <= JsRem(s.colorIndex, |Palette|) < |Palette|
    ensures NextFill(s.colorIndex) == Paint(Palette[|s.segments| % |Palette|])
  {
  }

  /** From a state satisfying the invariant, an accepted name lands at
      position `k = |segments|` in palette colour `k % 6`. */
  lemma AddColourByPosition(s: State, input: string)
    requires Inv(s) && !AllSpace(input)
    ensures var t := AddClick(s, input).next;
      && Inv(t)
      && |t.segments| == |s.segments| + 1
      && t.segments[..|s.segments|] == s.segments
      && t.segments[|s.segments|].fill == Paint(Palette[|s.segments| % |Palette|])
  {
    AddInv(s, input);
  }

  /** Without the invariant the cursor could go negative, and then all but
      every sixth value would read past the palette. */
  lemma NegativeCursorUndefined(colorIndex: int)
    requires colorIndex < 0
    ensures NextFill(colorIndex).Undefined? <==> colorIndex % |Palette| != 0
  {
  }

  /** Whatever events arrive after page load, at least one segment
      remains, the cursor equals the segment count, the next colour is
      a palette entry, and every label is a non-empty trimmed name. */
  lemma Reachable(f0: Fill, f1: Fill, f2: Fill, es: seq<Event>)
    ensures var t := Run(Init(f0, f1, f2), es);
      && |t.segments| >= 1
      && t.colorIndex == |t.segments|
      && 0 <= JsRem(t.colorIndex, |Palette|) < |Palette|
      && NextFill(t.colorIndex).Paint?
      && forall k :: 0 <= k < |t.segments| ==> t.segments[k].text != [] && Trimmed(t.segments[k].text)
  {
    InitInv(f0, f1, f2);
    RunInv(Init(f0, f1, f2), es);
    CursorSafe(Run(Init(f0, f1, f2), es));
  }

  /** Each segment either is the preset segment at its position or wears
      the palette colour of its position. */
  predicate Coloured(presets: seq<Segment>, s: State) {
    forall k :: 0 <= k < |s.segments| ==>
      || s.segments[k].fill == Paint(Palette[k % |Palette|])
      || (k < |presets| && s.segments[k] == presets[k])
  }

  lemma HandleColoured(presets: seq<Segment>, s: State, e: Event)
    requires Inv(s) && Coloured(presets, s)
    ensures Coloured(presets, Handle(s, e).next)
  {
  }

  lemma {:induction false} RunColoured(presets: seq<Segment>, s: State, es: seq<Event>)
    requires Inv(s) && Coloured(presets, s)
    ensures Coloured(presets, Run(s, es))
    decreases |es|
  {
    if |es| != 0 {
      HandleColoured(presets, s, es[0]);
      HandleInv(s, es[0]);
      RunColoured(presets, Handle(s, es[0]).next, es[1..]);
    }
  }

  /** Colours cycle through the palette by position: every segment of a
      reachable state that is not a surviving preset has colour
      `segmentColors[k % 6]`, `k` its position. */
  lemma ReachableColoured(f0: Fill, f1: Fill, f2: Fill, es: seq<Event>)
    ensures var t := Run(Init(f0, f1, f2), es);
      forall k :: 0 <= k < |t.segments| ==>
        || t.segments[k].fill == Paint(Palette[k % |Palette|])
        || (k < 3 && t.segments[k] == Init(f0, f1, f2).segments[k])
  {
    var s0 := Init(f0, f1, f2);
    InitInv(f0, f1, f2);
    RunColoured(s0.segments, s0, es);
  }

  /** A successful add followed by a remove restores the exact prior state
      (the remove guard needs the one segment every reachable state has). */
  lemma AddThenRemove(s: State, input: string)
    requires |s.segments| >= 1
    requires AddClick(s, input).alert.None?
    ensures RemoveClick(AddClick(s, input).next) == Reply(s, None)
  {
  }

  /** Conversely, removing the last segment and re-adding its name restores
      the state, when that segment wore the colour the cursor gives back. */
  lemma RemoveThenAdd(s: State)
    requires Inv(s)
    requires RemoveClick(s).alert.None?
    requires s.segments[|s.segments| - 1].fill == NextFill(s.colorIndex - 1)
    ensures AddClick(RemoveClick(s).next, s.segments[|s.segments| - 1].text) == Reply(s, None)
  {
    var last := s.segments[|s.segments| - 1];
    TrimTrimmed(last.text);
    assert s.segments[..|s.segments| - 1] + [last] == s.segments;
  }

  /** An event that the add path rejects or ignores: a blank add, or a
      keypress that is not Enter or carries a blank value. */
  predicate InertInput(e: Event) {
    || (e.AddButton? && AllSpace(e.input))
    || (e.NameKey? && (e.key != EnterKey || AllSpace(e.input)))
  }

  /** Any number of blank adds leave the state exactly as it was. */
  lemma {:induction false} InertInputsChangeNothing(s: State, es: seq<Event>)
    requires forall i :: 0 <= i < |es| ==> InertInput(es[i])
    ensures Run(s, es) == s
    decreases |es|
  {
    if |es| != 0 {
      assert Handle(s, es[0]).next == s;
      InertInputsChangeNothing(s, es[1..]);
    }
  }
}
