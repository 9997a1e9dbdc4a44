/**
  The name wheel of the Spinelli page: the state the page script keeps
  beside the Winwheel drawing engine, and the five event handlers that
  change it (spin click, spin finished, add click, Enter key, remove click).

  The engine is seen only through the two behaviours the script relies on:
  `addSegment` appends a segment at the end and `deleteSegment` drops the
  last one, and `numSegments` is the length of the segment list.
 */
module Wheel {
  import opened Wrappers
  import opened JsSemantics

  /** The six colours new segments cycle through. */
  const Palette: seq<string> := ["#FFD700", "#FF6347", "#ADFF2F", "#40E0D0", "#EE82EE", "#6A5ACD"]

  /** The colour cursor starts past the three preset names. */
  const InitialColorIndex: int := 3
  const InitialNames: seq<string> := ["Alice", "Bob", "Charlie"]

  const SpinningText: string := "Spinning..."
  const EnterKey: string := "Enter"

  /** A segment's `fillStyle`. Reading a JavaScript array outside its
      bounds gives `undefined`, which is kept apart from a real colour. */
  datatype Fill = Paint(color: string) | Undefined

  datatype Segment = Segment(text: string, fill: Fill)

  /** What the result area shows: whatever the page started with, the
      "Spinning..." message, or the winner's name in the winner's colour. */
  datatype Display = PageDefault | Message(text: string) | Winner(name: string, fill: Fill)

  /** The three `alert` pop-ups. */
  datatype Warning = TooFewToSpin | EmptyName | LastName
  {
    function Text(): string {
      match this
      case TooFewToSpin => "Please add at least two names to the wheel!"
      case EmptyName => "Please enter a name."
      case LastName => "Cannot remove the last name."
    }
  }

  /** `spinning` is `spinButton.disabled`. */
  datatype State = State(segments: seq<Segment>, colorIndex: int, spinning: bool, result: Display)

  /** The names on the wheel, in order. */
  function Labels(segments: seq<Segment>): (names: seq<string>)
    ensures |names| == |segments|
    ensures forall k :: 0 <= k < |segments| ==> names[k] == segments[k].text
  {
    seq(|segments|, k requires 0 <= k < |segments| => segments[k].text)
  }

  /** A handler's effect: the next state, and the alert it raised, if any. */
  datatype Reply = Reply(next: State, alert: Option<Warning>)

  /** The page's starting state. The preset colours are parameters: the
      script leaves them unspecified. */
  function Init(f0: Fill, f1: Fill, f2: Fill): (s: State)
    ensures |s.segments| == |InitialNames|
    ensures forall k :: 0 <= k < |s.segments| ==> s.segments[k].text == InitialNames[k]
    ensures s.colorIndex == |s.segments|
    ensures !s.spinning
  {
    State([Segment("Alice", f0), Segment("Bob", f1), Segment("Charlie", f2)],
          InitialColorIndex, false, PageDefault)
  }

  /** `segmentColors[i]` for any integer `i`. */
  function PaletteAt(i: int): (f: Fill)
    ensures f.Paint? <==> 0 <= i < |Palette|
    ensures 0 <= i < |Palette| ==> f == Paint(Palette[i])
  {
    if 0 <= i < |Palette| then Paint(Palette[i]) else Undefined
  }

  /** `segmentColors[colorIndex % segmentColors.length]`. */
  function NextFill(colorIndex: int): (f: Fill)
    ensures colorIndex >= 0 ==> f == Paint(Palette[colorIndex % |Palette|])
  {
    PaletteAt(JsRem(colorIndex, |Palette|))
  }

  /** The spin button's click handler. */
  function SpinClick(s: State): (r: Reply)
    ensures r.alert.None? <==> |s.segments| >= 2
    ensures r.alert.Some? ==> r.alert.value == TooFewToSpin && r.next == s
    ensures r.alert.None? ==> r.next.spinning && r.next.result == Message(SpinningText)
    ensures r.next.segments == s.segments && r.next.colorIndex == s.colorIndex
  {
    if |s.segments| >= 2 then
      Reply(s.(result := Message(SpinningText), spinning := true), None)
    else
      Reply(s, Some(TooFewToSpin))
  }

  /** `alertPrize`, called by the engine with the segment it stopped on. */
  function SpinFinished(s: State, winner: Segment): (t: State)
    ensures !t.spinning
    ensures t.result.Winner? && t.result.name == winner.text && t.result.fill == winner.fill
    ensures t.segments == s.segments && t.colorIndex == s.colorIndex
  {
    s.(result := Winner(winner.text, winner.fill), spinning := false)
  }

  /** The add button's click handler, given the input field's value. */
  function AddClick(s: State, input: string): (r: Reply)
    ensures r.alert.Some? <==> AllSpace(input)
    ensures r.alert.Some? ==> r.alert.value == EmptyName && r.next == s
    ensures r.alert.None? ==>
      && |r.next.segments| == |s.segments| + 1
      && r.next.segments[..|s.segments|] == s.segments
      && IsTrimOf(input, r.next.segments[|s.segments|].text)
      && r.next.segments[|s.segments|].text != []
      && r.next.segments[|s.segments|].fill == NextFill(s.colorIndex)
      && r.next.colorIndex == s.colorIndex + 1
    ensures r.next.spinning == s.spinning && r.next.result == s.result
  {
    var name := Trim(input);
    if Truthy(name) then
      var added := Segment(name, NextFill(s.colorIndex));
      Reply(s.(segments := s.segments + [added], colorIndex := s.colorIndex + 1), None)
    else
      Reply(s, Some(EmptyName))
  }

  /** The name field's keypress handler: Enter clicks the add button. */
  function KeyPress(s: State, key: string, input: string): (r: Reply)
    ensures key != EnterKey ==> r == Reply(s, None)
    ensures key == EnterKey ==> r == AddClick(s, input)
  {
    if key == EnterKey then AddClick(s, input) else Reply(s, None)
  }

  /** The remove button's click handler. */
  function RemoveClick(s: State): (r: Reply)
    ensures r.alert.None? <==> |s.segments| > 1
    ensures r.alert.Some? ==> r.alert.value == LastName && r.next == s
    ensures r.alert.None? ==>
      && r.next.segments + [s.segments[|s.segments| - 1]] == s.segments
      && r.next.colorIndex == s.colorIndex - 1
    ensures |r.next.segments| >= 1 <==> |s.segments| >= 1
    ensures r.next.spinning == s.spinning && r.next.result == s.result
  {
    if |s.segments| > 1 then
      Reply(s.(segments := s.segments[..|s.segments| - 1], colorIndex := s.colorIndex - 1), None)
    else
      Reply(s, Some(LastName))
  }

  /** The user and engine events the page reacts to. */
  datatype Event =
    | SpinButton
    | SpinStopped(winner: Segment)
    | AddButton(input: string)
    | NameKey(key: string, input: string)
    | RemoveButton

  /** Delivers one event. A disabled button receives no clicks, so a spin
      click while `spinning` (= `spinButton.disabled`) does nothing; every
      other event reaches its handler. */
  function Handle(s: State, e: Event): (r: Reply)
    ensures e.SpinButton? && s.spinning ==> r == Reply(s, None)
    ensures e.SpinButton? && !s.spinning ==> r == SpinClick(s)
    ensures e.SpinStopped? ==> r == Reply(SpinFinished(s, e.winner), None)
    ensures e.AddButton? ==> r == AddClick(s, e.input)
    ensures e.NameKey? ==> r == KeyPress(s, e.key, e.input)
    ensures e.RemoveButton? ==> r == RemoveClick(s)
  {
    match e
    case SpinButton => if s.spinning then Reply(s, None) else SpinClick(s)
    case SpinStopped(w) => Reply(SpinFinished(s, w), None)
    case AddButton(input) => AddClick(s, input)
    case NameKey(key, input) => KeyPress(s, key, input)
    case RemoveButton => RemoveClick(s)
  }

  /** The state after delivering `es` in order. */
  function Run(s: State, es: seq<Event>): State
    decreases |es|
  {
    if |es| == 0 then s else Run(Handle(s, es[0]).next, es[1..])
  }
}
