/**
  Concrete runs of the page from its starting state: adding a name, the
  colour cycle wrapping round the palette, removal stopping at one name,
  and a spin refused, started and finished.
 */
module WheelScenarios {
  import opened Wrappers
  import opened JsSemantics
  import opened Wheel
  import opened WheelInvariants

  /** Adding a name that needs no trimming appends it in the cursor's colour. */
  lemma AddPlainName(s: State, name: string)
    requires name != [] && Trimmed(name)
    ensures AddClick(s, name).alert == None
    ensures AddClick(s, name).next
      == s.(segments := s.segments + [Segment(name, NextFill(s.colorIndex))], colorIndex := s.colorIndex + 1)
  {
    TrimTrimmed(name);
  }

  /** A trimmed name added to the preset wheel becomes its fourth segment,
      in palette colour 3, and moves the cursor from 3 to 4. */
  lemma AddFourthName(f0: Fill, f1: Fill, f2: Fill, name: string)
    requires name != [] && Trimmed(name)
    ensures var r := Handle(Init(f0, f1, f2), AddButton(name));
      && r.alert == None
      && Labels(r.next.segments) == ["Alice", "Bob", "Charlie", name]
      && r.next.segments[3].fill == Paint(Palette[3])
      && r.next.colorIndex == 4
  {
    var s0 := Init(f0, f1, f2);
    AddPlainName(s0, name);
    var names := Labels(AddClick(s0, name).next.segments);
    assert names[0] == "Alice" && names[1] == "Bob" && names[2] == "Charlie" && names[3] == name;
  }

  /** Adding "Dave" to the preset wheel appends him in palette colour 3
      ("#40E0D0") and moves the cursor from 3 to 4. */
  lemma AddDave(f0: Fill, f1: Fill, f2: Fill)
    ensures var r := Handle(Init(f0, f1, f2), AddButton("Dave"));
      && r.alert == None
      && Labels(r.next.segments) == ["Alice", "Bob", "Charlie", "Dave"]
      && r.next.segments[3].fill == Paint("#40E0D0")
      && r.next.colorIndex == 4
  {
    assert Trimmed("Dave") by {
      assert "Dave"[0] == 'D' && "Dave"[3] == 'e';
      assert !IsJsSpace('D') && !IsJsSpace('e');
    }
    AddFourthName(f0, f1, f2, "Dave");
  }

  /** Enter with any value that trims to a non-empty name adds that name,
      not the raw value, as the preset wheel's fourth segment. */
  lemma EnterAddsTrimmedName(f0: Fill, f1: Fill, f2: Fill, raw: string, name: string)
    requires IsTrimOf(raw, name) && name != []
    ensures var r := Handle(Init(f0, f1, f2), NameKey(EnterKey, raw));
      && r.alert == None
      && Labels(r.next.segments) == ["Alice", "Bob", "Charlie", name]
  {
    TrimOfUnique(raw, Trim(raw), name);
    var s0 := Init(f0, f1, f2);
    var r := AddClick(s0, raw);
    assert r.next.segments == s0.segments + [Segment(name, NextFill(3))];
    var names := Labels(r.next.segments);
    assert names[0] == "Alice" && names[1] == "Bob" && names[2] == "Charlie" && names[3] == name;
  }

  /** Surrounding white space is cut from a new name, by a click or by Enter. */
  lemma AddTrimsByEnter(f0: Fill, f1: Fill, f2: Fill)
    ensures var r := Handle(Init(f0, f1, f2), NameKey(EnterKey, " Eve\t"));
      && r.alert == None
      && Labels(r.next.segments) == ["Alice", "Bob", "Charlie", "Eve"]
  {
    var raw := " Eve\t";
    assert raw[0] == ' ' && raw[4] == '\t' && raw[1..4] == "Eve";
    assert TrimCut(raw, 1, 4);
    EnterAddsTrimmedName(f0, f1, f2, raw, "Eve");
  }

  /** Whatever the names, the fourth, fifth and sixth segments take
      palette colours 3, 4 and 5; the seventh wraps round to colour 0. */
  lemma ColourCycle(f0: Fill, f1: Fill, f2: Fill, d: string, e: string, f: string, g: string)
    requires !AllSpace(d) && !AllSpace(e) && !AllSpace(f) && !AllSpace(g)
    ensures var t := Run(Init(f0, f1, f2), [AddButton(d), AddButton(e), AddButton(f), AddButton(g)]);
      && |t.segments| == 7
      && t.segments[3].fill == Paint(Palette[3])
      && t.segments[4].fill == Paint(Palette[4])
      && t.segments[5].fill == Paint(Palette[5])
      && t.segments[6].fill == Paint(Palette[0])
  {
    var es := [AddButton(d), AddButton(e), AddButton(f), AddButton(g)];
    var s0 := Init(f0, f1, f2);
    InitInv(f0, f1, f2);
    AddColourByPosition(s0, d);
    var s1 := AddClick(s0, d).next;
    AddColourByPosition(s1, e);
    var s2 := AddClick(s1, e).next;
    AddColourByPosition(s2, f);
    var s3 := AddClick(s2, f).next;
    AddColourByPosition(s3, g);
    var s4 := AddClick(s3, g).next;
    assert s4.segments[3] == s3.segments[3] == s2.segments[3] == s1.segments[3];
    assert s4.segments[4] == s3.segments[4] == s2.segments[4];
    assert s4.segments[5] == s3.segments[5];
    assert es[3..][1..] == [];
    assert Run(s3, es[3..]) == s4;
    assert es[2..][1..] == es[3..];
    assert Run(s2, es[2..]) == s4;
    assert es[1..][1..] == es[2..];
    assert Run(s1, es[1..]) == s4;
  }

  /** From two names, one remove leaves "Alice"; a second remove is refused
      with a warning and changes nothing, the cursor included. */
  lemma RemoveStopsAtOne(fa: Fill, fb: Fill)
    ensures var s := State([Segment("Alice", fa), Segment("Bob", fb)], 2, false, PageDefault);
      var r1 := RemoveClick(s);
      var r2 := RemoveClick(r1.next);
      && r1.alert == None && Labels(r1.next.segments) == ["Alice"]
      && r2.alert == Some(LastName) && r2.next == r1.next && r2.next.colorIndex == 1
  {
  }

  /** A spin needs two names; with three it shows "Spinning...", disables the
      button, and the engine's stop on "Bob" names him winner and
      re-enables the button. */
  lemma SpinScenarios(f0: Fill, f1: Fill, f2: Fill)
    ensures var lone := State([Segment("Alice", f0)], 1, false, PageDefault);
      SpinClick(lone) == Reply(lone, Some(TooFewToSpin))
    ensures var r := SpinClick(Init(f0, f1, f2));
      && r.alert == None && r.next.spinning && r.next.result == Message("Spinning...")
      && var t := SpinFinished(r.next, Segment("Bob", Paint("#FF6347")));
         !t.spinning && t.result == Winner("Bob", Paint("#FF6347"))
  {
  }
}
