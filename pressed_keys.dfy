/** The pressed-key set tracker: the keydown and keyup handlers of the App
    component, which keep the set of labels currently held down. */
module PressedKeyTracker {
  import opened KeyNames
  import opened KeyboardLayout
  import opened LayoutCoverage

  /** A keyboard event, carrying the raw `key` identifier the browser reports. */
  datatype KeyEvent = KeyDown(raw: string) | KeyUp(raw: string)

  /** The layout label an event is about. */
  function Label(e: KeyEvent): string {
    NormalizeKey(e.raw)
  }

  /** One state update: keydown adds the event's label, keyup removes it, and
      no other label changes. */
  function Step(held: set<string>, e: KeyEvent): (r: set<string>)
    ensures Label(e) in r <==> e.KeyDown?
    ensures forall name :: name != Label(e) ==> (name in r <==> name in held)
  {
    match e
    case KeyDown(_) => held + {Label(e)}
    case KeyUp(_) => held - {Label(e)}
  }

  /** The set after a stream of handler calls, the first event applied first;
      ReplayMeaning below says which labels it holds. */
  function Replay(held: set<string>, events: seq<KeyEvent>): set<string>
    decreases |events|
  {
    if events == [] then held
    else Step(Replay(held, events[..|events| - 1]), events[|events| - 1])
  }

  /** Some keydown for `name` was seen and no event for `name` came after it. */
  ghost predicate DownSinceLastUp(events: seq<KeyEvent>, name: string) {
    exists i :: 0 <= i < |events| && events[i].KeyDown? && Label(events[i]) == name &&
      forall j :: i < j < |events| ==> Label(events[j]) != name
  }

  /** No event in the stream is about `name`. */
  ghost predicate Untouched(events: seq<KeyEvent>, name: string) {
    forall i :: 0 <= i < |events| ==> Label(events[i]) != name
  }

  /** An event about another label does not change whether `name` was pressed
      since its last release, nor whether the stream mentions it. */
  lemma OtherLabelEvent(prefix: seq<KeyEvent>, e: KeyEvent, name: string)
    requires Label(e) != name
    ensures DownSinceLastUp(prefix + [e], name) <==> DownSinceLastUp(prefix, name)
    ensures Untouched(prefix + [e], name) <==> Untouched(prefix, name)
  {
    var events := prefix + [e];
    var n := |prefix|;
    if DownSinceLastUp(prefix, name) {
      var i :| 0 <= i < n && prefix[i].KeyDown? && Label(prefix[i]) == name &&
        forall j :: i < j < n ==> Label(prefix[j]) != name;
      assert events[i] == prefix[i];
      assert forall j :: i < j < |events| ==> Label(events[j]) != name by {
        forall j | i < j < |events|
          ensures Label(events[j]) != name
        {
          if j < n { assert events[j] == prefix[j]; }
        }
      }
    }
    if DownSinceLastUp(events, name) {
      var i :| 0 <= i < |events| && events[i].KeyDown? && Label(events[i]) == name &&
        forall j :: i < j < |events| ==> Label(events[j]) != name;
      assert i < n;
      assert events[i] == prefix[i];
      assert forall j :: i < j < n ==> Label(prefix[j]) != name by {
        forall j | i < j < n
          ensures Label(prefix[j]) != name
        {
          assert events[j] == prefix[j];
        }
      }
    }
    assert Untouched(events, name) ==> Untouched(prefix, name) by {
      if Untouched(events, name) {
        forall i | 0 <= i < n
          ensures Label(prefix[i]) != name
        {
          assert events[i] == prefix[i];
        }
      }
    }
  }

  /** The last event about `name` decides whether it was pressed since its
      last release. */
  lemma SameLabelEvent(prefix: seq<KeyEvent>, e: KeyEvent, name: string)
    requires Label(e) == name
    ensures DownSinceLastUp(prefix + [e], name) <==> e.KeyDown?
    ensures !Untouched(prefix + [e], name)
  {
    var events := prefix + [e];
    var n := |prefix|;
    assert events[n] == e;
    if e.KeyDown? {
      assert DownSinceLastUp(events, name);
    }
  }

  /** What the set means: a label is held after a stream exactly when a keydown
      for it came after its last keyup, or when it was held at the start and
      the stream never mentions it. */
  lemma {:induction false} ReplayMeaning(held: set<string>, events: seq<KeyEvent>, name: string)
    ensures name in Replay(held, events) <==>
      DownSinceLastUp(events, name) || (name in held && Untouched(events, name))
    decreases |events|
  {
    if events != [] {
      var n := |events| - 1;
      var prefix, e := events[..n], events[n];
      assert events == prefix + [e];
      ReplayMeaning(held, prefix, name);
      if Label(e) == name {
        SameLabelEvent(prefix, e, name);
      } else {
        OtherLabelEvent(prefix, e, name);
      }
    }
  }

  /** From an empty start, a label is held exactly when a keydown for it came
      after its last keyup. */
  lemma HeldFromStart(events: seq<KeyEvent>, name: string)
    ensures name in Replay({}, events) <==> DownSinceLastUp(events, name)
  {
    ReplayMeaning({}, events, name);
  }

  /** A keydown for a label already held (an auto-repeat event) changes nothing;
      in particular a second keydown repeats the first to no effect. */
  lemma KeyDownIdempotent(held: set<string>, raw: string)
    ensures NormalizeKey(raw) in held ==> Step(held, KeyDown(raw)) == held
    ensures Step(Step(held, KeyDown(raw)), KeyDown(raw)) == Step(held, KeyDown(raw))
  {
  }

  /** A keyup for a label that is not held changes nothing. */
  lemma KeyUpAbsent(held: set<string>, raw: string)
    requires NormalizeKey(raw) !in held
    ensures Step(held, KeyUp(raw)) == held
  {
  }

  /** Keydown then keyup of the same raw key leaves no residue: the label is
      gone and every other label is as before; when it was not held before,
      the original set comes back. */
  lemma DownUpRoundTrip(held: set<string>, raw: string)
    ensures Step(Step(held, KeyDown(raw)), KeyUp(raw)) == held - {NormalizeKey(raw)}
    ensures NormalizeKey(raw) !in held ==> Step(Step(held, KeyDown(raw)), KeyUp(raw)) == held
  {
  }

  /** Events about different labels commute. */
  lemma StepsCommute(held: set<string>, a: KeyEvent, b: KeyEvent)
    requires Label(a) != Label(b)
    ensures Step(Step(held, a), b) == Step(Step(held, b), a)
  {
  }

  /** Replaying one more event is one more step. */
  lemma ReplaySnoc(held: set<string>, events: seq<KeyEvent>, e: KeyEvent)
    ensures Replay(held, events + [e]) == Step(Replay(held, events), e)
  {
    assert (events + [e])[..|events|] == events;
  }

  /** Pressing A then B and releasing A then B ends where pressing B then A and
      releasing B then A ends: with neither label held. */
  lemma PressReleaseOrderIndependent(held: set<string>, a: string, b: string)
    ensures Replay(held, [KeyDown(a), KeyDown(b), KeyUp(a), KeyUp(b)]) ==
            Replay(held, [KeyDown(b), KeyDown(a), KeyUp(b), KeyUp(a)])
    ensures Replay(held, [KeyDown(a), KeyDown(b), KeyUp(a), KeyUp(b)]) ==
            held - {NormalizeKey(a), NormalizeKey(b)}
  {
    var e1, e2, e3, e4 := KeyDown(a), KeyDown(b), KeyUp(a), KeyUp(b);
    var f1, f2, f3, f4 := KeyDown(b), KeyDown(a), KeyUp(b), KeyUp(a);
    assert [e1] == [] + [e1] && [e1, e2] == [e1] + [e2];
    assert [e1, e2, e3] == [e1, e2] + [e3] && [e1, e2, e3, e4] == [e1, e2, e3] + [e4];
    assert [f1] == [] + [f1] && [f1, f2] == [f1] + [f2];
    assert [f1, f2, f3] == [f1, f2] + [f3] && [f1, f2, f3, f4] == [f1, f2, f3] + [f4];
    ReplaySnoc(held, [], e1);
    ReplaySnoc(held, [e1], e2);
    ReplaySnoc(held, [e1, e2], e3);
    ReplaySnoc(held, [e1, e2, e3], e4);
    ReplaySnoc(held, [], f1);
    ReplaySnoc(held, [f1], f2);
    ReplaySnoc(held, [f1, f2], f3);
    ReplaySnoc(held, [f1, f2, f3], f4);
  }

  /** Pressing "a", then the space bar, then releasing "a". */
  lemma LetterAndSpaceScenario()
    ensures Replay({}, [KeyDown("a")]) == {"A"}
    ensures Replay({}, [KeyDown("a"), KeyDown(" ")]) == {"A", "Space"}
    ensures Replay({}, [KeyDown("a"), KeyDown(" "), KeyUp("a")]) == {"Space"}
  {
    NormalizeSingleChar('a');
    NormalizeNamedKeys();
    var evs := [KeyDown("a"), KeyDown(" "), KeyUp("a")];
    assert evs[..2] == [KeyDown("a"), KeyDown(" ")];
    assert evs[..2][..1] == [KeyDown("a")];
  }

  /** Pressing the up arrow holds the label "Up". */
  lemma ArrowUpScenario()
    ensures Replay({}, [KeyDown("ArrowUp")]) == {"Up"}
  {
    NormalizeArrow("ArrowUp");
  }

  /** What the tracker does to the drawn keyboard: after a keydown exactly the
      cells carrying the event's label are turned on and after a keyup exactly
      those are turned off; every other cell is drawn as before. */
  lemma StepRender(held: set<string>, e: KeyEvent, i: nat, j: nat)
    requires i < |Layout| && j < |Layout[i]|
    ensures Layout[i][j] == Label(e) ==> Render(Step(held, e))[i][j].pressed == e.KeyDown?
    ensures Layout[i][j] != Label(e) ==> Render(Step(held, e))[i][j] == Render(held)[i][j]
  {
  }

  /** An event whose label no layout cell carries changes nothing on screen. */
  lemma UnmappedKeyInvisible(held: set<string>, e: KeyEvent)
    requires !InLayout(Label(e))
    ensures Render(Step(held, e)) == Render(held)
  {
    RenderDependsOnLayoutLabelsOnly(Step(held, e), held);
  }

  /** Every cell lights up on a keydown whose identifier spells its label. */
  lemma EveryCellCanLight(held: set<string>, i: nat, j: nat)
    requires i < |Layout| && j < |Layout[i]|
    ensures Render(Step(held, KeyDown(Layout[i][j])))[i][j].pressed
  {
    assert Layout[i] in Layout && Layout[i][j] in Layout[i];
    LayoutLabelsAreFixedPoints(Layout[i][j]);
  }

  /** A cell of the keyboard drawn for the tracker's state is pressed exactly
      when `pressedKeys.has` holds of its label. */
  lemma DrawnFromTracker(p: PressedKeys, i: nat, j: nat)
    requires i < |Layout| && j < |Layout[i]|
    ensures Render(p.keys)[i][j].pressed <==> p.Has(Layout[i][j])
    ensures Render(p.keys)[i][j].wide <==> |Layout[i][j]| > 1
  {
  }

  /** The browser's "Escape" and the four arrow keys keep labels that no cell
      of the layout carries (the layout names the escape key "Esc" and has no
      arrow keys), so pressing them never highlights anything. */
  lemma EscapeAndArrowsNeverHighlight(held: set<string>, raw: string)
    requires raw == "Escape" || raw in ArrowKeys
    ensures Render(Step(held, KeyDown(raw))) == Render(held)
  {
    if raw == "Escape" {
      NormalizePassThrough(raw);
    } else {
      NormalizeArrow(raw);
    }
    assert NormalizeKey(raw) in Unmapped;
    MissingFromLayout(NormalizeKey(raw));
    UnmappedKeyInvisible(held, KeyDown(raw));
  }

  /** The component's pressed-key state. */
  class PressedKeys {
    var keys: set<string>

    /** useState(new Set()): nothing is held when the view is mounted. */
    constructor ()
      ensures keys == {}
    {
      keys := {};
    }

    /** pressedKeys.has(name): the test a cell is drawn with. */
    predicate Has(name: string)
      reads this
    {
      name in keys
    }

    /** handleKeyDown: a copy of the set with the event's label added. */
    method HandleKeyDown(raw: string)
      modifies this
      ensures keys == old(keys) + {NormalizeKey(raw)}
      ensures keys == Step(old(keys), KeyDown(raw))
      ensures Has(NormalizeKey(raw))
    {
      var normalized := NormalizeKey(raw);
      keys := keys + {normalized};
    }

    /** handleKeyUp: a copy of the set from which the event's label is deleted. */
    method HandleKeyUp(raw: string)
      modifies this
      ensures keys == old(keys) - {NormalizeKey(raw)}
      ensures keys == Step(old(keys), KeyUp(raw))
      ensures !Has(NormalizeKey(raw))
    {
      var normalized := NormalizeKey(raw);
      var updated := keys;
      updated := updated - {normalized};
      keys := updated;
    }
  }
}
