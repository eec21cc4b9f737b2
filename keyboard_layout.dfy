/** The static on-screen keyboard and the per-cell state it is drawn with. */
module KeyboardLayout {

  /** KEYBOARD_LAYOUT: six rows of key labels, top row first. */
  const FunctionRow: seq<string> := ["Esc", "F1", "F2", "F3", "F4", "F5", "F6", "F7", "F8", "F9", "F10", "F11", "F12"]
  const NumberRow: seq<string> := ["`", "1", "2", "3", "4", "5", "6", "7", "8", "9", "0", "-", "=", "Backspace"]
  const TopRow: seq<string> := ["Tab", "Q", "W", "E", "R", "T", "Y", "U", "I", "O", "P", "[", "]", "\\"]
  const HomeRow: seq<string> := ["CapsLock", "A", "S", "D", "F", "G", "H", "J", "K", "L", ";", "'", "Enter"]
  const BottomRow: seq<string> := ["Shift", "Z", "X", "C", "V", "B", "N", "M", ",", ".", "/", "Shift"]
  const ModifierRow: seq<string> := ["Ctrl", "Meta", "Alt", "Space", "Alt", "Meta", "Menu", "Ctrl"]
  const Layout: seq<seq<string>> := [FunctionRow, NumberRow, TopRow, HomeRow, BottomRow, ModifierRow]

  /** Some cell of the layout carries this label. */
  predicate InLayout(name: string) {
    exists row :: row in Layout && name in row
  }

  /** How one cell is drawn: highlighted when its label is held, drawn wide
      when its label is longer than one character. */
  datatype Cell = Cell(name: string, pressed: bool, wide: bool)

  function RenderCell(held: set<string>, name: string): (c: Cell)
    ensures c.name == name
    ensures c.pressed <==> name in held
    ensures c.wide <==> |name| > 1
  {
    Cell(name, name in held, |name| > 1)
  }

  /** The whole keyboard drawn for a snapshot of the held labels: one cell per
      layout entry, row by row, in layout order. */
  function Render(held: set<string>): (view: seq<seq<Cell>>)
    ensures |view| == |Layout|
    ensures forall i :: 0 <= i < |Layout| ==> |view[i]| == |Layout[i]|
    ensures forall i, j :: 0 <= i < |Layout| && 0 <= j < |Layout[i]| ==>
      view[i][j] == RenderCell(held, Layout[i][j])
  {
    seq(|Layout|, i requires 0 <= i < |Layout| =>
      seq(|Layout[i]|, j requires 0 <= j < |Layout[i]| => RenderCell(held, Layout[i][j])))
  }

  /** Two snapshots that agree on every label of the layout draw the same
      keyboard. */
  lemma RenderDependsOnLayoutLabelsOnly(a: set<string>, b: set<string>)
    requires forall name :: InLayout(name) ==> (name in a <==> name in b)
    ensures Render(a) == Render(b)
  {
    var va, vb := Render(a), Render(b);
    forall i | 0 <= i < |Layout|
      ensures va[i] == vb[i]
    {
      forall j | 0 <= j < |Layout[i]|
        ensures va[i][j] == vb[i][j]
      {
        assert Layout[i] in Layout && Layout[i][j] in Layout[i];
      }
    }
  }

  /** Labels the normalizer can produce that no cell carries. The lemmas below
      check them against one row at a time, which keeps each proof small. */
  const Unmapped: set<string> := {"Escape", "Up", "Down", "Left", "Right"}

  lemma FunctionRowLacks(name: string)
    requires name in Unmapped
    ensures name !in FunctionRow
  {
  }

  lemma NumberRowLacks(name: string)
    requires name in Unmapped
    ensures name !in NumberRow
  {
  }

  lemma TopRowLacks(name: string)
    requires name in Unmapped
    ensures name !in TopRow
  {
  }

  lemma HomeRowLacks(name: string)
    requires name in Unmapped
    ensures name !in HomeRow
  {
  }

  lemma BottomRowLacks(name: string)
    requires name in Unmapped
    ensures name !in BottomRow
  {
  }

  lemma ModifierRowLacks(name: string)
    requires name in Unmapped
    ensures name !in ModifierRow
  {
  }

  /** The layout names the escape key "Esc", not "Escape", and has no arrow
      keys. */
  lemma MissingFromLayout(name: string)
    requires name in Unmapped
    ensures !InLayout(name)
  {
    FunctionRowLacks(name);
    NumberRowLacks(name);
    TopRowLacks(name);
    HomeRowLacks(name);
    BottomRowLacks(name);
    ModifierRowLacks(name);
  }
}
