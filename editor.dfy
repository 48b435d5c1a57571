/**
 * The modal cursor state machine of the editor (src/editor.rs) and the text
 * of its status line.
 *
 * An editor holds a cursor `(cx, cy)` of two `u16` values and a mode. Each
 * key is handed to the Normal-mode or the Insert-mode handler according to
 * the mode. Normal-mode moves saturate at 0 and at 65535; Insert-mode edits
 * use the plain `+=`/`-=` operators, whose overflow panics in a debug build:
 * the handlers report that panic as the outcome `Fault`. The quit key ends
 * the process; here it is the outcome `Quit`.
 *
 * The pure functions `NormalTransition`, `InsertTransition` and `Transition`
 * specify the handlers on cursor values; the class `Editor` holds the state
 * and its methods update it in place, as the source does.
 */
module Editor {
  import opened Wrappers
  import opened U16Arith
  import opened Fmt

  datatype Mode = Normal | Insert

  /**
   * The key codes the handlers tell apart. `Other` stands for every other
   * key code the terminal library reports (Tab, Delete, Home, F1, ...).
   */
  datatype Key = Char(c: char) | Up | Down | Left | Right | Enter | Backspace | Esc | Other

  /** What a handled key leads to: keep going, leave the process, or panic. */
  datatype Outcome = Continue | Quit | Fault

  /** The state the handlers read and write. */
  datatype Cursor = Cursor(cx: U16, cy: U16, mode: Mode)

  /** The state after a key, and what the key led to. */
  datatype Step = Step(next: Cursor, outcome: Outcome)

  /** Keys that move the cursor up one row in Normal mode. */
  predicate IsUpKey(k: Key) { k == Up || k == Char('k') }
  predicate IsDownKey(k: Key) { k == Down || k == Char('j') }
  predicate IsLeftKey(k: Key) { k == Left || k == Char('h') }
  predicate IsRightKey(k: Key) { k == Right || k == Char('l') }

  /** The Insert-mode keys whose arithmetic is unchecked. */
  predicate IsEditKey(k: Key) { k.Char? || k == Enter || k == Backspace }

  /** `handle_normal_event` on cursor values. */
  function NormalTransition(s: Cursor, code: Key): (r: Step)
    ensures r.outcome == Quit <==> code == Char('q')
    ensures r.outcome != Fault
    ensures r.next.mode == if code == Char('i') then Insert else s.mode
    ensures r.next.cx == s.cx || r.next.cy == s.cy
    ensures s.cx - 1 <= r.next.cx <= s.cx + 1 && s.cy - 1 <= r.next.cy <= s.cy + 1
  {
    match code
    case Char('q') => Step(s, Quit)
    case Up | Char('k') => Step(s.(cy := SaturatingSub(s.cy, 1)), Continue)
    case Down | Char('j') => Step(s.(cy := SaturatingAdd(s.cy, 1)), Continue)
    case Left | Char('h') => Step(s.(cx := SaturatingSub(s.cx, 1)), Continue)
    case Right | Char('l') => Step(s.(cx := SaturatingAdd(s.cx, 1)), Continue)
    case Char('i') => Step(s.(mode := Insert), Continue)
    case _ => Step(s, Continue)
  }

  /** `handle_insert_event` on cursor values. */
  function InsertTransition(s: Cursor, code: Key): (r: Step)
    ensures r.outcome != Quit
    ensures r.next.mode == if code == Esc then Normal else s.mode
    ensures r.next.cy == s.cy || (code == Enter && r.next.cy == s.cy + 1)
    ensures code != Enter ==> s.cx - 1 <= r.next.cx <= s.cx + 1
  {
    match code
    case Char(_) =>
      (match CheckedAdd(s.cx, 1)
       case None => Step(s, Fault)
       case Some(x) => Step(s.(cx := x), Continue))
    case Enter =>
      var t := s.(cx := 0);
      (match CheckedAdd(t.cy, 1)
       case None => Step(t, Fault)
       case Some(y) => Step(t.(cy := y), Continue))
    case Backspace =>
      (match CheckedSub(s.cx, 1)
       case None => Step(s, Fault)
       case Some(x) => Step(s.(cx := x), Continue))
    case Esc => Step(s.(mode := Normal), Continue)
    case _ => Step(s, Continue)
  }

  /** `handle_keyboard_event`: the handler is chosen by the current mode alone. */
  function Transition(s: Cursor, code: Key): (r: Step)
    ensures s.mode == Normal ==> r == NormalTransition(s, code)
    ensures s.mode == Insert ==> r == InsertTransition(s, code)
  {
    match s.mode
    case Normal => NormalTransition(s, code)
    case Insert => InsertTransition(s, code)
  }

  /**
   * The keys of `keys` dispatched one after the other, until one of them
   * quits or panics. Only the handlers are composed: the redraw the event
   * loop performs between two keys is not part of this.
   */
  function Run(s: Cursor, keys: seq<Key>): (r: Step)
    ensures r.outcome == Quit ==> Char('q') in keys
    ensures r.outcome == Fault ==> exists k :: k in keys && IsEditKey(k)
    decreases |keys|
  {
    if keys == [] then Step(s, Continue)
    else
      var t := Transition(s, keys[0]);
      if t.outcome == Continue then
        assert forall k :: k in keys[1..] ==> k in keys;
        Run(t.next, keys[1..])
      else
        assert keys[0] in keys;
        t
  }

  // Status line

  /** The file-name field of the status line; the source writes this name, whatever file is open. */
  const FileLabel: string := " src/main.rs "

  /** The mode's name as `{:?}` prints it. */
  function DebugName(m: Mode): string {
    match m
    case Normal => "Normal"
    case Insert => "Insert"
  }

  /** `format!(" {:?} ", mode).to_uppercase()`. */
  function ModeLabel(m: Mode): (r: string)
    ensures r == if m == Normal then " NORMAL " else " INSERT "
    ensures |r| == 8
  {
    ToUpper(" " + DebugName(m) + " ")
  }

  /** `format!(" {}:{} ", cx, cy)`. */
  function PositionLabel(cx: U16, cy: U16): (r: string)
    ensures 5 <= |r| <= 13
  {
    DecimalLength(cx, 5);
    DecimalLength(cy, 5);
    " " + Decimal(cx) + ":" + Decimal(cy) + " "
  }

  /** The three fields of the status line, left to right. */
  datatype StatusFields = StatusFields(mode: string, file: string, position: string)

  function Width(f: StatusFields): nat {
    |f.mode| + |f.file| + |f.position|
  }

  /** `t_column as usize - file.len() - mode.len()`; `None` is the debug-build underflow panic. */
  function FileFieldWidth(tColumn: U16, fileLen: nat, modeLen: nat): (r: Option<nat>)
    ensures r.None? <==> tColumn < fileLen + modeLen
    ensures r.Some? ==> r.value + fileLen + modeLen == tColumn
  {
    if tColumn < fileLen then None
    else if tColumn - fileLen < modeLen then None
    else Some(tColumn - fileLen - modeLen)
  }

  /** An editor: the loaded lines, the cursor and the mode. */
  class Editor {
    var lines: seq<string>
    var cx: U16
    var cy: U16
    var mode: Mode

    /** `Editor::new`: the cursor starts at the top-left corner, in Normal mode. */
    constructor (lines: seq<string>)
      ensures this.lines == lines
      ensures cx == 0 && cy == 0 && mode == Normal
    {
      this.lines := lines;
      cx, cy := 0, 0;
      mode := Normal;
    }

    function State(): Cursor
      reads this
    {
      Cursor(cx, cy, mode)
    }

    /** `handle_normal_event`. */
    method HandleNormalEvent(code: Key) returns (outcome: Outcome)
      modifies this`cx, this`cy, this`mode
      ensures Step(State(), outcome) == NormalTransition(old(State()), code)
    {
      outcome := Continue;
      match code {
        case Char('q') =>
          outcome := Quit;
        case Up | Char('k') =>
          cy := SaturatingSub(cy, 1);
        case Down | Char('j') =>
          cy := SaturatingAdd(cy, 1);
        case Left | Char('h') =>
          cx := SaturatingSub(cx, 1);
        case Right | Char('l') =>
          cx := SaturatingAdd(cx, 1);
        case Char('i') =>
          mode := Insert;
        case _ =>
      }
    }

    /** `handle_insert_event`. */
    method HandleInsertEvent(code: Key) returns (outcome: Outcome)
      modifies this`cx, this`cy, this`mode
      ensures Step(State(), outcome) == InsertTransition(old(State()), code)
    {
      outcome := Continue;
      match code {
        case Char(_) =>
          var x := CheckedAdd(cx, 1);
          if x.None? {
            outcome := Fault;
          } else {
            cx := x.value;
          }
        case Enter =>
          cx := 0;
          var y := CheckedAdd(cy, 1);
          if y.None? {
            outcome := Fault;
          } else {
            cy := y.value;
          }
        case Backspace =>
          var x := CheckedSub(cx, 1);
          if x.None? {
            outcome := Fault;
          } else {
            cx := x.value;
          }
        case Esc =>
          mode := Normal;
        case _ =>
      }
    }

    /** `handle_keyboard_event`: dispatch on the current mode. */
    method HandleKeyboardEvent(code: Key) returns (outcome: Outcome)
      modifies this`cx, this`cy, this`mode
      ensures Step(State(), outcome) == Transition(old(State()), code)
    {
      match mode {
        case Normal =>
          outcome := HandleNormalEvent(code);
        case Insert =>
          outcome := HandleInsertEvent(code);
      }
    }

    /**
     * The text `draw_status_line` writes on a terminal `tColumn` cells wide:
     * `None` when the width computation underflows, which panics.
     */
    method DrawStatusLine(tColumn: U16) returns (fields: Option<StatusFields>)
      ensures fields.None? <==> tColumn < |FileLabel| + 8
      ensures fields.Some? ==> fields.value.mode == ModeLabel(mode)
      ensures fields.Some? ==> fields.value.position == PositionLabel(cx, cy)
      ensures fields.Some? ==>
        |fields.value.file| == if tColumn < 2 * |FileLabel| + 8 then |FileLabel| else tColumn - |FileLabel| - 8
      ensures fields.Some? ==> fields.value.file[..|FileLabel|] == FileLabel
      ensures fields.Some? ==>
        forall i :: |FileLabel| <= i < |fields.value.file| ==> fields.value.file[i] == ' '
      ensures fields.Some? ==> Width(fields.value) == |fields.value.file| + 8 + |PositionLabel(cx, cy)|
      ensures fields.Some? && tColumn >= 2 * |FileLabel| + 8 ==>
        (Width(fields.value) <= tColumn && (Width(fields.value) == tColumn <==> cx >= 10000 && cy >= 10000))
    {
      var file := FileLabel;
      var modeLabel := ModeLabel(mode);
      var fileWidth := FileFieldWidth(tColumn, |file|, |modeLabel|);
      if fileWidth.None? {
        return None;
      }
      var pos := PositionLabel(cx, cy);
      fields := Some(StatusFields(modeLabel, PadRight(file, fileWidth.value), pos));
      assert |pos| == 3 + |Decimal(cx)| + |Decimal(cy)|;
      assert Pow10(4) == 10000 && Pow10(5) == 100000;
      DecimalLength(cx, 4);
      DecimalLength(cy, 4);
      DecimalLength(cx, 5);
      DecimalLength(cy, 5);
    }
  }
}
