/**
 * Properties of the modal cursor state machine: what each key does in each
 * mode, where the arithmetic saturates or panics, and what sequences of
 * keys add up to.
 */
module EditorLemmas {
  import opened U16Arith
  import opened Editor

  /** `n` presses of the key `k`. */
  function Repeat(k: Key, n: nat): (keys: seq<Key>)
    ensures |keys| == n
  {
    seq(n, _ => k)
  }

  /** The characters of `w`, typed one after the other. */
  function Typed(w: string): (keys: seq<Key>)
    ensures |keys| == |w|
  {
    seq(|w|, i requires 0 <= i < |w| => Char(w[i]))
  }

  // One key at a time

  /**
   * The mode changes on `i` in Normal mode and on Esc in Insert mode, and
   * on no other key in either mode.
   */
  lemma ModeChangesOnlyOnSwitchKeys(s: Cursor, k: Key)
    ensures Transition(s, k).next.mode != s.mode <==>
      (s.mode == Normal && k == Char('i')) || (s.mode == Insert && k == Esc)
  {
  }

  /** Neither mode switch moves the cursor. */
  lemma SwitchKeysKeepPosition(s: Cursor, k: Key)
    requires (s.mode == Normal && k == Char('i')) || (s.mode == Insert && k == Esc)
    ensures Transition(s, k).outcome == Continue
    ensures Transition(s, k).next.cx == s.cx && Transition(s, k).next.cy == s.cy
  {
  }

  /** `q` quits in Normal mode, and nothing else quits, in either mode. */
  lemma QuitOnlyInNormal(s: Cursor, k: Key)
    ensures Transition(s, k).outcome == Quit <==> s.mode == Normal && k == Char('q')
  {
  }

  /** In Insert mode `q` is a character like any other: it advances the column. */
  lemma InsertQIsCharacter(s: Cursor)
    requires s.mode == Insert && s.cx < U16Max
    ensures Transition(s, Char('q')) == Step(s.(cx := s.cx + 1), Continue)
  {
  }

  /**
   * A key panics exactly when it is an Insert-mode edit that overflows a
   * `u16`: a character at column 65535, Enter on row 65535, or Backspace at
   * column 0. Normal mode never panics.
   */
  lemma FaultsExactlyOnUncheckedEdges(s: Cursor, k: Key)
    ensures Transition(s, k).outcome == Fault <==>
      s.mode == Insert &&
      ((k.Char? && s.cx == U16Max) || (k == Enter && s.cy == U16Max) || (k == Backspace && s.cx == 0))
  {
  }

  /**
   * The four Normal-mode moves: each changes one coordinate by one in its
   * direction, or leaves it at 0 or 65535 when it is already there, and
   * leaves the other coordinate and the mode alone.
   */
  lemma NormalMoves(s: Cursor, k: Key)
    requires s.mode == Normal
    ensures IsUpKey(k) ==>
      Transition(s, k) == Step(s.(cy := if s.cy == 0 then 0 else s.cy - 1), Continue)
    ensures IsDownKey(k) ==>
      Transition(s, k) == Step(s.(cy := if s.cy == U16Max then U16Max else s.cy + 1), Continue)
    ensures IsLeftKey(k) ==>
      Transition(s, k) == Step(s.(cx := if s.cx == 0 then 0 else s.cx - 1), Continue)
    ensures IsRightKey(k) ==>
      Transition(s, k) == Step(s.(cx := if s.cx == U16Max then U16Max else s.cx + 1), Continue)
  {
  }

  /** Left at the top-left corner stays there. */
  lemma LeftAtOrigin()
    ensures Transition(Cursor(0, 0, Normal), Left) == Step(Cursor(0, 0, Normal), Continue)
  {
  }

  /**
   * The Insert-mode edits when they do not overflow: a character advances
   * the column, Enter goes to column 0 of the next row, Backspace moves the
   * column back; the mode stays.
   */
  lemma InsertEdits(s: Cursor, k: Key)
    requires s.mode == Insert
    ensures k.Char? && s.cx < U16Max ==> Transition(s, k) == Step(s.(cx := s.cx + 1), Continue)
    ensures k == Enter && s.cy < U16Max ==> Transition(s, k) == Step(s.(cx := 0, cy := s.cy + 1), Continue)
    ensures k == Backspace && 0 < s.cx ==> Transition(s, k) == Step(s.(cx := s.cx - 1), Continue)
  {
  }

  /** Keys with no entry in the current mode's table change nothing. */
  lemma UnlistedKeysChangeNothing(s: Cursor, k: Key)
    requires s.mode == Normal ==>
      !(k.Char? && k.c in {'q', 'k', 'j', 'h', 'l', 'i'}) && k !in {Up, Down, Left, Right}
    requires s.mode == Insert ==> !k.Char? && k !in {Enter, Backspace, Esc}
    ensures Transition(s, k) == Step(s, Continue)
  {
  }

  // Sequences of keys

  /** Running `a + b` runs `a`, then `b` from where `a` left off, unless `a` stopped early. */
  lemma {:induction false} RunConcat(s: Cursor, a: seq<Key>, b: seq<Key>)
    ensures Run(s, a + b) ==
      var t := Run(s, a);
      if t.outcome == Continue then Run(t.next, b) else t
    decreases |a|
  {
    if a != [] {
      assert (a + b)[0] == a[0];
      assert (a + b)[1..] == a[1..] + b;
      var t := Transition(s, a[0]);
      if t.outcome == Continue {
        RunConcat(t.next, a[1..], b);
      }
    } else {
      assert a + b == b;
    }
  }

  /** `i` then Esc is back where it started: Normal mode, same position. */
  lemma InsertThenEscape(s: Cursor)
    requires s.mode == Normal
    ensures Run(s, [Char('i'), Esc]) == Step(s, Continue)
  {
    RunTwo(s, Char('i'), Esc);
  }

  /** Two keys in a row: the second is handled only if the first lets the editor continue. */
  lemma RunTwo(s: Cursor, a: Key, b: Key)
    ensures Run(s, [a, b]) ==
      var t := Transition(s, a);
      if t.outcome == Continue then Transition(t.next, b) else t
  {
    assert [a, b][1..] == [b];
    assert [b][1..] == [];
    var t := Transition(s, a);
    if t.outcome == Continue {
      var u := Transition(t.next, b);
      assert Run(t.next, [b]) == if u.outcome == Continue then Run(u.next, []) else u;
      assert u.outcome == Continue ==> u == Step(u.next, Continue);
    }
  }

  /** Away from the edges, opposite moves undo each other. */
  lemma OppositeMovesCancel(s: Cursor)
    requires s.mode == Normal
    ensures s.cx < U16Max ==> Run(s, [Right, Left]) == Step(s, Continue)
    ensures 0 < s.cx ==> Run(s, [Left, Right]) == Step(s, Continue)
    ensures s.cy < U16Max ==> Run(s, [Down, Up]) == Step(s, Continue)
    ensures 0 < s.cy ==> Run(s, [Up, Down]) == Step(s, Continue)
  {
    RunTwo(s, Right, Left);
    RunTwo(s, Left, Right);
    RunTwo(s, Down, Up);
    RunTwo(s, Up, Down);
  }

  /** In Insert mode, Backspace undoes a character that did not overflow. */
  lemma BackspaceUndoesCharacter(s: Cursor, c: char)
    requires s.mode == Insert && s.cx < U16Max
    ensures Run(s, [Char(c), Backspace]) == Step(s, Continue)
  {
    RunTwo(s, Char(c), Backspace);
    var typed := s.(cx := s.cx + 1);
    assert Transition(s, Char(c)) == Step(typed, Continue);
  }

  /** `n` presses of Left move `n` columns left, stopping at column 0. */
  lemma {:induction false} RepeatedLeft(s: Cursor, n: nat)
    requires s.mode == Normal
    ensures Run(s, Repeat(Left, n)) == Step(s.(cx := if n <= s.cx then s.cx - n else 0), Continue)
    decreases n
  {
    if n > 0 {
      assert Repeat(Left, n)[1..] == Repeat(Left, n - 1);
      RepeatedLeft(Transition(s, Left).next, n - 1);
    }
  }

  /** `n` presses of Right move `n` columns right, stopping at column 65535. */
  lemma {:induction false} RepeatedRight(s: Cursor, n: nat)
    requires s.mode == Normal
    ensures Run(s, Repeat(Right, n)) == Step(s.(cx := if s.cx + n <= U16Max then s.cx + n else U16Max), Continue)
    decreases n
  {
    if n > 0 {
      assert Repeat(Right, n)[1..] == Repeat(Right, n - 1);
      RepeatedRight(Transition(s, Right).next, n - 1);
    }
  }

  /** `n` presses of Up move `n` rows up, stopping at row 0. */
  lemma {:induction false} RepeatedUp(s: Cursor, n: nat)
    requires s.mode == Normal
    ensures Run(s, Repeat(Up, n)) == Step(s.(cy := if n <= s.cy then s.cy - n else 0), Continue)
    decreases n
  {
    if n > 0 {
      assert Repeat(Up, n)[1..] == Repeat(Up, n - 1);
      RepeatedUp(Transition(s, Up).next, n - 1);
    }
  }

  /** `n` presses of Down move `n` rows down, stopping at row 65535. */
  lemma {:induction false} RepeatedDown(s: Cursor, n: nat)
    requires s.mode == Normal
    ensures Run(s, Repeat(Down, n)) == Step(s.(cy := if s.cy + n <= U16Max then s.cy + n else U16Max), Continue)
    decreases n
  {
    if n > 0 {
      assert Repeat(Down, n)[1..] == Repeat(Down, n - 1);
      RepeatedDown(Transition(s, Down).next, n - 1);
    }
  }

  /**
   * Typing a word in Insert mode advances the column by its length; if that
   * would pass column 65535 the character typed there panics.
   */
  lemma {:induction false} TypingAdvancesColumn(s: Cursor, w: string)
    requires s.mode == Insert
    ensures Run(s, Typed(w)) ==
      if s.cx + |w| <= U16Max then Step(s.(cx := s.cx + |w|), Continue)
      else Step(s.(cx := U16Max), Fault)
    decreases |w|
  {
    if w != [] {
      assert Typed(w)[0] == Char(w[0]);
      assert Typed(w)[1..] == Typed(w[1..]);
      if s.cx < U16Max {
        TypingAdvancesColumn(Transition(s, Char(w[0])).next, w[1..]);
      }
    }
  }

  /**
   * `n` presses of Backspace in Insert mode move `n` columns left; one
   * pressed at column 0 panics.
   */
  lemma {:induction false} RepeatedBackspace(s: Cursor, n: nat)
    requires s.mode == Insert
    ensures Run(s, Repeat(Backspace, n)) ==
      if n <= s.cx then Step(s.(cx := s.cx - n), Continue)
      else Step(s.(cx := 0), Fault)
    decreases n
  {
    if n > 0 {
      assert Repeat(Backspace, n)[1..] == Repeat(Backspace, n - 1);
      if s.cx > 0 {
        RepeatedBackspace(Transition(s, Backspace).next, n - 1);
      }
    }
  }

  /** Without `i`, Normal mode is never left and no key panics. */
  lemma {:induction false} NormalModeNeverFaults(s: Cursor, keys: seq<Key>)
    requires s.mode == Normal && Char('i') !in keys
    ensures Run(s, keys).outcome != Fault
    ensures Run(s, keys).next.mode == Normal
    decreases |keys|
  {
    if keys != [] {
      var t := Transition(s, keys[0]);
      if t.outcome == Continue {
        assert keys[0] in keys;
        assert forall k :: k in keys[1..] ==> k in keys;
        NormalModeNeverFaults(t.next, keys[1..]);
      }
    }
  }
}
