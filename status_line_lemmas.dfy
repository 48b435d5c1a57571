/**
 * Properties of the status line text: the position field can be read back,
 * so it always shows the cursor it was made from.
 */
module StatusLineLemmas {
  import opened Wrappers
  import opened U16Arith
  import opened Strings
  import opened Fmt
  import opened Editor

  /** Reads `" <column>:<row> "` back into the two numbers. */
  function ParsePosition(text: string): Option<(nat, nat)> {
    if |text| < 2 || text[0] != ' ' || text[|text| - 1] != ' ' then None
    else
      var body := text[1..|text| - 1];
      var i := IndexOf(body, ':');
      if i == |body| then None
      else if IsDecimal(body[..i]) && IsDecimal(body[i + 1..]) then
        Some((DecimalValue(body[..i]), DecimalValue(body[i + 1..])))
      else None
  }

  /** The position field reads back as the cursor it was written from. */
  lemma PositionLabelRoundTrip(cx: U16, cy: U16)
    ensures ParsePosition(PositionLabel(cx, cy)) == Some((cx as nat, cy as nat))
  {
    var dx, dy := Decimal(cx), Decimal(cy);
    var text := PositionLabel(cx, cy);
    var body := dx + ":" + dy;
    assert text == " " + body + " ";
    assert text[1..|text| - 1] == body;
    assert ':' !in dx by {
      forall j | 0 <= j < |dx| ensures dx[j] != ':' {
        assert IsDigit(dx[j]);
      }
    }
    IndexOfAfterPrefix(dx, ':', dy);
    assert body[..|dx|] == dx;
    assert body[|dx| + 1..] == dy;
    DecimalRoundTrip(cx);
    DecimalRoundTrip(cy);
  }

  /** Different cursors give different position fields. */
  lemma PositionLabelInjective(cx: U16, cy: U16, cx': U16, cy': U16)
    requires PositionLabel(cx, cy) == PositionLabel(cx', cy')
    ensures cx == cx' && cy == cy'
  {
    PositionLabelRoundTrip(cx, cy);
    PositionLabelRoundTrip(cx', cy');
  }
}
