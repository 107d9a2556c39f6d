/** The log panel: `LogWidget`'s two `render` methods, the `Rect` they draw
    into, `edge_inset`, and the part of `draw` that renders the log panel.
    The terminal buffer is abstracted to the list of `set_string` calls a
    render makes. */
module LogView {
  import opened RustPrims
  import opened LogState

  /** `tui::layout::Rect`: a region of the terminal, in cells. */
  datatype Rect = Rect(x: U16, y: U16, width: U16, height: U16) {
    function Left(): U16 { x }
    function Top(): U16 { y }
  }

  /** One `buf.set_string(col, row, text, style)` call; the style is always
      the default one. */
  datatype Write = SetString(col: U16, row: U16, text: string)

  function Min(a: int, b: int): int {
    if a <= b then a else b
  }

  /** `edge_inset(area, margin)`: moves the top-left corner in by `margin`
      and shrinks the width and height by `margin` once, so the right and
      bottom edges stay where they were. The `+=` and `-=` are `u16`
      arithmetic, which must neither overflow nor underflow. */
  function EdgeInset(area: Rect, margin: U16): (r: Rect)
    requires area.x + margin <= U16_MAX && area.y + margin <= U16_MAX
    requires margin <= area.width && margin <= area.height
    ensures r.x == area.x + margin && r.y == area.y + margin
    ensures r.x + r.width == area.x + area.width
    ensures r.y + r.height == area.y + area.height
  {
    area.(x := area.x + margin, y := area.y + margin,
          height := area.height - margin, width := area.width - margin)
  }

  /** Insetting twice is insetting once by the sum of the margins. */
  lemma EdgeInsetTwice(area: Rect, m1: U16, m2: U16)
    requires area.x + m1 + m2 <= U16_MAX && area.y + m1 + m2 <= U16_MAX
    requires m1 + m2 <= area.width && m1 + m2 <= area.height
    ensures EdgeInset(EdgeInset(area, m1), m2) == EdgeInset(area, m1 + m2)
  {
  }

  function Reverse<T>(s: seq<T>): seq<T>
    decreases |s|
  {
    if s == [] then [] else Reverse(s[1..]) + [s[0]]
  }

  lemma {:induction false} ReverseAt<T>(s: seq<T>, k: nat)
    requires k < |s|
    ensures |Reverse(s)| == |s| && Reverse(s)[k] == s[|s| - 1 - k]
    decreases |s|
  {
    if |s| > 1 {
      ReverseAt(s[1..], if k < |s| - 1 then k else 0);
    }
  }

  /** `iter().take(n)`: the first `n` elements, or all of them. */
  function Take<T>(s: seq<T>, n: nat): seq<T> {
    s[..Min(n, |s|)]
  }

  /** `history.iter().rev().take(n).rev()`: the lines the log panel shows. */
  function Visible(history: seq<string>, n: nat): seq<string> {
    Reverse(Take(Reverse(history), n))
  }

  /** The reversed iterator chain selects the last `min(n, |history|)` lines,
      in their original order. */
  lemma VisibleIsSuffix(history: seq<string>, n: nat)
    ensures |Visible(history, n)| == Min(n, |history|)
    ensures Visible(history, n) == history[|history| - Min(n, |history|)..]
  {
    var m := Min(n, |history|);
    var t := Take(Reverse(history), n);
    if history == [] {
      assert Reverse(history) == [];
    } else {
      ReverseAt(history, 0);
      assert |t| == m;
      if m > 0 {
        ReverseAt(t, 0);
      }
      forall y | 0 <= y < m
        ensures Visible(history, n)[y] == history[|history| - m + y]
      {
        ReverseAt(t, y);
        ReverseAt(history, m - 1 - y);
      }
    }
  }

  /** Five lines shown in a panel of height 4 (three usable rows): the
      three newest, oldest first. */
  lemma VisibleFiveInFour()
    ensures Visible(["a", "b", "c", "d", "e"], 4 - 1) == ["c", "d", "e"]
  {
    VisibleIsSuffix(["a", "b", "c", "d", "e"], 3);
  }

  /** `StatefulWidget::render`: writes the last `min(height - 1, |history|)`
      lines, oldest first, the `y`-th of them at row `top + y`, column
      `left`. `area.height - 1` and `area.top() + y` are `u16` arithmetic:
      the height must be at least 1 and the last row must fit in a `u16`.
      The history is only read. */
  method Render(area: Rect, state: LogWidgetState) returns (writes: seq<Write>)
    requires area.height >= 1
    requires area.y + Min(area.height - 1, |state.history|) <= U16_MAX + 1
    ensures |writes| == Min(area.height - 1, |state.history|)
    ensures forall y :: 0 <= y < |writes| ==>
      writes[y] == SetString(area.x, area.y + y, state.history[|state.history| - |writes| + y])
  {
    var maxLines := area.height - 1;
    var historyToShow := Visible(state.history, maxLines);
    VisibleIsSuffix(state.history, maxLines);
    writes := [];
    for y := 0 to |historyToShow|
      invariant |writes| == y
      invariant forall j :: 0 <= j < y ==> writes[j] == SetString(area.Left(), area.Top() + j, historyToShow[j])
    {
      writes := writes + [SetString(area.Left(), area.Top() + y, historyToShow[y])];
    }
  }

  /** `Widget::render`: renders with a fresh default (empty) state, so it
      writes nothing. */
  method RenderDefault(area: Rect) returns (writes: seq<Write>)
    requires area.height >= 1
    ensures writes == []
  {
    var state := new LogWidgetState();
    writes := Render(area, state);
  }

  /** The log panel of `draw`: the log widget renders into the lower chunk
      inset by 1, so it shows the last `min(height - 2, |history|)` lines
      starting one cell in from the chunk's top-left corner. */
  method DrawLogPanel(chunk: Rect, state: LogWidgetState) returns (writes: seq<Write>)
    requires chunk.x < U16_MAX && chunk.y < U16_MAX
    requires chunk.width >= 1 && chunk.height >= 2
    requires chunk.y + 1 + Min(chunk.height - 2, |state.history|) <= U16_MAX + 1
    ensures |writes| == Min(chunk.height - 2, |state.history|)
    ensures forall y :: 0 <= y < |writes| ==>
      writes[y] == SetString(chunk.x + 1, chunk.y + 1 + y, state.history[|state.history| - |writes| + y])
  {
    var insetArea := EdgeInset(chunk, 1);
    writes := Render(insetArea, state);
  }
}
