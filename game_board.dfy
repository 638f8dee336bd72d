/**
 * The client-side token board: tokens on an 800 x 600 canvas with an
 * optional square grid, drawn scaled and centred inside its container.
 * Tokens can be added, deleted, renamed, recoloured, switched between free
 * and grid-snapped placement, and dragged with the mouse.
 *
 * JavaScript numbers are modelled as exact reals (coordinates, sizes,
 * scale) or integers (ids, grid size), so there is no rounding and no NaN.
 * React state updates and the callbacks deferred with `setTimeout` or
 * `requestAnimationFrame` take effect at once, and the refs the callbacks
 * read always hold the current state.
 */
module GameBoard {
  import opened Wrappers
  import opened Sequences

  datatype Token = Token(
    id: int,
    x: real,
    y: real,
    color: string,
    name: string,
    size: real,
    snapToGrid: bool)

  datatype Position = Position(x: real, y: real)

  datatype BoardSize = BoardSize(width: real, height: real)

  /** The token being dragged and where inside it the pointer grabbed it. */
  datatype DragState = DragState(tokenId: int, offsetX: real, offsetY: real)

  // ---------------------------------------------------------------------------
  // Grid snapping
  // ---------------------------------------------------------------------------

  // Multiplying by and cancelling a positive factor keeps the order. Each fact
  // is kept in its own lemma so that the solver meets one product at a time.

  lemma ScaleLe(a: real, b: real, c: real)
    requires 0.0 < c && a <= b
    ensures a * c <= b * c
  {
    assert b * c - a * c == (b - a) * c;
  }

  lemma ScaleLt(a: real, b: real, c: real)
    requires 0.0 < c && a < b
    ensures a * c < b * c
  {
    assert b * c - a * c == (b - a) * c;
  }

  lemma CancelLe(a: real, b: real, c: real)
    requires 0.0 < c && a * c <= b * c
    ensures a <= b
  {
    assert b * c - a * c == (b - a) * c;
  }

  lemma CancelLt(a: real, b: real, c: real)
    requires 0.0 < c && a * c < b * c
    ensures a < b
  {
    assert b * c - a * c == (b - a) * c;
  }

  /** A point `q` cells along is no further left than the start of cell `k <= q`. */
  lemma CellLower(k: real, q: real, v: real, g: real)
    requires 0.0 < g && q * g == v && k <= q
    ensures k * g <= v
  {
    ScaleLe(k, q, g);
  }

  /** A point `q < k + 1` cells along lies before the end of cell `k`. */
  lemma CellUpper(k: real, q: real, v: real, g: real)
    requires 0.0 < g && q * g == v && q < k + 1.0
    ensures v < k * g + g
  {
    ScaleLt(q, k + 1.0, g);
    assert (k + 1.0) * g == k * g + g;
  }

  lemma QuotientLower(k: real, q: real, v: real, g: real)
    requires 0.0 < g && q * g == v && k * g <= v
    ensures k <= q
  {
    CancelLe(k, q, g);
  }

  lemma QuotientUpper(k: real, q: real, v: real, g: real)
    requires 0.0 < g && q * g == v && v < k * g + g
    ensures q < k + 1.0
  {
    assert (k + 1.0) * g == k * g + g;
    CancelLt(q, k + 1.0, g);
  }

  /** The index of the grid cell, along one axis, that holds `v`: `Math.floor(v / g)`. */
  function Cell(v: real, g: int): (k: int)
    requires g > 0
    ensures k as real * g as real <= v < k as real * g as real + g as real
  {
    var q := v / g as real;
    assert q * g as real == v;
    var k := q.Floor;
    CellLower(k as real, q, v, g as real);
    CellUpper(k as real, q, v, g as real);
    k
  }

  /** Any cell whose span holds `v` is the cell `Cell` computes: cells do not overlap. */
  lemma CellUnique(v: real, g: int, k: int)
    requires g > 0
    requires k as real * g as real <= v < k as real * g as real + g as real
    ensures Cell(v, g) == k
  {
    var q := v / g as real;
    assert q * g as real == v;
    QuotientLower(k as real, q, v, g as real);
    QuotientUpper(k as real, q, v, g as real);
  }

  /** One coordinate of `snapToGridPosition` with snapping on: `Math.floor(v / g) * g + g / 2`. */
  function SnapCoord(v: real, g: int): (r: real)
    requires g > 0
    ensures Cell(r, g) == Cell(v, g)
    ensures v - g as real / 2.0 < r <= v + g as real / 2.0
  {
    var k := Cell(v, g);
    var r := k as real * g as real + g as real / 2.0;
    CellUnique(r, g, k);
    r
  }

  /** The snapped coordinate is the centre of the cell that holds `v`, whichever way that cell is found. */
  lemma SnapIsCellCentre(v: real, g: int, k: int)
    requires g > 0
    requires k as real * g as real <= v < k as real * g as real + g as real
    ensures SnapCoord(v, g) == k as real * g as real + g as real / 2.0
  {
    CellUnique(v, g, k);
  }

  /** Snapping a snapped coordinate leaves it where it is. */
  lemma SnapCoordIdempotent(v: real, g: int)
    requires g > 0
    ensures SnapCoord(SnapCoord(v, g), g) == SnapCoord(v, g)
  {
    var r := SnapCoord(v, g);
    var k := Cell(v, g);
    SnapIsCellCentre(r, g, k);
  }

  /**
   * The drag clamps the pointer to the board before it snaps, but a snapped
   * point can still lie half a cell beyond the edge: on the 800-wide board
   * with a 40-pixel grid, the right edge snaps to 820.
   */
  lemma SnapCanLeaveBoard()
    ensures SnapCoord(800.0, 40) == 820.0
  {
    SnapIsCellCentre(800.0, 40, 20);
  }

  /** `snapToGridPosition(x, y, shouldSnap)` with grid size `g`. */
  function SnapToGridPosition(x: real, y: real, shouldSnap: bool, g: int): (r: Position)
    requires g > 0
    ensures !shouldSnap ==> r == Position(x, y)
    ensures shouldSnap ==> Cell(r.x, g) == Cell(x, g) && Cell(r.y, g) == Cell(y, g)
  {
    if !shouldSnap then Position(x, y)
    else Position(SnapCoord(x, g), SnapCoord(y, g))
  }

  /** Snapping a position twice is snapping it once. */
  lemma SnapToGridPositionIdempotent(x: real, y: real, shouldSnap: bool, g: int)
    requires g > 0
    ensures var p := SnapToGridPosition(x, y, shouldSnap, g);
            SnapToGridPosition(p.x, p.y, shouldSnap, g) == p
  {
    SnapCoordIdempotent(x, g);
    SnapCoordIdempotent(y, g);
  }

  /** A token sits at the centre of a grid cell. */
  predicate Centred(t: Token, g: int)
    requires g > 0
  {
    SnapCoord(t.x, g) == t.x && SnapCoord(t.y, g) == t.y
  }

  /** The `prev.map` body of `repositionTokensToGrid`: snap the token if it snaps to the grid. */
  function SnapToken(t: Token, g: int): (r: Token)
    requires g > 0
    ensures r.(x := t.x, y := t.y) == t
    ensures t.snapToGrid ==> Centred(r, g) && Cell(r.x, g) == Cell(t.x, g) && Cell(r.y, g) == Cell(t.y, g)
    ensures !t.snapToGrid ==> r == t
  {
    if t.snapToGrid then
      var p := SnapToGridPosition(t.x, t.y, true, g);
      SnapCoordIdempotent(t.x, g);
      SnapCoordIdempotent(t.y, g);
      t.(x := p.x, y := p.y)
    else t
  }

  /** `repositionTokensToGrid`: every snapping token moves to the centre of its cell. */
  function Reposition(tokens: seq<Token>, g: int): (r: seq<Token>)
    requires g > 0
    ensures |r| == |tokens|
    ensures forall i :: 0 <= i < |r| ==> r[i].(x := tokens[i].x, y := tokens[i].y) == tokens[i]
    ensures forall i :: 0 <= i < |r| ==> if tokens[i].snapToGrid then Centred(r[i], g) else r[i] == tokens[i]
  {
    seq(|tokens|, i requires 0 <= i < |tokens| => SnapToken(tokens[i], g))
  }

  /** Repositioning twice with the same grid is repositioning once. */
  lemma RepositionIdempotent(tokens: seq<Token>, g: int)
    requires g > 0
    ensures Reposition(Reposition(tokens, g), g) == Reposition(tokens, g)
  {
    var r := Reposition(tokens, g);
    var rr := Reposition(r, g);
    forall i | 0 <= i < |r|
      ensures rr[i] == r[i]
    {
      assert rr[i] == SnapToken(r[i], g);
    }
  }

  // ---------------------------------------------------------------------------
  // Hit testing
  // ---------------------------------------------------------------------------

  /**
   * The test in `getTokenAtPosition`: the distance from the token's centre to
   * (x, y) is at most its size. `sqrt(d) <= size` holds exactly when the size
   * is not negative and `d <= size * size`, which is how it is stated here.
   */
  predicate Hits(t: Token, x: real, y: real) {
    0.0 <= t.size && (x - t.x) * (x - t.x) + (y - t.y) * (y - t.y) <= t.size * t.size
  }

  /** Token `i` is under (x, y) and no token after it in the list, drawn above it, is. */
  predicate TopmostAt(tokens: seq<Token>, i: int, x: real, y: real) {
    0 <= i < |tokens| && Hits(tokens[i], x, y) && forall j :: i < j < |tokens| ==> !Hits(tokens[j], x, y)
  }

  /**
   * The index of the token under (x, y) that is drawn on top: the last one in
   * list order, or none when no token is under the point.
   */
  function Topmost(tokens: seq<Token>, x: real, y: real): (r: Option<nat>)
    ensures r.None? <==> forall i :: 0 <= i < |tokens| ==> !Hits(tokens[i], x, y)
    ensures r.Some? ==> TopmostAt(tokens, r.value, x, y)
  {
    if tokens == [] then Option.None
    else if Hits(tokens[|tokens| - 1], x, y) then Some(|tokens| - 1)
    else Topmost(tokens[..|tokens| - 1], x, y)
  }

  /** Only one token can be the topmost under a point. */
  lemma TopmostUnique(tokens: seq<Token>, i: int, x: real, y: real)
    requires TopmostAt(tokens, i, x, y)
    ensures Topmost(tokens, x, y) == Some(i)
  {
    var t := Topmost(tokens, x, y);
    assert t.Some? && TopmostAt(tokens, t.value, x, y);
  }

  /** Squaring keeps the strict order of non-negative reals. */
  lemma SquareLt(a: real, b: real)
    requires 0.0 <= a < b
    ensures a * a < b * b
  {
    ScaleLt(0.0, b - a, b + a);
    assert b * b - a * a == (b - a) * (b + a);
  }

  /**
   * `Hits` is the test `Math.sqrt(dx * dx + dy * dy) <= token.size` without
   * the square root: for the distance `dist` to the centre, the token is hit
   * exactly when `dist` is at most its size.
   */
  lemma HitsIsDistance(t: Token, x: real, y: real, dist: real)
    requires 0.0 <= dist && dist * dist == (x - t.x) * (x - t.x) + (y - t.y) * (y - t.y)
    ensures Hits(t, x, y) <==> dist <= t.size
  {
    if 0.0 <= t.size {
      if dist < t.size {
        SquareLt(dist, t.size);
      } else if t.size < dist {
        SquareLt(t.size, dist);
      }
    }
  }

  /** The token's own centre is on it whenever its size is not negative. */
  lemma CentreHits(t: Token)
    requires 0.0 <= t.size
    ensures Hits(t, t.x, t.y)
  {
  }

  // ---------------------------------------------------------------------------
  // Token list updaters
  // ---------------------------------------------------------------------------

  predicate HasId(id: int, t: Token) {
    t.id == id
  }

  predicate LacksId(id: int, t: Token) {
    t.id != id
  }

  /** The ids on the board, in list order. */
  function Ids(tokens: seq<Token>): (r: seq<int>)
    ensures |r| == |tokens| && forall i :: 0 <= i < |r| ==> r[i] == tokens[i].id
  {
    seq(|tokens|, i requires 0 <= i < |tokens| => tokens[i].id)
  }

  /** The drag's `setTokens` updater: every token with the dragged id moves to `p`. */
  function MoveToken(tokens: seq<Token>, id: int, p: Position): (r: seq<Token>)
    ensures |r| == |tokens|
    ensures forall i :: 0 <= i < |r| ==> r[i].(x := tokens[i].x, y := tokens[i].y) == tokens[i]
    ensures forall i :: 0 <= i < |r| ==> if tokens[i].id == id then r[i].x == p.x && r[i].y == p.y else r[i] == tokens[i]
  {
    seq(|tokens|, i requires 0 <= i < |tokens| => if tokens[i].id == id then tokens[i].(x := p.x, y := p.y) else tokens[i])
  }

  /** Moving to the same point twice is moving there once; the ids stay as they were. */
  lemma MoveTokenLaws(tokens: seq<Token>, id: int, p: Position)
    ensures MoveToken(MoveToken(tokens, id, p), id, p) == MoveToken(tokens, id, p)
    ensures Ids(MoveToken(tokens, id, p)) == Ids(tokens)
  {
  }

  /** `deleteToken`, and the context menu's delete: keep the tokens without the id, in order. */
  function WithoutToken(tokens: seq<Token>, id: int): (r: seq<Token>)
    ensures forall t :: t in r <==> t in tokens && t.id != id
  {
    Filter(tokens, t => LacksId(id, t))
  }

  /** Deleting keeps the order of the survivors, and deleting an absent id changes nothing. */
  lemma WithoutTokenLaws(s: seq<Token>, t: seq<Token>, id: int)
    ensures WithoutToken(s + t, id) == WithoutToken(s, id) + WithoutToken(t, id)
    ensures (forall i :: 0 <= i < |s| ==> s[i].id != id) ==> WithoutToken(s, id) == s
    ensures WithoutToken(WithoutToken(s, id), id) == WithoutToken(s, id)
  {
    FilterConcat(s, t, u => LacksId(id, u));
    if forall i :: 0 <= i < |s| ==> s[i].id != id {
      FilterKeepsAll(s, u => LacksId(id, u));
    }
    FilterIdempotent(s, u => LacksId(id, u));
  }

  /** The toggle-snap menu item's first updater: flip the flag of the tokens with the id. */
  function ToggleSnap(tokens: seq<Token>, id: int): (r: seq<Token>)
    ensures |r| == |tokens|
    ensures forall i :: 0 <= i < |r| ==> r[i].(snapToGrid := tokens[i].snapToGrid) == tokens[i]
    ensures forall i :: 0 <= i < |r| ==> r[i].snapToGrid == (tokens[i].snapToGrid != (tokens[i].id == id))
  {
    seq(|tokens|, i requires 0 <= i < |tokens| =>
      if tokens[i].id == id then tokens[i].(snapToGrid := !tokens[i].snapToGrid) else tokens[i])
  }

  /** Toggling twice restores the list. */
  lemma ToggleSnapInvolutive(tokens: seq<Token>, id: int)
    ensures ToggleSnap(ToggleSnap(tokens, id), id) == tokens
  {
    var r := ToggleSnap(ToggleSnap(tokens, id), id);
    assert forall i :: 0 <= i < |r| ==> r[i] == tokens[i];
  }

  /** The toggle-snap menu item's deferred updater: snap the tokens with the id that now snap. */
  function SnapTokenWithId(tokens: seq<Token>, id: int, g: int): (r: seq<Token>)
    requires g > 0
    ensures |r| == |tokens|
    ensures forall i :: 0 <= i < |r| ==> r[i].(x := tokens[i].x, y := tokens[i].y) == tokens[i]
    ensures forall i :: 0 <= i < |r| ==> if tokens[i].id == id && tokens[i].snapToGrid then Centred(r[i], g) else r[i] == tokens[i]
  {
    seq(|tokens|, i requires 0 <= i < |tokens| => if tokens[i].id == id then SnapToken(tokens[i], g) else tokens[i])
  }

  /**
   * The whole toggle: the target's flag flips, it is centred in its cell if it
   * now snaps and stays put if it does not, and every other token is unchanged.
   */
  lemma ToggleThenSnap(tokens: seq<Token>, id: int, g: int)
    requires g > 0
    ensures var r := SnapTokenWithId(ToggleSnap(tokens, id), id, g);
            |r| == |tokens| &&
            forall i :: 0 <= i < |r| ==>
              if tokens[i].id == id then
                r[i].snapToGrid == !tokens[i].snapToGrid &&
                r[i].(x := tokens[i].x, y := tokens[i].y, snapToGrid := tokens[i].snapToGrid) == tokens[i] &&
                (r[i].snapToGrid ==> Centred(r[i], g)) &&
                (!r[i].snapToGrid ==> r[i].x == tokens[i].x && r[i].y == tokens[i].y)
              else r[i] == tokens[i]
  {
  }

  /** The rename menu item's updater: the tokens with the id take the new name. */
  function RenameToken(tokens: seq<Token>, id: int, name: string): (r: seq<Token>)
    ensures |r| == |tokens|
    ensures forall i :: 0 <= i < |r| ==> r[i].(name := tokens[i].name) == tokens[i]
    ensures forall i :: 0 <= i < |r| ==> r[i].name == if tokens[i].id == id then name else tokens[i].name
  {
    seq(|tokens|, i requires 0 <= i < |tokens| => if tokens[i].id == id then tokens[i].(name := name) else tokens[i])
  }

  /** The change-colour menu item's updater: the tokens with the id take the new colour. */
  function RecolorToken(tokens: seq<Token>, id: int, color: string): (r: seq<Token>)
    ensures |r| == |tokens|
    ensures forall i :: 0 <= i < |r| ==> r[i].(color := tokens[i].color) == tokens[i]
    ensures forall i :: 0 <= i < |r| ==> r[i].color == if tokens[i].id == id then color else tokens[i].color
  {
    seq(|tokens|, i requires 0 <= i < |tokens| => if tokens[i].id == id then tokens[i].(color := color) else tokens[i])
  }

  /** The colours the change-colour menu item picks from. */
  const Palette: seq<string> :=
    ["#ff6b6b", "#4ecdc4", "#45b7d1", "#96ceb4", "#feca57", "#ff9ff3", "#54a0ff", "#5f27cd"]

  // ---------------------------------------------------------------------------
  // Names
  // ---------------------------------------------------------------------------

  /** The characters `String.prototype.trim` removes: white space and line terminators. */
  predicate IsJsWhitespace(c: char) {
    c == '\t' || c == '\n' || c == '\U{000B}' || c == '\U{000C}' || c == '\r' || c == ' ' ||
    c == '\U{00A0}' || c == '\U{1680}' || ('\U{2000}' <= c <= '\U{200A}') ||
    c == '\U{2028}' || c == '\U{2029}' || c == '\U{202F}' || c == '\U{205F}' || c == '\U{3000}' || c == '\U{FEFF}'
  }

  /**
   * `String.prototype.trim`: the slice of `s` left after the white space at
   * both ends, which neither starts nor ends with white space, and is empty
   * exactly when `s` is blank.
   */
  function Trim(s: string): (r: string)
    ensures Leading(s, IsJsWhitespace) + |r| <= |s|
    ensures r == s[Leading(s, IsJsWhitespace)..Leading(s, IsJsWhitespace) + |r|]
    ensures forall j :: 0 <= j < Leading(s, IsJsWhitespace) ==> IsJsWhitespace(s[j])
    ensures forall j :: Leading(s, IsJsWhitespace) + |r| <= j < |s| ==> IsJsWhitespace(s[j])
    ensures r == [] || (!IsJsWhitespace(r[0]) && !IsJsWhitespace(r[|r| - 1]))
    ensures r == [] <==> forall j :: 0 <= j < |s| ==> IsJsWhitespace(s[j])
  {
    Strip(s, IsJsWhitespace)
  }

  /** Trimming a trimmed name changes nothing. */
  lemma TrimIdempotent(s: string)
    ensures Trim(Trim(s)) == Trim(s)
  {
    StripIdempotent(s, IsJsWhitespace);
  }

  /** The name a rename applies: the trimmed input, unless the prompt was cancelled or the input is blank. */
  function RenameTo(input: Option<string>): (r: Option<string>)
    ensures r.None? <==> input.None? || forall i :: 0 <= i < |input.value| ==> IsJsWhitespace(input.value[i])
    ensures r.Some? ==> r.value == Trim(input.value) && r.value != []
  {
    if input.Some? && Trim(input.value) != [] then Some(Trim(input.value)) else Option.None
  }

  function DigitChar(d: int): (c: char)
    requires 0 <= d < 10
    ensures '0' <= c <= '9' && c as int - '0' as int == d
  {
    ['0', '1', '2', '3', '4', '5', '6', '7', '8', '9'][d]
  }

  /** A natural number in decimal, as a template literal writes it. */
  function NatToString(n: nat): (r: string)
    ensures r != [] && forall i :: 0 <= i < |r| ==> '0' <= r[i] <= '9'
    ensures |r| > 1 ==> r[0] != '0'
  {
    if n < 10 then [DigitChar(n)] else NatToString(n / 10) + [DigitChar(n % 10)]
  }

  /** The value of a string of decimal digits. */
  function DecimalValue(s: string): (v: nat)
    requires forall i :: 0 <= i < |s| ==> '0' <= s[i] <= '9'
  {
    if s == [] then 0 else DecimalValue(s[..|s| - 1]) * 10 + (s[|s| - 1] as int - '0' as int)
  }

  /** Reading the decimal digits back gives the number. */
  lemma {:induction false} NatToStringValue(n: nat)
    ensures DecimalValue(NatToString(n)) == n
  {
    if n >= 10 {
      var s := NatToString(n);
      assert s[..|s| - 1] == NatToString(n / 10);
      NatToStringValue(n / 10);
    }
  }

  /** Different counts give different names. */
  lemma NatToStringInjective(m: nat, n: nat)
    requires NatToString(m) == NatToString(n)
    ensures m == n
  {
    NatToStringValue(m);
    NatToStringValue(n);
  }

  /** The token `addToken` creates when `count` tokens are on the board. */
  function NewToken(id: int, color: string, count: nat, g: int): (r: Token)
    requires g > 0
    ensures r.id == id && r.color == color && r.size == 25.0 && r.snapToGrid
    ensures r.name == "Token " + NatToString(count + 1)
    ensures r.x == SnapCoord(100.0, g) && r.y == SnapCoord(100.0, g) && Centred(r, g)
  {
    var p := SnapToGridPosition(100.0, 100.0, true, g);
    SnapCoordIdempotent(100.0, g);
    Token(id, p.x, p.y, color, "Token " + NatToString(count + 1), 25.0, true)
  }

  /** On the initial 40-pixel grid a new token lands at (100, 100), the centre of cell (2, 2). */
  lemma NewTokenOnDefaultGrid(id: int, color: string, count: nat)
    ensures NewToken(id, color, count, 40).x == 100.0 && NewToken(id, color, count, 40).y == 100.0
  {
    SnapIsCellCentre(100.0, 40, 2);
  }

  // ---------------------------------------------------------------------------
  // Layout and coordinate conversion
  // ---------------------------------------------------------------------------

  /** `screenToCanvas`; with a zero scale JavaScript yields no finite point, which is `None` here. */
  function ScreenToCanvas(scale: real, offset: Position, p: Position): (r: Option<Position>)
    ensures r.Some? <==> scale != 0.0
    ensures r.Some? ==> r.value.x * scale + offset.x == p.x && r.value.y * scale + offset.y == p.y
  {
    if scale == 0.0 then Option.None
    else Some(Position((p.x - offset.x) / scale, (p.y - offset.y) / scale))
  }

  /** `canvasToScreen`. */
  function CanvasToScreen(scale: real, offset: Position, p: Position): (r: Position)
    ensures scale != 0.0 ==> ScreenToCanvas(scale, offset, r) == Some(p)
  {
    var r := Position(p.x * scale + offset.x, p.y * scale + offset.y);
    assert scale != 0.0 ==> (r.x - offset.x) / scale == p.x && (r.y - offset.y) / scale == p.y;
    r
  }

  /** A screen point converted to the canvas and back is the same point. */
  lemma ScreenRoundTrip(scale: real, offset: Position, p: Position)
    requires scale != 0.0
    ensures CanvasToScreen(scale, offset, ScreenToCanvas(scale, offset, p).value) == p
  {
  }

  function Min(a: real, b: real): real {
    if a <= b then a else b
  }

  /**
   * `updateCanvasLayout` for a container `rectWidth` by `rectHeight`: the
   * scale that fits the board into the container less its 32-pixel padding
   * without enlarging it, and the offset that centres the scaled board.
   */
  function Layout(rectWidth: real, rectHeight: real, board: BoardSize): (r: (real, Position))
    requires board.width > 0.0 && board.height > 0.0
    ensures r.0 <= 1.0
    ensures r.0 == 1.0 || r.0 == (rectWidth - 32.0) / board.width || r.0 == (rectHeight - 32.0) / board.height
    ensures board.width * r.0 <= rectWidth - 32.0 && board.height * r.0 <= rectHeight - 32.0
    ensures 2.0 * r.1.x + board.width * r.0 == rectWidth - 32.0
    ensures 2.0 * r.1.y + board.height * r.0 == rectHeight - 32.0
  {
    var containerWidth := rectWidth - 32.0;
    var containerHeight := rectHeight - 32.0;
    var scale := Min(Min(containerWidth / board.width, containerHeight / board.height), 1.0);
    assert board.width * (containerWidth / board.width) == containerWidth;
    assert board.height * (containerHeight / board.height) == containerHeight;
    (scale, Position((containerWidth - board.width * scale) / 2.0, (containerHeight - board.height * scale) / 2.0))
  }

  /** A container at least as large as the padded board shows it at full size. */
  lemma LayoutFullSize(rectWidth: real, rectHeight: real, board: BoardSize)
    requires board.width > 0.0 && board.height > 0.0
    requires board.width + 32.0 <= rectWidth && board.height + 32.0 <= rectHeight
    ensures Layout(rectWidth, rectHeight, board).0 == 1.0
  {
    var cw := rectWidth - 32.0;
    var ch := rectHeight - 32.0;
    assert 1.0 <= cw / board.width by {
      assert board.width * 1.0 <= cw;
    }
    assert 1.0 <= ch / board.height by {
      assert board.height * 1.0 <= ch;
    }
  }

  // ---------------------------------------------------------------------------
  // Dragging
  // ---------------------------------------------------------------------------

  /** `Math.max(0, Math.min(hi, v))`. */
  function Clamp(v: real, hi: real): (r: real)
    requires 0.0 <= hi
    ensures 0.0 <= r <= hi
    ensures 0.0 <= v <= hi ==> r == v
    ensures v < 0.0 ==> r == 0.0
    ensures hi < v ==> r == hi
  {
    if v < 0.0 then 0.0 else if hi < v then hi else v
  }

  /**
   * The point a drag step moves the token towards, before snapping: the
   * pointer itself, clamped, when it is off the board, and otherwise the
   * pointer less the grab offset, clamped.
   */
  function DragPoint(c: Position, drag: DragState, board: BoardSize): (r: Position)
    requires 0.0 <= board.width && 0.0 <= board.height
    ensures 0.0 <= r.x <= board.width && 0.0 <= r.y <= board.height
  {
    if c.x < 0.0 || c.x > board.width || c.y < 0.0 || c.y > board.height then
      Position(Clamp(c.x, board.width), Clamp(c.y, board.height))
    else
      Position(Clamp(c.x - drag.offsetX, board.width), Clamp(c.y - drag.offsetY, board.height))
  }

  /** On the board, the token keeps the grab offset to the pointer as long as that stays on the board. */
  lemma DragPointKeepsOffset(c: Position, drag: DragState, board: BoardSize)
    requires 0.0 <= c.x <= board.width && 0.0 <= c.y <= board.height
    requires 0.0 <= c.x - drag.offsetX <= board.width && 0.0 <= c.y - drag.offsetY <= board.height
    ensures DragPoint(c, drag, board) == Position(c.x - drag.offsetX, c.y - drag.offsetY)
  {
  }

  /** Off the board, the token follows the nearest board point to the pointer and the offset is dropped. */
  lemma DragPointOffBoard(c: Position, drag: DragState, board: BoardSize)
    requires 0.0 <= board.width && 0.0 <= board.height
    requires c.x > board.width && 0.0 <= c.y <= board.height
    ensures DragPoint(c, drag, board) == Position(board.width, c.y)
  {
  }

  // ---------------------------------------------------------------------------
  // The board component's state
  // ---------------------------------------------------------------------------

  /** The board the component is created with; nothing resizes it. */
  const InitialBoardSize := BoardSize(800.0, 600.0)

  /** The tokens the component starts with. */
  const InitialTokens: seq<Token> := [
    Token(1, 120.0, 120.0, "#ff6b6b", "Player 1", 30.0, true),
    Token(2, 200.0, 160.0, "#4ecdc4", "Player 2", 30.0, true),
    Token(3, 280.0, 200.0, "#45b7d1", "NPC 1", 25.0, false)]

  /**
   * The `GameBoard` component's state. The refs the event handlers read are
   * the same values, and the animation frame is not modelled: a drag step
   * runs when the pointer moves.
   */
  class Board {
    var tokens: seq<Token>
    var gridSize: int
    var showGrid: bool
    const boardSize: BoardSize
    var canvasScale: real
    var canvasOffset: Position
    var dragState: Option<DragState>
    var isDragging: bool
    var hoveredToken: Option<int>

    /**
     * The grid size is one the range input offers, the board has an area,
     * the layout never enlarges it, and a drag is under way exactly when
     * there is a drag state.
     */
    ghost predicate Valid()
      reads this
    {
      20 <= gridSize <= 80 &&
      boardSize.width > 0.0 && boardSize.height > 0.0 &&
      canvasScale <= 1.0 &&
      (isDragging <==> dragState.Some?)
    }

    constructor()
      ensures Valid()
      ensures tokens == InitialTokens && gridSize == 40 && showGrid
      ensures boardSize == InitialBoardSize && canvasScale == 1.0 && canvasOffset == Position(0.0, 0.0)
      ensures dragState.None? && !isDragging && hoveredToken.None?
    {
      tokens := InitialTokens;
      gridSize := 40;
      showGrid := true;
      boardSize := InitialBoardSize;
      canvasScale := 1.0;
      canvasOffset := Position(0.0, 0.0);
      dragState := Option.None;
      isDragging := false;
      hoveredToken := Option.None;
    }

    /** The canvas point under the screen point `p`, if the scale allows one. */
    function CanvasPoint(p: Position): (r: Option<Position>)
      reads this
      ensures r.Some? <==> canvasScale != 0.0
      ensures r.Some? ==> CanvasToScreen(canvasScale, canvasOffset, r.value) == p
    {
      ScreenToCanvas(canvasScale, canvasOffset, p)
    }

    /**
     * `getTokenAtPosition`: scanning from the end of the list, the first
     * token whose disc holds (x, y), which is the one drawn on top.
     */
    method TokenAt(x: real, y: real) returns (r: Option<Token>)
      ensures r == if Topmost(tokens, x, y).Some? then Some(tokens[Topmost(tokens, x, y).value]) else Option.None
    {
      var i := |tokens| - 1;
      while i >= 0
        invariant -1 <= i < |tokens|
        invariant forall j :: i < j < |tokens| ==> !Hits(tokens[j], x, y)
      {
        var token := tokens[i];
        if Hits(token, x, y) {
          TopmostUnique(tokens, i, x, y);
          return Some(token);
        }
        i := i - 1;
      }
      return Option.None;
    }

    /** `cleanupDrag`: the drag ends. */
    method CleanupDrag()
      requires Valid()
      modifies this`dragState, this`isDragging
      ensures Valid() && dragState.None? && !isDragging
    {
      dragState := Option.None;
      isDragging := false;
    }

    /** `updateCanvasLayout` for the container's bounding box. */
    method UpdateCanvasLayout(rectWidth: real, rectHeight: real)
      requires Valid()
      modifies this`canvasScale, this`canvasOffset
      ensures Valid()
      ensures (canvasScale, canvasOffset) == Layout(rectWidth, rectHeight, boardSize)
    {
      var layout := Layout(rectWidth, rectHeight, boardSize);
      canvasScale := layout.0;
      canvasOffset := layout.1;
    }

    /** The canvas's `onMouseMove` when no drag is under way: remember the token under the pointer. */
    method CanvasMouseMove(p: Position)
      requires Valid()
      modifies this`hoveredToken
      ensures Valid()
      ensures isDragging ==> hoveredToken == old(hoveredToken)
      ensures !isDragging && CanvasPoint(p).None? ==> hoveredToken.None?
      ensures !isDragging && CanvasPoint(p).Some? ==>
                var c := CanvasPoint(p).value;
                hoveredToken == match Topmost(tokens, c.x, c.y)
                                case None => Option.None
                                case Some(i) => Some(tokens[i].id)
    {
      if isDragging {
        return;
      }
      var c := CanvasPoint(p);
      if c.None? {
        hoveredToken := Option.None;
        return;
      }
      var token := TokenAt(c.value.x, c.value.y);
      hoveredToken := if token.Some? then Some(token.value.id) else Option.None;
    }

    /**
     * The canvas's `onMouseDown` with `handleTokenMouseDown`: a left click on
     * a token starts dragging it, remembering where in the token it was grabbed.
     */
    method MouseDown(p: Position, button: int)
      requires Valid()
      modifies this`dragState, this`isDragging
      ensures Valid()
      ensures button != 0 || CanvasPoint(p).None? ==> dragState == old(dragState) && isDragging == old(isDragging)
      ensures button == 0 && CanvasPoint(p).Some? ==>
                var c := CanvasPoint(p).value;
                match Topmost(tokens, c.x, c.y)
                case None => dragState == old(dragState) && isDragging == old(isDragging)
                case Some(i) => isDragging && dragState == Some(DragState(tokens[i].id, c.x - tokens[i].x, c.y - tokens[i].y))
    {
      var c := CanvasPoint(p);
      if c.None? {
        return;
      }
      var token := TokenAt(c.value.x, c.value.y);
      if button == 0 && token.Some? {
        dragState := Some(DragState(token.value.id, c.value.x - token.value.x, c.value.y - token.value.y));
        isDragging := true;
      }
    }

    /**
     * One step of `handleMouseMove` while dragging: the dragged token moves to
     * the clamped pointer position, snapped if it snaps to the grid. When the
     * dragged token is gone the drag ends and no token moves.
     */
    method MouseMove(p: Position)
      requires Valid()
      modifies this`tokens, this`dragState, this`isDragging
      ensures Valid()
      ensures old(dragState).None? || CanvasPoint(p).None? ==>
                tokens == old(tokens) && dragState == old(dragState) && isDragging == old(isDragging)
      ensures old(dragState).Some? && CanvasPoint(p).Some? ==>
                var drag := old(dragState).value;
                match FirstIndex(old(tokens), t => HasId(drag.tokenId, t))
                case None =>
                  tokens == old(tokens) && dragState.None? && !isDragging
                case Some(k) =>
                  var q := DragPoint(CanvasPoint(p).value, drag, boardSize);
                  dragState == old(dragState) && isDragging &&
                  tokens == MoveToken(old(tokens), drag.tokenId, SnapToGridPosition(q.x, q.y, old(tokens)[k].snapToGrid, gridSize))
    {
      if dragState.None? {
        return;
      }
      var c := CanvasPoint(p);
      if c.None? {
        return;
      }
      var drag := dragState.value;
      var q := DragPoint(c.value, drag, boardSize);
      var k := FirstIndex(tokens, t => HasId(drag.tokenId, t));
      if k.None? {
        CleanupDrag();
        return;
      }
      var snapped := SnapToGridPosition(q.x, q.y, tokens[k.value].snapToGrid, gridSize);
      tokens := MoveToken(tokens, drag.tokenId, snapped);
    }

    /** `handleMouseUp`, and the document's mouse-up and mouse-leave handlers: the drag ends. */
    method MouseUp()
      requires Valid()
      modifies this`dragState, this`isDragging
      ensures Valid() && dragState.None? && !isDragging
    {
      CleanupDrag();
    }

    /** The canvas's `onMouseLeave`: nothing is hovered and any drag ends. */
    method MouseLeave()
      requires Valid()
      modifies this`hoveredToken, this`dragState, this`isDragging
      ensures Valid() && hoveredToken.None? && dragState.None? && !isDragging
    {
      hoveredToken := Option.None;
      if isDragging {
        CleanupDrag();
      }
    }

    /** `addToken`, given the id `Date.now()` and the random colour. */
    method AddToken(id: int, color: string)
      requires Valid()
      modifies this`tokens
      ensures Valid()
      ensures tokens == old(tokens) + [NewToken(id, color, |old(tokens)|, gridSize)]
    {
      var token := NewToken(id, color, |tokens|, gridSize);
      tokens := tokens + [token];
    }

    /** `deleteToken` and the context menu's delete item. */
    method DeleteToken(tokenId: int)
      requires Valid()
      modifies this`tokens
      ensures Valid()
      ensures tokens == WithoutToken(old(tokens), tokenId)
    {
      tokens := WithoutToken(tokens, tokenId);
    }

    /** The context menu's toggle-snap item, with its deferred re-snap run at once. */
    method ToggleTokenSnap(tokenId: int)
      requires Valid()
      modifies this`tokens
      ensures Valid()
      ensures tokens == SnapTokenWithId(ToggleSnap(old(tokens), tokenId), tokenId, gridSize)
    {
      tokens := ToggleSnap(tokens, tokenId);
      tokens := SnapTokenWithId(tokens, tokenId, gridSize);
    }

    /** The context menu's rename item, given what the prompt returned (`None` when it was cancelled). */
    method RenameTokenTo(tokenId: int, input: Option<string>)
      requires Valid()
      modifies this`tokens
      ensures Valid()
      ensures RenameTo(input).None? ==> tokens == old(tokens)
      ensures RenameTo(input).Some? ==> tokens == RenameToken(old(tokens), tokenId, RenameTo(input).value)
    {
      if input.Some? && Trim(input.value) != [] {
        tokens := RenameToken(tokens, tokenId, Trim(input.value));
      }
    }

    /** The context menu's change-colour item, given the random index into the palette. */
    method ChangeTokenColor(tokenId: int, choice: nat)
      requires Valid()
      requires choice < |Palette|
      modifies this`tokens
      ensures Valid()
      ensures tokens == RecolorToken(old(tokens), tokenId, Palette[choice])
    {
      tokens := RecolorToken(tokens, tokenId, Palette[choice]);
    }

    /** `handleGridSizeChange` for a value of the range input, with its deferred reposition run at once. */
    method GridSizeChange(newGridSize: int)
      requires Valid()
      requires 20 <= newGridSize <= 80
      modifies this`gridSize, this`tokens
      ensures Valid()
      ensures gridSize == newGridSize && tokens == Reposition(old(tokens), newGridSize)
    {
      gridSize := newGridSize;
      tokens := Reposition(tokens, gridSize);
    }

    /** `handleShowGridChange`. */
    method ShowGridChange(checked: bool)
      requires Valid()
      modifies this`showGrid
      ensures Valid() && showGrid == checked
    {
      showGrid := checked;
    }

    /** `repositionAllTokens`. */
    method RepositionAllTokens()
      requires Valid()
      modifies this`tokens
      ensures Valid() && tokens == Reposition(old(tokens), gridSize)
    {
      tokens := Reposition(tokens, gridSize);
    }
  }
}
