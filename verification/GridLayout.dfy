/** The grid the relationship map falls back to: 230 by 94 cards, 280 apart across and 150 down. */
module GridLayout {

  const CARD_WIDTH := 230
  const CARD_HEIGHT := 94
  const STEP_ACROSS := 280
  const STEP_DOWN := 150

  datatype Position = Position(x: nat, y: nat)

  /** The least whole number whose square is at least n, searched upwards from `from`. */
  function RootFrom(n: nat, from: nat): (c: nat)
    requires from == 0 || (from - 1) * (from - 1) < n
    ensures n <= c * c && (c == 0 || (c - 1) * (c - 1) < n)
    decreases n - from * from
  {
    if n <= from * from then from else RootFrom(n, from + 1)
  }

  function Columns(n: nat): nat {
    var root := RootFrom(n, 0);
    if root < 2 then 2 else root
  }

  function Place(index: nat, columns: nat): Position
    requires columns > 0
  {
    Position((index % columns) * STEP_ACROSS, (index / columns) * STEP_DOWN)
  }

  function Layout(n: nat): (positions: seq<Position>)
    ensures |positions| == n
  {
    seq(n, i requires 0 <= i < n => Place(i, Columns(n)))
  }

  /** No point is strictly inside both cards. */
  predicate Disjoint(p: Position, q: Position) {
    p.x + CARD_WIDTH <= q.x || q.x + CARD_WIDTH <= p.x || p.y + CARD_HEIGHT <= q.y || q.y + CARD_HEIGHT <= p.y
  }

  /** Cards are laid out row by row: the first in the corner, and each next one a step to the right of the one
  before, or at the start of the next row once a row is full. */
  lemma NextPlace(index: nat, columns: nat)
    requires columns > 0
    ensures Place(0, columns) == Position(0, 0)
    ensures
      var p, next := Place(index, columns), Place(index + 1, columns);
      if p.x < (columns - 1) * STEP_ACROSS then next == Position(p.x + STEP_ACROSS, p.y)
      else next == Position(0, p.y + STEP_DOWN)
  {
    var row, column := index / columns, index % columns;
    assert index == row * columns + column;
    if column < columns - 1 {
      DivideIs(index + 1, columns, row, column + 1);
    } else {
      DivideIs(index + 1, columns, row + 1, 0);
    }
  }

  lemma DivideIs(m: nat, d: nat, q: nat, r: nat)
    requires d > 0 && r < d && m == q * d + r
    ensures m / d == q && m % d == r
  {
    assert m == (m / d) * d + m % d;
    if m / d < q {
      ScaleMonotone(m / d + 1, q, d);
    } else if m / d > q {
      ScaleMonotone(q + 1, m / d, d);
    }
  }

  /** Different indices differ in row or in column. */
  lemma PlacesDisjoint(i: nat, j: nat, columns: nat)
    requires columns > 0 && i != j
    ensures Disjoint(Place(i, columns), Place(j, columns))
  {
    assert i == (i / columns) * columns + i % columns;
    assert j == (j / columns) * columns + j % columns;
  }

  lemma DivideBelow(i: nat, c: nat)
    requires i < c * c
    ensures i / c < c
  {
  }

  lemma DivideAtLeast(m: nat, d: nat, q: nat)
    requires d > 0 && q * d <= m
    ensures m / d >= q
  {
    if m / d < q {
      ScaleMonotone(m / d + 1, q, d);
    }
  }

  lemma ScaleMonotone(a: nat, b: nat, d: nat)
    requires a <= b
    ensures a * d <= b * d
  {
  }

  lemma SquareMonotone(a: nat, b: nat)
    requires a <= b
    ensures a * a <= b * b
  {
  }

  /** Neither the row nor the column number reaches the number of columns. */
  lemma RowWithin(i: nat, n: nat)
    requires i < n
    ensures i / Columns(n) <= Columns(n) - 1
    ensures i % Columns(n) <= Columns(n) - 1
  {
    SquareMonotone(RootFrom(n, 0), Columns(n));
    DivideBelow(i, Columns(n));
  }

  /** The grid is as narrow as that allows: with fewer columns, though at least two, there would be more
  rows than columns. */
  lemma NarrowerIsTaller(n: nat, fewer: nat)
    requires 2 <= fewer < Columns(n)
    ensures (n - 1) / fewer >= fewer
  {
    SquareMonotone(fewer, RootFrom(n, 0) - 1);
    DivideAtLeast(n - 1, fewer, fewer);
  }

  /** For any number of cards: no two overlap, and none lies past as many rows as there are columns. */
  lemma CardsDisjoint(n: nat)
    ensures forall i, j :: 0 <= i < j < n ==> Disjoint(Layout(n)[i], Layout(n)[j])
    ensures forall p :: p in Layout(n) ==>
      p.x <= (Columns(n) - 1) * STEP_ACROSS && p.y <= (Columns(n) - 1) * STEP_DOWN
  {
    forall i, j | 0 <= i < j < n
      ensures Disjoint(Layout(n)[i], Layout(n)[j])
    {
      PlacesDisjoint(i, j, Columns(n));
    }
    forall p | p in Layout(n)
      ensures p.x <= (Columns(n) - 1) * STEP_ACROSS && p.y <= (Columns(n) - 1) * STEP_DOWN
    {
      var i :| 0 <= i < n && Layout(n)[i] == p;
      RowWithin(i, n);
    }
  }
}
