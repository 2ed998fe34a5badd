// Market conditions and their per-colour lookup (game/src/game/mod.rs).
// `make_higher` and `make_lower` assign `*self` on a copyable enum; here they
// are functions from the old condition to the new one.
module MarketRules {
  import opened Vocabulary

  /** The condition as a number: Minus below Zero below Plus. */
  function Rank(c: MarketCondition): int
  {
    match c
    case Minus => -1
    case Zero => 0
    case Plus => 1
  }

  /** `make_higher`: one step up, saturating at Plus. */
  function MakeHigher(c: MarketCondition): (r: MarketCondition)
    ensures Rank(r) == if Rank(c) == 1 then 1 else Rank(c) + 1
  {
    match c
    case Plus => Plus
    case Zero => Plus
    case Minus => Zero
  }

  /** `make_lower`: one step down, saturating at Minus. */
  function MakeLower(c: MarketCondition): (r: MarketCondition)
    ensures Rank(r) == if Rank(c) == -1 then -1 else Rank(c) - 1
  {
    match c
    case Minus => Minus
    case Zero => Minus
    case Plus => Zero
  }

  /** Neither operation ever moves a condition in the opposite direction. */
  lemma RaiseLowerMonotone(c: MarketCondition)
    ensures Rank(MakeHigher(c)) >= Rank(c)
    ensures Rank(MakeLower(c)) <= Rank(c)
    ensures MakeHigher(c) == c <==> c == Plus
    ensures MakeLower(c) == c <==> c == Minus
  {
  }

  /** Raising undoes lowering except at the bottom, and lowering undoes raising except at the top. */
  lemma RaiseLowerInverse(c: MarketCondition)
    ensures c != Plus ==> MakeLower(MakeHigher(c)) == c
    ensures c != Minus ==> MakeHigher(MakeLower(c)) == c
  {
  }

  /** `Market::color_condition`: the condition the market sets for one colour. */
  function ColorCondition(m: Market, color: Color): (r: MarketCondition)
    ensures color == Red ==> r == m.red
    ensures color == Green ==> r == m.green
    ensures color == Purple ==> r == m.purple
    ensures color == Yellow ==> r == m.yellow
    ensures color == Blue ==> r == m.blue
  {
    match color
    case Red => m.red
    case Green => m.green
    case Purple => m.purple
    case Yellow => m.yellow
    case Blue => m.blue
  }

  /** The market with one colour's condition replaced; the other colours keep theirs. */
  function WithCondition(m: Market, color: Color, cond: MarketCondition): (r: Market)
    ensures ColorCondition(r, color) == cond
    ensures forall c :: c != color ==> ColorCondition(r, c) == ColorCondition(m, c)
    ensures r.title == m.title && r.rfr == m.rfr && r.mrp == m.mrp
  {
    match color
    case Red => m.(red := cond)
    case Green => m.(green := cond)
    case Purple => m.(purple := cond)
    case Yellow => m.(yellow := cond)
    case Blue => m.(blue := cond)
  }

  /** Two markets with the same title, rates and colour conditions are the same market. */
  lemma MarketExtensional(m: Market, n: Market)
    requires m.title == n.title && m.rfr == n.rfr && m.mrp == n.mrp
    requires forall c :: ColorCondition(m, c) == ColorCondition(n, c)
    ensures m == n
  {
    assert ColorCondition(m, Red) == ColorCondition(n, Red);
    assert ColorCondition(m, Green) == ColorCondition(n, Green);
    assert ColorCondition(m, Purple) == ColorCondition(n, Purple);
    assert ColorCondition(m, Yellow) == ColorCondition(n, Yellow);
    assert ColorCondition(m, Blue) == ColorCondition(n, Blue);
  }
}
