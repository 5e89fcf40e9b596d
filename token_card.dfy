/** The change badge of a token row (StickerSmash/components/TokenCard.tsx):
    arrow, colours and the displayed magnitude of the 24-hour change. */
module TokenBadge {
  import opened Wallet

  // Palette entries the badge uses (StickerSmash/utils/theme.ts).
  const SuccessLight: string := "#D1F7E0"
  const SuccessDark: string := "#36AC70"
  const ErrorLight: string := "#FFE2E0"
  const ErrorDark: string := "#E64C42"

  datatype Arrow = ArrowUp | ArrowDown

  datatype Badge = Badge(
    arrow: Arrow,
    arrowColor: string,
    background: string,
    textColor: string,
    magnitude: real)

  /** `const isPositive = token.change >= 0`. */
  predicate IsPositive(t: Token) {
    t.change >= 0.0
  }

  /** `Math.abs`. */
  function Abs(x: real): (r: real)
    ensures r >= 0.0 && (r == x || r == -x)
  {
    if x < 0.0 then -x else x
  }

  function BadgeOf(t: Token): (b: Badge)
    ensures b.arrow == ArrowUp <==> t.change >= 0.0
    ensures b.arrow == ArrowUp ==>
              b.background == SuccessLight && b.arrowColor == SuccessDark && b.textColor == SuccessDark
    ensures b.arrow == ArrowDown ==>
              b.background == ErrorLight && b.arrowColor == ErrorDark && b.textColor == ErrorDark
    ensures b.magnitude >= 0.0 && (b.magnitude == t.change || b.magnitude == -t.change)
  {
    if IsPositive(t) then Badge(ArrowUp, SuccessDark, SuccessLight, SuccessDark, Abs(t.change))
    else Badge(ArrowDown, ErrorDark, ErrorLight, ErrorDark, Abs(t.change))
  }

  /** A change of exactly zero is shown as a rise. */
  lemma ZeroChangeIsPositive(t: Token)
    requires t.change == 0.0
    ensures BadgeOf(t).arrow == ArrowUp && BadgeOf(t).magnitude == 0.0
  {
  }

  /** The badge is a function of `change` alone. */
  lemma BadgeDependsOnlyOnChange(t1: Token, t2: Token)
    requires t1.change == t2.change
    ensures BadgeOf(t1) == BadgeOf(t2)
  {
  }

  /** A rise and a fall of the same size show the same magnitude, with opposite
      arrows unless the change is zero. */
  lemma OppositeChanges(t: Token)
    ensures BadgeOf(t).magnitude == BadgeOf(t.(change := -t.change)).magnitude
    ensures t.change != 0.0 ==> BadgeOf(t).arrow != BadgeOf(t.(change := -t.change)).arrow
  {
  }

  /** On the dashboard fixture, only Solana (-1.2) shows a falling arrow. */
  lemma DummyTokenBadges()
    ensures forall k :: 0 <= k < |DummyTokens| ==>
              (BadgeOf(DummyTokens[k]).arrow == ArrowDown <==> DummyTokens[k].symbol == "SOL")
    ensures BadgeOf(DummyTokens[1]).magnitude == 1.2
  {
  }
}
