/**
 * Coins (Coin, main.py:325-340): a position, a collected flag and an
 * animation that runs only while the coin is still in play.
 */
module CoinModel {
  import opened WorldModel

  const CoinSize: real := 16.0

  datatype CoinState = CoinState(x: real, y: real, collected: bool,
                                 animationFrame: nat, animationTimer: nat)

  /** Coin(x, y) (main.py:326-333). */
  function NewCoin(x: real, y: real): CoinState
  {
    CoinState(x, y, false, 0, 0)
  }

  function CoinBox(c: CoinState): Box
  {
    Box(c.x, c.y, CoinSize, CoinSize)
  }

  /** Coin.update (main.py:335-340): a collected coin stays exactly as it is. */
  function AnimateCoin(c: CoinState): (r: CoinState)
    ensures r.x == c.x && r.y == c.y && r.collected == c.collected
    ensures c.collected ==> r == c
    ensures !c.collected ==> r.animationTimer < 10
    ensures c.animationFrame < 4 ==> r.animationFrame < 4
  {
    if c.collected then c
    else if c.animationTimer + 1 >= 10 then
      c.(animationTimer := 0, animationFrame := (c.animationFrame + 1) % 4)
    else c.(animationTimer := c.animationTimer + 1)
  }

  /** The coin as an object: the session sets its flag, and update animates it. */
  class Coin {
    var x: real
    var y: real
    var collected: bool
    var animationFrame: nat
    var animationTimer: nat

    function State(): CoinState
      reads this
    {
      CoinState(x, y, collected, animationFrame, animationTimer)
    }

    constructor (x0: real, y0: real)
      ensures State() == NewCoin(x0, y0)
    {
      x, y := x0, y0;
      collected := false;
      animationFrame, animationTimer := 0, 0;
    }

    /** Coin.update (main.py:335-340). */
    method Update()
      modifies this
      ensures State() == AnimateCoin(old(State()))
    {
      if !collected {
        animationTimer := animationTimer + 1;
        if animationTimer >= 10 {
          animationTimer := 0;
          animationFrame := (animationFrame + 1) % 4;
        }
      }
    }
  }
}
