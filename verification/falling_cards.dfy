/**
 * The draggable profile card that falls from above the page and hangs on a
 * dotted line (components/ui/falling-cards.jsx).
 *
 * Every animation frame runs the `setCard` updater: an unlanded card above
 * the target drops by 3, an unlanded card at or below it snaps to the target
 * and lands, a landed card is left alone; the rendered position follows the
 * card's y. Dragging overrides both the position and the card, and leaves
 * the card landed wherever it was dropped.
 */
module FallingCards {

  /** Where the card comes to rest. */
  const TargetY: real := 300.0
  /** Where the dotted line starts (the navbar's height). */
  const LineStartY: real := 80.0
  /** Fall per frame. */
  const FallStep: real := 3.0

  datatype Card = Card(y: real, landed: bool)

  /** The per-frame `setCard` updater. */
  function Fall(c: Card): Card {
    if !c.landed && c.y < TargetY then Card(c.y + FallStep, false)
    else if !c.landed then Card(TargetY, true)
    else c
  }

  /** The card after n frames with no dragging. */
  function Frames(c: Card, n: nat): Card
    decreases n
  {
    if n == 0 then c else Frames(Fall(c), n - 1)
  }

  /** A landed card is a fixed point of any number of frames. */
  lemma {:induction false} LandedStays(c: Card, n: nat)
    requires c.landed
    ensures Frames(c, n) == c
    decreases n
  {
    if n > 0 {
      LandedStays(Fall(c), n - 1);
    }
  }

  /**
   * While the card has not yet reached the target, each frame drops it by
   * exactly 3 and it stays unlanded.
   */
  lemma {:induction false} FallsSteadily(y: real, k: nat)
    requires k == 0 || y + FallStep * (k - 1) as real < TargetY
    ensures Frames(Card(y, false), k) == Card(y + FallStep * k as real, false)
    decreases k
  {
    if k > 0 {
      FallsSteadily(y + FallStep, k - 1);
    }
  }

  /**
   * Once enough frames have passed for the card to reach the target, it is
   * landed exactly at the target: the first frame at or past 300 pins it.
   */
  lemma {:induction false} Lands(y: real, n: nat)
    requires n >= 1 && y + FallStep * (n - 1) as real >= TargetY
    ensures Frames(Card(y, false), n) == Card(TargetY, true)
    decreases n
  {
    if y >= TargetY {
      LandedStays(Card(TargetY, true), n - 1);
    } else {
      Lands(y + FallStep, n - 1);
    }
  }

  /**
   * From the initial y of -400 the card is unlanded at 302 after 234 frames
   * (it overshoots the target by 2) and landed at 300 from frame 235 on.
   */
  lemma FallFromStart(n: nat)
    ensures Frames(Card(-400.0, false), 234) == Card(302.0, false)
    ensures n >= 235 ==> Frames(Card(-400.0, false), n) == Card(TargetY, true)
  {
    FallsSteadily(-400.0, 234);
    if n >= 235 {
      Lands(-400.0, n);
    }
  }

  /** The dotted line and the GitHub icon are drawn only below the navbar. */
  predicate LineVisible(posY: real) {
    posY > LineStartY
  }

  /** The card's CSS opacity. */
  function Opacity(posY: real): (o: int)
    ensures o == 0 || o == 1
  {
    if posY < 0.0 then 0 else 1
  }

  /**
   * During the initial fall, the card is invisible for its first 133 frames
   * (y still negative), and the line appears only from frame 161 (y above 80).
   */
  lemma VisibilityDuringFall(k: nat)
    requires k <= 234
    ensures Opacity(Frames(Card(-400.0, false), k).y) == 0 <==> k <= 133
    ensures LineVisible(Frames(Card(-400.0, false), k).y) <==> k >= 161
  {
    FallsSteadily(-400.0, k);
  }

  /** The component's state: the card, the rendered position and the drag. */
  class FallingCard {
    var card: Card
    var posX: real
    var posY: real
    var dragging: bool
    var offsetX: real
    var offsetY: real

    /** The rendered y always mirrors the card's y. */
    ghost predicate Valid()
      reads this
    {
      posY == card.y
    }

    constructor ()
      ensures Valid()
      ensures card == Card(-400.0, false) && posX == 200.0 && posY == -400.0
      ensures !dragging && offsetX == 0.0 && offsetY == 0.0
    {
      card := Card(-400.0, false);
      posX, posY := 200.0, -400.0;
      dragging := false;
      offsetX, offsetY := 0.0, 0.0;
    }

    /** One animation frame. */
    method Frame()
      requires Valid()
      modifies this
      ensures Valid()
      ensures card == Fall(old(card))
      ensures old(card).landed ==> card == old(card) && posY == old(posY)
      ensures posX == old(posX) && dragging == old(dragging)
      ensures offsetX == old(offsetX) && offsetY == old(offsetY)
    {
      if !card.landed && card.y < TargetY {
        var newY := card.y + FallStep;
        posY := newY;
        card := Card(newY, false);
      } else if !card.landed {
        posY := TargetY;
        card := Card(TargetY, true);
      }
    }

    /** Mouse-down on the card: remember where it was grabbed and start dragging. */
    method MouseDown(clientX: real, clientY: real, rectLeft: real, rectTop: real)
      requires Valid()
      modifies this
      ensures Valid()
      ensures dragging && offsetX == clientX - rectLeft && offsetY == clientY - rectTop
      ensures card == old(card) && posX == old(posX) && posY == old(posY)
    {
      offsetX, offsetY := clientX - rectLeft, clientY - rectTop;
      dragging := true;
    }

    /** Mouse-move: while dragging the card follows the pointer and counts as landed there. */
    method MouseMove(clientX: real, clientY: real)
      requires Valid()
      modifies this
      ensures Valid()
      ensures old(dragging) ==> posX == clientX - offsetX && posY == clientY - offsetY
      ensures old(dragging) ==> card == Card(clientY - offsetY, true)
      ensures !old(dragging) ==> card == old(card) && posX == old(posX) && posY == old(posY)
      ensures dragging == old(dragging) && offsetX == old(offsetX) && offsetY == old(offsetY)
    {
      if dragging {
        posX, posY := clientX - offsetX, clientY - offsetY;
        card := Card(clientY - offsetY, true);
      }
    }

    /** Mouse-up: dragging ends; the card stays where it is. */
    method MouseUp()
      requires Valid()
      modifies this
      ensures Valid()
      ensures !dragging
      ensures card == old(card) && posX == old(posX) && posY == old(posY)
      ensures offsetX == old(offsetX) && offsetY == old(offsetY)
    {
      dragging := false;
    }

    /** Whether the dotted line and the icon are rendered. */
    function ShowsLine(): (b: bool)
      reads this
      requires Valid()
      ensures b <==> card.y > LineStartY
    {
      LineVisible(posY)
    }
  }
}
