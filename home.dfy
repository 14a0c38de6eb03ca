/**
 * The home page's product carousel: seven images, next/previous/jump controls that each
 * start a short transition and move when it ends, and an autoplay that advances on a timer.
 */
module Home {

  const ImageCount: nat := 7

  function NextIndex(i: int): (r: int)
    requires 0 <= i < ImageCount
    ensures 0 <= r < ImageCount
    ensures r == if i == ImageCount - 1 then 0 else i + 1
  {
    (i + 1) % ImageCount
  }

  function PrevIndex(i: int): (r: int)
    requires 0 <= i < ImageCount
    ensures 0 <= r < ImageCount
    ensures r == if i == 0 then ImageCount - 1 else i - 1
  {
    (i - 1 + ImageCount) % ImageCount
  }

  /** Previous undoes next, and next undoes previous. */
  lemma NextPrevInverse(i: int)
    requires 0 <= i < ImageCount
    ensures PrevIndex(NextIndex(i)) == i && NextIndex(PrevIndex(i)) == i
  {
  }

  /** The index after `n` advances. */
  function Advanced(i: int, n: nat): (r: int)
    requires 0 <= i < ImageCount
    ensures 0 <= r < ImageCount
  {
    if n == 0 then i else NextIndex(Advanced(i, n - 1))
  }

  /** `n` advances move the index `n` places round the circle. */
  lemma {:induction false} AdvancedIsModular(i: int, n: nat)
    requires 0 <= i < ImageCount
    ensures Advanced(i, n) == (i + n) % ImageCount
  {
    if n > 0 {
      AdvancedIsModular(i, n - 1);
    }
  }

  /** Seven advances bring the carousel back to the image it started on. */
  lemma FullCircle(i: int)
    requires 0 <= i < ImageCount
    ensures Advanced(i, ImageCount) == i
  {
    AdvancedIsModular(i, ImageCount);
  }

  /** The move a running transition will make when its timer fires. */
  datatype Move = Forward | Backward | Jump(index: int)

  class Carousel {
    var current: int
    var autoPlaying: bool
    var transitioning: bool
    var pending: Move

    /** The index is an image's; a jump can only be to one. */
    ghost predicate Valid()
      reads this
    {
      && 0 <= current < ImageCount
      && (pending.Jump? ==> 0 <= pending.index < ImageCount)
    }

    constructor()
      ensures Valid() && current == 0 && autoPlaying && !transitioning
    {
      current := 0;
      autoPlaying := true;
      transitioning := false;
      pending := Forward;
    }

    /** `nextImage`: ignored during a transition, otherwise starts one that moves forward. */
    method Next()
      requires Valid()
      modifies this
      ensures Valid() && current == old(current) && autoPlaying == old(autoPlaying)
      ensures old(transitioning) ==> transitioning && pending == old(pending)
      ensures !old(transitioning) ==> transitioning && pending == Forward
    {
      if transitioning {
        return;
      }
      transitioning := true;
      pending := Forward;
    }

    /** `prevImage`: ignored during a transition, otherwise starts one that moves back. */
    method Prev()
      requires Valid()
      modifies this
      ensures Valid() && current == old(current) && autoPlaying == old(autoPlaying)
      ensures old(transitioning) ==> transitioning && pending == old(pending)
      ensures !old(transitioning) ==> transitioning && pending == Backward
    {
      if transitioning {
        return;
      }
      transitioning := true;
      pending := Backward;
    }

    /**
     * `goToImage`: ignored during a transition and for the image already shown, otherwise
     * starts one that jumps. The dots only ever pass an image's index.
     */
    method GoTo(index: int)
      requires Valid() && 0 <= index < ImageCount
      modifies this
      ensures Valid() && current == old(current) && autoPlaying == old(autoPlaying)
      ensures (old(transitioning) || index == old(current)) ==>
        transitioning == old(transitioning) && pending == old(pending)
      ensures !(old(transitioning) || index == old(current)) ==> transitioning && pending == Jump(index)
    {
      if transitioning || index == current {
        return;
      }
      transitioning := true;
      pending := Jump(index);
    }

    /** The 150 ms timer of a transition firing: the move is made and the transition ends. */
    method Complete()
      requires Valid()
      modifies this
      ensures Valid() && autoPlaying == old(autoPlaying) && pending == old(pending)
      ensures !old(transitioning) ==> current == old(current) && !transitioning
      ensures old(transitioning) ==> !transitioning && current == match old(pending)
        case Forward => NextIndex(old(current))
        case Backward => PrevIndex(old(current))
        case Jump(i) => i
    {
      if !transitioning {
        return;
      }
      match pending {
        case Forward => current := NextIndex(current);
        case Backward => current := PrevIndex(current);
        case Jump(i) => current := i;
      }
      transitioning := false;
    }

    /** One autoplay interval: the carousel advances, only while autoplay is on. */
    method AutoAdvance()
      requires Valid()
      modifies this
      ensures Valid() && autoPlaying == old(autoPlaying) && transitioning == old(transitioning)
      ensures pending == old(pending)
      ensures current == if autoPlaying then NextIndex(old(current)) else old(current)
    {
      if autoPlaying {
        current := NextIndex(current);
      }
    }

    /** The play/pause button. */
    method ToggleAutoPlay()
      requires Valid()
      modifies this`autoPlaying
      ensures Valid() && autoPlaying == !old(autoPlaying)
    {
      autoPlaying := !autoPlaying;
    }
  }
}
