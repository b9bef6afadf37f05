/** Study mode (js/flashcard.js): which card is shown, whether it is flipped,
    the navigation buttons' disabled state, the progress counter, and the
    touch and keyboard inputs that drive them. */
module Flashcard {
  import opened Common
  import opened Data
  import St = Storage

  /** Horizontal travel, in pixels, beyond which a touch counts as a swipe. */
  const SWIPE_THRESHOLD := 50

  datatype Move = Stay | ToPrevious | ToNext | Flip

  /** handleSwipe's decision on `diff = end - start`: a swipe to the right goes
      back, one to the left goes forward, a short one does nothing. */
  function SwipeMove(startX: int, endX: int): (m: Move)
    ensures m == ToPrevious <==> endX - startX > SWIPE_THRESHOLD
    ensures m == ToNext <==> endX - startX < -SWIPE_THRESHOLD
    ensures m == Stay <==> -SWIPE_THRESHOLD <= endX - startX <= SWIPE_THRESHOLD
  {
    var diff := endX - startX;
    var magnitude := if diff < 0 then -diff else diff;
    if magnitude > SWIPE_THRESHOLD then (if diff > 0 then ToPrevious else ToNext) else Stay
  }

  /** The keydown listener's decision: nothing outside study mode; the arrow keys
      move and Space or Enter flips. */
  function KeyMove(mode: string, key: string): (m: Move)
    ensures mode != "study" ==> m == Stay
    ensures mode == "study" ==> m == (if key == "ArrowLeft" then ToPrevious
                                      else if key == "ArrowRight" then ToNext
                                      else if key == " " || key == "Enter" then Flip
                                      else Stay)
  {
    if mode != "study" then Stay
    else match key
      case "ArrowLeft" => ToPrevious
      case "ArrowRight" => ToNext
      case " " => Flip
      case "Enter" => Flip
      case _ => Stay
  }

  /** The text of the progress counter: the 1-based position and the count. */
  datatype Counter = Counter(current: int, total: int)

  /** The Flashcard object's state. */
  class Flashcards {
    var currentIndex: int
    var isFlipped: bool
    var touchStartX: int
    var touchEndX: int
    var prevDisabled: bool
    var nextDisabled: bool
    var counter: Option<Counter>

    /** The index stays on a card when there are cards, and at 0 otherwise. */
    ghost predicate Valid(n: int)
      reads this
    {
      if n > 0 then 0 <= currentIndex < n else currentIndex == 0
    }

    /** What showBird(index) leaves: card `index` shown unflipped, the buttons and
        the counter set for it, and one study of its bird recorded over
        `before`, the progress store it started from. */
    ghost predicate ShowsCard(index: int, data: BirdData, store: St.Store, before: map<string, St.ProgressRecord>,
                              now: St.Timestamp, writeOk: bool)
      reads this, data, data.birds, store
    {
      && 0 <= index < data.birds.Length
      && currentIndex == index && !isFlipped
      && prevDisabled == (index == 0) && nextDisabled == (index == data.birds.Length - 1)
      && counter == Some(Counter(index + 1, data.birds.Length))
      && store.progress == St.AfterStudy(before, data.birds[index].id, now, writeOk)
    }

    /** Nothing the reader sees has changed. */
    twostate predicate ViewUnchanged(store: St.Store)
      reads this, store
    {
      && isFlipped == old(isFlipped) && counter == old(counter)
      && prevDisabled == old(prevDisabled) && nextDisabled == old(nextDisabled)
      && store.progress == old(store.progress)
    }

    constructor ()
      ensures currentIndex == 0 && !isFlipped && touchStartX == 0 && touchEndX == 0
      ensures !prevDisabled && !nextDisabled && counter == None
      ensures forall n :: Valid(n)
    {
      currentIndex, isFlipped, touchStartX, touchEndX := 0, false, 0, 0;
      prevDisabled, nextDisabled, counter := false, false, None;
    }

    /** showBird: out of range it does nothing; otherwise it shows card `index`
        unflipped, updates the counter and buttons, and records one study of that
        bird. `o` is the outcome of the progress write, None when nothing was done. */
    method ShowBird(index: int, data: BirdData, store: St.Store, now: St.Timestamp, writeOk: bool)
      returns (o: Option<St.Outcome>)
      requires store.Valid()
      modifies this, store
      ensures store.Valid()
      ensures touchStartX == old(touchStartX) && touchEndX == old(touchEndX)
      ensures !(0 <= index < data.birds.Length) ==>
        o == None && currentIndex == old(currentIndex) && isFlipped == old(isFlipped)
        && prevDisabled == old(prevDisabled) && nextDisabled == old(nextDisabled) && counter == old(counter)
        && store.progress == old(store.progress)
      ensures 0 <= index < data.birds.Length ==>
        ShowsCard(index, data, store, old(store.progress), now, writeOk)
        && o == Some(if writeOk then St.Done else St.Failed)
      ensures store.settings == old(store.settings)
    {
      if index < 0 || index >= data.birds.Length {
        return None;
      }
      currentIndex := index;
      var bird := data.GetBirdByIndex(index).value;
      if isFlipped {
        isFlipped := false;
      }
      UpdateProgress(data.birds.Length);
      prevDisabled := index == 0;
      nextDisabled := index == data.birds.Length - 1;
      var _, outcome := store.UpdateStudyProgress(bird.id, now, writeOk);
      o := Some(outcome);
    }

    /** updateProgress: the counter shows the 1-based position out of `n`. */
    method UpdateProgress(n: int)
      modifies this
      ensures counter == Some(Counter(currentIndex + 1, n))
      ensures currentIndex == old(currentIndex) && isFlipped == old(isFlipped)
      ensures touchStartX == old(touchStartX) && touchEndX == old(touchEndX)
      ensures prevDisabled == old(prevDisabled) && nextDisabled == old(nextDisabled)
    {
      var current := currentIndex + 1;
      counter := Some(Counter(current, n));
    }

    /** flip: toggle the card's face. */
    method FlipCard()
      modifies this
      ensures isFlipped == !old(isFlipped)
      ensures currentIndex == old(currentIndex) && counter == old(counter)
      ensures touchStartX == old(touchStartX) && touchEndX == old(touchEndX)
      ensures prevDisabled == old(prevDisabled) && nextDisabled == old(nextDisabled)
    {
      isFlipped := !isFlipped;
    }

    /** previous: step back one card, unless on the first. */
    method Previous(data: BirdData, store: St.Store, now: St.Timestamp, writeOk: bool)
      requires store.Valid() && Valid(data.birds.Length)
      modifies this, store
      ensures store.Valid() && Valid(data.birds.Length)
      ensures currentIndex == (if old(currentIndex) > 0 then old(currentIndex) - 1 else old(currentIndex))
      ensures old(currentIndex) == 0 ==> ViewUnchanged(store)
      ensures old(currentIndex) > 0 ==> ShowsCard(currentIndex, data, store, old(store.progress), now, writeOk)
      ensures touchStartX == old(touchStartX) && touchEndX == old(touchEndX)
      ensures store.settings == old(store.settings)
    {
      if currentIndex > 0 {
        var _ := ShowBird(currentIndex - 1, data, store, now, writeOk);
      }
    }

    /** next: step forward one card, unless on the last. */
    method Next(data: BirdData, store: St.Store, now: St.Timestamp, writeOk: bool)
      requires store.Valid() && Valid(data.birds.Length)
      modifies this, store
      ensures store.Valid() && Valid(data.birds.Length)
      ensures currentIndex == (if old(currentIndex) < data.birds.Length - 1 then old(currentIndex) + 1 else old(currentIndex))
      ensures old(currentIndex) >= data.birds.Length - 1 ==> ViewUnchanged(store)
      ensures old(currentIndex) < data.birds.Length - 1 ==>
        ShowsCard(currentIndex, data, store, old(store.progress), now, writeOk)
      ensures touchStartX == old(touchStartX) && touchEndX == old(touchEndX)
      ensures store.settings == old(store.settings)
    {
      if currentIndex < data.birds.Length - 1 {
        var _ := ShowBird(currentIndex + 1, data, store, now, writeOk);
      }
    }

    /** The touchstart listener: record where the touch began. */
    method TouchStart(startX: int)
      modifies this
      ensures touchStartX == startX && touchEndX == old(touchEndX)
      ensures currentIndex == old(currentIndex) && isFlipped == old(isFlipped) && counter == old(counter)
      ensures prevDisabled == old(prevDisabled) && nextDisabled == old(nextDisabled)
    {
      touchStartX := startX;
    }

    /** The touchend listener: record where the touch ended, then handleSwipe. */
    method TouchEnd(endX: int, data: BirdData, store: St.Store, now: St.Timestamp, writeOk: bool)
      requires store.Valid() && Valid(data.birds.Length)
      modifies this, store
      ensures store.Valid() && Valid(data.birds.Length)
      ensures touchEndX == endX && touchStartX == old(touchStartX)
      ensures currentIndex == Moved(old(currentIndex), SwipeMove(old(touchStartX), endX), data.birds.Length)
      ensures currentIndex == old(currentIndex) ==> ViewUnchanged(store)
      ensures currentIndex != old(currentIndex) ==> ShowsCard(currentIndex, data, store, old(store.progress), now, writeOk)
      ensures store.settings == old(store.settings)
    {
      touchEndX := endX;
      var threshold := SWIPE_THRESHOLD;
      var diff := touchEndX - touchStartX;
      if diff > threshold || -diff > threshold {
        if diff > 0 {
          Previous(data, store, now, writeOk);
        } else {
          Next(data, store, now, writeOk);
        }
      }
    }

    /** The keydown listener. */
    method HandleKey(mode: string, key: string, data: BirdData, store: St.Store, now: St.Timestamp, writeOk: bool)
      requires store.Valid() && Valid(data.birds.Length)
      modifies this, store
      ensures store.Valid() && Valid(data.birds.Length)
      ensures currentIndex == Moved(old(currentIndex), KeyMove(mode, key), data.birds.Length)
      ensures isFlipped == (if KeyMove(mode, key) == Flip then !old(isFlipped)
                            else if currentIndex != old(currentIndex) then false
                            else old(isFlipped))
      ensures currentIndex == old(currentIndex) ==>
        counter == old(counter) && store.progress == old(store.progress)
        && prevDisabled == old(prevDisabled) && nextDisabled == old(nextDisabled)
      ensures currentIndex != old(currentIndex) ==> ShowsCard(currentIndex, data, store, old(store.progress), now, writeOk)
      ensures store.settings == old(store.settings)
    {
      if mode != "study" {
        return;
      }
      if key == "ArrowLeft" {
        Previous(data, store, now, writeOk);
      } else if key == "ArrowRight" {
        Next(data, store, now, writeOk);
      } else if key == " " || key == "Enter" {
        FlipCard();
      }
    }

    /** reset: back to the first card. */
    method Reset(data: BirdData, store: St.Store, now: St.Timestamp, writeOk: bool)
      requires store.Valid()
      modifies this, store
      ensures store.Valid() && Valid(data.birds.Length)
      ensures currentIndex == 0
      ensures data.birds.Length > 0 ==> ShowsCard(0, data, store, old(store.progress), now, writeOk)
      ensures data.birds.Length == 0 ==> ViewUnchanged(store)
      ensures store.settings == old(store.settings)
    {
      currentIndex := 0;
      var _ := ShowBird(0, data, store, now, writeOk);
    }
  }

  /** The index after a move on `n` cards (flips and no-ops leave it). */
  function Moved(index: int, m: Move, n: int): (r: int)
    ensures 0 <= index < n ==> 0 <= r < n
    ensures m == ToPrevious ==> r == (if index > 0 then index - 1 else index)
    ensures m == ToNext ==> r == (if index < n - 1 then index + 1 else index)
    ensures m in {Stay, Flip} ==> r == index
  {
    match m
    case ToPrevious => if index > 0 then index - 1 else index
    case ToNext => if index < n - 1 then index + 1 else index
    case _ => index
  }
}
