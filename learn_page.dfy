/** The flashcard page (pages/Learn.tsx): a card index bounded by the deck
    and a flipped flag, driven by buttons, a click and the keyboard. */
module LearnPage {
  import opened Types

  /** What an input asks the page to do. */
  datatype Action = GoNext | GoPrev | Flip | Ignore

  /** The window's key handler, on the key's code. */
  function KeyAction(code: string): Action
  {
    if code == "ArrowRight" then GoNext
    else if code == "ArrowLeft" then GoPrev
    else if code == "Space" then Flip
    else Ignore
  }

  /** The card's own key handler, on the key's name. */
  function CardKeyAction(key: string): Action
  {
    if key == "Enter" then Flip else Ignore
  }

  /** Exactly the three handled codes do something, each its own action. */
  lemma KeyActionOnlyHandledKeys(code: string)
    ensures KeyAction(code) != Ignore <==> code in ["ArrowRight", "ArrowLeft", "Space"]
    ensures KeyAction("ArrowRight") == GoNext && KeyAction("ArrowLeft") == GoPrev
    ensures KeyAction("Space") == Flip
    ensures CardKeyAction(code) != Ignore <==> code == "Enter"
    ensures CardKeyAction("Enter") == Flip
  {
  }

  /** What is on screen: which card and which face. */
  datatype View = View(index: int, flipped: bool)

  /** Next: one card on, front up, only when a later card exists. */
  function AfterNext(count: int, v: View): View
  {
    if v.index < count - 1 then View(v.index + 1, false) else v
  }

  /** Previous: one card back, front up, only when an earlier card exists. */
  function AfterPrev(v: View): View
  {
    if v.index > 0 then View(v.index - 1, false) else v
  }

  function Apply(count: int, v: View, a: Action): View
  {
    match a
    case GoNext => AfterNext(count, v)
    case GoPrev => AfterPrev(v)
    case Flip => v.(flipped := !v.flipped)
    case Ignore => v
  }

  /** The view after a run of inputs, in order. */
  function Run(count: int, v: View, actions: seq<Action>): View
    decreases |actions|
  {
    if actions == [] then v else Run(count, Apply(count, v, actions[0]), actions[1..])
  }

  /** The index names a card of the deck, or is 0 while the deck is empty. */
  predicate InDeck(count: nat, v: View)
  {
    0 <= v.index && (v.index < count || v.index == 0)
  }

  /** Every input keeps the index in the deck; the index moves by at most
      one, and a move shows the card front up. */
  lemma ApplyStaysInDeck(count: nat, v: View, a: Action)
    requires InDeck(count, v)
    ensures InDeck(count, Apply(count, v, a))
    ensures -1 <= Apply(count, v, a).index - v.index <= 1
    ensures Apply(count, v, a).index != v.index ==> !Apply(count, v, a).flipped
  {
  }

  /** From any view inside the deck, no run of inputs takes the index out
      of the deck. */
  lemma {:induction false} RunStaysInDeck(count: nat, v: View, actions: seq<Action>)
    requires InDeck(count, v)
    ensures InDeck(count, Run(count, v, actions))
    decreases |actions|
  {
    if actions != [] {
      ApplyStaysInDeck(count, v, actions[0]);
      RunStaysInDeck(count, Apply(count, v, actions[0]), actions[1..]);
    }
  }

  /** Next then Previous from any card but the last returns to that card,
      front up; at the last card Next does nothing. */
  lemma NextThenPrev(count: nat, v: View)
    requires InDeck(count, v)
    ensures v.index < count - 1 ==> AfterPrev(AfterNext(count, v)) == View(v.index, false)
    ensures v.index >= count - 1 ==> AfterNext(count, v) == v
  {
  }

  /** Flipping twice shows the face that was up before. */
  lemma FlipTwice(count: int, v: View)
    ensures Apply(count, Apply(count, v, Flip), Flip) == v
    ensures Apply(count, v, Flip).flipped != v.flipped
  {
  }

  /** On an empty deck neither Next nor Previous ever moves the index. */
  lemma EmptyDeckNeverMoves(v: View, actions: seq<Action>)
    requires v.index == 0
    ensures Run(0, v, actions).index == 0
  {
    RunStaysInDeck(0, v, actions);
  }

  /** One mounted flashcard page. */
  class Deck {
    var flashcards: seq<Flashcard>
    var currentIndex: int
    var isFlipped: bool

    ghost predicate Valid()
      reads this
    {
      InDeck(|flashcards|, View(currentIndex, isFlipped))
    }

    /** Mounting: no cards yet, the first position, front up. */
    constructor ()
      ensures Valid()
      ensures flashcards == [] && currentIndex == 0 && !isFlipped
    {
      flashcards := [];
      currentIndex := 0;
      isFlipped := false;
    }

    /** The mount effect stores the shuffled deck (the shuffle is supplied). */
    method Load(shuffled: seq<Flashcard>)
      requires Valid() && flashcards == []
      modifies this`flashcards
      ensures Valid()
      ensures flashcards == shuffled && currentIndex == 0
    {
      flashcards := shuffled;
    }

    /** The Next button, or the right arrow key. */
    method Next()
      requires Valid()
      modifies this`currentIndex, this`isFlipped
      ensures Valid()
      ensures View(currentIndex, isFlipped) == AfterNext(|flashcards|, old(View(currentIndex, isFlipped)))
    {
      ApplyStaysInDeck(|flashcards|, View(currentIndex, isFlipped), GoNext);
      if currentIndex < |flashcards| - 1 {
        isFlipped := false;
        currentIndex := currentIndex + 1;
      }
    }

    /** The Previous button, or the left arrow key. */
    method Prev()
      requires Valid()
      modifies this`currentIndex, this`isFlipped
      ensures Valid()
      ensures View(currentIndex, isFlipped) == AfterPrev(old(View(currentIndex, isFlipped)))
    {
      if currentIndex > 0 {
        isFlipped := false;
        currentIndex := currentIndex - 1;
      }
    }

    /** A click on the card, Enter on the card, or the space bar. */
    method Flip()
      requires Valid()
      modifies this`isFlipped
      ensures Valid()
      ensures isFlipped == !old(isFlipped)
    {
      isFlipped := !isFlipped;
    }

    /** The window's keydown listener. */
    method KeyDown(code: string)
      requires Valid()
      modifies this`currentIndex, this`isFlipped
      ensures Valid()
      ensures View(currentIndex, isFlipped) == Apply(|flashcards|, old(View(currentIndex, isFlipped)), KeyAction(code))
    {
      if code == "ArrowRight" {
        Next();
      }
      if code == "ArrowLeft" {
        Prev();
      }
      if code == "Space" {
        Flip();
      }
    }
  }
}
