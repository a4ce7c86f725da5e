/** The flashcard viewer of a topic page (TopicContent): a current card
    index that steps forward and back cyclically over the topic's cards, and
    a flag that says whether the answer or the question is shown. */
module Flashcards {
  import opened Wrappers

  datatype Flashcard = Flashcard(question: string, answer: string)

  /** The topic fields the flashcard logic reads; the article, videos,
      references and downloads are display-only and not modelled. */
  datatype Topic = Topic(title: string, description: string, flashcards: seq<Flashcard>)

  /** The index after `i` among `n` cards: `(i + 1) % n`. */
  function NextIndex(i: nat, n: nat): (j: nat)
    requires i < n
    ensures j < n
    ensures j == if i == n - 1 then 0 else i + 1
  {
    (i + 1) % n
  }

  /** The index before `i` among `n` cards: `(i - 1 + n) % n`. */
  function PrevIndex(i: nat, n: nat): (j: nat)
    requires i < n
    ensures j < n
    ensures j == if i == 0 then n - 1 else i - 1
  {
    (i - 1 + n) % n
  }

  /** Stepping back undoes stepping forward, and the other way round. */
  lemma StepsAreInverse(i: nat, n: nat)
    requires i < n
    ensures PrevIndex(NextIndex(i, n), n) == i
    ensures NextIndex(PrevIndex(i, n), n) == i
  {
  }

  /** The index reached from `i` by pressing "Next" `k` times. */
  function Advance(i: nat, k: nat, n: nat): (j: nat)
    requires i < n
    ensures j < n
  {
    if k == 0 then i else NextIndex(Advance(i, k - 1, n), n)
  }

  /** `d * n` lies strictly between `-n` and `n` only for `d == 0`. */
  lemma MultipleBetween(d: int, n: int)
    requires n > 0 && -n < d * n < n
    ensures d == 0
  {
  }

  /** The remainder is determined by any quotient-remainder decomposition. */
  lemma ModUnique(a: int, n: int, q: int, r: int)
    requires n > 0 && 0 <= r < n && a == q * n + r
    ensures a % n == r
  {
    assert (a / n - q) * n == r - a % n;
    MultipleBetween(a / n - q, n);
  }

  /** The remainder of a successor wraps from `n - 1` to `0`. */
  lemma ModSucc(a: nat, n: nat)
    requires n > 0
    ensures (a + 1) % n == if a % n == n - 1 then 0 else a % n + 1
  {
    var q, r := a / n, a % n;
    assert a == q * n + r;
    if r == n - 1 {
      assert a + 1 == (q + 1) * n + 0;
      ModUnique(a + 1, n, q + 1, 0);
    } else {
      ModUnique(a + 1, n, q, r + 1);
    }
  }

  /** Pressing "Next" `k` times moves `k` places round the cycle. */
  lemma {:induction false} AdvanceIsModular(i: nat, k: nat, n: nat)
    requires i < n
    ensures Advance(i, k, n) == (i + k) % n
  {
    if k == 0 {
      ModUnique(i, n, 0, i);
    } else {
      AdvanceIsModular(i, k - 1, n);
      ModSucc(i + k - 1, n);
    }
  }

  /** Pressing "Next" once per card comes back to the starting card. */
  lemma FullCycle(i: nat, n: nat)
    requires i < n
    ensures Advance(i, n, n) == i
  {
    AdvanceIsModular(i, n, n);
    ModUnique(i + n, n, 1, i);
  }

  /** The `currentFlashcard` / `showAnswer` state of the page for a topic
      with `total` cards. */
  class FlashcardNavigator {
    const total: nat
    var current: nat
    var showAnswer: bool

    ghost predicate Valid()
      reads this
    {
      current < total
    }

    constructor(total: nat)
      requires total > 0
      ensures Valid()
      ensures this.total == total && current == 0 && !showAnswer
    {
      this.total := total;
      current := 0;
      showAnswer := false;
    }

    /** `nextFlashcard`: hide the answer and move to the following card. */
    method Next()
      requires Valid()
      modifies this
      ensures Valid()
      ensures current == NextIndex(old(current), total)
      ensures !showAnswer
    {
      showAnswer := false;
      current := (current + 1) % total;
    }

    /** `prevFlashcard`: hide the answer and move to the preceding card. */
    method Prev()
      requires Valid()
      modifies this
      ensures Valid()
      ensures current == PrevIndex(old(current), total)
      ensures !showAnswer
    {
      showAnswer := false;
      current := (current - 1 + total) % total;
    }

    /** The "Show Answer" / "Show Question" button. */
    method ToggleAnswer()
      requires Valid()
      modifies this
      ensures Valid()
      ensures showAnswer == !old(showAnswer)
      ensures current == old(current)
    {
      showAnswer := !showAnswer;
    }

    /** The position in the "n of total" badge. */
    function Position(): (p: nat)
      reads this
      requires Valid()
      ensures 1 <= p <= total
    {
      current + 1
    }
  }

  /** A client of the navigator: from any card, "Next" then "Previous"
      returns to it with the question showing. */
  method NextThenPrev(nav: FlashcardNavigator)
    requires nav.Valid()
    modifies nav
    ensures nav.Valid() && nav.current == old(nav.current) && !nav.showAnswer
  {
    StepsAreInverse(nav.current, nav.total);
    nav.Next();
    nav.Prev();
  }

  datatype Side = QuestionSide | AnswerSide

  datatype FlashcardView = FlashcardView(position: nat, total: nat, side: Side, text: string)

  datatype TopicPage = TopicNotFound | TopicFound(title: string, card: FlashcardView)

  /** The page for `topicId`: "Topic not found" when the topic is unknown,
      otherwise the current card, showing its answer or its question. */
  function RenderTopic(topicData: map<string, Topic>, topicId: string, current: nat, showAnswer: bool): (page: TopicPage)
    requires topicId in topicData ==> current < |topicData[topicId].flashcards|
    ensures page.TopicNotFound? <==> topicId !in topicData
    ensures page.TopicFound? ==>
      var cards := topicData[topicId].flashcards;
      && page.card.total == |cards|
      && 1 <= page.card.position <= |cards|
      && page.card.position == current + 1
      && (showAnswer <==> page.card.side == AnswerSide)
      && page.card.text == (if showAnswer then cards[current].answer else cards[current].question)
  {
    match Get(topicData, topicId)
    case None => TopicNotFound
    case Some(topic) =>
      var card := topic.flashcards[current];
      TopicFound(topic.title,
                 FlashcardView(current + 1, |topic.flashcards|,
                               if showAnswer then AnswerSide else QuestionSide,
                               if showAnswer then card.answer else card.question))
  }
}
