/** The card catalog, the three-card draw and the answer synthesizer. */
module Cards {
  import opened Wrappers
  import Text

  /** One entry of the catalog read from `cards.json`. */
  datatype Card = Card(name: string, description: string, image: Option<string>)

  /** What `random.sample(catalog, 3)` returned, as three positions in the catalog. */
  datatype Draw = Draw(first: nat, second: nat, third: nat)

  /** A draw `random.sample` can produce: three distinct positions of the catalog. */
  predicate ValidDraw(catalog: seq<Card>, d: Draw) {
    && d.first < |catalog| && d.second < |catalog| && d.third < |catalog|
    && d.first != d.second && d.first != d.third && d.second != d.third
  }

  /** The drawn cards in draw order: three catalog entries taken from three
      different positions. */
  function Drawn(catalog: seq<Card>, d: Draw): (cards: seq<Card>)
    requires ValidDraw(catalog, d)
    ensures |cards| == 3
    ensures forall k :: 0 <= k < 3 ==> cards[k] in catalog
    ensures Text.Distinct(catalog) ==> cards[0] != cards[1] && cards[0] != cards[2] && cards[1] != cards[2]
  {
    [catalog[d.first], catalog[d.second], catalog[d.third]]
  }

  function Names(cards: seq<Card>): (names: seq<string>)
    ensures |names| == |cards|
    ensures forall k :: 0 <= k < |cards| ==> names[k] == cards[k].name
  {
    seq(|cards|, k requires 0 <= k < |cards| => cards[k].name)
  }

  /** The `cards` column of a history row: the card names joined with ','. */
  function CardsColumn(cards: seq<Card>): (column: string)
    ensures |cards| > 0 ==> |cards[0].name| <= |column| && column[..|cards[0].name|] == cards[0].name
    ensures |cards| > 0 && (forall k :: 0 <= k < |cards| ==> ',' !in cards[k].name) ==>
              multiset(column)[','] == |cards| - 1
  {
    Text.Join(Names(cards), ',')
  }

  /** When no card name contains a comma, the `cards` column splits back into
      the names of the drawn cards, in draw order. */
  lemma CardsColumnRoundTrip(cards: seq<Card>)
    requires |cards| >= 1
    requires forall k :: 0 <= k < |cards| ==> ',' !in cards[k].name
    ensures Text.Split(CardsColumn(cards), ',') == Names(cards)
  {
    Text.SplitJoin(Names(cards), ',');
  }

  // ---------------------------------------------------------------------------
  // generate_answer
  // ---------------------------------------------------------------------------

  const Opening := "В ответ на ваш вопрос '"
  const BeforeCards := "' карты "
  const Comma := ", "
  const And := " и "
  const Closing := " подсказывают, что вы на перепутье. Доверьтесь интуиции и двигайтесь вперёд."

  /** The reply used when the backend answers with a status other than 200. */
  const NoAnswer := "Не удалось получить ответ ИИ."

  /** The answer when no backend token is configured: a fixed sentence that
      quotes the question and names the first three cards in draw order. */
  function FallbackAnswer(question: string, cards: seq<Card>): (answer: string)
    requires |cards| >= 3
    ensures Text.ContainsAt(answer, question, |Opening|)
    ensures Text.Contains(answer, question)
    ensures forall k :: 0 <= k < 3 ==> Text.Contains(answer, cards[k].name)
  {
    var c0 := Opening + question + BeforeCards;
    var c1 := c0 + cards[0].name + Comma;
    var c2 := c1 + cards[1].name + And;
    var answer := c2 + cards[2].name + Closing;
    assert Text.ContainsAt(answer, question, |Opening|);
    assert Text.ContainsAt(answer, cards[0].name, |c0|);
    assert Text.ContainsAt(answer, cards[1].name, |c1|);
    assert Text.ContainsAt(answer, cards[2].name, |c2|);
    answer
  }

  /** What the text-completion backend did, as far as `generate_answer` sees it. */
  datatype Backend =
    | NoToken                                         // PROXYAPI_TOKEN unset or empty
    | Replied(status: int, content: Option<string>)   // content: choices[0].message.content, if the body has it
    | Unreachable                                     // the request raised before any status arrived

  /** `generate_answer`: `None` when it raises (the request fails, or a 200
      body lacks the completion text); otherwise the answer text. */
  function GenerateAnswer(backend: Backend, cards: seq<Card>, question: string): (r: Option<string>)
    requires |cards| >= 3
    ensures r.None? <==> backend.Unreachable? || (backend.Replied? && backend.status == 200 && backend.content.None?)
    ensures backend.NoToken? ==> r.Some? && Text.Contains(r.value, question)
                                 && forall k :: 0 <= k < 3 ==> Text.Contains(r.value, cards[k].name)
    ensures backend.Replied? && backend.status != 200 ==> r == Some(NoAnswer)
  {
    match backend
    case NoToken => Some(FallbackAnswer(question, cards))
    case Replied(status, content) => if status != 200 then Some(NoAnswer) else content
    case Unreachable => None
  }
}
