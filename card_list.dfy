/** The card grid and the enlarged-image modal it controls. */
module CardList {

  /** One image record as the list receives it. */
  datatype Card = Card(title: string, description: string, url: string, ts: int, id: string)

  /** A rendered card: its React key and the record it shows. */
  datatype CardElement = CardElement(key: string, data: Card)

  /** One card element per record, in input order, keyed by the record's id. */
  function RenderCards(cards: seq<Card>): (r: seq<CardElement>)
    ensures |r| == |cards|
    ensures forall i :: 0 <= i < |cards| ==> r[i].key == cards[i].id && r[i].data == cards[i]
  {
    if cards == [] then [] else [CardElement(cards[0].id, cards[0])] + RenderCards(cards[1..])
  }

  /** Rendering a concatenation renders each part, in order. */
  lemma RenderCardsAppend(a: seq<Card>, b: seq<Card>)
    ensures RenderCards(a + b) == RenderCards(a) + RenderCards(b)
  {
  }

  /** Distinct ids give distinct keys. */
  lemma KeysDistinct(cards: seq<Card>)
    requires forall i, j :: 0 <= i < j < |cards| ==> cards[i].id != cards[j].id
    ensures forall i, j :: 0 <= i < j < |cards| ==> RenderCards(cards)[i].key != RenderCards(cards)[j].key
  {
  }

  // ---------------------------------------------------------------------
  // The view state
  // ---------------------------------------------------------------------

  /** Whether the modal is open and which image it shows. */
  datatype ViewState = ViewState(isOpen: bool, selectedImageUrl: string)

  const InitialView := ViewState(false, "")

  /** The two handlers: viewing an image and closing the modal. */
  datatype ViewEvent = ViewImage(url: string) | CloseViewImage

  /** The state after one handler runs. */
  function Step(s: ViewState, e: ViewEvent): (t: ViewState) {
    match e
    case ViewImage(url) => ViewState(true, url)
    case CloseViewImage => InitialView
  }

  /** The state after a sequence of handler runs, first to last. */
  function Run(s: ViewState, events: seq<ViewEvent>): (t: ViewState)
    decreases |events|
  {
    if events == [] then s else Run(Step(s, events[0]), events[1..])
  }

  /** The modal is never closed while still holding a selection. */
  predicate Consistent(s: ViewState) {
    !s.isOpen ==> s.selectedImageUrl == ""
  }

  /** There is no stack of modals: after any non-empty sequence of handler
      runs, the state depends on the last run alone. */
  lemma {:induction false} RunLast(s: ViewState, events: seq<ViewEvent>)
    requires events != []
    ensures Run(s, events) == Step(InitialView, events[|events| - 1])
    ensures events[|events| - 1].ViewImage? ==>
      Run(s, events) == ViewState(true, events[|events| - 1].url)
    ensures events[|events| - 1].CloseViewImage? ==> Run(s, events) == InitialView
    decreases |events|
  {
    if |events| > 1 {
      RunLast(Step(s, events[0]), events[1..]);
      assert events[1..][|events[1..]| - 1] == events[|events| - 1];
    }
  }

  /** Every reachable state keeps the selection empty while the modal is closed. */
  lemma {:induction false} RunConsistent(s: ViewState, events: seq<ViewEvent>)
    requires Consistent(s)
    ensures Consistent(Run(s, events))
    decreases |events|
  {
    if events != [] {
      RunConsistent(Step(s, events[0]), events[1..]);
    }
  }

  /** What the modal is given. */
  datatype ModalProps = ModalProps(isOpen: bool, imgUrl: string)

  /** What the component renders: the modal and the grid of cards. */
  datatype CardListView = CardListView(modal: ModalProps, cards: seq<CardElement>)

  /** The component's two pieces of state. */
  class CardListComponent {
    var isOpen: bool
    var selectedImageUrl: string

    function State(): (s: ViewState)
      reads this
    {
      ViewState(isOpen, selectedImageUrl)
    }

    constructor ()
      ensures State() == InitialView
    {
      isOpen := false;
      selectedImageUrl := "";
    }

    /** Shows `url` in the modal, replacing any earlier selection. */
    method HandleViewImage(url: string)
      modifies this
      ensures isOpen && selectedImageUrl == url
      ensures State() == Step(old(State()), ViewImage(url))
    {
      selectedImageUrl := url;
      isOpen := true;
    }

    /** Closes the modal and forgets the selection. */
    method HandleCloseViewImage()
      modifies this
      ensures !isOpen && selectedImageUrl == ""
      ensures State() == Step(old(State()), CloseViewImage)
    {
      isOpen := false;
      selectedImageUrl := "";
    }

    /** The rendered output: the modal gets the current state, the grid one
        element per card. */
    function Render(cards: seq<Card>): (v: CardListView)
      reads this
      ensures v.modal.isOpen == State().isOpen && v.modal.imgUrl == State().selectedImageUrl
      ensures |v.cards| == |cards|
      ensures forall i :: 0 <= i < |cards| ==> v.cards[i] == CardElement(cards[i].id, cards[i])
    {
      CardListView(ModalProps(isOpen, selectedImageUrl), RenderCards(cards))
    }
  }

  /** Select card a, close, select card b, then select card a again while the
      modal is still open: the last selection simply replaces the earlier one. */
  method SelectionScenario(a: Card, b: Card) returns (afterFirst: CardListView, afterClose: CardListView, last: CardListView)
    ensures afterFirst.modal == ModalProps(true, a.url)
    ensures afterClose.modal == ModalProps(false, "")
    ensures last.modal == ModalProps(true, a.url)
    ensures last.cards == [CardElement(a.id, a), CardElement(b.id, b)]
  {
    var list := new CardListComponent();
    list.HandleViewImage(a.url);
    afterFirst := list.Render([a, b]);
    list.HandleCloseViewImage();
    afterClose := list.Render([a, b]);
    list.HandleViewImage(b.url);
    list.HandleViewImage(a.url);
    last := list.Render([a, b]);
  }
}
