/** The letter screen: an envelope that opens and closes freely, a "next"
    control shown only while it is open, and a dashboard button always. */
module CardScreen {
  import opened Navigation

  /** The clickable elements of the screen. */
  datatype Control = OpenLetter | CloseLetter | SeeWhatsNext | GoToDashboard

  /** The screen's state. The screen takes no input from its URL, so it
      starts and behaves the same whether or not `from=dashboard` is set. */
  class CardPage {
    var isOpen: bool
    var pushes: seq<Location>

    /** Every push the screen makes is one of its two edges. */
    ghost predicate Valid()
      reads this
    {
      forall i :: 0 <= i < |pushes| ==> Edge(Card, pushes[i])
    }

    constructor ()
      ensures Valid() && !isOpen && pushes == []
    {
      isOpen, pushes := false, [];
    }

    /** The controls rendered in the current state. */
    function Controls(): set<Control>
      reads this
    {
      if isOpen then {CloseLetter, SeeWhatsNext, GoToDashboard} else {OpenLetter, GoToDashboard}
    }

    /** `goToNextPage`: push the reasons screen. */
    method GoToNextPage()
      requires Valid()
      modifies this`pushes
      ensures Valid() && pushes == old(pushes) + [Plain(Reasons)]
    {
      pushes := pushes + [Plain(Reasons)];
    }

    /** A click on a rendered control. */
    method Click(c: Control)
      requires Valid() && c in Controls()
      modifies this
      ensures Valid()
      ensures c == OpenLetter ==> isOpen && pushes == old(pushes)
      ensures c == CloseLetter ==> !isOpen && pushes == old(pushes)
      ensures c == SeeWhatsNext ==> isOpen == old(isOpen) && pushes == old(pushes) + [Plain(Reasons)]
      ensures c == GoToDashboard ==> isOpen == old(isOpen) && pushes == old(pushes) + [Plain(Dashboard)]
    {
      match c
      case OpenLetter => isOpen := true;
      case CloseLetter => isOpen := false;
      case SeeWhatsNext => GoToNextPage();
      case GoToDashboard => pushes := pushes + [Plain(Dashboard)];
    }
  }

  /** Open, close, open again: each step lands where expected and closing
      returns the envelope to its first state, with no navigation. */
  method OpenCloseOpen() returns (states: seq<bool>, log: seq<Location>)
    ensures states == [false, true, false, true] && log == []
  {
    var page := new CardPage();
    states := [page.isOpen];
    page.Click(OpenLetter);
    states := states + [page.isOpen];
    page.Click(CloseLetter);
    states := states + [page.isOpen];
    page.Click(OpenLetter);
    states := states + [page.isOpen];
    log := page.pushes;
  }
}
