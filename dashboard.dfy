/** The keepsake dashboard: the full reasons list with a random pick, two
    toggle widgets, and links tagged `from=dashboard`. */
module DashboardScreen {
  import opened Store
  import opened Navigation

  /** The text a reason without one shows on this screen. */
  const MissingText: string := ""

  /** The dashboard page's own state. */
  class DashboardPage {
    var reasons: seq<Reason>
    var currentReason: Option<Reason>
    var isLoading: bool
    var pushes: seq<Location>

    ghost predicate Valid()
      reads this
    {
      && (isLoading ==> reasons == [] && currentReason == None)
      && (currentReason.Some? ==> currentReason.value in reasons)
      && (forall i :: 0 <= i < |pushes| ==> Edge(Dashboard, pushes[i]))
    }

    constructor ()
      ensures Valid() && reasons == [] && currentReason == None && isLoading && pushes == []
    {
      reasons, currentReason, isLoading, pushes := [], None, true, [];
    }

    /** The mount effect's read of the whole `reasons` collection settles.
        Success maps every document; failure leaves the list empty. Either
        way loading ends. */
    method ReasonsSettled(fetch: Outcome<seq<Doc>>)
      requires Valid() && isLoading
      modifies this`reasons, this`isLoading
      ensures Valid() && !isLoading
      ensures reasons == if fetch.Success? then ToReasons(fetch.value, MissingText) else []
    {
      if fetch.Success? {
        reasons := ToReasons(fetch.value, MissingText);
      }
      isLoading := false;
    }

    /** "Show me a reason" is disabled exactly while loading, not when the
        list is empty. */
    function ShowButtonEnabled(): bool
      reads this
    {
      !isLoading
    }

    /** `showRandomReason`, with `draw` standing for
        `Math.floor(Math.random() * reasons.length)`. An empty list returns
        early; otherwise the drawn reason is shown. */
    method ShowRandomReason(draw: nat)
      requires Valid()
      requires reasons != [] ==> draw < |reasons|
      modifies this`currentReason
      ensures Valid()
      ensures old(reasons) == [] ==> currentReason == old(currentReason)
      ensures old(reasons) != [] ==> currentReason == Some(reasons[draw])
    {
      if |reasons| == 0 {
        return;
      }
      currentReason := Some(reasons[draw]);
    }

    /** The "Story of Us" tile: push the memories screen, tagged. */
    method OpenMemories()
      requires Valid()
      modifies this`pushes
      ensures Valid() && pushes == old(pushes) + [Location(Memories, true)]
    {
      pushes := pushes + [Location(Memories, true)];
    }
  }

  /** `InteractiveCake`: starts lit; its button flips the flame and never
      navigates (the widget holds no router). */
  class CandleWidget {
    var isLit: bool

    constructor ()
      ensures isLit
    {
      isLit := true;
    }

    method Toggle()
      modifies this
      ensures isLit == !old(isLit)
    {
      isLit := !isLit;
    }
  }

  /** `InteractiveCard`: starts closed; its button flips the envelope, and
      the line inside the letter pushes the card screen, tagged. */
  class LetterWidget {
    var isOpen: bool
    var pushes: seq<Location>

    ghost predicate Valid()
      reads this
    {
      forall i :: 0 <= i < |pushes| ==> Edge(Dashboard, pushes[i])
    }

    constructor ()
      ensures Valid() && !isOpen && pushes == []
    {
      isOpen, pushes := false, [];
    }

    method Toggle()
      modifies this`isOpen
      ensures isOpen == !old(isOpen)
    {
      isOpen := !isOpen;
    }

    /** The line inside the letter. On screen it lies under the envelope's
        front and flap until the envelope opens; that layering is rendering
        and is not modelled, so the link may be followed in either state. */
    method ReReadLetter()
      requires Valid()
      modifies this`pushes
      ensures Valid() && pushes == old(pushes) + [Location(Card, true)]
    {
      pushes := pushes + [Location(Card, true)];
    }
  }

  /** Two flips of either widget restore it, and neither flip navigates. */
  method WidgetsToggleTwice() returns (lit: bool, open: bool, log: seq<Location>)
    ensures lit && !open && log == []
  {
    var cake := new CandleWidget();
    var card := new LetterWidget();
    cake.Toggle();
    card.Toggle();
    cake.Toggle();
    card.Toggle();
    lit, open, log := cake.isLit, card.isOpen, card.pushes;
  }

  /** Whatever the fetch settles with, the button is then enabled; a click
      shows nothing exactly when the list stayed empty (a failed read or an
      empty collection), and otherwise shows the drawn document's reason. */
  method SettleThenShow(fetch: Outcome<seq<Doc>>, draw: nat) returns (enabled: bool, shown: Option<Reason>)
    requires fetch.Success? && fetch.value != [] ==> draw < |fetch.value|
    ensures enabled
    ensures shown == None <==> fetch.Failure? || fetch.value == []
    ensures shown.Some? ==>
      && fetch.Success? && draw < |fetch.value|
      && shown.value.id == fetch.value[draw].id
      && shown.value.text == Or(fetch.value[draw].text, MissingText)
      && shown.value.icon == Or(fetch.value[draw].icon, Heart)
  {
    var page := new DashboardPage();
    page.ReasonsSettled(fetch);
    enabled := page.ShowButtonEnabled();
    page.ShowRandomReason(draw);
    shown := page.currentReason;
  }
}
