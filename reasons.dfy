/** The reasons screen: the first ten reasons, a link to the dashboard once
    loaded, and a control that continues to the memories screen. */
module ReasonsScreen {
  import opened Store
  import opened Navigation
  import DashboardScreen

  /** The query's `limit(10)`. */
  const QueryLimit: nat := 10

  /** The text a reason without one shows on this screen. */
  const MissingText: string := "Loading..."

  class ReasonsPage {
    var reasons: seq<Reason>
    var isLoading: bool
    var pushes: seq<Location>

    ghost predicate Valid()
      reads this
    {
      && |reasons| <= QueryLimit
      && (isLoading ==> reasons == [])
      && (forall i :: 0 <= i < |pushes| ==> Edge(Reasons, pushes[i]))
    }

    constructor ()
      ensures Valid() && reasons == [] && isLoading && pushes == []
    {
      reasons, isLoading, pushes := [], true, [];
    }

    /** The limited query over the collection `coll` (in the store's order)
        settles. Success maps the first ten documents; failure leaves the
        list empty. Either way loading ends. */
    method ReasonsSettled(coll: Outcome<seq<Doc>>)
      requires Valid() && isLoading
      modifies this`reasons, this`isLoading
      ensures Valid() && !isLoading
      ensures reasons == if coll.Success? then ToReasons(Limit(coll.value, QueryLimit), MissingText) else []
    {
      if coll.Success? {
        reasons := ToReasons(Limit(coll.value, QueryLimit), MissingText);
      }
      isLoading := false;
    }

    /** The "see them all" message and its dashboard link appear exactly
        once loading has ended. */
    function SeeAllShown(): bool
      reads this
    {
      !isLoading
    }

    /** A click on the dashboard link, which exists only once loaded. */
    method ClickSeeAll()
      requires Valid() && SeeAllShown()
      modifies this`pushes
      ensures Valid() && pushes == old(pushes) + [Plain(Dashboard)]
    {
      pushes := pushes + [Plain(Dashboard)];
    }

    /** `goToNextPage`: the continue button is always rendered and always
        pushes the memories screen. */
    method GoToNextPage()
      requires Valid()
      modifies this`pushes
      ensures Valid() && pushes == old(pushes) + [Plain(Memories)]
    {
      pushes := pushes + [Plain(Memories)];
    }
  }

  /** Before the fetch settles the dashboard link is not rendered, so it
      cannot be clicked; after it settles, whatever the outcome, it is shown
      and pushes the dashboard. */
  method SeeAllAfterSettle(coll: Outcome<seq<Doc>>) returns (before: bool, after: bool, log: seq<Location>)
    ensures !before && after && log == [Plain(Dashboard)]
  {
    var page := new ReasonsPage();
    before := page.SeeAllShown();
    page.ReasonsSettled(coll);
    after := page.SeeAllShown();
    page.ClickSeeAll();
    log := page.pushes;
  }

  /** The two screens read the same collection: this screen's list is the
      start of the dashboard's, with the same ids and icons in the same
      order, and the same text wherever the document has any. */
  lemma {:induction false} ListedPrefixOfDashboard(coll: seq<Doc>, i: nat)
    requires i < |ToReasons(Limit(coll, QueryLimit), MissingText)|
    ensures i < |ToReasons(coll, DashboardScreen.MissingText)|
    ensures ToReasons(Limit(coll, QueryLimit), MissingText)[i].id == ToReasons(coll, DashboardScreen.MissingText)[i].id
    ensures ToReasons(Limit(coll, QueryLimit), MissingText)[i].icon == ToReasons(coll, DashboardScreen.MissingText)[i].icon
    ensures coll[i].text.Some? && coll[i].text.value != "" ==>
      ToReasons(Limit(coll, QueryLimit), MissingText)[i].text == ToReasons(coll, DashboardScreen.MissingText)[i].text
  {
    var limited := Limit(coll, QueryLimit);
    assert limited[i] == coll[i];
  }
}
