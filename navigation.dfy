/** The screens of the app and the `router.push` calls each of them issues. */
module Navigation {

  datatype Page = Home | Welcome | Cake | Card | Reasons | Memories | Final | Dashboard

  /** A pushed URL: a page, and whether the URL carries `?from=dashboard`.
      No page reads that parameter; it only distinguishes the URL. */
  datatype Location = Location(page: Page, fromDashboard: bool)

  function Plain(p: Page): Location { Location(p, false) }

  /** Every `router.push` in the app, keyed by the screen that issues it. */
  predicate Edge(from: Page, to: Location)
    ensures Edge(from, to) ==> to.page != Home
    ensures Edge(from, to) && to.fromDashboard ==> from == Dashboard
    ensures Edge(from, to) ==> from != to.page
  {
    match from
    case Home => to == Plain(Welcome)
    case Welcome => to == Plain(Cake)
    case Cake => to == Plain(Card)
    case Card => to == Plain(Reasons) || to == Plain(Dashboard)
    case Reasons => to == Plain(Memories) || to == Plain(Dashboard)
    case Memories => to == Plain(Final)
    case Final => to == Plain(Dashboard)
    case Dashboard => to == Location(Card, true) || to == Location(Memories, true)
  }

  /** The screens reachable in one push, whatever the query string. */
  predicate Step(a: Page, b: Page) {
    Edge(a, Location(b, false)) || Edge(a, Location(b, true))
  }

  /** A sequence of screens visited one push after another. */
  predicate IsWalk(w: seq<Page>) {
    forall i :: 0 <= i < |w| - 1 ==> Step(w[i], w[i + 1])
  }

  /** The story line the "next" controls follow from the gate to the end. */
  const StoryLine: seq<Page> := [Home, Welcome, Cake, Card, Reasons, Memories, Final]

  /** Only the dashboard tags a URL with `from=dashboard`; no other screen
      forwards the tag on its own pushes. */
  lemma FromDashboardOnlyFromDashboard(p: Page, l: Location)
    requires Edge(p, l) && l.fromDashboard
    ensures p == Dashboard && (l.page == Card || l.page == Memories)
  {
  }

  /** The gate's one exit is the welcome screen. */
  lemma HomeLeadsOnlyToWelcome(l: Location)
    ensures Edge(Home, l) <==> l == Plain(Welcome)
  {
  }

  /** No push leads back to the gate, to the welcome screen other than from
      the gate, or to the cake screen other than from the welcome screen: along
      any walk each of them appears at most at its place on the story line. */
  lemma {:induction false} PrologueVisitedOnce(w: seq<Page>, i: nat)
    requires IsWalk(w) && 0 < i < |w|
    ensures w[i] != Home
    ensures w[i] == Welcome ==> i == 1 && w[0] == Home
    ensures w[i] == Cake ==> (i == 2 && w[0] == Home) || (i == 1 && w[0] == Welcome)
  {
    assert Step(w[i - 1], w[i]);
    if i > 1 {
      PrologueVisitedOnce(w, i - 1);
    }
  }

  /** The story line is a walk from the gate to the final screen. */
  lemma StoryLineIsWalk()
    ensures IsWalk(StoryLine) && StoryLine[0] == Home && StoryLine[|StoryLine| - 1] == Final
  {
  }

  /** Every screen can be reached from the gate. */
  lemma {:induction false} EveryPageReachable(p: Page)
    ensures exists w :: IsWalk(w) && |w| > 0 && w[0] == Home && w[|w| - 1] == p
  {
    var w := match p
      case Home => [Home]
      case Welcome => [Home, Welcome]
      case Cake => [Home, Welcome, Cake]
      case Card => [Home, Welcome, Cake, Card]
      case Reasons => [Home, Welcome, Cake, Card, Reasons]
      case Memories => [Home, Welcome, Cake, Card, Reasons, Memories]
      case Final => StoryLine
      case Dashboard => [Home, Welcome, Cake, Card, Dashboard];
    assert IsWalk(w) && w[0] == Home && w[|w| - 1] == p;
  }

  /** A walk that starts at the dashboard never returns to the gate, the
      welcome screen or the cake screen. */
  lemma {:induction false} DashboardLoop(w: seq<Page>, i: nat)
    requires IsWalk(w) && |w| > 0 && w[0] == Dashboard && i < |w|
    ensures w[i] !in {Home, Welcome, Cake}
  {
    if i > 0 {
      DashboardLoop(w, i - 1);
      assert Step(w[i - 1], w[i]);
    }
  }

  /** The dashboard lies on a cycle through every screen after the prologue. */
  lemma DashboardCycle()
    ensures IsWalk([Dashboard, Card, Reasons, Memories, Final, Dashboard])
  {
  }
}
