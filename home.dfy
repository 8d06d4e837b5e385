/** The gate screen: fetch the unlock instant, count down to it once a
    second, and redirect to the welcome screen once it has passed. */
module HomeScreen {
  import opened Store
  import opened Navigation

  const MsPerSecond: nat := 1000
  const MsPerMinute: nat := 60000
  const MsPerHour: nat := 3600000
  const MsPerDay: nat := 86400000

  /** Period of the countdown interval. */
  const TickPeriodMs: nat := 1000

  /** The four numbers the countdown shows. */
  datatype Remaining = Remaining(days: nat, hours: nat, minutes: nat, seconds: nat)

  /** Splits a positive number of milliseconds into whole days and the
      hours, minutes and seconds left over. */
  function Breakdown(difference: int): (r: Remaining)
    requires difference > 0
    ensures r.hours < 24 && r.minutes < 60 && r.seconds < 60
  {
    Remaining(difference / MsPerDay,
              (difference / MsPerHour) % 24,
              (difference / MsPerMinute) % 60,
              (difference / MsPerSecond) % 60)
  }

  /** The whole seconds a display stands for. */
  function TotalSeconds(r: Remaining): nat {
    r.days * 86400 + r.hours * 3600 + r.minutes * 60 + r.seconds
  }

  /** Read back as seconds, the display is exactly the whole seconds
      remaining: nothing is lost or counted twice. */
  lemma BreakdownReconstructs(difference: int)
    requires difference > 0
    ensures TotalSeconds(Breakdown(difference)) == difference / MsPerSecond
  {
    var s := difference / 1000;
    var m := s / 60;
    var h := m / 60;
    assert difference / 60000 == m;
    assert difference / 3600000 == h;
    assert difference / 86400000 == h / 24;
  }

  /** The display is the only one within bounds that reads back as the
      whole seconds remaining. */
  lemma BreakdownUnique(difference: int, r: Remaining)
    requires difference > 0
    requires r.hours < 24 && r.minutes < 60 && r.seconds < 60
    requires TotalSeconds(r) == difference / MsPerSecond
    ensures r == Breakdown(difference)
  {
    var s := difference / 1000;
    var h := r.days * 24 + r.hours;
    var m := h * 60 + r.minutes;
    assert s == 60 * m + r.seconds;
    assert s / 60 == m && s % 60 == r.seconds;
    assert m / 60 == h && m % 60 == r.minutes;
    assert h / 24 == r.days && h % 24 == r.hours;
    assert difference / 60000 == m;
    assert difference / 3600000 == h;
    assert difference / 86400000 == r.days;
  }

  /** The `settings/config` document; `unlockTime` is in epoch milliseconds. */
  datatype ConfigDoc = ConfigDoc(unlockTime: Option<int>)

  /** How the one config read ended. */
  datatype ConfigFetch = Found(doc: ConfigDoc) | Missing | Failed

  /** The gate screen's state. `timerActive` stands for the live interval
      handle, `target` for the instant its callback closes over, and
      `redirectDeps` for the `isUnlocked` value the redirect effect last ran
      with. `pushes` logs the screen's `router.push` calls. */
  class HomePage {
    var days: nat
    var hours: nat
    var minutes: nat
    var seconds: nat
    var isLoading: bool
    var isUnlocked: bool
    var target: Option<int>
    var timerActive: bool
    var fetchSettled: bool
    var redirectDeps: bool
    var pushes: seq<Location>

    function Shown(): Remaining
      reads this
    {
      Remaining(days, hours, minutes, seconds)
    }

    ghost predicate Valid()
      reads this
    {
      && (!fetchSettled ==> isLoading && target.None? && !timerActive)
      && (timerActive ==> target.Some?)
      && (isUnlocked ==> target.Some? && !timerActive)
      && (fetchSettled && target.None? ==> !isLoading)
      && (redirectDeps ==> isUnlocked)
      && pushes == (if redirectDeps then [Plain(Welcome)] else [])
    }

    /** The first render: all zeros, loading, locked; the redirect effect
        has run once with `isUnlocked` false and pushed nothing. */
    constructor ()
      ensures Valid()
      ensures Shown() == Remaining(0, 0, 0, 0) && isLoading && !isUnlocked
      ensures target == None && !timerActive && !fetchSettled && pushes == []
    {
      days, hours, minutes, seconds := 0, 0, 0, 0;
      isLoading, isUnlocked := true, false;
      target, timerActive, fetchSettled := None, false, false;
      redirectDeps, pushes := false, [];
    }

    /** The mount effect's fetch settles. A found document with an unlock
        time starts the interval; a missing document, a failed read, or a
        document whose `unlockTime` is absent (`toDate()` then throws) only
        clears `isLoading`, and no interval is ever started. */
    method ConfigSettled(fetch: ConfigFetch)
      requires Valid() && !fetchSettled
      modifies this
      ensures Valid() && fetchSettled
      ensures fetch.Found? && fetch.doc.unlockTime.Some? ==>
        target == fetch.doc.unlockTime && timerActive && isLoading
      ensures !(fetch.Found? && fetch.doc.unlockTime.Some?) ==>
        target == None && !timerActive && !isLoading
      ensures Shown() == old(Shown()) && isUnlocked == old(isUnlocked)
      ensures redirectDeps == old(redirectDeps) && pushes == old(pushes)
    {
      fetchSettled := true;
      match fetch {
        case Found(doc) =>
          match doc.unlockTime {
            case Some(t) =>
              target := Some(t);
              timerActive := true;
            case None =>
              isLoading := false;
          }
        case Missing =>
          isLoading := false;
        case Failed =>
          isLoading := false;
      }
    }

    /** One run of the interval callback at wall-clock time `now`. The new
        display depends on `target - now` alone; a difference of zero or
        less clears the interval and unlocks, leaving the display and the
        loading flag as they were. */
    method Tick(now: int)
      requires Valid() && timerActive
      modifies this
      ensures Valid()
      ensures target == old(target) && fetchSettled && redirectDeps == old(redirectDeps)
      ensures pushes == old(pushes)
      ensures old(target.value) - now <= 0 ==>
        !timerActive && isUnlocked && Shown() == old(Shown()) && isLoading == old(isLoading)
      ensures old(target.value) - now > 0 ==>
        timerActive && !isUnlocked && Shown() == Breakdown(old(target.value) - now) && !isLoading
    {
      var difference := target.value - now;
      if difference <= 0 {
        timerActive := false;
        isUnlocked := true;
      } else {
        days := difference / MsPerDay;
        hours := (difference / MsPerHour) % 24;
        minutes := (difference / MsPerMinute) % 60;
        seconds := (difference / MsPerSecond) % 60;
        isLoading := false;
      }
    }

    /** The redirect effect after a render: it runs when `isUnlocked` has
        changed since its last run, and pushes the welcome screen if it is
        now set. */
    method RedirectEffect()
      requires Valid()
      modifies this`redirectDeps, this`pushes
      ensures Valid()
      ensures redirectDeps == isUnlocked
      ensures pushes == if isUnlocked && !old(redirectDeps) then old(pushes) + [Plain(Welcome)] else old(pushes)
    {
      if isUnlocked != redirectDeps {
        redirectDeps := isUnlocked;
        if isUnlocked {
          pushes := pushes + [Plain(Welcome)];
        }
      }
    }

    /** At most one redirect ever, only to the welcome screen, and only once unlocked. */
    lemma RedirectAtMostOnce()
      requires Valid()
      ensures |pushes| <= 1
      ensures pushes != [] ==> isUnlocked && pushes == [Plain(Welcome)] && Edge(Home, pushes[0])
    {
    }
  }

  /** An unlock instant at or before the first tick unlocks on that tick,
      and however often the effect runs afterwards the welcome screen is
      pushed once. */
  method PastTargetScenario(unlockAt: int, now: int) returns (log: seq<Location>)
    requires unlockAt <= now
    ensures log == [Plain(Welcome)]
  {
    var page := new HomePage();
    page.ConfigSettled(Found(ConfigDoc(Some(unlockAt))));
    page.Tick(now);
    page.RedirectEffect();
    page.RedirectEffect();
    log := page.pushes;
  }

  /** An unlock instant five seconds ahead, with ticks landing on whole
      seconds: the fifth tick unlocks, and the display then still shows the
      one second computed by the fourth. */
  method FiveSecondScenario(now: int) returns (shown: Remaining, log: seq<Location>)
    ensures shown == Remaining(0, 0, 0, 1) && log == [Plain(Welcome)]
  {
    var page := new HomePage();
    page.ConfigSettled(Found(ConfigDoc(Some(now + 5000))));
    var k := 1;
    while k < 5
      invariant 1 <= k <= 5
      invariant page.Valid() && page.timerActive && page.target == Some(now + 5000)
      invariant page.pushes == []
      invariant k > 1 ==> page.Shown() == Breakdown(5000 - (k - 1) * 1000)
      modifies page
    {
      page.Tick(now + k * TickPeriodMs);
      page.RedirectEffect();
      k := k + 1;
    }
    page.Tick(now + 5 * TickPeriodMs);
    page.RedirectEffect();
    shown, log := page.Shown(), page.pushes;
  }
}
