/** The cake screen: a lit candle that is blown out once, followed by a
    delayed push to the card screen. */
module CakeScreen {
  import opened Navigation

  /** Delay of the push scheduled by blowing out the candle. */
  const BlowOutDelayMs: nat := 3000

  /** A `setTimeout` that has not fired yet, and the page it will push. */
  datatype Timeout = Timeout(delayMs: nat, destination: Location)

  const CardTimeout: Timeout := Timeout(BlowOutDelayMs, Plain(Card))

  /** The screen's state. `pending` holds the scheduled timeouts in the
      order they will fire (they share one delay); `pushes` logs the
      `router.push` calls they have made. */
  class CakePage {
    var isLit: bool
    var mounted: bool
    var pending: seq<Timeout>
    var pushes: seq<Location>

    /** Every timeout this screen schedules pushes the card screen after
        three seconds, and every push it makes is to the card screen. */
    ghost predicate Valid()
      reads this
    {
      && (forall i :: 0 <= i < |pending| ==> pending[i] == CardTimeout)
      && (forall i :: 0 <= i < |pushes| ==> pushes[i] == Plain(Card) && Edge(Cake, pushes[i]))
    }

    /** The states reachable by clicking what the screen renders: nothing is
        scheduled while lit, and once blown out exactly one navigation has
        been scheduled or made. */
    ghost predicate ThroughControls()
      reads this
      ensures ThroughControls() ==> |pending| + |pushes| <= 1
      ensures ThroughControls() ==> (pending != [] || pushes != [] <==> !isLit)
      ensures ThroughControls() && pushes != [] ==> pushes == [Plain(Card)] && pending == []
    {
      && Valid()
      && (isLit ==> pending == [] && pushes == [])
      && (!isLit ==> |pending| + |pushes| == 1)
    }

    constructor ()
      ensures ThroughControls()
      ensures isLit && mounted && pending == [] && pushes == []
    {
      isLit, mounted := true, true;
      pending, pushes := [], [];
    }

    /** The blow button is rendered exactly while the candle is lit; once it
        is out the screen shows the wish message instead. */
    function BlowControlShown(): bool
      reads this
    {
      isLit
    }

    /** `handleBlowOut`: put the candle out and schedule one push to the
        card screen. Each call schedules its own timeout. */
    method HandleBlowOut()
      requires Valid()
      modifies this`isLit, this`pending
      ensures Valid() && !isLit
      ensures pending == old(pending) + [CardTimeout]
    {
      isLit := false;
      pending := pending + [CardTimeout];
    }

    /** A click on the blow button, which exists only while lit. */
    method ClickBlowControl()
      requires ThroughControls() && BlowControlShown()
      modifies this`isLit, this`pending
      ensures ThroughControls() && !isLit
      ensures pending == [CardTimeout] && pushes == []
    {
      HandleBlowOut();
    }

    /** The oldest scheduled timeout fires and pushes its page. Nothing
        cancels it: it fires whether or not the screen is still mounted. */
    method TimeoutFires()
      requires Valid() && pending != []
      modifies this`pending, this`pushes
      ensures Valid()
      ensures pending == old(pending)[1..]
      ensures pushes == old(pushes) + [Plain(Card)]
      ensures old(ThroughControls()) ==> ThroughControls()
    {
      pushes := pushes + [pending[0].destination];
      pending := pending[1..];
    }

    /** The screen is torn down; there is no cleanup, so the scheduled
        timeouts stay pending. */
    method Unmount()
      modifies this`mounted
      ensures !mounted
    {
      mounted := false;
    }
  }

  /** Blowing out, leaving the screen, and the timeout firing anyway: the
      card screen is still pushed exactly once. */
  method BlowOutThenLeave() returns (lit: bool, log: seq<Location>)
    ensures !lit && log == [Plain(Card)]
  {
    var page := new CakePage();
    page.ClickBlowControl();
    page.Unmount();
    page.TimeoutFires();
    lit, log := page.isLit, page.pushes;
  }
}
