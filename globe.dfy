/** The idle auto-rotation of the globe (`Globe.tsx`): any mouse press,
    touch start or wheel event stamps the time and stops rotation; a poll
    every second turns rotation on once more than ten seconds have passed
    since the last such event. Times are integer milliseconds, as
    `Date.now()` gives them. */
module Globe {

  /** Idle time after which the globe starts to rotate, in milliseconds. */
  const IdleThreshold: int := 10000
  /** Period of the inactivity poll, in milliseconds. */
  const PollInterval: int := 1000

  /** The controller's state: `lastInteractionRef`, `autoRotate`, and
      whether the listeners and the interval are installed. */
  datatype IdleState = IdleState(lastInteraction: int, autoRotate: bool, listening: bool)

  /** The state once the view has mounted at time `now`. */
  function Mounted(now: int): (s: IdleState)
    ensures !s.autoRotate && s.lastInteraction == now && s.listening
  {
    IdleState(now, false, true)
  }

  /** `handleInteraction` at time `now`; a torn-down view no longer hears events. */
  function Interacted(s: IdleState, now: int): (r: IdleState)
    ensures s.listening ==> r == IdleState(now, false, true)
    ensures !s.listening ==> r == s
  {
    if s.listening then s.(lastInteraction := now, autoRotate := false) else s
  }

  /** The `checkInactivity` poll at time `now`; a cleared interval no longer fires. */
  function Polled(s: IdleState, now: int): (r: IdleState)
    ensures r.lastInteraction == s.lastInteraction && r.listening == s.listening
    ensures s.autoRotate ==> r.autoRotate
    ensures r.autoRotate <==> s.autoRotate || (s.listening && now - s.lastInteraction > IdleThreshold)
  {
    if s.listening && now - s.lastInteraction > IdleThreshold then s.(autoRotate := true) else s
  }

  /** The unmount cleanup. */
  function TornDown(s: IdleState): (r: IdleState)
    ensures !r.listening && r.lastInteraction == s.lastInteraction && r.autoRotate == s.autoRotate
  {
    s.(listening := false)
  }

  /** The threshold is strict: exactly ten seconds of idleness do not start
      the rotation, one millisecond more does. */
  lemma ThresholdIsStrict(s: IdleState)
    requires s.listening && !s.autoRotate
    ensures Polled(s, s.lastInteraction + IdleThreshold) == s
    ensures Polled(s, s.lastInteraction + IdleThreshold + 1).autoRotate
  {
  }

  /** Repeating a poll at the same instant changes nothing more. */
  lemma PollIdempotent(s: IdleState, now: int)
    ensures Polled(Polled(s, now), now) == Polled(s, now)
  {
  }

  /** After teardown neither events nor polls change anything. */
  lemma TornDownIsInert(s: IdleState, now: int)
    ensures Interacted(TornDown(s), now) == TornDown(s)
    ensures Polled(TornDown(s), now) == TornDown(s)
  {
  }

  /** The state after the polls at t0 + 1000, t0 + 2000, ..., t0 + 1000·k. */
  function PolledEverySecond(s: IdleState, t0: int, k: nat): IdleState
  {
    if k == 0 then s else Polled(PolledEverySecond(s, t0, k - 1), t0 + PollInterval * k)
  }

  /** The ref is stamped at t0 while rendering; the interval is created
      later, in the effect, at te. With no interaction after mounting, the
      k-th poll (at te + 1000·k) finds the globe rotating exactly when it
      comes more than ten seconds after the stamp: at the first such poll
      and at every later one. The interaction time stays t0. */
  lemma {:induction false} IdleScheduleRotates(t0: int, te: int, k: nat)
    ensures PolledEverySecond(Mounted(t0), te, k).lastInteraction == t0
    ensures PolledEverySecond(Mounted(t0), te, k).listening
    ensures PolledEverySecond(Mounted(t0), te, k).autoRotate <==> k > 0 && te + PollInterval * k - t0 > IdleThreshold
  {
    if k > 0 {
      IdleScheduleRotates(t0, te, k - 1);
    }
  }

  /** With the interval created in the same millisecond as the stamp, the
      globe starts to rotate at the 11th poll and not before. */
  lemma {:induction false} SameInstantSchedule(t0: int, k: nat)
    ensures PolledEverySecond(Mounted(t0), t0, k).autoRotate <==> k > 10
  {
    IdleScheduleRotates(t0, t0, k);
  }

  /** Once the globe rotates, further polls keep it rotating, whatever their times. */
  lemma {:induction false} RotationPersists(s: IdleState, t0: int, k: nat)
    requires s.autoRotate
    ensures PolledEverySecond(s, t0, k).autoRotate
    ensures PolledEverySecond(s, t0, k).lastInteraction == s.lastInteraction
  {
    if k > 0 {
      RotationPersists(s, t0, k - 1);
    }
  }

  /** The controller as the component holds it: the ref and the state
      variable, plus whether its effect is installed. */
  class IdleController {
    var lastInteraction: int
    var autoRotate: bool
    var listening: bool

    function State(): IdleState
      reads this
    {
      IdleState(lastInteraction, autoRotate, listening)
    }

    /** Mounting at time `now`: the ref starts at `Date.now()`, rotation off,
        listeners and interval installed. */
    constructor (now: int)
      ensures State() == Mounted(now)
    {
      lastInteraction := now;
      autoRotate := false;
      listening := true;
    }

    /** A mouse press, touch start or wheel event at time `now`. */
    method Interact(now: int)
      modifies this
      ensures State() == Interacted(old(State()), now)
    {
      if listening {
        lastInteraction := now;
        autoRotate := false;
      }
    }

    /** The interval callback at time `now`. */
    method Poll(now: int)
      modifies this
      ensures State() == Polled(old(State()), now)
    {
      if listening && now - lastInteraction > IdleThreshold {
        autoRotate := true;
      }
    }

    /** The effect's cleanup: listeners removed, interval cleared. */
    method Teardown()
      modifies this
      ensures State() == TornDown(old(State()))
    {
      listening := false;
    }
  }

  /** Mounted at 0 with no input: still at rest after 10 s, rotating after
      11 s; an input at 15 s stops it at once and restarts the idle clock. */
  method IdleScenario()
  {
    var c := new IdleController(0);
    c.Poll(10000);
    assert !c.autoRotate;
    c.Poll(11000);
    assert c.autoRotate;
    c.Interact(15000);
    assert !c.autoRotate && c.lastInteraction == 15000;
    c.Poll(25000);
    assert !c.autoRotate;
    c.Poll(26000);
    assert c.autoRotate;
    c.Teardown();
    c.Interact(27000);
    assert c.autoRotate && c.lastInteraction == 15000;
  }
}
