/** The gaze arbiter of the control station: which high-level gaze behaviour
    the robot runs, how card reveals from the sorting game schedule a delayed
    Initiating Joint Attention, the operator's arrow-key override, and the
    condition switch after each answered question. */
module GazeController {
  import opened Values
  import opened UiHandler
  import Logging

  /** Cooldown between two Responding Joint Attention triggers, in ms. */
  const RespondingCooldown: int := 7000
  /** Delay between a card reveal and the Initiating Joint Attention it schedules, in ms. */
  const InitiatingDelay: int := 2000

  // ---------------------------------------------------------------------------
  // Shared perception context
  // ---------------------------------------------------------------------------

  /** The fields of the shared `context` object. Perception writes whatever the
      decoded message holds, so each field is a JSON value. */
  datatype ContextState = ContextState(
    userInFront: Value,
    faceX: Value,
    faceY: Value,
    secondFaceX: Value,
    secondFaceY: Value,
    headDirection: Value)

  const InitialContext := ContextState(Bool(false), Num(0.5), Num(0.5), Null, Null, Str("none"))

  /** The `context` object, shared by the arbiter and the perception decoder. */
  class Context {
    var userInFront: Value
    var faceX: Value
    var faceY: Value
    var secondFaceX: Value
    var secondFaceY: Value
    var headDirection: Value

    function Snapshot(): ContextState
      reads this
    {
      ContextState(userInFront, faceX, faceY, secondFaceX, secondFaceY, headDirection)
    }

    constructor ()
      ensures Snapshot() == InitialContext
    {
      userInFront, faceX, faceY := Bool(false), Num(0.5), Num(0.5);
      secondFaceX, secondFaceY, headDirection := Null, Null, Str("none");
    }
  }

  /** Both second-face coordinates are non-null: a second person is in view. */
  predicate SecondFace(ctx: ContextState)
  {
    ctx.secondFaceX != Null && ctx.secondFaceY != Null
  }

  /** The face count shown in the status line: 2 when a second face has an x
      coordinate, else 1 or 0 depending on whether a user is in front. */
  function FaceCount(ctx: ContextState): (n: nat)
    ensures n <= 2
    ensures n == 2 <==> ctx.secondFaceX != Null
    ensures n == 0 <==> ctx.secondFaceX == Null && !Truthy(ctx.userInFront)
  {
    if ctx.secondFaceX != Null then 2
    else if Truthy(ctx.userInFront) then 1
    else 0
  }

  // ---------------------------------------------------------------------------
  // Arbiter state
  // ---------------------------------------------------------------------------

  /** The high-level behaviours. Their internals live outside this model; a
      joint-attention behaviour carries its gaze direction. */
  datatype Behavior =
    | MutualGaze
    | DynamicGaze
    | InitiatingJA(direction: Value)
    | RespondingJA(towards: Value)

  predicate IsJointAttention(b: Option<Behavior>)
  {
    b.Some? && (b.value.InitiatingJA? || b.value.RespondingJA?)
  }

  /** A delayed Initiating Joint Attention that a reveal scheduled. All of them
      use the same delay, so they fire in the order they were scheduled. */
  datatype Pending = Pending(direction: Value, dueAt: int)

  /** `currentBehavior` (None for null), `lastHandledCardId`,
      `lastRespondingJointAttentionTime`, and the pending reveal timers. */
  datatype ArbiterState = ArbiterState(
    current: Option<Behavior>,
    lastHandledCardId: Value,
    lastRespondingTime: int,
    scheduled: seq<Pending>)

  const InitialArbiter := ArbiterState(None, Null, 0, [])

  // ---------------------------------------------------------------------------
  // One tick of the gaze loop
  // ---------------------------------------------------------------------------

  /** Responding Joint Attention may start: Carl off, RJA on, the head turned
      left or right, and the cooldown elapsed since the last trigger. */
  predicate RespondingEligible(ctx: ContextState, flags: Toggles, now: int, lastResponding: int)
  {
    && !flags.carl
    && flags.rja
    && (ctx.headDirection == Str("Looking Left") || ctx.headDirection == Str("Looking Right"))
    && now - lastResponding >= RespondingCooldown
  }

  /** The second word of the head direction, lower-cased. Both joint-attention
      behaviours carry their side as the same kind of value. */
  function RespondingDirection(head: Value): Value
  {
    if head == Str("Looking Left") then Str("left") else Str("right")
  }

  /** Result of a tick: the new arbiter state, and whether the pupils were sent
      to the centre because nobody is in front. */
  datatype TickResult = TickResult(state: ArbiterState, centred: bool)

  /** Whether a tick reaches behaviour selection: nothing was running, or the
      running behaviour's `apply()` reported that it finished. */
  predicate Selects(s: ArbiterState, stillRunning: bool)
  {
    s.current.None? || !stillRunning
  }

  /** `updateGaze`. `stillRunning` is what the running behaviour's `apply()`
      returns this tick. */
  function Tick(s: ArbiterState, ctx: ContextState, flags: Toggles, now: int, stillRunning: bool): (r: TickResult)
    // a running behaviour that is not finished keeps the tick to itself
    ensures !Selects(s, stillRunning) ==> r == TickResult(s, false)
    // otherwise exactly one of the four outcomes, in priority order
    ensures Selects(s, stillRunning) ==>
      (r.state.current.None? <==> !Truthy(ctx.userInFront)) &&
      (r.centred <==> !Truthy(ctx.userInFront))
    ensures Selects(s, stillRunning) ==>
      (r.state.current.Some? && r.state.current.value.RespondingJA? <==>
         Truthy(ctx.userInFront) && RespondingEligible(ctx, flags, now, s.lastRespondingTime))
    ensures Selects(s, stillRunning) && Truthy(ctx.userInFront) && !RespondingEligible(ctx, flags, now, s.lastRespondingTime) ==>
      r.state.current == Some(if SecondFace(ctx) then DynamicGaze else MutualGaze)
    // the cooldown clock moves only when Responding Joint Attention starts, and then to `now`
    ensures r.state.lastRespondingTime ==
      if Selects(s, stillRunning) && Truthy(ctx.userInFront) && RespondingEligible(ctx, flags, now, s.lastRespondingTime)
      then now else s.lastRespondingTime
    ensures r.state.lastHandledCardId == s.lastHandledCardId && r.state.scheduled == s.scheduled
  {
    if !Selects(s, stillRunning) then TickResult(s, false)
    else if !Truthy(ctx.userInFront) then TickResult(s.(current := None), true)
    else if RespondingEligible(ctx, flags, now, s.lastRespondingTime) then
      TickResult(s.(current := Some(RespondingJA(RespondingDirection(ctx.headDirection))), lastRespondingTime := now), false)
    else if SecondFace(ctx) then TickResult(s.(current := Some(DynamicGaze)), false)
    else TickResult(s.(current := Some(MutualGaze)), false)
  }

  /** A Responding Joint Attention looks the way the head is turned. */
  lemma RespondingFollowsHead(s: ArbiterState, ctx: ContextState, flags: Toggles, now: int, stillRunning: bool)
    requires Selects(s, stillRunning)
    requires var c := Tick(s, ctx, flags, now, stillRunning).state.current; c.Some? && c.value.RespondingJA?
    ensures var c := Tick(s, ctx, flags, now, stillRunning).state.current;
      (c.value.towards == Str("left") <==> ctx.headDirection == Str("Looking Left")) &&
      (c.value.towards == Str("right") <==> ctx.headDirection == Str("Looking Right"))
  {
  }

  // ---------------------------------------------------------------------------
  // Card reveals
  // ---------------------------------------------------------------------------

  /** Initiating Joint Attention is triggered by a reveal: Carl off, IJA on. */
  predicate Triggered(flags: Toggles)
  {
    !flags.carl && flags.ija
  }

  /** Probability that the robot looks at the correct side: the 80% toggle wins
      over the 20% toggle; with neither, the robot is always right. */
  function KnowledgeFactor(flags: Toggles): (f: real)
    ensures flags.k80 ==> f == 0.8
    ensures !flags.k80 && flags.k20 ==> f == 0.2
    ensures !flags.k80 && !flags.k20 ==> f == 1.0
    ensures 0.0 < f <= 1.0
  {
    if flags.k80 then 0.8 else if flags.k20 then 0.2 else 1.0
  }

  /** The opposite side: "left" becomes "right", anything else "left". */
  function Flip(d: Value): (r: Value)
    ensures r != d
    ensures r == Str("left") || r == Str("right")
    ensures d == Str("right") ==> r == Str("left")
    ensures d == Str("left") ==> r == Str("right")
  {
    if d == Str("left") then Str("right") else Str("left")
  }

  /** Whether the knowledge noise makes the robot look the wrong way, for the
      random draw `random`. */
  predicate Misdirected(flags: Toggles, random: real)
  {
    Triggered(flags) && KnowledgeFactor(flags) < 1.0 && random > KnowledgeFactor(flags)
  }

  /** The direction in which the robot gazes for a card on `side`. */
  function GazeDirection(side: Value, flags: Toggles, random: real): (d: Value)
    ensures d != side <==> Misdirected(flags, random)
    ensures d != side ==> d == Flip(side)
  {
    if Misdirected(flags, random) then Flip(side) else side
  }

  /** `Robot` of the RobotsMove message. */
  function RobotLabel(flags: Toggles): (l: string)
    ensures flags.carl ==> l == "Carl condition"
    ensures !flags.carl && flags.ryan ==> l == "Ryan condition"
    ensures !flags.carl && !flags.ryan && flags.ivan ==> l == "Ivan condition"
    ensures !flags.carl && !flags.ryan && !flags.ivan ==> l == "default"
  {
    if flags.carl then "Carl condition"
    else if flags.ryan then "Ryan condition"
    else if flags.ivan then "Ivan condition"
    else "default"
  }

  /** `reason` of the RobotsMove message: empty exactly when the gaze is triggered. */
  function NoGazeReason(flags: Toggles): (reason: string)
    ensures reason == "" <==> Triggered(flags)
    ensures flags.carl ==> reason == "Carl condition active"
    ensures !flags.carl && !flags.ija ==> reason == "Initiating JA toggle off"
  {
    if flags.carl then "Carl condition active"
    else if !flags.ija then "Initiating JA toggle off"
    else ""
  }

  /** The RobotsMove log message. */
  function RobotsMoveMessage(cardId: Value, flags: Toggles, decision: Value, now: int): (m: Object)
    ensures m.Keys == {"action", "event", "cardId", "gazeDecision", "Robot", "reason", "timestamp"}
    ensures m["event"] == Str("RobotsMove") && m["cardId"] == cardId
  {
    map[
      "action" := Str("logEvent"),
      "event" := Str("RobotsMove"),
      "cardId" := cardId,
      "gazeDecision" := decision,
      "Robot" := Str(RobotLabel(flags)),
      "reason" := Str(NoGazeReason(flags)),
      "timestamp" := Num(now as real)]
  }

  /** A reveal carries a truthy cardId and a truthy side. */
  predicate ValidReveal(data: Object)
  {
    Truthy(Get(data, "cardId")) && Truthy(Get(data, "side"))
  }

  /** A valid reveal whose cardId is not the last one handled. */
  predicate Handles(s: ArbiterState, data: Object)
  {
    ValidReveal(data) && s.lastHandledCardId != Get(data, "cardId")
  }

  datatype RevealResult = RevealResult(state: ArbiterState, message: Option<Object>)

  /** `handleCardRevealed(data)` under toggles `flags`, random draw `random`, at
      time `now`. */
  function Reveal(s: ArbiterState, data: Object, flags: Toggles, random: real, now: int): (r: RevealResult)
    // invalid and repeated reveals change nothing and log nothing
    ensures !Handles(s, data) ==> r == RevealResult(s, None)
    // a handled reveal remembers its id, logs exactly one message, and leaves the behaviour alone
    ensures Handles(s, data) ==>
      && r.state.lastHandledCardId == Get(data, "cardId")
      && r.message.Some?
      && r.state.current == s.current
      && r.state.lastRespondingTime == s.lastRespondingTime
    // it schedules one delayed Initiating Joint Attention exactly when triggered
    ensures Handles(s, data) && Triggered(flags) ==>
      r.state.scheduled == s.scheduled + [Pending(GazeDirection(Get(data, "side"), flags, random), now + InitiatingDelay)]
    ensures Handles(s, data) && !Triggered(flags) ==> r.state.scheduled == s.scheduled
  {
    if !Handles(s, data) then RevealResult(s, None)
    else
      var cardId := Get(data, "cardId");
      var direction := GazeDirection(Get(data, "side"), flags, random);
      var scheduled := if Triggered(flags) then s.scheduled + [Pending(direction, now + InitiatingDelay)] else s.scheduled;
      var decision := if Triggered(flags) then direction else Str("none");
      RevealResult(s.(lastHandledCardId := cardId, scheduled := scheduled),
                   Some(RobotsMoveMessage(cardId, flags, decision, now)))
  }

  /** The RobotsMove message of a handled reveal: "none" and a non-empty reason
      when no gaze is triggered, the gaze direction and an empty reason when it
      is, and "Carl condition" as robot whenever Carl is active. */
  lemma RevealLogsRobotsMove(s: ArbiterState, data: Object, flags: Toggles, random: real, now: int)
    requires Handles(s, data)
    ensures var m := Reveal(s, data, flags, random, now).message.value;
      && m["event"] == Str("RobotsMove")
      && m["cardId"] == Get(data, "cardId")
      && (!Triggered(flags) ==> m["gazeDecision"] == Str("none") && m["reason"] != Str(""))
      && (Triggered(flags) ==> m["gazeDecision"] == GazeDirection(Get(data, "side"), flags, random) && m["reason"] == Str(""))
      && (flags.carl ==> m["Robot"] == Str("Carl condition"))
  {
  }

  /** With no knowledge toggle checked the robot always looks at the revealed side. */
  lemma NoKnowledgeNeverMisdirects(side: Value, flags: Toggles, random: real)
    requires !flags.k80 && !flags.k20
    ensures GazeDirection(side, flags, random) == side
  {
  }

  /** Handling the same reveal twice in a row: the second one is ignored. */
  lemma RevealTwiceIsIgnored(s: ArbiterState, data: Object, flags: Toggles, flags': Toggles, random: real, random': real, now: int, now': int)
    ensures var s1 := Reveal(s, data, flags, random, now).state;
      Reveal(s1, data, flags', random', now') == RevealResult(s1, None)
  {
  }

  /** De-duplication remembers only the last id: cards A, B, A make the second
      A a fresh reveal that is logged again. */
  lemma RevealDedupIsByLastIdOnly(flags: Toggles)
    ensures var a := map["cardId" := Str("A"), "side" := Str("left")];
      var b := map["cardId" := Str("B"), "side" := Str("right")];
      var s1 := Reveal(InitialArbiter, a, flags, 0.0, 0).state;
      var s2 := Reveal(s1, b, flags, 0.0, 1).state;
      Reveal(s2, a, flags, 0.0, 2).message.Some?
  {
    var a := map["cardId" := Str("A"), "side" := Str("left")];
    var b := map["cardId" := Str("B"), "side" := Str("right")];
    assert Get(a, "cardId") == Str("A") && Get(a, "side") == Str("left");
    assert Get(b, "cardId") == Str("B") && Get(b, "side") == Str("right");
  }

  /** The delayed Initiating Joint Attention fires: skipped when a joint
      attention is running, otherwise it replaces the current behaviour. */
  function FireTimer(s: ArbiterState): (r: ArbiterState)
    requires s.scheduled != []
    ensures r.scheduled == s.scheduled[1..]
    ensures IsJointAttention(s.current) ==> r.current == s.current
    ensures !IsJointAttention(s.current) ==> r.current == Some(InitiatingJA(s.scheduled[0].direction))
    ensures r.lastHandledCardId == s.lastHandledCardId && r.lastRespondingTime == s.lastRespondingTime
  {
    if IsJointAttention(s.current) then s.(scheduled := s.scheduled[1..])
    else s.(current := Some(InitiatingJA(s.scheduled[0].direction)), scheduled := s.scheduled[1..])
  }

  /** After a timer fires a joint attention is running, and a running one is
      never replaced. */
  lemma FiredTimerLeavesOneJointAttention(s: ArbiterState)
    requires s.scheduled != []
    ensures IsJointAttention(FireTimer(s).current)
    ensures s.current.Some? && s.current.value.RespondingJA? ==> FireTimer(s).current == s.current
  {
  }

  // ---------------------------------------------------------------------------
  // Operator override
  // ---------------------------------------------------------------------------

  /** Whether the keydown handler accepts an override at all. */
  predicate OverrideAllowed(s: ArbiterState, flags: Toggles)
  {
    flags.ija && !flags.carl && !IsJointAttention(s.current)
  }

  /** The keydown handler. */
  function KeyDown(s: ArbiterState, flags: Toggles, key: string): (r: ArbiterState)
    ensures OverrideAllowed(s, flags) && key == "ArrowLeft" ==> r == s.(current := Some(InitiatingJA(Str("left"))))
    ensures OverrideAllowed(s, flags) && key == "ArrowRight" ==> r == s.(current := Some(InitiatingJA(Str("right"))))
    // ignored when IJA is off, Carl is on, a joint attention runs, or for any other key
    ensures !OverrideAllowed(s, flags) || (key != "ArrowLeft" && key != "ArrowRight") ==> r == s
  {
    if !OverrideAllowed(s, flags) then s
    else if key == "ArrowLeft" then s.(current := Some(InitiatingJA(Str("left"))))
    else if key == "ArrowRight" then s.(current := Some(InitiatingJA(Str("right"))))
    else s
  }

  // ---------------------------------------------------------------------------
  // The Responding Joint Attention cooldown over any run of events
  // ---------------------------------------------------------------------------

  /** Everything that changes the arbiter state. */
  datatype Event =
    | TickEvent(ctx: ContextState, flags: Toggles, now: int, stillRunning: bool)
    | RevealEvent(data: Object, flags: Toggles, random: real, now: int)
    | FireEvent
    | KeyEvent(flags: Toggles, key: string)

  function Step(s: ArbiterState, e: Event): ArbiterState
  {
    match e
    case TickEvent(ctx, flags, now, stillRunning) => Tick(s, ctx, flags, now, stillRunning).state
    case RevealEvent(data, flags, random, now) => Reveal(s, data, flags, random, now).state
    case FireEvent => if s.scheduled == [] then s else FireTimer(s)
    case KeyEvent(flags, key) => KeyDown(s, flags, key)
  }

  /** Whether `e` is a tick that starts a Responding Joint Attention. */
  predicate StartsResponding(s: ArbiterState, e: Event)
  {
    e.TickEvent? && Selects(s, e.stillRunning) && Truthy(e.ctx.userInFront) &&
    RespondingEligible(e.ctx, e.flags, e.now, s.lastRespondingTime)
  }

  /** The times at which Responding Joint Attention starts along the events `es`. */
  function RespondingStarts(s: ArbiterState, es: seq<Event>): seq<int>
    decreases |es|
  {
    if es == [] then []
    else (if StartsResponding(s, es[0]) then [es[0].now] else []) + RespondingStarts(Step(s, es[0]), es[1..])
  }

  /** Whatever the events and however the clock moves, the first trigger comes
      at least the cooldown after the last recorded one, and any two successive
      triggers are at least the cooldown apart. */
  lemma {:induction false} RespondingCooldownHolds(s: ArbiterState, es: seq<Event>)
    ensures var t := RespondingStarts(s, es);
      |t| > 0 ==> t[0] >= s.lastRespondingTime + RespondingCooldown
    ensures var t := RespondingStarts(s, es);
      forall i :: 0 < i < |t| ==> t[i] >= t[i - 1] + RespondingCooldown
    decreases |es|
  {
    if es != [] {
      var s' := Step(s, es[0]);
      RespondingCooldownHolds(s', es[1..]);
      if StartsResponding(s, es[0]) {
        assert s'.lastRespondingTime == es[0].now;
      } else {
        assert s'.lastRespondingTime == s.lastRespondingTime;
      }
    }
  }

  // ---------------------------------------------------------------------------
  // Condition switch after a question
  // ---------------------------------------------------------------------------

  const AllConditions: seq<Condition> := [Ryan, Ivan, Carl]

  /** The condition whose toggle is checked, looked up in the order Ryan, Ivan, Carl. */
  function CurrentCondition(flags: Toggles): (c: Option<Condition>)
    ensures c == Some(Ryan) <==> flags.ryan
    ensures c == Some(Ivan) <==> !flags.ryan && flags.ivan
    ensures c == Some(Carl) <==> !flags.ryan && !flags.ivan && flags.carl
    ensures c.None? <==> !flags.ryan && !flags.ivan && !flags.carl
  {
    if flags.ryan then Some(Ryan)
    else if flags.ivan then Some(Ivan)
    else if flags.carl then Some(Carl)
    else None
  }

  /** The conditions of `cs` other than `current`, in their order. */
  function Without(cs: seq<Condition>, current: Option<Condition>): (r: seq<Condition>)
    ensures forall c :: c in r <==> c in cs && current != Some(c)
    ensures |r| <= |cs|
  {
    if cs == [] then []
    else if current == Some(cs[0]) then Without(cs[1..], current)
    else [cs[0]] + Without(cs[1..], current)
  }

  /** At least two candidates remain, so the fallback to all three conditions
      never runs. */
  lemma CandidatesRemain(current: Option<Condition>)
    ensures |Without(AllConditions, current)| >= 2
    ensures current.None? ==> Without(AllConditions, current) == AllConditions
  {
  }

  /** `Math.floor(random * n)`, which for `0 <= random < 1` is an index below `n`. */
  function DrawIndex(random: real, n: nat): (k: nat)
    requires 0.0 <= random < 1.0 && n > 0
    ensures k < n && k as real <= random * n as real < k as real + 1.0
  {
    assert 0.0 <= random * n as real < n as real;
    (random * n as real).Floor
  }

  /** The next condition, chosen uniformly by `random` among the others. */
  function PickNext(current: Option<Condition>, random: real): (next: Condition)
    requires 0.0 <= random < 1.0
    ensures current.Some? ==> next != current.value
  {
    var candidates := Without(AllConditions, current);
    CandidatesRemain(current);
    candidates[DrawIndex(random, |candidates|)]
  }

  /** With no current condition the three conditions split the draws into
      equal thirds, in the order Ryan, Ivan, Carl. */
  lemma NoCurrentConditionSplitsDrawsInThirds(random: real)
    requires 0.0 <= random < 1.0
    ensures random < 1.0 / 3.0 ==> PickNext(None, random) == Ryan
    ensures 1.0 / 3.0 <= random < 2.0 / 3.0 ==> PickNext(None, random) == Ivan
    ensures 2.0 / 3.0 <= random ==> PickNext(None, random) == Carl
  {
    CandidatesRemain(None);
    var k := DrawIndex(random, 3);
    if random < 1.0 / 3.0 {
      assert k == 0;
    } else if random < 2.0 / 3.0 {
      assert k == 1;
    } else {
      assert k == 2;
    }
  }

  /** With a current condition the two others split the draws into equal
      halves: the lower half picks the first of them, the upper half the
      second. */
  lemma OtherConditionsSplitDrawsInHalves(c: Condition, random: real)
    requires 0.0 <= random < 1.0
    ensures var others := Without(AllConditions, Some(c));
      && |others| == 2 && others[0] != c && others[1] != c && others[0] != others[1]
      && (random < 0.5 ==> PickNext(Some(c), random) == others[0])
      && (0.5 <= random ==> PickNext(Some(c), random) == others[1])
  {
    var others := Without(AllConditions, Some(c));
    if c == Ryan {
      assert others == [Ivan, Carl];
    } else if c == Ivan {
      assert others == [Ryan, Carl];
    } else {
      assert others == [Ryan, Ivan];
    }
    var k := DrawIndex(random, 2);
    if random < 0.5 {
      assert k == 0;
    } else {
      assert k == 1;
    }
  }

  /** After a question the panel switches to a different condition and takes
      on that condition's toggle profile. */
  lemma QuestionCompletionSwitches(s: PanelState, random: real)
    requires 0.0 <= random < 1.0
    ensures var next := PickNext(CurrentCondition(s.toggles), random);
      var r := AfterChange(s, ToggleOf(next), true);
      && (CurrentCondition(s.toggles).Some? ==> next != CurrentCondition(s.toggles).value)
      && r.toggles == Profile(next)
      && CurrentCondition(r.toggles) == Some(next)
      && Consistent(r.toggles)
  {
    var next := PickNext(CurrentCondition(s.toggles), random);
    ConditionChange(s, ToggleOf(next), true);
  }

  /** `activateCondition(c)`: check the condition's toggle and fire its change event. */
  method ActivateCondition(panel: ControlPanel, c: Condition)
    modifies panel
    ensures panel.State() == AfterChange(old(panel.State()), ToggleOf(c), true)
  {
    panel.Change(ToggleOf(c), true);
  }

  /** `handleQuestionCompletion`, with `random` the value of `Math.random()`. */
  method HandleQuestionCompletion(panel: ControlPanel, random: real)
    requires 0.0 <= random < 1.0
    modifies panel
    ensures panel.State() == AfterChange(old(panel.State()), ToggleOf(PickNext(CurrentCondition(old(panel.Flags())), random)), true)
  {
    ghost var flags := panel.Flags();
    var current: Option<Condition> := None;
    if panel.ryan {
      current := Some(Ryan);
    } else if panel.ivan {
      current := Some(Ivan);
    } else if panel.carl {
      current := Some(Carl);
    }
    assert current == CurrentCondition(flags);
    var candidates := Without(AllConditions, current);
    CandidatesRemain(current);
    var next := candidates[DrawIndex(random, |candidates|)];
    assert next == PickNext(current, random);
    ActivateCondition(panel, next);
  }

  // ---------------------------------------------------------------------------
  // The controller's module state
  // ---------------------------------------------------------------------------

  class Controller {
    const context: Context
    var current: Option<Behavior>
    var lastHandledCardId: Value
    var lastRespondingTime: int
    var scheduled: seq<Pending>

    function State(): ArbiterState
      reads this
    {
      ArbiterState(current, lastHandledCardId, lastRespondingTime, scheduled)
    }

    constructor (ctx: Context)
      ensures context == ctx && State() == InitialArbiter
    {
      context := ctx;
      current, lastHandledCardId, lastRespondingTime, scheduled := None, Null, 0, [];
    }

    /** `updateGaze` at time `now`; `stillRunning` is the running behaviour's
        `apply()` result. Returns whether the pupils were centred. */
    method UpdateGaze(panel: ControlPanel, now: int, stillRunning: bool) returns (centred: bool)
      modifies this
      ensures var r := Tick(old(State()), context.Snapshot(), panel.Flags(), now, stillRunning);
        State() == r.state && centred == r.centred
    {
      centred := false;
      if current.Some? {
        if stillRunning {
          return;
        }
        current := None;
      }
      if Truthy(context.userInFront) {
        if !panel.carl && panel.rja
           && (context.headDirection == Str("Looking Left") || context.headDirection == Str("Looking Right"))
           && now - lastRespondingTime >= RespondingCooldown
        {
          current := Some(RespondingJA(RespondingDirection(context.headDirection)));
          lastRespondingTime := now;
        } else if context.secondFaceX != Null && context.secondFaceY != Null {
          current := Some(DynamicGaze);
        } else {
          current := Some(MutualGaze);
        }
      } else {
        centred := true;
      }
    }

    /** `handleCardRevealed(data)`: the RobotsMove message goes out through the
        logging channel; `sendThrows` says whether the transport raises. */
    method HandleCardRevealed(data: Object, panel: ControlPanel, log: Logging.LoggingChannel, random: real, now: int, sendThrows: bool)
      modifies this, log
      ensures var r := Reveal(old(State()), data, panel.Flags(), random, now);
        && State() == r.state
        && (r.message.Some? ==> log.State() == Logging.AfterSend(old(log.State()), r.message.value, sendThrows))
        && (r.message.None? ==> log.State() == old(log.State()))
    {
      var cardId := Get(data, "cardId");
      if !Truthy(cardId) || !Truthy(Get(data, "side")) {
        return;
      }
      if lastHandledCardId == cardId {
        return;
      }
      lastHandledCardId := cardId;
      var direction := Get(data, "side");
      var triggered := false;
      if !panel.carl && panel.ija {
        triggered := true;
        var factor := 1.0;
        if panel.k80 {
          factor := 0.8;
        } else if panel.k20 {
          factor := 0.2;
        }
        if factor < 1.0 && random > factor {
          direction := if direction == Str("left") then Str("right") else Str("left");
        }
      }
      if triggered {
        scheduled := scheduled + [Pending(direction, now + InitiatingDelay)];
      }
      var message := RobotsMoveMessage(cardId, panel.Flags(), if triggered then direction else Str("none"), now);
      log.Send(message, sendThrows);
    }

    /** The callback of the earliest pending reveal timer. */
    method FireScheduled()
      requires scheduled != []
      modifies this
      ensures State() == FireTimer(old(State()))
    {
      var pending := scheduled[0];
      scheduled := scheduled[1..];
      if current.Some? && (current.value.InitiatingJA? || current.value.RespondingJA?) {
        return;
      }
      current := Some(InitiatingJA(pending.direction));
    }

    /** The keydown listener. */
    method OnKeyDown(panel: ControlPanel, key: string)
      modifies this
      ensures State() == KeyDown(old(State()), panel.Flags(), key)
    {
      if !panel.ija || panel.carl {
        return;
      }
      if current.Some? && (current.value.InitiatingJA? || current.value.RespondingJA?) {
        return;
      }
      if key == "ArrowLeft" {
        current := Some(InitiatingJA(Str("left")));
      } else if key == "ArrowRight" {
        current := Some(InitiatingJA(Str("right")));
      }
    }
  }
}
