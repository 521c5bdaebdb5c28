/** The experimenter's control panel: three condition toggles (Ryan, Ivan,
    Carl), the initiating and responding joint-attention toggles and the two
    knowledge toggles (80 % and 20 %), with the change listeners that keep
    them consistent and the write-once record of the first condition. */
module UiHandler {
  import opened Values

  datatype Condition = Ryan | Ivan | Carl

  /** The checked state of the seven toggles. */
  datatype Toggles = Toggles(ryan: bool, ivan: bool, carl: bool, ija: bool, rja: bool, k80: bool, k20: bool)

  datatype ToggleId =
    | RyanToggle | IvanToggle | CarlToggle
    | JointAttentionToggle | RespondingToggle
    | Knowledge80Toggle | Knowledge20Toggle

  /** Everything the listeners change: the toggles, `window.initialCondition`,
      `window.conditionSequence` and whether the activation prompt is shown. */
  datatype PanelState = PanelState(
    toggles: Toggles,
    initialCondition: Option<Condition>,
    conditionSequence: seq<Condition>,
    promptShown: bool)

  function Checked(t: Toggles, id: ToggleId): bool
  {
    match id
    case RyanToggle => t.ryan
    case IvanToggle => t.ivan
    case CarlToggle => t.carl
    case JointAttentionToggle => t.ija
    case RespondingToggle => t.rja
    case Knowledge80Toggle => t.k80
    case Knowledge20Toggle => t.k20
  }

  /** A click (or a programmatic `.checked = v`) on one toggle. */
  function WithChecked(t: Toggles, id: ToggleId, v: bool): (r: Toggles)
    ensures Checked(r, id) == v
  {
    match id
    case RyanToggle => t.(ryan := v)
    case IvanToggle => t.(ivan := v)
    case CarlToggle => t.(carl := v)
    case JointAttentionToggle => t.(ija := v)
    case RespondingToggle => t.(rja := v)
    case Knowledge80Toggle => t.(k80 := v)
    case Knowledge20Toggle => t.(k20 := v)
  }

  function ToggleOf(c: Condition): ToggleId
  {
    match c
    case Ryan => RyanToggle
    case Ivan => IvanToggle
    case Carl => CarlToggle
  }

  function ConditionOf(id: ToggleId): Option<Condition>
  {
    match id
    case RyanToggle => Some(Ryan)
    case IvanToggle => Some(Ivan)
    case CarlToggle => Some(Carl)
    case _ => None
  }

  /** The toggles each condition's listener leaves behind. */
  const RyanProfile := Toggles(true, false, false, true, false, true, false)
  const IvanProfile := Toggles(false, true, false, true, false, false, true)
  const CarlProfile := Toggles(false, false, true, false, false, false, false)

  function Profile(c: Condition): Toggles
  {
    match c
    case Ryan => RyanProfile
    case Ivan => IvanProfile
    case Carl => CarlProfile
  }

  /** At most one condition is checked, the two knowledge levels are never both
      checked, and while Carl is checked no gaze behaviour and no knowledge
      level is enabled. */
  predicate Consistent(t: Toggles)
  {
    && (t.ryan ==> !t.ivan && !t.carl)
    && (t.ivan ==> !t.carl)
    && !(t.k80 && t.k20)
    && (t.carl ==> !t.ija && !t.rja && !t.k80 && !t.k20)
  }

  /** What a condition listener does when its toggle is checked: hide the
      prompt, record the condition if none is recorded yet, and apply the
      condition's profile. */
  function ConditionChecked(s: PanelState, c: Condition): (r: PanelState)
    ensures r.toggles == Profile(c) && Consistent(r.toggles) && !r.promptShown
    ensures s.initialCondition.None? ==> r.initialCondition == Some(c) && r.conditionSequence == [c]
    ensures s.initialCondition.Some? ==> r.initialCondition == s.initialCondition && r.conditionSequence == s.conditionSequence
  {
    var recorded :=
      if s.initialCondition.None? then s.(initialCondition := Some(c), conditionSequence := [c]) else s;
    recorded.(promptShown := false, toggles := Profile(c))
  }

  /** The `change` listener of toggle `id`, run on the state in which its
      checked value has already changed. */
  function Listener(s: PanelState, id: ToggleId): (r: PanelState)
    // a condition listener acts only when its toggle is checked
    ensures ConditionOf(id).Some? && Checked(s.toggles, id) ==> r == ConditionChecked(s, ConditionOf(id).value)
    ensures ConditionOf(id).Some? && !Checked(s.toggles, id) ==> r == s
    // the behaviour listeners touch only the toggles, and never check one
    ensures ConditionOf(id).None? ==>
      && r.initialCondition == s.initialCondition && r.conditionSequence == s.conditionSequence
      && r.promptShown == s.promptShown
      && (forall other: ToggleId :: Checked(r.toggles, other) ==> Checked(s.toggles, other))
  {
    var t := s.toggles;
    match id
    case Knowledge80Toggle =>
      if t.k80 then s.(toggles := t.(k20 := false, k80 := !t.carl)) else s
    case Knowledge20Toggle =>
      if t.k20 then s.(toggles := t.(k80 := false, k20 := !t.carl)) else s
    case JointAttentionToggle =>
      if t.carl && t.ija then s.(toggles := t.(ija := false)) else s
    case RespondingToggle =>
      if t.carl && t.rja then s.(toggles := t.(rja := false)) else s
    case RyanToggle => if t.ryan then ConditionChecked(s, Ryan) else s
    case IvanToggle => if t.ivan then ConditionChecked(s, Ivan) else s
    case CarlToggle => if t.carl then ConditionChecked(s, Carl) else s
  }

  /** Toggle `id` becomes `v` and its change listener runs. */
  function AfterChange(s: PanelState, id: ToggleId, v: bool): (r: PanelState)
    // the listeners keep the panel consistent
    ensures Consistent(s.toggles) ==> Consistent(r.toggles)
    // checking a condition makes the panel consistent from any state
    ensures v && ConditionOf(id).Some? ==> Consistent(r.toggles)
  {
    match id
    case RyanToggle => Listener(s.(toggles := s.toggles.(ryan := v)), id)
    case IvanToggle => Listener(s.(toggles := s.toggles.(ivan := v)), id)
    case CarlToggle => Listener(s.(toggles := s.toggles.(carl := v)), id)
    case JointAttentionToggle => Listener(s.(toggles := s.toggles.(ija := v)), id)
    case RespondingToggle => Listener(s.(toggles := s.toggles.(rja := v)), id)
    case Knowledge80Toggle => Listener(s.(toggles := s.toggles.(k80 := v)), id)
    case Knowledge20Toggle => Listener(s.(toggles := s.toggles.(k20 := v)), id)
  }

  lemma AfterChangeRunsListener(s: PanelState, id: ToggleId, v: bool)
    ensures AfterChange(s, id, v) == Listener(s.(toggles := WithChecked(s.toggles, id, v)), id)
  {
  }

  /** Checking a condition applies its profile and hides the prompt; unchecking
      one only clears it. */
  lemma ConditionChange(s: PanelState, id: ToggleId, v: bool)
    requires ConditionOf(id).Some?
    ensures v ==> AfterChange(s, id, v).toggles == Profile(ConditionOf(id).value)
    ensures v ==> !AfterChange(s, id, v).promptShown
    ensures !v ==> AfterChange(s, id, v) == s.(toggles := WithChecked(s.toggles, id, false))
  {
  }

  /** `initialCondition` and `conditionSequence` are written only while no
      condition is recorded, and then by checking a condition. */
  lemma InitialConditionWriteOnce(s: PanelState, id: ToggleId, v: bool)
    ensures var r := AfterChange(s, id, v);
      if s.initialCondition.None? && v && ConditionOf(id).Some?
      then r.initialCondition == ConditionOf(id) && r.conditionSequence == [ConditionOf(id).value]
      else r.initialCondition == s.initialCondition && r.conditionSequence == s.conditionSequence
  {
  }

  /** Checking a knowledge level clears the other one, and is itself undone
      while Carl is checked. */
  lemma KnowledgeChange(s: PanelState, id: ToggleId)
    requires id == Knowledge80Toggle || id == Knowledge20Toggle
    ensures var r := AfterChange(s, id, true).toggles;
      && !(r.k80 && r.k20)
      && Checked(r, id) == !s.toggles.carl
      && r.(k80 := false, k20 := false) == s.toggles.(k80 := false, k20 := false)
  {
  }

  /** A joint-attention toggle cannot be checked while Carl is; otherwise its
      change is kept as it is. */
  lemma JointAttentionChange(s: PanelState, id: ToggleId, v: bool)
    requires id == JointAttentionToggle || id == RespondingToggle
    ensures s.toggles.carl ==> !Checked(AfterChange(s, id, v).toggles, id)
    ensures !s.toggles.carl ==> AfterChange(s, id, v) == s.(toggles := WithChecked(s.toggles, id, v))
  {
  }

  /** The initial-state check run once the page is loaded. */
  function Initialize(s: PanelState): (r: PanelState)
    ensures !s.toggles.ryan && !s.toggles.ivan && !s.toggles.carl ==> r == s.(promptShown := true)
    ensures s.toggles.ryan || s.toggles.ivan || s.toggles.carl ==>
      && !r.promptShown
      && (s.initialCondition.Some? ==> r == s.(promptShown := false))
      && (s.initialCondition.None? ==>
            var c := if s.toggles.ryan then Ryan else if s.toggles.ivan then Ivan else Carl;
            && r.initialCondition == Some(c) && r.conditionSequence == [c]
            && r.toggles == Profile(c) && Consistent(r.toggles))
  {
    var t := s.toggles;
    if !t.ryan && !t.ivan && !t.carl then
      s.(promptShown := true)
    else
      var hidden := s.(promptShown := false);
      if s.initialCondition.Some? then
        hidden
      else
        var c := if t.ryan then Ryan else if t.ivan then Ivan else Carl;
        Listener(hidden.(initialCondition := Some(c), conditionSequence := [c]), ToggleOf(c))
  }

  /** The panel as the page holds it: the toggles' `.checked` fields and the
      two window globals. */
  class ControlPanel {
    var ryan: bool
    var ivan: bool
    var carl: bool
    var ija: bool
    var rja: bool
    var k80: bool
    var k20: bool
    var initialCondition: Option<Condition>
    var conditionSequence: seq<Condition>
    var promptShown: bool

    function Flags(): Toggles
      reads this
    {
      Toggles(ryan, ivan, carl, ija, rja, k80, k20)
    }

    function State(): PanelState
      reads this
    {
      PanelState(Flags(), initialCondition, conditionSequence, promptShown)
    }

    /** The page loads with the toggles as the browser restored them and
        `window.initialCondition` null; then the initial-state check runs. */
    constructor (restored: Toggles, promptInitiallyShown: bool)
      ensures State() == Initialize(PanelState(restored, None, [], promptInitiallyShown))
    {
      ryan, ivan, carl := restored.ryan, restored.ivan, restored.carl;
      ija, rja, k80, k20 := restored.ija, restored.rja, restored.k80, restored.k20;
      initialCondition, conditionSequence, promptShown := None, [], promptInitiallyShown;
      new;
      if !ryan && !ivan && !carl {
        promptShown := true;
      } else {
        promptShown := false;
        if initialCondition == None {
          var c := if ryan then Ryan else if ivan then Ivan else Carl;
          initialCondition, conditionSequence := Some(c), [c];
          Dispatch(ToggleOf(c));
        }
      }
    }

    /** Toggle `id` is set to `v` and its `change` event is dispatched. */
    method Change(id: ToggleId, v: bool)
      modifies this
      ensures State() == AfterChange(old(State()), id, v)
    {
      ghost var s := State();
      SetChecked(id, v);
      Dispatch(id);
      AfterChangeRunsListener(s, id, v);
    }

    /** The `.checked` assignment of a click. */
    method SetChecked(id: ToggleId, v: bool)
      modifies this
      ensures Flags() == WithChecked(old(Flags()), id, v)
      ensures initialCondition == old(initialCondition) && conditionSequence == old(conditionSequence)
      ensures promptShown == old(promptShown)
    {
      match id
      case RyanToggle => ryan := v;
      case IvanToggle => ivan := v;
      case CarlToggle => carl := v;
      case JointAttentionToggle => ija := v;
      case RespondingToggle => rja := v;
      case Knowledge80Toggle => k80 := v;
      case Knowledge20Toggle => k20 := v;
    }

    /** Runs the change listener of `id`. Assigning `.checked` inside a
        listener dispatches no further event. */
    method Dispatch(id: ToggleId)
      modifies this
      ensures State() == Listener(old(State()), id)
    {
      match id
      case Knowledge80Toggle => KnowledgeListener(id);
      case Knowledge20Toggle => KnowledgeListener(id);
      case JointAttentionToggle => JointAttentionListener(id);
      case RespondingToggle => JointAttentionListener(id);
      case RyanToggle => ConditionListener(id);
      case IvanToggle => ConditionListener(id);
      case CarlToggle => ConditionListener(id);
    }

    /** The listeners of the two knowledge toggles. */
    method KnowledgeListener(id: ToggleId)
      requires id == Knowledge80Toggle || id == Knowledge20Toggle
      modifies this
      ensures State() == Listener(old(State()), id)
    {
      if id == Knowledge80Toggle {
        if k80 {
          k20 := false;
          if carl { k80 := false; }
        }
      } else {
        if k20 {
          k80 := false;
          if carl { k20 := false; }
        }
      }
    }

    /** The listeners of the initiating and responding joint-attention toggles. */
    method JointAttentionListener(id: ToggleId)
      requires id == JointAttentionToggle || id == RespondingToggle
      modifies this
      ensures State() == Listener(old(State()), id)
    {
      if id == JointAttentionToggle {
        if carl && ija { ija := false; }
      } else {
        if carl && rja { rja := false; }
      }
    }

    /** The listeners of the three condition toggles. */
    method ConditionListener(id: ToggleId)
      requires ConditionOf(id).Some?
      modifies this
      ensures State() == Listener(old(State()), id)
    {
      match id
      case RyanToggle =>
        if ryan {
          promptShown := false;
          if initialCondition == None {
            initialCondition, conditionSequence := Some(Ryan), [Ryan];
          }
          ivan, carl, ija, k80, k20, rja := false, false, true, true, false, false;
        }
      case IvanToggle =>
        if ivan {
          promptShown := false;
          if initialCondition == None {
            initialCondition, conditionSequence := Some(Ivan), [Ivan];
          }
          ryan, carl, ija, k20, k80, rja := false, false, true, true, false, false;
        }
      case CarlToggle =>
        if carl {
          promptShown := false;
          if initialCondition == None {
            initialCondition, conditionSequence := Some(Carl), [Carl];
          }
          ryan, ivan, ija, rja, k80, k20 := false, false, false, false, false, false;
        }
    }
  }
}
