/**
  The set-then-restore control run of scripts/client_diagnostic.py: which
  setters a plan calls, what is restored when any of them fails, and what the
  device is left with.
 */
module Controls {
  import opened Wrappers
  import opened Reports

  datatype Setter = SetInputLimit | SetOutputLimit | SetMinSoc | SetSoc | SetAcMode

  datatype ControlAction = ControlAction(property: string, setter: Setter, value: int, restore: Option<int>)

  datatype Skip = ValueUnavailable(property: string) | CannotRestore(property: string)

  datatype ControlPlan = ControlPlan(actions: seq<ControlAction>, skipped: seq<Skip>)

  /** The values given on the command line. */
  datatype Overrides = Overrides(
    inputLimit: Option<int>,
    outputLimit: Option<int>,
    minSoc: Option<int>,
    soc: Option<int>,
    acMode: Option<int>)

  // ---- Planning ---------------------------------------------------------

  /** `_value_or_override`: without any value the control is skipped. */
  method ValueOrOverride(property: string, setter: Setter, current: Option<int>, override: Option<int>,
                         skipped: seq<Skip>)
    returns (action: Option<ControlAction>, reasons: seq<Skip>)
    ensures action.Some? <==> override.Some? || current.Some?
    ensures action.Some? ==> action.value == ControlAction(property, setter, override.GetOr(current.GetOr(0)), current)
    ensures reasons == if action.Some? then skipped else skipped + [ValueUnavailable(property)]
  {
    var value := if override.Some? then override else current;
    if value.None? {
      return None, skipped + [ValueUnavailable(property)];
    }
    return Some(ControlAction(property, setter, value.value, current)), skipped;
  }

  /** `_restorable_value_or_override`: an override needs a known original. */
  method RestorableValueOrOverride(property: string, setter: Setter, current: Option<int>, override: Option<int>,
                                   skipped: seq<Skip>)
    returns (action: Option<ControlAction>, reasons: seq<Skip>)
    ensures action.Some? <==> current.Some?
    ensures action.Some? ==> action.value == ControlAction(property, setter, override.GetOr(current.value), current)
    ensures reasons == if action.Some? then skipped
                       else skipped + [if override.Some? then CannotRestore(property) else ValueUnavailable(property)]
  {
    if override.Some? && current.None? {
      return None, skipped + [CannotRestore(property)];
    }
    action, reasons := ValueOrOverride(property, setter, current, override, skipped);
  }

  /** `_wire_per_mille_to_percent`: `//` rounds down, also below zero. */
  function WirePerMilleToPercent(value: Option<int>): Option<int> {
    if value.None? then None else Some(value.value / 10)
  }

  function Property(s: Setter): string {
    match s
    case SetInputLimit => "inputLimit"
    case SetOutputLimit => "outputLimit"
    case SetMinSoc => "minSoc"
    case SetSoc => "socSet"
    case SetAcMode => "acMode"
  }

  function FieldOf(s: Setter): Field {
    match s
    case SetInputLimit => InputLimit
    case SetOutputLimit => OutputLimit
    case SetMinSoc => MinSoc
    case SetSoc => SocSet
    case SetAcMode => AcMode
  }

  predicate InPercent(s: Setter) {
    s == SetMinSoc || s == SetSoc
  }

  /** The device's own value of a control, in the unit its setter takes. */
  function Original(state: SolarFlowState, s: Setter): Option<int> {
    if InPercent(s) then WirePerMilleToPercent(Typed(state, FieldOf(s))) else Typed(state, FieldOf(s))
  }

  function Override(o: Overrides, s: Setter): Option<int> {
    match s
    case SetInputLimit => o.inputLimit
    case SetOutputLimit => o.outputLimit
    case SetMinSoc => o.minSoc
    case SetSoc => o.soc
    case SetAcMode => o.acMode
  }

  /** The power limits are set from an override even when their original is unknown. */
  predicate AcceptsUnknown(s: Setter) {
    s == SetInputLimit || s == SetOutputLimit
  }

  predicate Planned(state: SolarFlowState, o: Overrides, s: Setter) {
    Original(state, s).Some? || (AcceptsUnknown(s) && Override(o, s).Some?)
  }

  function ActionFor(state: SolarFlowState, o: Overrides, s: Setter): ControlAction {
    ControlAction(Property(s), s, Override(o, s).GetOr(Original(state, s).GetOr(0)), Original(state, s))
  }

  function SkipFor(o: Overrides, s: Setter): Skip {
    if Override(o, s).Some? then CannotRestore(Property(s)) else ValueUnavailable(Property(s))
  }

  const SETTERS: seq<Setter> := [SetInputLimit, SetOutputLimit, SetMinSoc, SetSoc, SetAcMode]

  function Actions(state: SolarFlowState, o: Overrides, setters: seq<Setter>): seq<ControlAction> {
    if setters == [] then []
    else
      var n := |setters| - 1;
      Actions(state, o, setters[..n]) + if Planned(state, o, setters[n]) then [ActionFor(state, o, setters[n])] else []
  }

  function Skips(state: SolarFlowState, o: Overrides, setters: seq<Setter>): seq<Skip> {
    if setters == [] then []
    else
      var n := |setters| - 1;
      Skips(state, o, setters[..n]) + if Planned(state, o, setters[n]) then [] else [SkipFor(o, setters[n])]
  }

  function Plan(state: SolarFlowState, o: Overrides): ControlPlan {
    ControlPlan(Actions(state, o, SETTERS), Skips(state, o, SETTERS))
  }

  /** One entry of the tuple in `plan_controls`. */
  method Decide(state: SolarFlowState, o: Overrides, s: Setter, skipped: seq<Skip>)
    returns (action: Option<ControlAction>, reasons: seq<Skip>)
    ensures action == if Planned(state, o, s) then Some(ActionFor(state, o, s)) else None
    ensures reasons == skipped + if Planned(state, o, s) then [] else [SkipFor(o, s)]
  {
    match s {
      case SetInputLimit =>
        action, reasons := ValueOrOverride("inputLimit", s, Typed(state, InputLimit), o.inputLimit, skipped);
      case SetOutputLimit =>
        action, reasons := ValueOrOverride("outputLimit", s, Typed(state, OutputLimit), o.outputLimit, skipped);
      case SetMinSoc =>
        var percent := WirePerMilleToPercent(Typed(state, MinSoc));
        action, reasons := RestorableValueOrOverride("minSoc", s, percent, o.minSoc, skipped);
      case SetSoc =>
        var percent := WirePerMilleToPercent(Typed(state, SocSet));
        action, reasons := RestorableValueOrOverride("socSet", s, percent, o.soc, skipped);
      case SetAcMode =>
        action, reasons := RestorableValueOrOverride("acMode", s, Typed(state, AcMode), o.acMode, skipped);
    }
  }

  /** `plan_controls`: one decision per control, in a fixed order. */
  method PlanControls(state: SolarFlowState, o: Overrides) returns (plan: ControlPlan)
    ensures plan == Plan(state, o)
  {
    var actions: seq<ControlAction> := [];
    var skipped: seq<Skip> := [];
    for i := 0 to |SETTERS|
      invariant actions == Actions(state, o, SETTERS[..i])
      invariant skipped == Skips(state, o, SETTERS[..i])
    {
      var action;
      action, skipped := Decide(state, o, SETTERS[i], skipped);
      if action.Some? {
        actions := actions + [action.value];
      }
      assert SETTERS[..i + 1][..i] == SETTERS[..i];
    }
    assert SETTERS[..|SETTERS|] == SETTERS;
    plan := ControlPlan(actions, skipped);
  }

  // ---- What a plan contains ---------------------------------------------

  predicate Has(actions: seq<ControlAction>, s: Setter) {
    exists i :: 0 <= i < |actions| && actions[i].setter == s
  }

  /** No setter occurs twice. */
  predicate Once(actions: seq<ControlAction>) {
    forall i, j | 0 <= i < j < |actions| :: actions[i].setter != actions[j].setter
  }

  lemma {:induction false} ActionsAre(state: SolarFlowState, o: Overrides, setters: seq<Setter>)
    requires forall i, j | 0 <= i < j < |setters| :: setters[i] != setters[j]
    ensures var actions := Actions(state, o, setters);
            && Once(actions)
            && |actions| + |Skips(state, o, setters)| == |setters|
            && (forall i | 0 <= i < |actions| ::
                  actions[i].setter in setters && Planned(state, o, actions[i].setter)
                  && actions[i] == ActionFor(state, o, actions[i].setter))
            && (forall s | s in setters && Planned(state, o, s) :: Has(actions, s))
  {
    if setters != [] {
      var n := |setters| - 1;
      ActionsAre(state, o, setters[..n]);
      var before, actions := Actions(state, o, setters[..n]), Actions(state, o, setters);
      forall i | 0 <= i < |before| ensures actions[i] == before[i] && actions[i].setter in setters[..n] {
      }
      assert setters[n] !in setters[..n];
      forall s | s in setters && Planned(state, o, s) ensures Has(actions, s) {
        if s == setters[n] {
          assert actions[|before|].setter == s;
        } else {
          assert s in setters[..n];
          var i :| 0 <= i < |before| && before[i].setter == s;
          assert actions[i].setter == s;
        }
      }
    }
  }

  /**
    A plan runs each control at most once and accounts for all five. A power
    limit runs when a value is reported or given, any other control exactly
    when its value is reported.
   */
  lemma PlanIs(state: SolarFlowState, o: Overrides, s: Setter)
    ensures var plan := Plan(state, o);
            && Once(plan.actions)
            && |plan.actions| + |plan.skipped| == 5
            && (Has(plan.actions, s) <==>
                  Typed(state, FieldOf(s)).Some? || (AcceptsUnknown(s) && Override(o, s).Some?))
            && (forall i | 0 <= i < |plan.actions| && plan.actions[i].setter == s ::
                  plan.actions[i] == ActionFor(state, o, s))
  {
    ActionsAre(state, o, SETTERS);
    assert SETTERS[0] == SetInputLimit && SETTERS[1] == SetOutputLimit && SETTERS[2] == SetMinSoc
           && SETTERS[3] == SetSoc && SETTERS[4] == SetAcMode;
    assert s in SETTERS;
  }

  /** The place of a control in every plan. */
  function Rank(s: Setter): nat {
    match s
    case SetInputLimit => 0
    case SetOutputLimit => 1
    case SetMinSoc => 2
    case SetSoc => 3
    case SetAcMode => 4
  }

  /** What a plan has for one control: what is given, what is reported, and whether it may be unknown. */
  predicate Plans(plan: ControlPlan, s: Setter, property: string, given: Option<int>, reported: Option<int>,
                  mayBeUnknown: bool)
  {
    && (Has(plan.actions, s) <==> reported.Some? || (mayBeUnknown && given.Some?))
    && (forall i | 0 <= i < |plan.actions| && plan.actions[i].setter == s ::
          plan.actions[i]
          == ControlAction(property, s, if given.Some? then given.value else reported.GetOr(0), reported))
    && (!Has(plan.actions, s) ==>
          (if given.Some? then CannotRestore(property) else ValueUnavailable(property)) in plan.skipped)
  }

  function Percent(perMille: Option<int>): Option<int> {
    match perMille
    case None => None
    case Some(n) => Some((n - n % 10) / 10)
  }

  lemma {:induction false} SkipsAre(state: SolarFlowState, o: Overrides, setters: seq<Setter>, s: Setter)
    requires s in setters && !Planned(state, o, s)
    ensures SkipFor(o, s) in Skips(state, o, setters)
  {
    var n := |setters| - 1;
    if setters[n] != s {
      SkipsAre(state, o, setters[..n], s);
    }
  }

  lemma {:induction false} ActionsInOrder(state: SolarFlowState, o: Overrides, setters: seq<Setter>)
    requires forall i, j | 0 <= i < j < |setters| :: Rank(setters[i]) < Rank(setters[j])
    ensures var actions := Actions(state, o, setters);
            && (forall i | 0 <= i < |actions| :: actions[i].setter in setters)
            && InOrder(actions)
  {
    if setters != [] {
      var n := |setters| - 1;
      var before, actions := Actions(state, o, setters[..n]), Actions(state, o, setters);
      ActionsInOrder(state, o, setters[..n]);
      forall i | 0 <= i < |actions|
        ensures actions[i].setter in setters
        ensures i < |before| ==> actions[i] == before[i] && Rank(actions[i].setter) < Rank(setters[n])
        ensures i >= |before| ==> i == |before| && actions[i].setter == setters[n]
      {
        if i < |before| {
          var j :| 0 <= j < n && setters[..n][j] == before[i].setter;
        }
      }
    }
  }

  predicate InOrder(actions: seq<ControlAction>) {
    forall i, j | 0 <= i < j < |actions| :: Rank(actions[i].setter) < Rank(actions[j].setter)
  }

  lemma PlanInOrder(state: SolarFlowState, o: Overrides)
    ensures InOrder(Plan(state, o).actions)
  {
    ActionsInOrder(state, o, SETTERS);
  }

  /**
    Control by control, what a plan sets, restores and skips: each from its own
    override and its own reported field, in the order of the source.
   */
  lemma PlanControlByControl(state: SolarFlowState, o: Overrides)
    ensures var plan := Plan(state, o);
            && Plans(plan, SetInputLimit, "inputLimit", o.inputLimit, Typed(state, InputLimit), true)
            && Plans(plan, SetOutputLimit, "outputLimit", o.outputLimit, Typed(state, OutputLimit), true)
            && Plans(plan, SetMinSoc, "minSoc", o.minSoc, Percent(Typed(state, MinSoc)), false)
            && Plans(plan, SetSoc, "socSet", o.soc, Percent(Typed(state, SocSet)), false)
            && Plans(plan, SetAcMode, "acMode", o.acMode, Typed(state, AcMode), false)
            && InOrder(plan.actions)
  {
    PlanInOrder(state, o);
    PlansOne(state, o, SetInputLimit);
    PlansOne(state, o, SetOutputLimit);
    PlansOne(state, o, SetMinSoc);
    PlansOne(state, o, SetSoc);
    PlansOne(state, o, SetAcMode);
  }

  lemma PlansOne(state: SolarFlowState, o: Overrides, s: Setter)
    ensures Plans(Plan(state, o), s, Property(s), Override(o, s), Original(state, s), AcceptsUnknown(s))
  {
    PlanIs(state, o, s);
    if !Has(Plan(state, o).actions, s) {
      assert SETTERS[0] == SetInputLimit && SETTERS[1] == SetOutputLimit && SETTERS[2] == SetMinSoc
             && SETTERS[3] == SetSoc && SETTERS[4] == SetAcMode;
      SkipsAre(state, o, SETTERS, s);
    }
  }

  /** The promise of the docstring of `plan_controls`: every planned control can be restored. */
  predicate AllRestorable(plan: ControlPlan) {
    forall i | 0 <= i < |plan.actions| :: plan.actions[i].restore.Some?
  }

  /**
    The promise holds exactly when no power limit is overridden whose value
    is unknown: the two limits are planned without a restore value.
   */
  lemma RestorableIff(state: SolarFlowState, o: Overrides)
    ensures AllRestorable(Plan(state, o)) <==>
              && (o.inputLimit.Some? ==> InputLimit in state.typed)
              && (o.outputLimit.Some? ==> OutputLimit in state.typed)
  {
    var actions := Plan(state, o).actions;
    PlanIs(state, o, SetInputLimit);
    PlanIs(state, o, SetOutputLimit);
    if o.inputLimit.Some? && InputLimit !in state.typed {
      var i :| 0 <= i < |actions| && actions[i].setter == SetInputLimit;
      assert actions[i].restore.None?;
    } else if o.outputLimit.Some? && OutputLimit !in state.typed {
      var i :| 0 <= i < |actions| && actions[i].setter == SetOutputLimit;
      assert actions[i].restore.None?;
    } else {
      forall i | 0 <= i < |actions| ensures actions[i].restore.Some? {
        PlanIs(state, o, actions[i].setter);
        assert Has(actions, actions[i].setter);
      }
    }
  }

  /** An override of an unreported input limit: planned, and never restored. */
  lemma UnrestorableWitness()
    ensures !AllRestorable(Plan(EMPTY_STATE, Overrides(Some(100), None, None, None, None)))
  {
    RestorableIff(EMPTY_STATE, Overrides(Some(100), None, None, None, None));
  }

  // ---- Running ----------------------------------------------------------

  datatype Call = Call(setter: Setter, value: int)

  /** The error the last call of a history raises, if any; the device decides. */
  type Outcome = seq<Call> -> Option<string>

  datatype Raised = NotReady | SetterFailed(error: string)

  /** The client's setters as `run_controls` sees them, with the calls made so far. */
  class Setters {
    var calls: seq<Call>
    const outcome: Outcome

    constructor (outcome: Outcome)
      ensures calls == [] && this.outcome == outcome
    {
      calls := [];
      this.outcome := outcome;
    }

    method Invoke(setter: Setter, value: int) returns (error: Option<string>)
      modifies this
      ensures calls == old(calls) + [Call(setter, value)]
      ensures error == outcome(calls)
    {
      calls := calls + [Call(setter, value)];
      error := outcome(calls);
    }
  }

  /** The actions whose setter is called: up to and including the first that fails. */
  function Attempted(actions: seq<ControlAction>, outcome: Outcome, past: seq<Call>): seq<ControlAction> {
    if actions == [] then []
    else
      var calls := past + [SetCall(actions[0])];
      [actions[0]] + if outcome(calls).Some? then [] else Attempted(actions[1..], outcome, calls)
  }

  function SetCall(action: ControlAction): Call {
    Call(action.setter, action.value)
  }

  function SetCalls(applied: seq<ControlAction>): seq<Call> {
    seq(|applied|, i requires 0 <= i < |applied| => SetCall(applied[i]))
  }

  function RestoreCall(action: ControlAction): seq<Call> {
    if action.restore.Some? then [Call(action.setter, action.restore.value)] else []
  }

  /** Latest first, one call for each action with a known original. */
  function RestoreCalls(applied: seq<ControlAction>): seq<Call> {
    if applied == [] then [] else RestoreCalls(applied[1..]) + RestoreCall(applied[0])
  }

  /** The error of the first failing call among `calls`, made after `past`. */
  function FirstError(outcome: Outcome, past: seq<Call>, calls: seq<Call>): Option<string> {
    if calls == [] then None
    else
      var before := FirstError(outcome, past, calls[..|calls| - 1]);
      if before.Some? then before else outcome(past + calls)
  }

  lemma FirstErrorSnoc(outcome: Outcome, past: seq<Call>, calls: seq<Call>, call: Call)
    ensures FirstError(outcome, past, calls + [call])
            == if FirstError(outcome, past, calls).Some? then FirstError(outcome, past, calls)
               else outcome(past + calls + [call])
  {
    assert (calls + [call])[..|calls|] == calls;
    assert past + (calls + [call]) == past + calls + [call];
  }

  lemma SetCallsSnoc(applied: seq<ControlAction>, action: ControlAction)
    ensures SetCalls(applied + [action]) == SetCalls(applied) + [SetCall(action)]
  {
  }

  lemma AttemptedStep(actions: seq<ControlAction>, i: nat, outcome: Outcome, calls: seq<Call>)
    requires i < |actions|
    ensures actions[..i] + Attempted(actions[i..], outcome, calls)
            == actions[..i + 1] + if outcome(calls + [SetCall(actions[i])]).Some? then []
                                  else Attempted(actions[i + 1..], outcome, calls + [SetCall(actions[i])])
  {
    assert actions[i..][1..] == actions[i + 1..];
  }

  /**
    `run_controls`. Whatever calls fail, the calls made are the attempted sets
    and then all their restores; the first restore error wins over the error
    of the failing set.
   */
  method RunControls(ready: bool, state: SolarFlowState, o: Overrides, client: Setters)
    returns (raised: Option<Raised>)
    modifies client
    ensures !ready ==> raised == Some(NotReady) && client.calls == old(client.calls)
    ensures ready ==>
              var past := old(client.calls);
              var applied := Attempted(Plan(state, o).actions, client.outcome, past);
              var sets, restores := SetCalls(applied), RestoreCalls(applied);
              var restoreError := FirstError(client.outcome, past + sets, restores);
              var setError := FirstError(client.outcome, past, sets);
              && client.calls == past + sets + restores
              && raised == (if restoreError.Some? then Some(SetterFailed(restoreError.value))
                            else if setError.Some? then Some(SetterFailed(setError.value)) else None)
  {
    if !ready {
      return Some(NotReady);
    }
    var plan := PlanControls(state, o);
    var setError: Option<string>;
    var applied;
    applied, setError := ApplyAll(plan.actions, client);
    var restoreError := RestoreAll(applied, client);
    if restoreError.Some? {
      return Some(SetterFailed(restoreError.value));
    }
    raised := if setError.Some? then Some(SetterFailed(setError.value)) else None;
  }

  /** The body of the `try`: an action counts as applied before its setter is called. */
  method ApplyAll(actions: seq<ControlAction>, client: Setters)
    returns (applied: seq<ControlAction>, error: Option<string>)
    modifies client
    ensures applied == Attempted(actions, client.outcome, old(client.calls))
    ensures client.calls == old(client.calls) + SetCalls(applied)
    ensures error == FirstError(client.outcome, old(client.calls), SetCalls(applied))
  {
    ghost var past := client.calls;
    applied, error := [], None;
    for i := 0 to |actions|
      invariant applied == actions[..i]
      invariant client.calls == past + SetCalls(applied)
      invariant error == None == FirstError(client.outcome, past, SetCalls(applied))
      invariant Attempted(actions, client.outcome, past)
                == applied + Attempted(actions[i..], client.outcome, client.calls)
    {
      var action := actions[i];
      AttemptedStep(actions, i, client.outcome, client.calls);
      SetCallsSnoc(applied, action);
      FirstErrorSnoc(client.outcome, past, SetCalls(applied), SetCall(action));
      applied := applied + [action];
      error := client.Invoke(action.setter, action.value);
      if error.Some? {
        return;
      }
    }
  }

  /** The `finally`: every restore is tried, the first error is kept. */
  method RestoreAll(applied: seq<ControlAction>, client: Setters) returns (error: Option<string>)
    modifies client
    ensures client.calls == old(client.calls) + RestoreCalls(applied)
    ensures error == FirstError(client.outcome, old(client.calls), RestoreCalls(applied))
  {
    ghost var past := client.calls;
    error := None;
    var i := |applied|;
    while i > 0
      invariant 0 <= i <= |applied|
      invariant client.calls == past + RestoreCalls(applied[i..])
      invariant error == FirstError(client.outcome, past, RestoreCalls(applied[i..]))
    {
      i := i - 1;
      var action := applied[i];
      assert applied[i..][1..] == applied[i + 1..];
      ghost var before := RestoreCalls(applied[i + 1..]);
      if action.restore.None? {
        assert RestoreCalls(applied[i..]) == before;
        continue;
      }
      assert RestoreCalls(applied[i..]) == before + [Call(action.setter, action.restore.value)];
      FirstErrorSnoc(client.outcome, past, before, Call(action.setter, action.restore.value));
      var failed := client.Invoke(action.setter, action.restore.value);
      assert client.calls == past + RestoreCalls(applied[i..]);
      if failed.Some? {
        error := if error.Some? then error else failed;
        continue;
      }
    }
    assert applied[0..] == applied;
  }

  /** What the k-th of `calls` raises. */
  function ErrorAt(outcome: Outcome, past: seq<Call>, calls: seq<Call>, k: nat): Option<string>
    requires k < |calls|
  {
    outcome(past + calls[..k + 1])
  }

  /** The error kept is None exactly when every call succeeded, else that of the first that failed. */
  lemma {:induction false} FirstErrorIs(outcome: Outcome, past: seq<Call>, calls: seq<Call>)
    ensures var error := FirstError(outcome, past, calls);
            if error.None? then forall k | 0 <= k < |calls| :: ErrorAt(outcome, past, calls, k).None?
            else exists k | 0 <= k < |calls| ::
                && ErrorAt(outcome, past, calls, k) == error
                && forall j | 0 <= j < k :: ErrorAt(outcome, past, calls, j).None?
  {
    if calls != [] {
      var n := |calls| - 1;
      var before := calls[..n];
      FirstErrorIs(outcome, past, before);
      forall k | 0 <= k < n ensures ErrorAt(outcome, past, before, k) == ErrorAt(outcome, past, calls, k) {
        assert before[..k + 1] == calls[..k + 1];
      }
      assert calls[..n + 1] == calls;
      if FirstError(outcome, past, before).None? {
        assert ErrorAt(outcome, past, calls, n) == FirstError(outcome, past, calls);
      } else {
        var k :| 0 <= k < n && ErrorAt(outcome, past, before, k) == FirstError(outcome, past, before)
                 && forall j | 0 <= j < k :: ErrorAt(outcome, past, before, j).None?;
        assert ErrorAt(outcome, past, calls, k) == FirstError(outcome, past, calls);
      }
    }
  }

  // ---- What a run does --------------------------------------------------

  lemma {:induction false} AttemptedPrefix(actions: seq<ControlAction>, outcome: Outcome, past: seq<Call>)
    ensures Attempted(actions, outcome, past) <= actions
  {
    if actions != [] {
      AttemptedPrefix(actions[1..], outcome, past + [SetCall(actions[0])]);
    }
  }

  lemma SetCallsCons(past: seq<Call>, action: ControlAction, rest: seq<ControlAction>)
    ensures past + SetCalls([action] + rest) == past + [SetCall(action)] + SetCalls(rest)
  {
    assert SetCalls([action] + rest) == [SetCall(action)] + SetCalls(rest);
  }

  lemma {:induction false} AttemptSucceeded(actions: seq<ControlAction>, outcome: Outcome, past: seq<Call>, i: nat)
    requires 0 < i < |Attempted(actions, outcome, past)|
    ensures outcome(past + SetCalls(Attempted(actions, outcome, past)[..i])).None?
  {
    var calls := past + [SetCall(actions[0])];
    var rest := Attempted(actions[1..], outcome, calls);
    SetCallsCons(past, actions[0], rest[..i - 1]);
    assert Attempted(actions, outcome, past)[..i] == [actions[0]] + rest[..i - 1];
    if i == 1 {
      assert calls + SetCalls(rest[..0]) == calls;
    } else {
      AttemptSucceeded(actions[1..], outcome, calls, i - 1);
    }
  }

  lemma {:induction false} AttemptsStop(actions: seq<ControlAction>, outcome: Outcome, past: seq<Call>)
    ensures var applied := Attempted(actions, outcome, past);
            applied == actions || (applied != [] && outcome(past + SetCalls(applied)).Some?)
  {
    if actions != [] {
      var calls := past + [SetCall(actions[0])];
      var rest := Attempted(actions[1..], outcome, calls);
      AttemptsStop(actions[1..], outcome, calls);
      SetCallsCons(past, actions[0], if outcome(calls).Some? then [] else rest);
      assert calls + SetCalls([]) == calls;
    }
  }

  /** The sets stop at the first failure, and only there. */
  lemma AttemptedIs(actions: seq<ControlAction>, outcome: Outcome, past: seq<Call>)
    ensures var applied := Attempted(actions, outcome, past);
            && applied <= actions
            && (forall i | 0 < i < |applied| :: outcome(past + SetCalls(applied[..i])).None?)
            && (applied == actions || (applied != [] && outcome(past + SetCalls(applied)).Some?))
  {
    AttemptedPrefix(actions, outcome, past);
    AttemptsStop(actions, outcome, past);
    var applied := Attempted(actions, outcome, past);
    forall i | 0 < i < |applied| ensures outcome(past + SetCalls(applied[..i])).None? {
      AttemptSucceeded(actions, outcome, past, i);
    }
  }

  /** Where the restore of the i-th attempt stands: after those of all later attempts. */
  function RestoreIndex(applied: seq<ControlAction>, i: nat): nat
    requires i < |applied|
  {
    |RestoreCalls(applied[i + 1..])|
  }

  lemma {:induction false} RestoreAt(applied: seq<ControlAction>, i: nat)
    requires i < |applied| && applied[i].restore.Some?
    ensures RestoreIndex(applied, i) < |RestoreCalls(applied)|
    ensures RestoreCalls(applied)[RestoreIndex(applied, i)] == Call(applied[i].setter, applied[i].restore.value)
  {
    if i > 0 {
      assert applied[1..][i - 1 + 1..] == applied[i + 1..];
      RestoreAt(applied[1..], i - 1);
    }
  }

  lemma {:induction false} RestoreOrigin(applied: seq<ControlAction>, k: nat) returns (i: nat)
    requires k < |RestoreCalls(applied)|
    ensures i < |applied| && applied[i].restore.Some? && k == RestoreIndex(applied, i)
  {
    if k < |RestoreCalls(applied[1..])| {
      i := RestoreOrigin(applied[1..], k);
      i := i + 1;
      assert applied[1..][i..] == applied[i + 1..];
    } else {
      i := 0;
    }
  }

  lemma {:induction false} LaterRestoredFirst(applied: seq<ControlAction>, i: nat, j: nat)
    requires i < j < |applied| && applied[j].restore.Some?
    ensures RestoreIndex(applied, j) < RestoreIndex(applied, i)
  {
    assert applied[i + 1..][j - i..] == applied[j + 1..];
    RestoreAt(applied[i + 1..], j - i - 1);
  }

  predicate RestoresAnAttempt(applied: seq<ControlAction>, k: nat, call: Call) {
    exists i :: 0 <= i < |applied| && RestoreCall(applied[i]) == [call] && RestoreIndex(applied, i) == k
  }

  /**
    Every attempted action with a known original gets exactly one restore
    call, in the reverse order of the attempts, and nothing else is restored.
   */
  lemma {:induction false} RestoredOnceInReverse(applied: seq<ControlAction>)
    ensures var restores := RestoreCalls(applied);
            && (forall i | 0 <= i < |applied| && applied[i].restore.Some? ::
                  RestoreIndex(applied, i) < |restores|
                  && restores[RestoreIndex(applied, i)] == Call(applied[i].setter, applied[i].restore.value))
            && (forall i, j | 0 <= i < j < |applied| && applied[j].restore.Some? ::
                  RestoreIndex(applied, j) < RestoreIndex(applied, i))
            && (forall k | 0 <= k < |restores| :: RestoresAnAttempt(applied, k, restores[k]))
  {
    forall i | 0 <= i < |applied| && applied[i].restore.Some?
      ensures RestoreIndex(applied, i) < |RestoreCalls(applied)|
      ensures RestoreCalls(applied)[RestoreIndex(applied, i)] == Call(applied[i].setter, applied[i].restore.value)
    {
      RestoreAt(applied, i);
    }
    forall i, j | 0 <= i < j < |applied| && applied[j].restore.Some?
      ensures RestoreIndex(applied, j) < RestoreIndex(applied, i)
    {
      LaterRestoredFirst(applied, i, j);
    }
    var restores := RestoreCalls(applied);
    forall k | 0 <= k < |restores| ensures RestoresAnAttempt(applied, k, restores[k]) {
      var i := RestoreOrigin(applied, k);
      RestoreAt(applied, i);
    }
  }

  // ---- What a run leaves behind -----------------------------------------

  /** Whether a failing call reached the device all the same. */
  type Landing = seq<Call> -> bool

  /** `set_min_soc` and `set_soc` write per mille, the other setters their argument. */
  function Wire(s: Setter, value: int): int {
    if InPercent(s) then value * 10 else value
  }

  /** The value on the device after `calls`, made after `past`. */
  function Setting(s: Setter, initial: int, outcome: Outcome, lands: Landing, past: seq<Call>, calls: seq<Call>): int {
    if calls == [] then initial
    else
      var last := calls[|calls| - 1];
      if last.setter == s && (outcome(past + calls).None? || lands(past + calls)) then Wire(s, last.value)
      else Setting(s, initial, outcome, lands, past, calls[..|calls| - 1])
  }

  lemma {:induction false} SettingAfter(s: Setter, initial: int, outcome: Outcome, lands: Landing,
                                        past: seq<Call>, calls: seq<Call>, more: seq<Call>)
    requires forall k | 0 <= k < |more| :: more[k].setter != s
    ensures Setting(s, initial, outcome, lands, past, calls + more) == Setting(s, initial, outcome, lands, past, calls)
  {
    if more == [] {
      assert calls + more == calls;
    } else {
      var n := |more| - 1;
      assert (calls + more)[..|calls| + n] == calls + more[..n];
      SettingAfter(s, initial, outcome, lands, past, calls, more[..n]);
    }
  }

  /** Every restore call of this setter, if any, succeeded. */
  predicate RestoreSucceeded(s: Setter, outcome: Outcome, before: seq<Call>, restores: seq<Call>) {
    forall k | 0 <= k < |restores| && restores[k].setter == s :: ErrorAt(outcome, before, restores, k).None?
  }

  lemma RestoredSetting(applied: seq<ControlAction>, i: nat, initial: int, outcome: Outcome, lands: Landing,
                        past: seq<Call>)
    requires Once(applied) && i < |applied| && applied[i].restore.Some?
    requires RestoreSucceeded(applied[i].setter, outcome, past + SetCalls(applied), RestoreCalls(applied))
    ensures Setting(applied[i].setter, initial, outcome, lands, past, SetCalls(applied) + RestoreCalls(applied))
            == Wire(applied[i].setter, applied[i].restore.value)
  {
    var s, sets, restores := applied[i].setter, SetCalls(applied), RestoreCalls(applied);
    var k := RestoreIndex(applied, i);
    RestoreAt(applied, i);
    forall k' | k < k' < |restores| ensures restores[k'].setter != s {
      var j := RestoreOrigin(applied, k');
      RestoreAt(applied, j);
    }
    var calls := sets + restores[..k + 1];
    assert sets + restores == calls + restores[k + 1..];
    SettingAfter(s, initial, outcome, lands, past, calls, restores[k + 1..]);
    assert past + calls == past + sets + restores[..k + 1];
    assert calls[|calls| - 1] == restores[k];
  }

  lemma UntouchedSetting(applied: seq<ControlAction>, s: Setter, initial: int, outcome: Outcome, lands: Landing,
                         past: seq<Call>)
    requires !Has(applied, s)
    ensures Setting(s, initial, outcome, lands, past, SetCalls(applied) + RestoreCalls(applied)) == initial
  {
    var calls := SetCalls(applied) + RestoreCalls(applied);
    forall k | 0 <= k < |RestoreCalls(applied)| ensures RestoreCalls(applied)[k].setter != s {
      var i := RestoreOrigin(applied, k);
      RestoreAt(applied, i);
    }
    SettingAfter(s, initial, outcome, lands, past, [], calls);
    assert [] + calls == calls;
  }

  /** The attempt of a setter is the planned one, and the only one. */
  lemma AttemptOf(state: SolarFlowState, o: Overrides, outcome: Outcome, past: seq<Call>, s: Setter) returns (i: nat)
    requires Has(Attempted(Plan(state, o).actions, outcome, past), s)
    ensures var applied := Attempted(Plan(state, o).actions, outcome, past);
            Once(applied) && i < |applied| && applied[i] == ActionFor(state, o, s)
  {
    var actions := Plan(state, o).actions;
    AttemptedPrefix(actions, outcome, past);
    PlanIs(state, o, s);
    i :| 0 <= i < |Attempted(actions, outcome, past)| && Attempted(actions, outcome, past)[i].setter == s;
    assert Attempted(actions, outcome, past)[i] == actions[i];
  }

  /** Restoring a reported state of charge writes it rounded down to a whole percent. */
  lemma RestoreRounds(state: SolarFlowState, s: Setter)
    requires Typed(state, FieldOf(s)).Some?
    ensures var reported, restored := Typed(state, FieldOf(s)).value, Wire(s, Original(state, s).value);
            && reported - 10 < restored <= reported
            && (InPercent(s) ==> restored % 10 == 0)
            && (restored == reported <==> !InPercent(s) || reported % 10 == 0)
  {
  }

  /**
    A run undoes itself. A control it did not attempt keeps its value; one it
    attempted and restored holds the reported value again, the two states of
    charge rounded down to a whole percent. Failing sets, and failing calls
    that reach the device all the same, make no difference.
   */
  lemma RunRestores(state: SolarFlowState, o: Overrides, outcome: Outcome, lands: Landing, past: seq<Call>,
                    s: Setter, initial: int)
    ensures var applied := Attempted(Plan(state, o).actions, outcome, past);
            var sets, restores := SetCalls(applied), RestoreCalls(applied);
            var reported := Typed(state, FieldOf(s));
            var after := Setting(s, initial, outcome, lands, past, sets + restores);
            if !Has(applied, s) then after == initial
            else reported.Some? && RestoreSucceeded(s, outcome, past + sets, restores) ==>
              && (!InPercent(s) ==> after == reported.value)
              && reported.value - 10 < after <= reported.value
              && (InPercent(s) ==> after % 10 == 0 && (after == reported.value <==> reported.value % 10 == 0))
  {
    var applied := Attempted(Plan(state, o).actions, outcome, past);
    if !Has(applied, s) {
      UntouchedSetting(applied, s, initial, outcome, lands, past);
    } else if Typed(state, FieldOf(s)).Some?
              && RestoreSucceeded(s, outcome, past + SetCalls(applied), RestoreCalls(applied)) {
      var i := AttemptOf(state, o, outcome, past, s);
      RestoredSetting(applied, i, initial, outcome, lands, past);
      RestoreRounds(state, s);
    }
  }
}
