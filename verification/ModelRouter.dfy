/** `chooseModelRoute`: which model, if any, a background task may use. */
module ModelRouter {
  import opened Prelude

  datatype Mode = DeterministicOnly | Economy | Balanced | HighAssurance

  datatype Policy = Policy(
    mode: Mode, enabled: bool, allowedProviders: seq<string>,
    dailyInputTokens: Option<int>, monthlyCostMicros: Option<int>, maximumOutputTokens: Option<int>,
    highAssuranceMateriality: Option<real>, highAssuranceAmbiguity: Option<real>,
    highAssuranceModel: Option<string>, economyModel: Option<string>)

  datatype Task = Task(
    deterministicSufficient: bool, inputCharacters: int, ambiguity: real, materiality: real,
    provider: Option<string>, dailyInputTokensUsed: Option<int>, monthlyCostMicrosUsed: Option<int>)

  datatype Route = NoModel | Deferred | EconomyRoute | HighAssuranceRoute

  datatype Decision = Decision(
    route: Route, provider: Option<string>, model: Option<string>, estimatedInputTokens: int, maximumOutputTokens: int,
    estimatedCostMicros: int)

  function Or<T>(x: Option<T>, d: T): T { if x.Some? then x.value else d }

  function ClampUnit(x: real): real { if x < 0.0 then 0.0 else if x > 1.0 then 1.0 else x }

  /** `Math.max(0, Math.ceil(characters / 4))` */
  function EstimateTokens(characters: int): nat { if characters <= 0 then 0 else (characters + 3) / 4 }

  const NO_MODEL := Decision(NoModel, None, None, 0, 0, 0)
  const DEFERRED := Decision(Deferred, None, None, 0, 0, 0)

  function ProviderFor(policy: Policy, task: Task): Option<string> {
    if task.provider.Some? then task.provider
    else if policy.allowedProviders != [] then Some(policy.allowedProviders[0])
    else None
  }

  predicate ProviderAllowed(policy: Policy, task: Task) {
    var p := ProviderFor(policy, task);
    p.Some? && p.value != "" && p.value in policy.allowedProviders
  }

  predicate BudgetAllows(policy: Policy, task: Task) {
    && Or(policy.dailyInputTokens, 0) > 0 && Or(policy.monthlyCostMicros, 0) > 0
    && Or(task.dailyInputTokensUsed, 0) + EstimateTokens(task.inputCharacters) <= Or(policy.dailyInputTokens, 0)
    && Or(task.monthlyCostMicrosUsed, 0) < Or(policy.monthlyCostMicros, 0)
  }

  predicate NeedsHighAssurance(policy: Policy, task: Task) {
    || policy.mode == HighAssurance
    || (policy.mode == Balanced
        && (ClampUnit(task.materiality) >= Or(policy.highAssuranceMateriality, 0.8)
            || ClampUnit(task.ambiguity) >= Or(policy.highAssuranceAmbiguity, 0.7)))
  }

  function ChooseModelRoute(policy: Policy, task: Task): Decision {
    if task.deterministicSufficient then NO_MODEL
    else if !policy.enabled then DEFERRED
    else if policy.mode == DeterministicOnly then NO_MODEL
    else if !ProviderAllowed(policy, task) then DEFERRED
    else if !BudgetAllows(policy, task) then DEFERRED
    else
      var high := NeedsHighAssurance(policy, task);
      var model := if high then policy.highAssuranceModel else policy.economyModel;
      if model.None? || model.value == "" then DEFERRED
      else Decision(if high then HighAssuranceRoute else EconomyRoute, ProviderFor(policy, task), model,
                    EstimateTokens(task.inputCharacters), if Or(policy.maximumOutputTokens, 500) > 0 then
                      Or(policy.maximumOutputTokens, 500) else 0, 0)
  }

  predicate Routed(d: Decision) { d.route == EconomyRoute || d.route == HighAssuranceRoute }

  /** A decision that names a model spends within the budget, with an approved provider, and only where rules do not
      suffice; every other decision spends nothing. */
  lemma RoutedWithinBudget(policy: Policy, task: Task)
    ensures var d := ChooseModelRoute(policy, task);
            if Routed(d) then
              && policy.enabled && policy.mode != DeterministicOnly && !task.deterministicSufficient
              && d.provider.Some? && d.provider.value in policy.allowedProviders && d.model.Some?
              && Or(task.dailyInputTokensUsed, 0) + d.estimatedInputTokens <= Or(policy.dailyInputTokens, 0)
              && Or(task.monthlyCostMicrosUsed, 0) < Or(policy.monthlyCostMicros, 0)
              && 4 * d.estimatedInputTokens >= task.inputCharacters
            else
              d.provider.None? && d.model.None? && d.estimatedInputTokens == 0 && d.maximumOutputTokens == 0
  {
  }

  /** The provider that the task asks for, or else the first approved one, is approved. */
  predicate HasProvider(policy: Policy, task: Task) {
    exists p | p in policy.allowedProviders :: p != "" && IsChosen(policy, task, p)
  }

  predicate IsChosen(policy: Policy, task: Task, p: string) {
    if task.provider.Some? then task.provider.value == p
    else policy.allowedProviders != [] && policy.allowedProviders[0] == p
  }

  /** Both limits are positive, the task's tokens fit under the daily one, and the month has cost less than the other;
      four characters are a token. */
  predicate HasRoom(policy: Policy, task: Task) {
    && policy.dailyInputTokens.Some? && policy.monthlyCostMicros.Some?
    && policy.dailyInputTokens.value > 0 && policy.monthlyCostMicros.value > 0
    && (var left := policy.dailyInputTokens.value - Or(task.dailyInputTokensUsed, 0);
        left >= 0 && task.inputCharacters <= 4 * left)
    && Or(task.monthlyCostMicrosUsed, 0) < policy.monthlyCostMicros.value
  }

  predicate Reaches(value: real, threshold: real) {
    (if value > 1.0 then 1.0 else if value < 0.0 then 0.0 else value) >= threshold
  }

  /** The policy asks for the strong model always, or for a balanced choice and the task matters or is unclear. */
  predicate WantsAssurance(policy: Policy, task: Task) {
    match policy.mode
    case HighAssurance => true
    case Balanced =>
      || Reaches(task.materiality, if policy.highAssuranceMateriality.Some? then policy.highAssuranceMateriality.value
                 else 0.8)
      || Reaches(task.ambiguity, if policy.highAssuranceAmbiguity.Some? then policy.highAssuranceAmbiguity.value
                 else 0.7)
    case _ => false
  }

  function ModelFor(policy: Policy, assured: bool): string {
    var model := if assured then policy.highAssuranceModel else policy.economyModel;
    if model.None? then "" else model.value
  }

  /** Exactly when a task is routed, and to what: no model where rules suffice or the policy wants rules only, and
      otherwise a model if and only if the policy is enabled, a provider is approved, there is room, and the model that
      the task deserves is configured. */
  lemma RouteMeans(policy: Policy, task: Task)
    ensures var d, assured := ChooseModelRoute(policy, task), WantsAssurance(policy, task);
            && (d.route == NoModel <==>
                task.deterministicSufficient || (policy.enabled && policy.mode == DeterministicOnly))
            && (Routed(d) <==>
                && !task.deterministicSufficient && policy.enabled && policy.mode != DeterministicOnly
                && HasProvider(policy, task) && HasRoom(policy, task) && ModelFor(policy, assured) != "")
            && (Routed(d) ==>
                  && d.route == (if assured then HighAssuranceRoute else EconomyRoute)
                  && d.model == Some(ModelFor(policy, assured))
                  && d.provider.Some? && IsChosen(policy, task, d.provider.value)
                  && d.maximumOutputTokens == (match policy.maximumOutputTokens
                                               case None => 500
                                               case Some(m) => if m > 0 then m else 0)
                  && task.inputCharacters <= 4 * d.estimatedInputTokens
                  && (d.estimatedInputTokens > 0 ==> 4 * d.estimatedInputTokens < task.inputCharacters + 4))
            && d.estimatedCostMicros == 0
  {
    RoomMeans(policy, task);
    ProviderMeans(policy, task);
    hide HasProvider, HasRoom, ProviderAllowed, BudgetAllows;
  }

  lemma RoomMeans(policy: Policy, task: Task)
    ensures HasRoom(policy, task) ==> BudgetAllows(policy, task)
    ensures BudgetAllows(policy, task) ==> HasRoom(policy, task)
  {
  }

  lemma ProviderMeans(policy: Policy, task: Task)
    ensures HasProvider(policy, task) <==> ProviderAllowed(policy, task)
    ensures ProviderAllowed(policy, task) ==> IsChosen(policy, task, ProviderFor(policy, task).value)
  {
  }

  // ---- A day of tasks

  /** A task that is told how many tokens the day has used. */
  function Told(task: Task, used: int): Task {
    task.(dailyInputTokensUsed := Some(used))
  }

  /** The tokens used after the tasks, each told what the decisions before it have used. */
  function UsedAfter(policy: Policy, tasks: seq<Task>, used: int): int {
    if tasks == [] then used
    else
      var before := UsedAfter(policy, DropLast(tasks), used);
      before + ChooseModelRoute(policy, Told(Last(tasks), before)).estimatedInputTokens
  }

  /** The tokens that the day's routed tasks need at most: a token has four characters. */
  function CharactersRouted(policy: Policy, tasks: seq<Task>, used: int): int {
    if tasks == [] then 0
    else
      var before := UsedAfter(policy, DropLast(tasks), used);
      CharactersRouted(policy, DropLast(tasks), used)
      + (if Routed(ChooseModelRoute(policy, Told(Last(tasks), before)))
            && Last(tasks).inputCharacters > 0 then Last(tasks).inputCharacters else 0)
  }

  /** Whatever the tasks of a day and their order, what is routed never takes the day over the limit, covers the
      characters of the routed tasks, and is nothing at all when the limit is used up at the start. */
  lemma {:induction false} DayStaysWithinLimit(policy: Policy, tasks: seq<Task>, used: int)
    ensures var after, limit := UsedAfter(policy, tasks, used), Or(policy.dailyInputTokens, 0);
            && used <= after && (after == used || after <= limit)
            && CharactersRouted(policy, tasks, used) <= 4 * (after - used)
            && (used >= limit ==> after == used && CharactersRouted(policy, tasks, used) == 0)
  {
    hide ChooseModelRoute, Routed;
    if tasks != [] {
      DayStaysWithinLimit(policy, DropLast(tasks), used);
      var before := UsedAfter(policy, DropLast(tasks), used);
      DecisionWithin(policy, Told(Last(tasks), before));
    }
  }

  lemma DecisionWithin(policy: Policy, task: Task)
    ensures var d, used, limit := ChooseModelRoute(policy, task), Or(task.dailyInputTokensUsed, 0),
                                  Or(policy.dailyInputTokens, 0);
            && d.estimatedInputTokens >= 0 && (!Routed(d) ==> d.estimatedInputTokens == 0)
            && (Routed(d) ==>
                  used + d.estimatedInputTokens <= limit && task.inputCharacters <= 4 * d.estimatedInputTokens)
  {
    RoutedWithinBudget(policy, task);
  }

  /** More room keeps a task routed: with limits at least as high and usage at most as high the decision is the same. */
  lemma MoreRoomKeepsRoute(policy: Policy, task: Task, roomier: Policy, lighter: Task)
    requires Routed(ChooseModelRoute(policy, task))
    requires roomier == policy.(dailyInputTokens := roomier.dailyInputTokens,
                        monthlyCostMicros := roomier.monthlyCostMicros)
    requires lighter == task.(dailyInputTokensUsed := lighter.dailyInputTokensUsed,
                        monthlyCostMicrosUsed := lighter.monthlyCostMicrosUsed)
    requires Or(roomier.dailyInputTokens, 0) >= Or(policy.dailyInputTokens, 0)
    requires Or(roomier.monthlyCostMicros, 0) >= Or(policy.monthlyCostMicros, 0)
    requires Or(lighter.dailyInputTokensUsed, 0) <= Or(task.dailyInputTokensUsed, 0)
    requires Or(lighter.monthlyCostMicrosUsed, 0) <= Or(task.monthlyCostMicrosUsed, 0)
    ensures ChooseModelRoute(roomier, lighter) == ChooseModelRoute(policy, task)
  {
    assert BudgetAllows(policy, task);
    assert BudgetAllows(roomier, lighter);
    assert NeedsHighAssurance(roomier, lighter) == NeedsHighAssurance(policy, task);
  }
}
