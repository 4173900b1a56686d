/** The score and action policy every validator applies
    (src/services/validators/abstract-google-recaptcha-validator.ts),
    parameterised by the module options record the validator was built with. */
module ValidatorPolicy {
  import opened Core
  import opened Interfaces

  /** The call names an expected action (an empty name counts as none). */
  predicate ActionExpected(options: VerifyResponseOptions) {
    TextTruthy(options.action)
  }

  /** `isValidAction(action, options)` */
  function IsValidAction(config: ModuleConfig, action: string, options: VerifyResponseOptions): (ok: bool)
    ensures ActionExpected(options) ==> (ok <==> action == options.action.value)
    ensures !ActionExpected(options) && config.actions.Some? ==> (ok <==> action in config.actions.value)
    ensures !ActionExpected(options) && config.actions.None? ==> ok
  {
    if TextTruthy(options.action) then
      options.action.value == action
    else if config.actions.Some? then
      action in config.actions.value
    else
      true
  }

  /** The policy `isValidScore` applies: the call-level one when truthy,
      otherwise the module-level one. */
  function EffectiveScoreValidator(config: ModuleConfig, validator: Option<ScoreValidator>): (v: Option<ScoreValidator>)
    ensures ScoreTruthy(validator) ==> v == validator
    ensures !ScoreTruthy(validator) ==> v == config.score
  {
    if ScoreTruthy(validator) then validator else config.score
  }

  /** `isValidScore(score, validator)` */
  function IsValidScore(config: ModuleConfig, score: real, validator: Option<ScoreValidator>): (ok: bool)
    ensures var v := EffectiveScoreValidator(config, validator);
      && (ScoreTruthy(v) && v.value.Threshold? ==> (ok <==> score >= v.value.min))
      && (ScoreTruthy(v) && v.value.Predicate? ==> ok == v.value.accept(score))
      && (!ScoreTruthy(v) ==> ok)
  {
    var finalValidator := EffectiveScoreValidator(config, validator);
    if ScoreTruthy(finalValidator) then
      match finalValidator.value
      case Predicate(accept) => accept(score)
      case Threshold(min) => score >= min
    else
      true
  }

  /** An expected action makes the module's allow-list irrelevant. */
  lemma ExpectedActionIgnoresAllowList(config: ModuleConfig, actions: Option<seq<string>>, action: string, options: VerifyResponseOptions)
    requires ActionExpected(options)
    ensures IsValidAction(config.(actions := actions), action, options) == IsValidAction(config, action, options)
  {
  }

  /** With an expected action, the action check accepts exactly that action. */
  lemma ExpectedActionIsUnique(config: ModuleConfig, a: string, b: string, options: VerifyResponseOptions)
    requires ActionExpected(options)
    requires IsValidAction(config, a, options) && IsValidAction(config, b, options)
    ensures a == b
  {
  }

  /** An empty allow-list rejects every action the call does not name. */
  lemma EmptyAllowListRejects(config: ModuleConfig, action: string, options: VerifyResponseOptions)
    requires !ActionExpected(options) && config.actions == Some([])
    ensures !IsValidAction(config, action, options)
  {
  }

  /** A truthy call-level policy decides alone: the module-level one is not consulted. */
  lemma CallLevelScorePolicyWins(config: ModuleConfig, other: Option<ScoreValidator>, score: real, validator: Option<ScoreValidator>)
    requires ScoreTruthy(validator)
    ensures IsValidScore(config.(score := other), score, validator) == IsValidScore(config, score, validator)
  {
  }

  /** A threshold of 0 at call level defers to the module-level policy. */
  lemma ZeroThresholdDefers(config: ModuleConfig, score: real)
    ensures IsValidScore(config, score, Some(Threshold(0.0))) == IsValidScore(config, score, None)
  {
  }

  /** Under a (non-zero) threshold, a higher score never fails where a lower one passed. */
  lemma ScoreCheckMonotone(config: ModuleConfig, low: real, high: real, min: real)
    requires min != 0.0 && low <= high
    requires IsValidScore(config, low, Some(Threshold(min)))
    ensures IsValidScore(config, high, Some(Threshold(min)))
  {
  }
}
