/** Which verification strategy serves the module options
    (src/services/recaptcha-validator.resolver.ts). */
module ValidatorResolver {
  import opened Core
  import opened Interfaces
  import opened Exceptions

  /** The two fixed strategy instances `resolve` can return. */
  datatype ValidatorKind = StandardValidator | EnterpriseValidator

  const CannotResolveMessage := "Cannot resolve google recaptcha validator"

  /** `Object.keys(options.enterprise || {}).length` is non-zero. */
  predicate HasEnterpriseKeys(config: ModuleConfig) {
    config.enterprise.Some? && config.enterprise.value.KeyCount() > 0
  }

  /** `resolve()`: a truthy secret key wins, then enterprise options with
      at least one key; otherwise a plain error. */
  function Resolve(config: ModuleConfig): (r: Completion<ValidatorKind>)
    ensures r == Returns(StandardValidator) <==> TextTruthy(config.secretKey)
    ensures r == Returns(EnterpriseValidator) <==> !TextTruthy(config.secretKey) && HasEnterpriseKeys(config)
    ensures r.Throws? <==> !TextTruthy(config.secretKey) && !HasEnterpriseKeys(config)
    ensures r.Throws? ==> r.exception == PlainError(CannotResolveMessage)
  {
    if TextTruthy(config.secretKey) then Returns(StandardValidator)
    else if HasEnterpriseKeys(config) then Returns(EnterpriseValidator)
    else Throws(PlainError(CannotResolveMessage))
  }

  /** A truthy secret key selects the standard strategy whatever the
      enterprise options are. */
  lemma SecretKeyWins(config: ModuleConfig, enterprise: Option<EnterpriseOptions>)
    requires TextTruthy(config.secretKey)
    ensures Resolve(config.(enterprise := enterprise)) == Returns(StandardValidator)
  {
  }

  /** Undefined and `{}` enterprise options are the same as none, and an
      empty secret key the same as an absent one. */
  lemma EmptyCredentialsAreAbsent(config: ModuleConfig)
    ensures Resolve(config.(enterprise := Some(EnterpriseOptions(None, None, None))))
         == Resolve(config.(enterprise := None))
    ensures Resolve(config.(secretKey := Some(""))) == Resolve(config.(secretKey := None))
  {
  }

  /** The choice depends on the two credentials only. */
  lemma ResolveReadsCredentialsOnly(config: ModuleConfig, other: ModuleConfig)
    requires config.secretKey == other.secretKey && config.enterprise == other.enterprise
    ensures Resolve(config) == Resolve(other)
  {
  }

  /** After `setSecretKey(key)` with a non-empty key the standard strategy
      is chosen; after `setEnterpriseOptions(options)` the enterprise one
      when the options have a key, and none otherwise. */
  lemma ResolveAfterSetters(config: ModuleConfig, key: string, enterprise: EnterpriseOptions)
    ensures key != "" ==> Resolve(config.(secretKey := Some(key), enterprise := None)) == Returns(StandardValidator)
    ensures key == "" ==> Resolve(config.(secretKey := Some(key), enterprise := None)).Throws?
    ensures enterprise.KeyCount() > 0 ==>
      Resolve(config.(secretKey := None, enterprise := Some(enterprise))) == Returns(EnterpriseValidator)
    ensures enterprise.KeyCount() == 0 ==>
      Resolve(config.(secretKey := None, enterprise := Some(enterprise))) == Throws(PlainError(CannotResolveMessage))
  {
  }
}
