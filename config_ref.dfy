/** The shared, mutable module options and the reference through which
    they are read and reconfigured (src/models/recaptcha-config-ref.ts). */
module ConfigRef {
  import opened Core
  import opened Interfaces

  /** The module options object. Whoever built it, and every ref made from
      it, see the same fields. */
  class ModuleOptions {
    var secretKey: Option<string>
    var enterprise: Option<EnterpriseOptions>
    var score: Option<ScoreValidator>
    var actions: Option<seq<string>>
    var skipIf: Option<SkipIfValue>
    var network: Option<string>
    var debug: bool

    constructor (config: ModuleConfig)
      ensures Snapshot() == config
    {
      secretKey := config.secretKey;
      enterprise := config.enterprise;
      score := config.score;
      actions := config.actions;
      skipIf := config.skipIf;
      network := config.network;
      debug := config.debug;
    }

    /** The current field values, as a record. */
    function Snapshot(): ModuleConfig
      reads this
    {
      ModuleConfig(secretKey, enterprise, score, actions, skipIf, network, debug)
    }
  }

  /** `RecaptchaConfigRef` */
  class RecaptchaConfigRef {
    const value: ModuleOptions

    constructor (value: ModuleOptions)
      ensures ValueOf() == value
    {
      this.value := value;
    }

    /** `valueOf`: the very object given at construction. */
    function ValueOf(): ModuleOptions {
      value
    }

    /** Secret key and enterprise options are never both set. */
    predicate CredentialsExclusive()
      reads value
    {
      !(value.secretKey.Some? && value.enterprise.Some?)
    }

    /** `setSecretKey(secretKey)` */
    method SetSecretKey(secretKey: string) returns (self: RecaptchaConfigRef)
      modifies value
      ensures self == this
      ensures value.Snapshot() == old(value.Snapshot()).(secretKey := Some(secretKey), enterprise := None)
      ensures CredentialsExclusive()
    {
      value.secretKey := Some(secretKey);
      value.enterprise := None;
      self := this;
    }

    /** `setEnterpriseOptions(options)` */
    method SetEnterpriseOptions(options: EnterpriseOptions) returns (self: RecaptchaConfigRef)
      modifies value
      ensures self == this
      ensures value.Snapshot() == old(value.Snapshot()).(secretKey := None, enterprise := Some(options))
      ensures CredentialsExclusive()
    {
      value.secretKey := None;
      value.enterprise := Some(options);
      self := this;
    }

    /** `setScore(score)` */
    method SetScore(score: ScoreValidator) returns (self: RecaptchaConfigRef)
      modifies value
      ensures self == this
      ensures value.Snapshot() == old(value.Snapshot()).(score := Some(score))
    {
      value.score := Some(score);
      self := this;
    }

    /** `setSkipIf(skipIf)` */
    method SetSkipIf(skipIf: SkipIfValue) returns (self: RecaptchaConfigRef)
      modifies value
      ensures self == this
      ensures value.Snapshot() == old(value.Snapshot()).(skipIf := Some(skipIf))
    {
      value.skipIf := Some(skipIf);
      self := this;
    }
  }

  /** Rotating the secret through a ref is seen through the options object
      the owner still holds, and clears the enterprise options there too. */
  method RotateSecretThroughRef(config: ModuleConfig, newKey: string)
    returns (ownerSees: Option<string>, refSees: Option<string>, enterpriseAfter: Option<EnterpriseOptions>)
    ensures ownerSees == Some(newKey) && refSees == Some(newKey)
    ensures enterpriseAfter.None?
  {
    var options := new ModuleOptions(config);
    var ref := new RecaptchaConfigRef(options);
    var self := ref.SetSecretKey(newKey);
    ownerSees := options.secretKey;
    refSees := ref.ValueOf().secretKey;
    enterpriseAfter := options.enterprise;
  }

  /** Switching to enterprise through a chain of setters: the owner's object
      ends with the enterprise options, no secret, and the new score. */
  method SwitchToEnterpriseThroughRef(config: ModuleConfig, enterprise: EnterpriseOptions, min: real)
    returns (secretAfter: Option<string>, enterpriseAfter: Option<EnterpriseOptions>, scoreIsThreshold: bool)
    ensures secretAfter.None? && enterpriseAfter == Some(enterprise)
    ensures scoreIsThreshold
  {
    var options := new ModuleOptions(config);
    var ref := new RecaptchaConfigRef(options);
    var self := ref.SetEnterpriseOptions(enterprise);
    self := self.SetScore(Threshold(min));
    secretAfter := options.secretKey;
    enterpriseAfter := options.enterprise;
    scoreIsThreshold := options.score.Some? && options.score.value.Threshold? && options.score.value.min == min;
  }
}
