/**
 * The requirements front-end of the `org.bitbucket` revision (`DefaultJavaRequirements`). Its
 * configuration is a mutable object: the `withX`, `putContext` and `removeContext` methods update
 * it in place and return this instance. Only `withConfiguration` may create a new instance, which
 * then shares the given configuration object.
 */
module BitbucketRequirements {
  import opened Wrappers
  import opened Configurations
  import opened Validators

  /**
   * The mutable Configuration of this revision: its state is a configuration record, and its
   * updates replace that record by the record's corresponding update.
   */
  class MutableConfiguration {
    var value: Configuration

    constructor(value: Configuration)
      ensures this.value == value
    {
      this.value := value;
    }
  }

  class DefaultJavaRequirements {
    const scope: ApplicationScope
    var config: MutableConfiguration

    /** The private constructor taking a scope and a configuration object, which it keeps. */
    constructor(scope: ApplicationScope, config: MutableConfiguration)
      ensures this.scope == scope && this.config == config
    {
      this.scope := scope;
      this.config := config;
    }

    /**
     * The private constructor taking only a scope: a configuration object holding the scope's
     * default configuration.
     */
    constructor OfScope(scope: ApplicationScope)
      ensures this.scope == scope && fresh(config) && config.value == scope.defaultConfiguration
    {
      this.scope := scope;
      config := new MutableConfiguration(scope.defaultConfiguration);
    }

    /** assertionsAreEnabled(): enabling assertions would change nothing, and disabling them would. */
    function AssertionsAreEnabled(): (r: bool)
      reads this, config
      ensures r <==> config.value.WithAssertionsEnabled() == config.value
      ensures !r <==> config.value.WithAssertionsDisabled() == config.value
    {
      config.value.assertionsEnabled
    }

    /** isDiffEnabled(): enabling diffs would change nothing, and disabling them would. */
    function IsDiffEnabled(): (r: bool)
      reads this, config
      ensures r <==> config.value.WithDiff() == config.value
      ensures !r <==> config.value.WithoutDiff() == config.value
    {
      config.value.diffEnabled
    }

    /**
     * getContext(): a name has an entry exactly when removing it would change the configuration,
     * and putting an entry's own value back changes nothing.
     */
    function GetContext(): (r: map<string, JavaObject>)
      reads this, config
      ensures forall name :: name in r <==> config.value.WithoutContext(name) != config.value
      ensures forall name :: name in r ==> config.value.WithContext(name, r[name]) == config.value
    {
      config.value.context
    }

    /** putContext(name, value): sets a context entry of the configuration in place; returns this. */
    method PutContext(name: string, value: JavaObject) returns (r: DefaultJavaRequirements)
      modifies config
      ensures r == this
      ensures config.value == old(config.value).WithContext(name, value)
      ensures GetContext() == old(GetContext())[name := value]
      ensures AssertionsAreEnabled() == old(AssertionsAreEnabled()) && IsDiffEnabled() == old(IsDiffEnabled())
    {
      config.value := config.value.WithContext(name, value);
      r := this;
    }

    /** removeContext(name): removes a context entry of the configuration in place; returns this. */
    method RemoveContext(name: string) returns (r: DefaultJavaRequirements)
      modifies config
      ensures r == this
      ensures config.value == old(config.value).WithoutContext(name)
      ensures name !in GetContext() && GetContext() == old(GetContext()) - {name}
      ensures AssertionsAreEnabled() == old(AssertionsAreEnabled()) && IsDiffEnabled() == old(IsDiffEnabled())
    {
      config.value := config.value.WithoutContext(name);
      r := this;
    }

    /** withAssertionsDisabled(): disables assertions in place; returns this. */
    method WithAssertionsDisabled() returns (r: DefaultJavaRequirements)
      modifies config
      ensures r == this
      ensures config.value == old(config.value).WithAssertionsDisabled()
      ensures !AssertionsAreEnabled() && IsDiffEnabled() == old(IsDiffEnabled()) && GetContext() == old(GetContext())
    {
      config.value := config.value.WithAssertionsDisabled();
      r := this;
    }

    /** withAssertionsEnabled(): enables assertions in place; returns this. */
    method WithAssertionsEnabled() returns (r: DefaultJavaRequirements)
      modifies config
      ensures r == this
      ensures config.value == old(config.value).WithAssertionsEnabled()
      ensures AssertionsAreEnabled() && IsDiffEnabled() == old(IsDiffEnabled()) && GetContext() == old(GetContext())
    {
      config.value := config.value.WithAssertionsEnabled();
      r := this;
    }

    /** withDiff(): enables diffs in place; returns this. */
    method WithDiff() returns (r: DefaultJavaRequirements)
      modifies config
      ensures r == this
      ensures config.value == old(config.value).WithDiff()
      ensures IsDiffEnabled() && AssertionsAreEnabled() == old(AssertionsAreEnabled()) && GetContext() == old(GetContext())
    {
      config.value := config.value.WithDiff();
      r := this;
    }

    /** withoutDiff(): disables diffs in place; returns this. */
    method WithoutDiff() returns (r: DefaultJavaRequirements)
      modifies config
      ensures r == this
      ensures config.value == old(config.value).WithoutDiff()
      ensures !IsDiffEnabled() && AssertionsAreEnabled() == old(AssertionsAreEnabled()) && GetContext() == old(GetContext())
    {
      config.value := config.value.WithoutDiff();
      r := this;
    }

    /** withStringConverter(type, converter): registers a converter in place; returns this. */
    method WithStringConverter(cls: ClassRef, converter: ConverterRef) returns (r: DefaultJavaRequirements)
      modifies config
      ensures r == this
      ensures config.value == old(config.value).WithStringConverter(cls, converter)
    {
      config.value := config.value.WithStringConverter(cls, converter);
      r := this;
    }

    /** withoutStringConverter(type): removes a converter in place; returns this. */
    method WithoutStringConverter(cls: ClassRef) returns (r: DefaultJavaRequirements)
      modifies config
      ensures r == this
      ensures config.value == old(config.value).WithoutStringConverter(cls)
    {
      config.value := config.value.WithoutStringConverter(cls);
      r := this;
    }

    /**
     * withConfiguration(configuration): this when the configuration equals the current one,
     * otherwise a new instance holding the given configuration object; the receiver is unchanged.
     */
    method WithConfiguration(configuration: MutableConfiguration) returns (r: DefaultJavaRequirements)
      ensures configuration.value == config.value ==> r == this
      ensures configuration.value != config.value ==> fresh(r) && r.scope == scope && r.config == configuration
    {
      if configuration.value == config.value {
        r := this;
      } else {
        r := new DefaultJavaRequirements(scope, configuration);
      }
    }

    /**
     * validateThat(actual, name): the name is verified first; the validator has no failures and
     * holds this instance's configuration object itself, not a copy of its value.
     */
    function ValidateThat(actual: JavaObject, name: Option<string>): (r: Result<SharedValidator, JavaException>)
      reads this, config
      ensures r.Err? <==> VerifyName(name).Some?
      ensures r.Err? ==> r.error == VerifyName(name).value
      ensures r.Ok? ==> r.value.config == config && r.value.scope == scope && r.value.failures == []
      ensures r.Ok? ==> r.value.Current() == Validators.ValidateThat(scope, config.value, actual, name).value
    {
      var failure := VerifyName(name);
      if failure.Some? then Err(failure.value)
      else Ok(SharedValidator(scope, config, name.value, actual, []))
    }

    /** requireThat(actual, name): a verifier over validateThat's validator, with the same errors. */
    function RequireThat(actual: JavaObject, name: Option<string>): (r: Result<SharedVerifier, JavaException>)
      reads this, config
      ensures r.Err? <==> VerifyName(name).Some?
      ensures r.Err? ==> r.error == VerifyName(name).value
      ensures r.Ok? ==> r.value.SharedVerifierImpl? && r.value.validator == ValidateThat(actual, name).value
    {
      match ValidateThat(actual, name)
      case Ok(validator) => Ok(SharedVerifierImpl(validator))
      case Err(e) => Err(e)
    }

    /** assertThat(actual, name): the no-op verifier when assertions are disabled, otherwise requireThat. */
    function AssertThat(actual: JavaObject, name: Option<string>): (r: Result<SharedVerifier, JavaException>)
      reads this, config
      ensures !AssertionsAreEnabled() ==> r == Ok(SharedVerifierNoOp)
      ensures AssertionsAreEnabled() ==> r == RequireThat(actual, name)
    {
      if config.value.assertionsEnabled then RequireThat(actual, name) else Ok(SharedVerifierNoOp)
    }
  }

  /**
   * ObjectValidatorImpl as this revision builds it: it keeps the front-end's configuration object,
   * so it sees every later in-place update of that object.
   */
  datatype SharedValidator = SharedValidator(
    scope: ApplicationScope,
    config: MutableConfiguration,
    name: string,
    actual: JavaObject,
    failures: seq<ValidationFailure>)
  {
    /** The validator as it stands now, with whatever configuration the shared object holds. */
    function Current(): ObjectValidator
      reads config
    {
      ObjectValidator(scope, config.value, name, actual, failures)
    }
  }

  /** What requireThat and assertThat return: a verifier over a validator, or the no-op verifier. */
  datatype SharedVerifier = SharedVerifierImpl(validator: SharedValidator) | SharedVerifierNoOp

  /**
   * A validator does not take a snapshot of the configuration: an update made through the
   * front-end after validateThat is the configuration the validator then has.
   */
  method ValidatorSeesLaterUpdates(q: DefaultJavaRequirements, actual: JavaObject, name: string)
    returns (v: SharedValidator)
    requires VerifyName(Some(name)).None?
    modifies q.config
    ensures v.config == q.config
    ensures v.Current() == ObjectValidator(q.scope, old(q.config.value).WithAssertionsDisabled(), name, actual, [])
  {
    var validated := q.ValidateThat(actual, Some(name));
    v := validated.value;
    var _ := q.WithAssertionsDisabled();
  }

  /** The queries reflect the most recent in-place update, and the instance stays the same. */
  method LatestUpdateWins(q: DefaultJavaRequirements, actual: JavaObject)
    modifies q.config
    ensures q.config == old(q.config)
    ensures !q.AssertionsAreEnabled() && q.IsDiffEnabled()
    ensures q.AssertThat(actual, None) == Ok(SharedVerifierNoOp)
  {
    var r := q.WithAssertionsEnabled();
    r := r.WithoutDiff();
    r := r.WithAssertionsDisabled();
    r := r.WithDiff();
    assert r == q;
  }

  /**
   * The instance that withConfiguration creates shares the configuration object it was given:
   * an in-place update through it is visible to every holder of that object, while the receiver's
   * configuration is left as it was.
   */
  method NewInstanceSharesConfiguration(q: DefaultJavaRequirements, configuration: MutableConfiguration)
    returns (r: DefaultJavaRequirements)
    requires configuration.value != q.config.value
    modifies configuration
    ensures fresh(r) && r.config == configuration
    ensures configuration.value == old(configuration.value).WithDiff()
    ensures q.config.value == old(q.config.value)
  {
    r := q.WithConfiguration(configuration);
    var _ := r.WithDiff();
  }
}
