/**
 * The copy-on-write requirements front-end of the `com.github` revision (`DefaultJavaRequirements`).
 * Its scope and configuration are final: every `withX` computes the updated configuration and
 * returns this instance when that equals the current one, otherwise a new instance with the same
 * scope and the updated configuration.
 */
module GithubRequirements {
  import opened Wrappers
  import opened Configurations
  import opened Validators

  /** The object a `withX` returns: the receiver itself, or a newly constructed instance. */
  datatype Returned = This | NewInstance(instance: DefaultJavaRequirements)

  datatype DefaultJavaRequirements = DefaultJavaRequirements(scope: ApplicationScope, config: Configuration)
  {
    /** The private constructor taking only a scope: its default configuration. */
    static function OfScope(scope: ApplicationScope): (r: DefaultJavaRequirements)
      ensures r.scope == scope && r.config == scope.defaultConfiguration
    {
      DefaultJavaRequirements(scope, scope.defaultConfiguration)
    }

    /** The instance that a returned value denotes. */
    function Resolve(r: Returned): DefaultJavaRequirements
    {
      if r.This? then this else r.instance
    }

    /**
     * The shared shape of every `withX`: this instance if the updated configuration equals the
     * current one, otherwise a new instance with the same scope.
     */
    function Updated(newConfig: Configuration): (r: Returned)
      ensures r.This? <==> newConfig == config
      ensures Resolve(r) == DefaultJavaRequirements(scope, newConfig)
    {
      if newConfig == config then This else NewInstance(DefaultJavaRequirements(scope, newConfig))
    }

    /** assertionsAreEnabled(): enabling assertions would return this, and disabling them would not. */
    function AssertionsAreEnabled(): (r: bool)
      ensures r <==> WithAssertionsEnabled().This?
      ensures !r <==> WithAssertionsDisabled().This?
    {
      config.assertionsEnabled
    }

    /** isCleanStackTrace(): cleaning the stack trace would return this, and not cleaning it would not. */
    function IsCleanStackTrace(): (r: bool)
      ensures r <==> WithCleanStackTrace().This?
      ensures !r <==> WithoutCleanStackTrace().This?
    {
      config.cleanStackTrace
    }

    /** isDiffEnabled(): enabling diffs would return this, and disabling them would not. */
    function IsDiffEnabled(): (r: bool)
      ensures r <==> WithDiff().This?
      ensures !r <==> WithoutDiff().This?
    {
      config.diffEnabled
    }

    /**
     * getContext(): a name has an entry exactly when removing it would return a new instance, and
     * putting an entry's own value back returns this.
     */
    function GetContext(): (r: map<string, JavaObject>)
      ensures forall name :: name in r <==> WithoutContext(name).NewInstance?
      ensures forall name :: name in r ==> WithContext(name, r[name]).This?
    {
      config.context
    }

    /** withCleanStackTrace(): this if the stack trace is already cleaned. */
    function WithCleanStackTrace(): (r: Returned)
      ensures r.This? <==> config.cleanStackTrace
      ensures Resolve(r).scope == scope && Resolve(r).config == config.WithCleanStackTrace()
    {
      Updated(config.WithCleanStackTrace())
    }

    /** withoutCleanStackTrace(): this if the stack trace is already left alone. */
    function WithoutCleanStackTrace(): (r: Returned)
      ensures r.This? <==> !config.cleanStackTrace
      ensures Resolve(r).scope == scope && Resolve(r).config == config.WithoutCleanStackTrace()
    {
      Updated(config.WithoutCleanStackTrace())
    }

    /** withContext(name, value): this if the context already maps the name to the value. */
    function WithContext(name: string, value: JavaObject): (r: Returned)
      ensures r.This? <==> name in config.context && config.context[name] == value
      ensures Resolve(r).scope == scope && Resolve(r).config == config.WithContext(name, value)
    {
      var r := Updated(config.WithContext(name, value));
      assert r.This? ==> config.context[name := value][name] == config.context[name];
      r
    }

    /** putContext(name, value), deprecated: the same as withContext. */
    function PutContext(name: string, value: JavaObject): (r: Returned)
      ensures r == WithContext(name, value)
    {
      WithContext(name, value)
    }

    /** withoutContext(name): this if the name has no entry. */
    function WithoutContext(name: string): (r: Returned)
      ensures r.This? <==> name !in config.context
      ensures Resolve(r).scope == scope && Resolve(r).config == config.WithoutContext(name)
    {
      var r := Updated(config.WithoutContext(name));
      assert r.This? ==> name !in config.WithoutContext(name).context;
      r
    }

    /** removeContext(name), deprecated: the same as withoutContext. */
    function RemoveContext(name: string): (r: Returned)
      ensures r == WithoutContext(name)
    {
      WithoutContext(name)
    }

    /** withAssertionsDisabled(): this if assertions are already disabled. */
    function WithAssertionsDisabled(): (r: Returned)
      ensures r.This? <==> !config.assertionsEnabled
      ensures Resolve(r).scope == scope && Resolve(r).config == config.WithAssertionsDisabled()
    {
      Updated(config.WithAssertionsDisabled())
    }

    /** withAssertionsEnabled(): this if assertions are already enabled. */
    function WithAssertionsEnabled(): (r: Returned)
      ensures r.This? <==> config.assertionsEnabled
      ensures Resolve(r).scope == scope && Resolve(r).config == config.WithAssertionsEnabled()
    {
      Updated(config.WithAssertionsEnabled())
    }

    /** withDiff(): this if diffs are already enabled. */
    function WithDiff(): (r: Returned)
      ensures r.This? <==> config.diffEnabled
      ensures Resolve(r).scope == scope && Resolve(r).config == config.WithDiff()
    {
      Updated(config.WithDiff())
    }

    /** withoutDiff(): this if diffs are already disabled. */
    function WithoutDiff(): (r: Returned)
      ensures r.This? <==> !config.diffEnabled
      ensures Resolve(r).scope == scope && Resolve(r).config == config.WithoutDiff()
    {
      Updated(config.WithoutDiff())
    }

    /** withStringConverter(type, converter): this if that converter is already registered for the type. */
    function WithStringConverter(cls: ClassRef, converter: ConverterRef): (r: Returned)
      ensures r.This? <==> cls in config.stringConverters && config.stringConverters[cls] == converter
      ensures Resolve(r).scope == scope && Resolve(r).config == config.WithStringConverter(cls, converter)
    {
      var r := Updated(config.WithStringConverter(cls, converter));
      assert r.This? ==> config.stringConverters[cls := converter][cls] == config.stringConverters[cls];
      r
    }

    /** withoutStringConverter(type): this if the type has no converter. */
    function WithoutStringConverter(cls: ClassRef): (r: Returned)
      ensures r.This? <==> cls !in config.stringConverters
      ensures Resolve(r).scope == scope && Resolve(r).config == config.WithoutStringConverter(cls)
    {
      var r := Updated(config.WithoutStringConverter(cls));
      assert r.This? ==> cls !in config.WithoutStringConverter(cls).stringConverters;
      r
    }

    /** withConfiguration(configuration): this exactly when the configuration equals the current one. */
    function WithConfiguration(configuration: Configuration): (r: Returned)
      ensures r.This? <==> configuration == config
      ensures Resolve(r) == DefaultJavaRequirements(scope, configuration)
    {
      Updated(configuration)
    }

    /** validateThat(actual, name): the name is verified first; the validator has no failures. */
    function ValidateThat(actual: JavaObject, name: Option<string>): (r: Result<ObjectValidator, JavaException>)
      ensures r.Err? <==> VerifyName(name).Some?
      ensures r.Ok? ==> r.value == ObjectValidator(scope, config, name.value, actual, [])
    {
      Validators.ValidateThat(scope, config, actual, name)
    }

    /** requireThat(actual, name): a verifier over validateThat's validator. */
    function RequireThat(actual: JavaObject, name: Option<string>): (r: Result<ObjectVerifier, JavaException>)
      ensures r.Err? <==> VerifyName(name).Some?
      ensures r.Ok? ==> r.value == ObjectVerifierImpl(ObjectValidator(scope, config, name.value, actual, []))
    {
      Validators.RequireThat(scope, config, actual, name)
    }

    /** assertThat(actual, name): the no-op verifier when assertions are disabled, otherwise requireThat. */
    function AssertThat(actual: JavaObject, name: Option<string>): (r: Result<ObjectVerifier, JavaException>)
      ensures !config.assertionsEnabled ==> r == Ok(ObjectVerifierNoOp)
      ensures config.assertionsEnabled ==> r == RequireThat(actual, name)
    {
      Validators.AssertThat(scope, config, actual, name)
    }
  }

  /** Applying the same update a second time returns the instance the first one produced. */
  lemma RepeatedUpdateReturnsThis(q: DefaultJavaRequirements, name: string, value: JavaObject, cls: ClassRef,
                                  converter: ConverterRef)
    ensures q.Resolve(q.WithCleanStackTrace()).WithCleanStackTrace() == This
    ensures q.Resolve(q.WithoutCleanStackTrace()).WithoutCleanStackTrace() == This
    ensures q.Resolve(q.WithContext(name, value)).WithContext(name, value) == This
    ensures q.Resolve(q.WithoutContext(name)).WithoutContext(name) == This
    ensures q.Resolve(q.WithAssertionsDisabled()).WithAssertionsDisabled() == This
    ensures q.Resolve(q.WithAssertionsEnabled()).WithAssertionsEnabled() == This
    ensures q.Resolve(q.WithDiff()).WithDiff() == This
    ensures q.Resolve(q.WithoutDiff()).WithoutDiff() == This
    ensures q.Resolve(q.WithStringConverter(cls, converter)).WithStringConverter(cls, converter) == This
    ensures q.Resolve(q.WithoutStringConverter(cls)).WithoutStringConverter(cls) == This
  {
  }

  /** The queries of the instance an update returns reflect that update. */
  lemma QueriesReflectUpdates(q: DefaultJavaRequirements, name: string, value: JavaObject)
    ensures !q.Resolve(q.WithAssertionsDisabled()).AssertionsAreEnabled()
    ensures q.Resolve(q.WithAssertionsEnabled()).AssertionsAreEnabled()
    ensures q.Resolve(q.WithCleanStackTrace()).IsCleanStackTrace()
    ensures !q.Resolve(q.WithoutCleanStackTrace()).IsCleanStackTrace()
    ensures q.Resolve(q.WithDiff()).IsDiffEnabled() && !q.Resolve(q.WithoutDiff()).IsDiffEnabled()
    ensures q.Resolve(q.WithContext(name, value)).GetContext() == q.GetContext()[name := value]
    ensures q.Resolve(q.WithoutContext(name)).GetContext() == q.GetContext() - {name}
  {
  }

  /** With assertions disabled, assertThat ignores even a null name; requireThat does not. */
  lemma DisabledAssertionsSkipNameVerification(q: DefaultJavaRequirements, actual: JavaObject)
    requires !q.config.assertionsEnabled
    ensures q.AssertThat(actual, None) == Ok(ObjectVerifierNoOp)
    ensures q.RequireThat(actual, None) == Err(NullPointerException("name may not be null"))
  {
  }
}
