/**
 * The validator factory of the `internal.implementation` revision (`JavaValidatorsImpl`). The factory
 * keeps a mutable context map from name to value; every validator it creates gets a copy of that
 * map, an empty failure list and the configuration of the entry point that created it.
 *
 * The entry-point configurations come from the factory's base class, which is not part of this
 * model: they are given to the constructor.
 */
module ImplementationValidators {
  import opened Configurations
  import opened Validators

  /** This revision hands the value to the validator as it is, a `Class` included. */
  type FactoryValidator = Validator<JavaValue, JavaObject>

  class JavaValidatorsImpl {
    const scope: ApplicationScope
    /** configuration(): used by requireThat. */
    const configuration: Configuration
    /** getAssumeThatConfiguration(): used by assumeThat. */
    const assumeThatConfiguration: Configuration
    /** getCheckIfConfiguration(): used by checkIf. */
    const checkIfConfiguration: Configuration
    /** The context that every new validator receives a copy of. */
    var context: map<string, JavaObject>

    /** A factory with an independent configuration and an empty context. */
    constructor(scope: ApplicationScope, configuration: Configuration, assumeThatConfiguration: Configuration,
                checkIfConfiguration: Configuration)
      ensures this.scope == scope && this.configuration == configuration
      ensures this.assumeThatConfiguration == assumeThatConfiguration
      ensures this.checkIfConfiguration == checkIfConfiguration
      ensures context == map[]
    {
      this.scope := scope;
      this.configuration := configuration;
      this.assumeThatConfiguration := assumeThatConfiguration;
      this.checkIfConfiguration := checkIfConfiguration;
      context := map[];
    }

    /** The copy constructor: the same scope and configurations, and all of the other factory's context. */
    constructor Copy(other: JavaValidatorsImpl)
      ensures scope == other.scope && configuration == other.configuration
      ensures assumeThatConfiguration == other.assumeThatConfiguration
      ensures checkIfConfiguration == other.checkIfConfiguration
      ensures context == other.context
    {
      scope := other.scope;
      configuration := other.configuration;
      assumeThatConfiguration := other.assumeThatConfiguration;
      checkIfConfiguration := other.checkIfConfiguration;
      context := map[];
      new;
      PutAllIntoEmpty(other.context);
      context := PutAll(context, other.context);
    }

    /** copy(): a new factory built by the copy constructor. */
    method CopyOf() returns (r: JavaValidatorsImpl)
      ensures fresh(r)
      ensures r.scope == scope && r.configuration == configuration
      ensures r.assumeThatConfiguration == assumeThatConfiguration && r.checkIfConfiguration == checkIfConfiguration
      ensures r.context == context
    {
      r := new JavaValidatorsImpl.Copy(this);
    }

    /** putContext(value, name): sets one entry of the context and returns this factory. */
    method PutContext(value: JavaObject, name: string) returns (r: JavaValidatorsImpl)
      modifies this
      ensures r == this
      ensures context == old(context)[name := value]
    {
      context := context[name := value];
      r := this;
    }

    /** removeContext(name): removes one entry of the context, if present, and returns this factory. */
    method RemoveContext(name: string) returns (r: JavaValidatorsImpl)
      modifies this
      ensures r == this
      ensures context == old(context) - {name}
    {
      context := context - {name};
      r := this;
    }

    /** newValidatorContext(): a new map into which the whole context is put. */
    function NewValidatorContext(): (m: map<string, JavaObject>)
      reads this
      ensures m == context
    {
      PutAllIntoEmpty(context);
      PutAll(map[], context)
    }

    /** newValidatorFailures(): a new, empty failure list. */
    function NewValidatorFailures(): (r: seq<ValidationFailure>)
      ensures |r| == 0
    {
      []
    }

    /**
     * newInstance(value, name, configuration): a validator of the value itself (a Class is not
     * converted), a copy of the context and no failures.
     */
    function NewInstance(value: JavaValue, name: string, configuration: Configuration): (v: FactoryValidator)
      reads this
      ensures v.scope == scope && v.configuration == configuration && v.name == name
      ensures v.value == value
      ensures v.context == context
      ensures v.failures == []
    {
      Validator(scope, configuration, name, value, NewValidatorContext(),
                NewValidatorFailures())
    }

    /** requireThat(value, name): a validator with the factory's configuration. */
    function RequireThat(value: JavaValue, name: string): (v: FactoryValidator)
      reads this
      ensures v.configuration == configuration && v.name == name && v.scope == scope
      ensures v.value == value && v.context == context && v.failures == []
    {
      NewInstance(value, name, configuration)
    }

    /** assumeThat(value, name): a validator with the assumeThat configuration. */
    function AssumeThat(value: JavaValue, name: string): (v: FactoryValidator)
      reads this
      ensures v.configuration == assumeThatConfiguration && v.name == name && v.scope == scope
      ensures v.value == value && v.context == context && v.failures == []
    {
      NewInstance(value, name, assumeThatConfiguration)
    }

    /** assumeThat(value): the validator of assumeThat(value, AbstractValidator.DEFAULT_NAME). */
    function AssumeThatDefaultName(value: JavaValue): (v: FactoryValidator)
      reads this
      ensures v.name == "value" && v.configuration == assumeThatConfiguration
      ensures v == AssumeThat(value, DEFAULT_NAME)
    {
      AssumeThat(value, DEFAULT_NAME)
    }

    /** checkIf(value, name): a validator with the checkIf configuration. */
    function CheckIf(value: JavaValue, name: string): (v: FactoryValidator)
      reads this
      ensures v.configuration == checkIfConfiguration && v.name == name && v.scope == scope
      ensures v.value == value && v.context == context && v.failures == []
    {
      NewInstance(value, name, checkIfConfiguration)
    }

    /** checkIf(value): the validator of checkIf(value, AbstractValidator.DEFAULT_NAME). */
    function CheckIfDefaultName(value: JavaValue): (v: FactoryValidator)
      reads this
      ensures v.name == "value" && v.configuration == checkIfConfiguration
      ensures v == CheckIf(value, DEFAULT_NAME)
    {
      CheckIf(value, DEFAULT_NAME)
    }
  }

  /** The three entry points build the same validator except for its configuration. */
  lemma EntryPointsDifferOnlyInConfiguration(f: JavaValidatorsImpl, value: JavaValue, name: string)
    ensures f.AssumeThat(value, name) == f.RequireThat(value, name).(configuration := f.assumeThatConfiguration)
    ensures f.CheckIf(value, name) == f.RequireThat(value, name).(configuration := f.checkIfConfiguration)
  {
  }

  /**
   * A validator keeps the context it was created with: changing the factory's context afterwards
   * does not change the validator's. The source gets this by copying the map into a new HashMap
   * for every validator; in the model it holds because a Dafny map is a value, so the proof does
   * not check that a copy is made.
   */
  method ValidatorKeepsItsContext(f: JavaValidatorsImpl, value: JavaValue, name: string, key: string,
                                  x: JavaObject) returns (v: FactoryValidator)
    modifies f
    ensures v == old(f.RequireThat(value, name))
    ensures v.context == old(f.context) && f.context == old(f.context)[key := x]
  {
    v := f.RequireThat(value, name);
    var _ := f.PutContext(x, key);
  }

  /**
   * A copy is independent: changing the copy's context leaves the original's unchanged. The source
   * gets this by giving the copy its own HashMap; in the model it holds because a Dafny map is a
   * value, so the proof does not check that the maps are distinct objects.
   */
  method CopyIsIndependent(f: JavaValidatorsImpl, key: string, x: JavaObject) returns (g: JavaValidatorsImpl)
    ensures fresh(g) && g != f
    ensures f.context == old(f.context)
    ensures g.context == f.context[key := x]
  {
    g := f.CopyOf();
    var _ := g.PutContext(x, key);
  }
}
