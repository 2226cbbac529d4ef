/**
 * The validator factory of the `requirements11` revision (`JavaValidatorsImpl`). The factory
 * keeps a mutable context map from name to an optional value; every validator it creates gets a
 * copy of that map, an empty failure list and the configuration of the entry point that created it.
 *
 * The entry-point configurations come from the factory's base class, which is not part of this
 * model: they are given to the constructor.
 */
module Requirements11Validators {
  import opened Configurations
  import opened Wrappers
  import opened Validators

  /** ValidationTarget: the wrapper the validator receives its value in; a factory value is always valid. */
  datatype ValidationTarget<T> = Invalid | Valid(value: T)

  /** Optional.ofNullable(value): empty exactly for null. */
  function OfNullable(value: JavaObject): (r: Option<JavaObject>)
    ensures r.None? <==> value.Null?
    ensures r.Some? ==> r.value == value
  {
    if value.Null? then None else Some(value)
  }

  type FactoryValidator = Validator<ValidationTarget<JavaValue>, Option<JavaObject>>

  class JavaValidatorsImpl {
    const scope: ApplicationScope
    /** configuration(): used by requireThat. */
    const configuration: Configuration
    /** getAssertThatConfiguration(): used by that. */
    const assertThatConfiguration: Configuration
    /** getCheckIfConfiguration(): used by checkIf. */
    const checkIfConfiguration: Configuration
    /** The context that every new validator receives a copy of. */
    var context: map<string, Option<JavaObject>>

    /** A factory with an independent configuration and an empty context. */
    constructor(scope: ApplicationScope, configuration: Configuration, assertThatConfiguration: Configuration,
                checkIfConfiguration: Configuration)
      ensures this.scope == scope && this.configuration == configuration
      ensures this.assertThatConfiguration == assertThatConfiguration
      ensures this.checkIfConfiguration == checkIfConfiguration
      ensures context == map[]
    {
      this.scope := scope;
      this.configuration := configuration;
      this.assertThatConfiguration := assertThatConfiguration;
      this.checkIfConfiguration := checkIfConfiguration;
      context := map[];
    }

    /** The copy constructor: the same scope and configurations, and all of the other factory's context. */
    constructor Copy(other: JavaValidatorsImpl)
      ensures scope == other.scope && configuration == other.configuration
      ensures assertThatConfiguration == other.assertThatConfiguration
      ensures checkIfConfiguration == other.checkIfConfiguration
      ensures context == other.context
    {
      scope := other.scope;
      configuration := other.configuration;
      assertThatConfiguration := other.assertThatConfiguration;
      checkIfConfiguration := other.checkIfConfiguration;
      context := map[];
      new;
      PutAllIntoEmpty(other.context);
      context := PutAll(context, other.context);
    }

    /** copy(): a new factory built by the copy constructor. */
    method CopyOf() returns (r: JavaValidatorsImpl)
      ensures fresh(r)
      ensures r.scope == scope && r.configuration == configuration
      ensures r.assertThatConfiguration == assertThatConfiguration && r.checkIfConfiguration == checkIfConfiguration
      ensures r.context == context
    {
      r := new JavaValidatorsImpl.Copy(this);
    }

    /**
     * withContext(value, name): sets one entry of the context to the value as an Optional and
     * returns this factory; a null value leaves the name present, mapped to the empty Optional.
     */
    method WithContext(value: JavaObject, name: string) returns (r: JavaValidatorsImpl)
      modifies this
      ensures r == this
      ensures context == old(context)[name := OfNullable(value)]
      ensures name in context && (context[name].None? <==> value.Null?)
    {
      context := context[name := OfNullable(value)];
      r := this;
    }

    /** removeContext(name): removes one entry of the context, if present, and returns this factory. */
    method RemoveContext(name: string) returns (r: JavaValidatorsImpl)
      modifies this
      ensures r == this
      ensures context == old(context) - {name}
    {
      context := context - {name};
      r := this;
    }

    /** newValidatorContext(): a new map into which the whole context is put. */
    function NewValidatorContext(): (m: map<string, Option<JavaObject>>)
      reads this
      ensures m == context
    {
      PutAllIntoEmpty(context);
      PutAll(map[], context)
    }

    /** newValidatorFailures(): a new, empty failure list. */
    function NewValidatorFailures(): (r: seq<ValidationFailure>)
      ensures |r| == 0
    {
      []
    }

    /**
     * newInstance(value, name, configuration): a validator of the value, valid, with a Class
     * replaced by its GenericType, a copy of the context and no failures.
     */
    function NewInstance(value: JavaValue, name: string, configuration: Configuration): (v: FactoryValidator)
      reads this
      ensures v.scope == scope && v.configuration == configuration && v.name == name
      ensures v.value == Valid(ClassAsGenericType(value))
      ensures v.context == context
      ensures v.failures == []
    {
      Validator(scope, configuration, name, Valid(ClassAsGenericType(value)), NewValidatorContext(),
                NewValidatorFailures())
    }

    /** requireThat(value, name): a validator with the factory's configuration. */
    function RequireThat(value: JavaValue, name: string): (v: FactoryValidator)
      reads this
      ensures v.configuration == configuration && v.name == name && v.scope == scope
      ensures v.value == Valid(ClassAsGenericType(value)) && v.context == context && v.failures == []
    {
      NewInstance(value, name, configuration)
    }

    /** that(value, name): a validator with the assertThat configuration. */
    function That(value: JavaValue, name: string): (v: FactoryValidator)
      reads this
      ensures v.configuration == assertThatConfiguration && v.name == name && v.scope == scope
      ensures v.value == Valid(ClassAsGenericType(value)) && v.context == context && v.failures == []
    {
      NewInstance(value, name, assertThatConfiguration)
    }

    /** that(value): the validator of that(value, DEFAULT_NAME). */
    function ThatDefaultName(value: JavaValue): (v: FactoryValidator)
      reads this
      ensures v.name == "value" && v.configuration == assertThatConfiguration
      ensures v == That(value, DEFAULT_NAME)
    {
      That(value, DEFAULT_NAME)
    }

    /** checkIf(value, name): a validator with the checkIf configuration. */
    function CheckIf(value: JavaValue, name: string): (v: FactoryValidator)
      reads this
      ensures v.configuration == checkIfConfiguration && v.name == name && v.scope == scope
      ensures v.value == Valid(ClassAsGenericType(value)) && v.context == context && v.failures == []
    {
      NewInstance(value, name, checkIfConfiguration)
    }

    /** checkIf(value): the validator of checkIf(value, DEFAULT_NAME). */
    function CheckIfDefaultName(value: JavaValue): (v: FactoryValidator)
      reads this
      ensures v.name == "value" && v.configuration == checkIfConfiguration
      ensures v == CheckIf(value, DEFAULT_NAME)
    {
      CheckIf(value, DEFAULT_NAME)
    }
  }

  /** The three entry points build the same validator except for its configuration. */
  lemma EntryPointsDifferOnlyInConfiguration(f: JavaValidatorsImpl, value: JavaValue, name: string)
    ensures f.That(value, name) == f.RequireThat(value, name).(configuration := f.assertThatConfiguration)
    ensures f.CheckIf(value, name) == f.RequireThat(value, name).(configuration := f.checkIfConfiguration)
  {
  }

  /**
   * A validator keeps the context it was created with: changing the factory's context afterwards
   * does not change the validator's. The source gets this by copying the map into a new HashMap
   * for every validator; in the model it holds because a Dafny map is a value, so the proof does
   * not check that a copy is made.
   */
  method ValidatorKeepsItsContext(f: JavaValidatorsImpl, value: JavaValue, name: string, key: string,
                                  x: JavaObject) returns (v: FactoryValidator)
    modifies f
    ensures v == old(f.RequireThat(value, name))
    ensures v.context == old(f.context) && f.context == old(f.context)[key := OfNullable(x)]
  {
    v := f.RequireThat(value, name);
    var _ := f.WithContext(x, key);
  }

  /**
   * A copy is independent: changing the copy's context leaves the original's unchanged. The source
   * gets this by giving the copy its own HashMap; in the model it holds because a Dafny map is a
   * value, so the proof does not check that the maps are distinct objects.
   */
  method CopyIsIndependent(f: JavaValidatorsImpl, key: string, x: JavaObject) returns (g: JavaValidatorsImpl)
    ensures fresh(g) && g != f
    ensures f.context == old(f.context)
    ensures g.context == f.context[key := OfNullable(x)]
  {
    g := f.CopyOf();
    var _ := g.WithContext(x, key);
  }
}
