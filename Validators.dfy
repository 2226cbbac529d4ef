/**
 * What the validator factories and the requirements front-ends hand out: validators, verifiers
 * and the exceptions of name verification. The validator implementation classes are not part of
 * this model; a validator is the record of what it was constructed with.
 */
module Validators {
  import opened Wrappers
  import opened JavaStrings
  import opened Configurations

  /** The name that the single-argument entry points give the value. */
  const DEFAULT_NAME: string := "value"

  /**
   * A value under validation: an ordinary object, a `Class`, or the `GenericType` that
   * `GenericType.from(Class)` builds for a class.
   */
  datatype JavaValue = ObjectValue(obj: JavaObject) | ClassValue(cls: ClassRef) | GenericTypeValue(raw: ClassRef)

  /** GenericType.from(type): the generic type whose raw type is `type`. */
  function GenericTypeFrom(cls: ClassRef): (r: JavaValue)
    ensures r.GenericTypeValue? && r.raw == cls
  {
    GenericTypeValue(cls)
  }

  /**
   * The `newInstance(Class, ...)` overload of the newer factories: a `Class` is validated as the
   * `GenericType` built from it, and every other value is validated as it is.
   */
  function ClassAsGenericType(value: JavaValue): (r: JavaValue)
    ensures !r.ClassValue?
    ensures value.ClassValue? ==> r == GenericTypeFrom(value.cls)
    ensures !value.ClassValue? ==> r == value
  {
    if value.ClassValue? then GenericTypeFrom(value.cls) else value
  }

  /**
   * Map.putAll: every entry of `other` is put into `m`, replacing the entry of `m` under the
   * same key; the keys only `m` has keep their values.
   */
  function PutAll<V>(m: map<string, V>, other: map<string, V>): (r: map<string, V>)
    ensures r.Keys == m.Keys + other.Keys
    ensures forall k :: k in other ==> r[k] == other[k]
    ensures forall k :: k in m && k !in other ==> r[k] == m[k]
  {
    map k | k in m.Keys + other.Keys :: if k in other then other[k] else m[k]
  }

  /** Putting all of a map into a new, empty map copies it exactly. */
  lemma PutAllIntoEmpty<V>(other: map<string, V>)
    ensures PutAll(map[], other) == other
  {
    var r := PutAll(map[], other);
    assert r.Keys == other.Keys;
    forall k | k in r ensures r[k] == other[k] {
    }
  }

  datatype ValidationFailure = ValidationFailure(message: string)

  /**
   * A validator built by a factory: the scope, the configuration its entry point chose, the name,
   * the value in the wrapper `V` of the factory's revision, its own copy of the factory's context
   * and its failure list.
   */
  datatype Validator<V, C> = Validator(
    scope: ApplicationScope,
    configuration: Configuration,
    name: string,
    value: V,
    context: map<string, C>,
    failures: seq<ValidationFailure>)

  /** The exceptions that name verification throws. */
  datatype JavaException =
    | NullPointerException(message: string)
    | IllegalArgumentException(message: string)

  /**
   * Name verification, as DefaultJavaVerifier.verifyName performs it: a null name throws
   * NullPointerException, a name that is empty once trimmed throws IllegalArgumentException, and
   * any other name is accepted. (The Verifiers.verifyName that the front-ends call is not part of
   * this model; these are its documented exceptions.)
   */
  function VerifyName(name: Option<string>): (r: Option<JavaException>)
    ensures r.None? <==> name.Some? && !TrimmedIsEmpty(name.value)
    ensures name.None? ==> r == Some(NullPointerException("name may not be null"))
    ensures name.Some? && TrimmedIsEmpty(name.value) ==> r == Some(IllegalArgumentException("name may not be empty"))
  {
    if name.None? then Some(NullPointerException("name may not be null"))
    else if TrimmedIsEmpty(name.value) then Some(IllegalArgumentException("name may not be empty"))
    else None
  }

  /** A whitespace-only name is refused, and so is the empty name. */
  lemma BlankNamesAreRefused(name: string)
    requires forall i :: 0 <= i < |name| ==> name[i] == ' ' || name[i] == '\t' || name[i] == '\n'
    ensures VerifyName(Some(name)) == Some(IllegalArgumentException("name may not be empty"))
  {
  }

  /** The validator that validateThat builds in the requirements front-ends. */
  datatype ObjectValidator = ObjectValidator(
    scope: ApplicationScope,
    configuration: Configuration,
    name: string,
    actual: JavaObject,
    failures: seq<ValidationFailure>)

  /** What requireThat and assertThat return: a verifier over a validator, or the no-op verifier. */
  datatype ObjectVerifier = ObjectVerifierImpl(validator: ObjectValidator) | ObjectVerifierNoOp

  /**
   * validateThat(actual, name): the name is verified before anything is built; the validator
   * then has the front-end's scope and configuration and no failures.
   */
  function ValidateThat(scope: ApplicationScope, config: Configuration, actual: JavaObject, name: Option<string>)
    : (r: Result<ObjectValidator, JavaException>)
    ensures VerifyName(name).Some? <==> r.Err?
    ensures r.Err? ==> r.error == VerifyName(name).value
    ensures r.Ok? ==> r.value == ObjectValidator(scope, config, name.value, actual, [])
  {
    var failure := VerifyName(name);
    if failure.Some? then Err(failure.value)
    else Ok(ObjectValidator(scope, config, name.value, actual, []))
  }

  /** requireThat(actual, name): a verifier over validateThat's validator, with the same errors. */
  function RequireThat(scope: ApplicationScope, config: Configuration, actual: JavaObject, name: Option<string>)
    : (r: Result<ObjectVerifier, JavaException>)
    ensures r.Err? <==> ValidateThat(scope, config, actual, name).Err?
    ensures r.Err? ==> r.error == ValidateThat(scope, config, actual, name).error
    ensures r.Ok? ==> r.value.ObjectVerifierImpl? && r.value.validator == ValidateThat(scope, config, actual, name).value
  {
    match ValidateThat(scope, config, actual, name)
    case Ok(validator) => Ok(ObjectVerifierImpl(validator))
    case Err(e) => Err(e)
  }

  /**
   * assertThat(actual, name): requireThat when assertions are enabled, otherwise the no-op
   * verifier; with assertions disabled even a null name is not verified.
   */
  function AssertThat(scope: ApplicationScope, config: Configuration, actual: JavaObject, name: Option<string>)
    : (r: Result<ObjectVerifier, JavaException>)
    ensures config.assertionsEnabled ==> r == RequireThat(scope, config, actual, name)
    ensures !config.assertionsEnabled ==> r == Ok(ObjectVerifierNoOp)
  {
    if config.assertionsEnabled then RequireThat(scope, config, actual, name) else Ok(ObjectVerifierNoOp)
  }

  /**
   * assertThat returns the no-op verifier exactly when assertions are disabled, and fails exactly
   * when assertions are enabled and the name is refused.
   */
  lemma AssertThatNoOpIffDisabled(scope: ApplicationScope, config: Configuration, actual: JavaObject, name: Option<string>)
    ensures AssertThat(scope, config, actual, name) == Ok(ObjectVerifierNoOp) <==> !config.assertionsEnabled
    ensures AssertThat(scope, config, actual, name).Err? <==> config.assertionsEnabled && VerifyName(name).Some?
  {
  }
}
