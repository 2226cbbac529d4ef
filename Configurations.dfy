/**
 * Java values and the `Configuration` record that the requirements front-ends and the
 * validator factories carry. The Configuration class itself is not part of this model: it is
 * represented by a record whose `withX` updates touch only the field they name, and whose
 * `equals` is structural equality.
 */
module Configurations {

  /** A Java reference: null, or an object identified by an opaque id. */
  datatype JavaObject = Null | Instance(id: nat)

  /** A `java.lang.Class` object, identified by its binary name. */
  datatype ClassRef = ClassRef(name: string)

  /** A `Function<T, String>` string converter, identified by an opaque id. */
  datatype ConverterRef = ConverterRef(id: nat)

  datatype Configuration = Configuration(
    assertionsEnabled: bool,
    diffEnabled: bool,
    cleanStackTrace: bool,
    context: map<string, JavaObject>,
    stringConverters: map<ClassRef, ConverterRef>)
  {
    function WithAssertionsEnabled(): Configuration { this.(assertionsEnabled := true) }
    function WithAssertionsDisabled(): Configuration { this.(assertionsEnabled := false) }
    function WithDiff(): Configuration { this.(diffEnabled := true) }
    function WithoutDiff(): Configuration { this.(diffEnabled := false) }
    function WithCleanStackTrace(): Configuration { this.(cleanStackTrace := true) }
    function WithoutCleanStackTrace(): Configuration { this.(cleanStackTrace := false) }
    function WithContext(name: string, value: JavaObject): Configuration
    {
      this.(context := context[name := value])
    }
    function WithoutContext(name: string): Configuration
    {
      this.(context := context - {name})
    }
    function WithStringConverter(cls: ClassRef, converter: ConverterRef): Configuration
    {
      this.(stringConverters := stringConverters[cls := converter])
    }
    function WithoutStringConverter(cls: ClassRef): Configuration
    {
      this.(stringConverters := stringConverters - {cls})
    }
  }

  /**
   * ApplicationScope: an opaque identity plus the configuration that
   * `scope.getDefaultConfiguration().get()` yields.
   */
  datatype ApplicationScope = ApplicationScope(id: nat, defaultConfiguration: Configuration)
}
