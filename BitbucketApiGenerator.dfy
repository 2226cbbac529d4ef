/**
 * The org.bitbucket code generator: writes DefaultRequirements.java and Requirements.java,
 * whose text depends only on whether the Guava plugin is enabled, and rewrites a file only
 * when its contents would change.
 *
 * Each generated file is the concatenation of a fixed sequence of writer.write() calls, some
 * of them guarded by `if (guavaEnabled)`. A template lists those calls in order; rendering a
 * template keeps the guarded calls exactly when Guava is enabled.
 */
module BitbucketApiGenerator {
  import opened FileSystems
  import JavaStrings

  /** One writer.write() call: unconditional, or guarded by `if (guavaEnabled)`. */
  datatype Write = Always(text: string) | WhenGuava(text: string)

  /** The write() calls that run, in order. */
  function Runs(template: seq<Write>, guavaEnabled: bool): seq<Write>
  {
    if template == [] then []
    else
      var rest := Runs(template[1..], guavaEnabled);
      if template[0].Always? || guavaEnabled then [template[0]] + rest else rest
  }

  /** The texts of the writes, in order. */
  function Texts(writes: seq<Write>): seq<string>
  {
    if writes == [] then [] else [writes[0].text] + Texts(writes[1..])
  }

  /** What the StringWriter holds once every write() of `template` that runs has run. */
  function Render(template: seq<Write>, guavaEnabled: bool): string
  {
    JavaStrings.Concat(Texts(Runs(template, guavaEnabled)))
  }

  /** Total length of the guarded writes. */
  function GuavaLength(template: seq<Write>): nat
  {
    if template == [] then 0
    else (if template[0].WhenGuava? then |template[0].text| else 0) + GuavaLength(template[1..])
  }

  // ---------------------------------------------------------------------------------------------
  // Text shared by both files

  const Header: string :=
    "/*\n" +
    " * Copyright 2013 Gili Tzabari.\n" +
    " * Licensed under the Apache License, Version 2.0: http://www.apache.org/licenses/LICENSE-2.0\n" +
    " */\n" +
    "package org.bitbucket.cowwoc.requirements;\n" +
    "\n"

  const GuavaImports: string :=
    "import com.google.common.collect.Multimap;\n" +
    "import org.bitbucket.cowwoc.requirements.guava.DefaultGuavaVerifier;\n" +
    "import org.bitbucket.cowwoc.requirements.guava.GuavaVerifier;\n" +
    "import org.bitbucket.cowwoc.requirements.guava.MultimapVerifier;\n"

  const GuavaSeeAlso: string := " * @see GuavaVerifier\n"

  // ---------------------------------------------------------------------------------------------
  // DefaultRequirements.java (the long unconditional blocks are shortened; see README)

  const DefaultImportsAndJavadoc: string :=
    "import org.bitbucket.cowwoc.requirements.java.ArrayVerifier;\n" +
    "import org.bitbucket.cowwoc.requirements.java.internal.scope.MainApplicationScope;\n" +
    "\n" +
    "import java.util.Optional;\n" +
    "\n" +
    "/**\n" +
    " * Verifies API requirements using the {@link GlobalConfiguration default configuration}.\n" +
    " *\n" +
    " * @see Requirements\n" +
    " * @see JavaVerifier\n"

  const DefaultClassStart: string :=
    " */\n" +
    "public final class DefaultRequirements\n" +
    "{\n" +
    "\tprivate static final JavaVerifier JAVA_VERIFIER = new DefaultJavaVerifier(MainApplicationScope.INSTANCE);\n"

  const GuavaVerifierField: string :=
    "\tprivate static final GuavaVerifier GUAVA_VERIFIER = new DefaultGuavaVerifier(MainApplicationScope.INSTANCE);\n"

  const DefaultJavaMethods: string :=
    "\n" +
    "\t/**\n" +
    "\t * @return true if assertions are enabled for this class\n" +
    "\t */\n" +
    "\tpublic static boolean assertionsAreEnabled()\n" +
    "\t{\n" +
    "\t\treturn JAVA_VERIFIER.assertionsAreEnabled();\n" +
    "\t}\n" +
    "\n" +
    "\tpublic static InetAddressVerifier assertThat(String name, InetAddress actual)\n" +
    "\t{\n" +
    "\t\treturn JAVA_VERIFIER.assertThat(name, actual);\n" +
    "\t}\n"

  const DefaultMultimapMethods: string :=
    "\n" +
    "\t/**\n" +
    "\t * Verifies the requirements of a {@code Multimap}.\n" +
    "\t *\n" +
    "\t * @param <K>    the type of key in the multimap\n" +
    "\t * @param <V>    the type of value in the multimap\n" +
    "\t * @param name   the name of the value\n" +
    "\t * @param actual the actual value\n" +
    "\t * @return a verifier for the value\n" +
    "\t * @throws NullPointerException     if {@code name} is null\n" +
    "\t * @throws IllegalArgumentException if {@code name} is empty\n" +
    "\t */\n" +
    "\tpublic static <K, V> MultimapVerifier<K, V> requireThat(String name, Multimap<K, V> actual)\n" +
    "\t{\n" +
    "\t\treturn GUAVA_VERIFIER.requireThat(name, actual);\n" +
    "\t}\n" +
    "\n" +
    "\t/**\n" +
    "\t * Same as {@link #requireThat(String, Multimap)} but does nothing if assertions are disabled.\n" +
    "\t *\n" +
    "\t * @param <K>    the type of key in the multimap\n" +
    "\t * @param <V>    the type of value in the multimap\n" +
    "\t * @param name   the name of the value\n" +
    "\t * @param actual the actual value\n" +
    "\t * @return a verifier for the value\n" +
    "\t * @throws NullPointerException     if name is null\n" +
    "\t * @throws IllegalArgumentException if name is empty\n" +
    "\t */\n" +
    "\tpublic static <K, V> MultimapVerifier<K, V> assertThat(String name, Multimap<K, V> actual)\n" +
    "\t{\n" +
    "\t\treturn GUAVA_VERIFIER.assertThat(name, actual);\n" +
    "\t}\n" +
    "\n"

  const DefaultClassEnd: string :=
    "\t/**\n" +
    "\t * @return the global configuration shared by all verifiers\n" +
    "\t */\n" +
    "\tpublic static GlobalConfiguration getGlobalConfiguration()\n" +
    "\t{\n" +
    "\t\treturn DefaultJvmScope.INSTANCE.getGlobalConfiguration();\n" +
    "\t}\n" +
    "\n" +
    "\t/**\n" +
    "\t * Prevent construction.\n" +
    "\t */\n" +
    "\tprivate DefaultRequirements()\n" +
    "\t{\n" +
    "\t}\n" +
    "}\n"

  /** The write() calls of writeDefaultRequirements, in order. */
  function DefaultRequirementsTemplate(): seq<Write>
  {
    [Always(Header), WhenGuava(GuavaImports), Always(DefaultImportsAndJavadoc), WhenGuava(GuavaSeeAlso),
     Always(DefaultClassStart), WhenGuava(GuavaVerifierField), Always(DefaultJavaMethods),
     WhenGuava(DefaultMultimapMethods), Always(DefaultClassEnd)]
  }

  function DefaultRequirementsText(guavaEnabled: bool): string
  {
    Render(DefaultRequirementsTemplate(), guavaEnabled)
  }

  // ---------------------------------------------------------------------------------------------
  // Requirements.java

  const RequirementsImportsAndJavadoc: string :=
    "import org.bitbucket.cowwoc.requirements.java.ArrayVerifier;\n" +
    "import org.bitbucket.cowwoc.requirements.java.Configurable;\n" +
    "import org.bitbucket.cowwoc.requirements.java.internal.scope.ApplicationScope;\n" +
    "\n" +
    "import java.util.function.Function;\n" +
    "\n" +
    "/**\n" +
    " * An entry point for verifying API requirements.\n" +
    " *\n" +
    " * @see DefaultRequirements\n" +
    " * @see JavaVerifier\n"

  const RequirementsClassStart: string :=
    " */\n" +
    "public final class Requirements implements Configurable\n" +
    "{\n" +
    "\tprivate final JavaVerifier javaVerifier;\n"

  const GuavaVerifierMember: string := "\tprivate final GuavaVerifier guavaVerifier;\n"

  const ScopeConstructor: string :=
    "\n" +
    "\tpublic Requirements()\n" +
    "\t{\n" +
    "\t\tthis(MainApplicationScope.INSTANCE);\n" +
    "\t}\n" +
    "\n" +
    "\t/**\n" +
    "\t * \t * This constructor is meant to be used by automated tests, not by users.\n" +
    "\t *\n" +
    "\t * @param scope the application configuration\n" +
    "\t * @throws AssertionError if any of the arguments are null\n" +
    "\t */\n" +
    "\tpublic Requirements(ApplicationScope scope)\n" +
    "\t{\n" +
    "\t\tassert (scope != null) : \"scope may not be null\";\n" +
    "\t\tthis.javaVerifier = new DefaultJavaVerifier(scope);\n"

  const GuavaScopeInit: string := "\t\tthis.guavaVerifier = new DefaultGuavaVerifier(scope);\n"

  const DelegateConstructorJavadoc: string :=
    "\t}\n" +
    "\n" +
    "\t/**\n" +
    "\t * @param javaVerifier  the Java verifier to delegate to\n"

  const GuavaParamDoc: string := "\t * @param guavaVerifier the Guava verifier to delegate to\n"

  const DelegateConstructorStart: string :=
    "\t * @throws AssertionError if any of the arguments are null\n" +
    "\t */\n" +
    "\tprivate Requirements(JavaVerifier javaVerifier"

  const GuavaParameter: string := ", GuavaVerifier guavaVerifier"

  const DelegateConstructorBody: string :=
    ")\n" +
    "\t{\n" +
    "\t\tassert (javaVerifier != null) : \"javaVerifier may not be null\";\n"

  const GuavaAssert: string := "\t\tassert (guavaVerifier != null) : \"guavaVerifier may not be null\";\n"

  const JavaAssign: string := "\t\tthis.javaVerifier = javaVerifier;\n"

  const GuavaAssign: string := "\t\tthis.guavaVerifier = guavaVerifier;\n"

  const AssertionsAreEnabledMethod: string :=
    "\t}\n" +
    "\t/**\n" +
    "\t * @return true if assertions are enabled for this class\n" +
    "\t */\n" +
    "\t/**\n" +
    "\t * @return true if assertions are enabled for this class\n" +
    "\t */\n" +
    "\tpublic boolean assertionsAreEnabled()\n" +
    "\t{\n" +
    "\t\treturn javaVerifier.assertionsAreEnabled();\n" +
    "\t}\n"

  const NewGuavaVerifier: string := "\t\tGuavaVerifier newGuavaVerifier = guavaVerifier.withConfiguration(newConfig);\n"

  const ReturnNewRequirements: string := "\t\treturn new Requirements(newJavaVerifier"

  const GuavaArgument: string := ", newGuavaVerifier"

  const CloseCall: string := ");\n\t}\n"

  /** The lines that compute `newConfig` and return `this` when it equals the current configuration. */
  function ChangeLines(change: string): string
  {
    "\t\tConfiguration newConfig = config." + change + ";\n" +
    "\t\tif (newConfig.equals(config))\n" +
    "\t\t\treturn this;\n"
  }

  /**
   * One of the generated copy-on-write configuration methods: `signature` follows "public ",
   * `update` computes `newConfig`.
   */
  function ConfigurationMethod(signature: string, update: string): seq<Write>
  {
    [Always("\n" +
            "\t@Override\n" +
            "\tpublic " + signature + "\n" +
            "\t{\n" +
            "\t\tConfiguration config = javaVerifier.getConfiguration();\n" +
            update +
            "\t\tJavaVerifier newJavaVerifier = javaVerifier.withConfiguration(newConfig);\n"),
     WhenGuava(NewGuavaVerifier), Always(ReturnNewRequirements), WhenGuava(GuavaArgument), Always(CloseCall)]
  }

  function ConfigurationMethods(): seq<Write>
  {
    ConfigurationMethod("Requirements withAssertionsEnabled()", ChangeLines("withAssertionsEnabled()")) +
    ConfigurationMethod("Requirements withAssertionsDisabled()", ChangeLines("withAssertionsDisabled()")) +
    ConfigurationMethod("Requirements withException(Class<? extends RuntimeException> exception)",
      ChangeLines("withException(exception)")) +
    ConfigurationMethod("Requirements withDefaultException()", ChangeLines("withDefaultException()")) +
    ConfigurationMethod("Requirements withDiff()", ChangeLines("withDiff()")) +
    ConfigurationMethod("Requirements withoutDiff()", ChangeLines("withoutDiff()")) +
    ConfigurationMethod("Requirements addContext(String name, Object value)",
      "\t\tConfiguration newConfig = config.addContext(name, value);\n") +
    ConfigurationMethod("<T> Requirements withStringConverter(Class<T> type, Function<T, String> converter)",
      ChangeLines("withStringConverter(type, converter)")) +
    ConfigurationMethod("<T> Requirements withoutStringConverter(Class<T> type)",
      ChangeLines("withoutStringConverter(type)")) +
    ConfigurationMethod("Requirements withConfiguration(Configuration newConfig)",
      "\t\tif (newConfig.equals(config))\n\t\t\treturn this;\n")
  }

  const RequirementsJavaMethods: string :=
    "\n" +
    "\t@Override\n" +
    "\tpublic Configuration getConfiguration()\n" +
    "\t{\n" +
    "\t\treturn javaVerifier.getConfiguration();\n" +
    "\t}\n" +
    "\t@Override\n" +
    "\tpublic GlobalConfiguration getGlobalConfiguration()\n" +
    "\t{\n" +
    "\t\treturn DefaultJvmScope.INSTANCE.getGlobalConfiguration();\n" +
    "\t}\n" +
    "\n" +
    "\tpublic InetAddressVerifier assertThat(String name, InetAddress actual)\n" +
    "\t{\n" +
    "\t\treturn javaVerifier.assertThat(name, actual);\n" +
    "\t}\n"

  const RequirementsMultimapMethods: string :=
    "\n" +
    "\t/**\n" +
    "\t * Verifies the requirements of a {@code Multimap}.\n" +
    "\t *\n" +
    "\t * @param <K>    the type of key in the multimap\n" +
    "\t * @param <V>    the type of value in the multimap\n" +
    "\t * @param name   the name of the value\n" +
    "\t * @param actual the actual value\n" +
    "\t * @return a verifier for the value\n" +
    "\t * @throws NullPointerException     if {@code name} is null\n" +
    "\t * @throws IllegalArgumentException if {@code name} is empty\n" +
    "\t */\n" +
    "\tpublic <K, V> MultimapVerifier<K, V> requireThat(String name, Multimap<K, V> actual)\n" +
    "\t{\n" +
    "\t\treturn guavaVerifier.requireThat(name, actual);\n" +
    "\t}\n" +
    "\n" +
    "\t/**\n" +
    "\t * Same as {@link #requireThat(String, Multimap)} but does nothing if assertions are disabled.\n" +
    "\t *\n" +
    "\t * @param <K>    the type of key in the multimap\n" +
    "\t * @param <V>    the type of value in the multimap\n" +
    "\t * @param name   the name of the value\n" +
    "\t * @param actual the actual value\n" +
    "\t * @return a verifier for the value\n" +
    "\t * @throws NullPointerException     if name is null\n" +
    "\t * @throws IllegalArgumentException if name is empty\n" +
    "\t */\n" +
    "\tpublic <K, V> MultimapVerifier<K, V> assertThat(String name, Multimap<K, V> actual)\n" +
    "\t{\n" +
    "\t\treturn guavaVerifier.assertThat(name, actual);\n" +
    "\t}\n"

  /** The part of writeRequirements up to the first configuration method. */
  function RequirementsPrologue(): seq<Write>
  {
    [Always(Header), WhenGuava(GuavaImports), Always(RequirementsImportsAndJavadoc), WhenGuava(GuavaSeeAlso),
     Always(RequirementsClassStart), WhenGuava(GuavaVerifierMember), Always(ScopeConstructor),
     WhenGuava(GuavaScopeInit), Always(DelegateConstructorJavadoc), WhenGuava(GuavaParamDoc),
     Always(DelegateConstructorStart), WhenGuava(GuavaParameter), Always(DelegateConstructorBody),
     WhenGuava(GuavaAssert), Always(JavaAssign), WhenGuava(GuavaAssign), Always(AssertionsAreEnabledMethod)]
  }

  /** The write() calls of writeRequirements, in order. */
  function RequirementsTemplate(): seq<Write>
  {
    RequirementsPrologue() + ConfigurationMethods() +
    [Always(RequirementsJavaMethods), WhenGuava(RequirementsMultimapMethods), Always("}\n")]
  }

  function RequirementsText(guavaEnabled: bool): string
  {
    Render(RequirementsTemplate(), guavaEnabled)
  }

  // ---------------------------------------------------------------------------------------------
  // Output paths and write-if-changed

  /** getDefaultRequirementsPath: org/bitbucket/cowwoc/requirements/DefaultRequirements.java under the root. */
  function DefaultRequirementsPath(rootPackage: Path): (r: Path)
    ensures |r.names| == |rootPackage.names| + 5 && r.names[..|rootPackage.names|] == rootPackage.names
    ensures r.names[|rootPackage.names|..|r.names| - 1] == ["org", "bitbucket", "cowwoc", "requirements"]
    ensures r.names[|r.names| - 1] == "DefaultRequirements.java"
  {
    Resolve(rootPackage, ["org", "bitbucket", "cowwoc", "requirements", "DefaultRequirements.java"])
  }

  /** getRequirementsPath: org/bitbucket/cowwoc/requirements/Requirements.java under the root. */
  function RequirementsPath(rootPackage: Path): (r: Path)
    ensures |r.names| == |rootPackage.names| + 5 && r.names[..|rootPackage.names|] == rootPackage.names
    ensures r.names[|rootPackage.names|..|r.names| - 1] == ["org", "bitbucket", "cowwoc", "requirements"]
    ensures r.names[|r.names| - 1] == "Requirements.java"
  {
    Resolve(rootPackage, ["org", "bitbucket", "cowwoc", "requirements", "Requirements.java"])
  }

  /** The old contents as the generator reads them: a missing file reads as "". */
  function OldContents(files: map<Path, string>, path: Path): string
  {
    if path in files then files[path] else ""
  }

  /** The files after writing `text` to `path` if it differs from the old contents, and whether it did. */
  function WriteIfChanged(files: map<Path, string>, path: Path, text: string): (map<Path, string>, bool)
  {
    if OldContents(files, path) == text then (files, false) else (files[path := text], true)
  }

  class ApiGenerator {
    var guavaEnabled: bool

    constructor ()
      ensures !guavaEnabled
    {
      guavaEnabled := false;
    }

    method SetGuavaEnabled(value: bool)
      modifies this
      ensures guavaEnabled == value
    {
      guavaEnabled := value;
    }

    /** writeDefaultRequirements: returns true iff the file was (re)written. */
    method WriteDefaultRequirements(fs: FileSystem, path: Path) returns (updated: bool)
      modifies fs
      ensures (fs.files, updated) == WriteIfChanged(old(fs.files), path, DefaultRequirementsText(guavaEnabled))
      ensures !updated <==> OldContents(old(fs.files), path) == DefaultRequirementsText(guavaEnabled)
      ensures updated ==> fs.files == old(fs.files)[path := DefaultRequirementsText(guavaEnabled)]
      ensures !updated ==> fs.files == old(fs.files)
    {
      var oldValue := fs.ReadOrEmpty(path);
      var newValue := DefaultRequirementsText(guavaEnabled);
      if oldValue == newValue {
        return false;
      }
      fs.Write(path, newValue);
      return true;
    }

    /** writeRequirements: returns true iff the file was (re)written. */
    method WriteRequirements(fs: FileSystem, path: Path) returns (updated: bool)
      modifies fs
      ensures (fs.files, updated) == WriteIfChanged(old(fs.files), path, RequirementsText(guavaEnabled))
      ensures !updated <==> OldContents(old(fs.files), path) == RequirementsText(guavaEnabled)
      ensures updated ==> fs.files == old(fs.files)[path := RequirementsText(guavaEnabled)]
      ensures !updated ==> fs.files == old(fs.files)
    {
      var oldValue := fs.ReadOrEmpty(path);
      var newValue := RequirementsText(guavaEnabled);
      if oldValue == newValue {
        return false;
      }
      fs.Write(path, newValue);
      return true;
    }
  }

  // ---------------------------------------------------------------------------------------------
  // Properties of the templates

  /** A write() call runs iff it is in the template and is unconditional or Guava is enabled. */
  lemma {:induction false} RunsIffEnabled(template: seq<Write>, w: Write, guavaEnabled: bool)
    ensures w in Runs(template, guavaEnabled) <==> w in template && (w.Always? || guavaEnabled)
  {
    if template != [] {
      RunsIffEnabled(template[1..], w, guavaEnabled);
      assert template == [template[0]] + template[1..];
    }
  }

  /** The text with Guava is the text without it plus exactly the guarded writes. */
  lemma {:induction false} RenderLength(template: seq<Write>)
    ensures |Render(template, true)| == |Render(template, false)| + GuavaLength(template)
  {
    if template != [] {
      RenderLength(template[1..]);
    }
  }

  /** An unconditional first write always comes first in the output. */
  lemma RenderStartsWith(template: seq<Write>, guavaEnabled: bool)
    requires template != [] && template[0].Always?
    ensures Render(template, guavaEnabled) == template[0].text + Render(template[1..], guavaEnabled)
  {
  }

  /** A guarded first write is output exactly when Guava is enabled. */
  lemma SkipsGuarded(template: seq<Write>, guavaEnabled: bool)
    requires template != [] && template[0].WhenGuava?
    ensures Render(template, guavaEnabled) ==
            (if guavaEnabled then template[0].text else "") + Render(template[1..], guavaEnabled)
  {
  }

  /** A template with a non-empty guarded write renders differently with and without Guava. */
  lemma GuardedWriteChangesRender(template: seq<Write>, i: nat, guavaEnabled: bool)
    requires i < |template| && template[i].WhenGuava? && template[i].text != []
    ensures Render(template, guavaEnabled) != Render(template, !guavaEnabled)
  {
    RenderLength(template);
    GuavaLengthPositive(template, i);
  }

  /** Both files always start with the copyright header and the package declaration. */
  lemma HeaderComesFirst(guavaEnabled: bool)
    ensures |Header| <= |DefaultRequirementsText(guavaEnabled)|
    ensures DefaultRequirementsText(guavaEnabled)[..|Header|] == Header
    ensures |Header| <= |RequirementsText(guavaEnabled)|
    ensures RequirementsText(guavaEnabled)[..|Header|] == Header
  {
    var d := DefaultRequirementsTemplate();
    var r := RequirementsTemplate();
    RenderStartsWith(d, guavaEnabled);
    RenderStartsWith(r, guavaEnabled);
  }

  /** Each guarded block of DefaultRequirements.java is written iff Guava is enabled. */
  lemma DefaultRequirementsGuavaBlocks(guavaEnabled: bool)
    ensures WhenGuava(GuavaImports) in Runs(DefaultRequirementsTemplate(), guavaEnabled) <==> guavaEnabled
    ensures WhenGuava(GuavaSeeAlso) in Runs(DefaultRequirementsTemplate(), guavaEnabled) <==> guavaEnabled
    ensures WhenGuava(GuavaVerifierField) in Runs(DefaultRequirementsTemplate(), guavaEnabled) <==> guavaEnabled
    ensures WhenGuava(DefaultMultimapMethods) in Runs(DefaultRequirementsTemplate(), guavaEnabled) <==> guavaEnabled
  {
    var t := DefaultRequirementsTemplate();
    assert t[1] == WhenGuava(GuavaImports) && t[3] == WhenGuava(GuavaSeeAlso);
    assert t[5] == WhenGuava(GuavaVerifierField) && t[7] == WhenGuava(DefaultMultimapMethods);
    RunsIffEnabled(t, t[1], guavaEnabled);
    RunsIffEnabled(t, t[3], guavaEnabled);
    RunsIffEnabled(t, t[5], guavaEnabled);
    RunsIffEnabled(t, t[7], guavaEnabled);
  }

  /**
   * Each guarded block of Requirements.java is written iff Guava is enabled: the imports, the
   * guavaVerifier field, the constructor's GuavaVerifier parameter and the Multimap methods.
   */
  lemma RequirementsGuavaBlocks(guavaEnabled: bool)
    ensures WhenGuava(GuavaImports) in Runs(RequirementsTemplate(), guavaEnabled) <==> guavaEnabled
    ensures WhenGuava(GuavaVerifierMember) in Runs(RequirementsTemplate(), guavaEnabled) <==> guavaEnabled
    ensures WhenGuava(GuavaParameter) in Runs(RequirementsTemplate(), guavaEnabled) <==> guavaEnabled
    ensures WhenGuava(RequirementsMultimapMethods) in Runs(RequirementsTemplate(), guavaEnabled) <==> guavaEnabled
  {
    var p := RequirementsPrologue();
    var m := ConfigurationMethods();
    var e := [Always(RequirementsJavaMethods), WhenGuava(RequirementsMultimapMethods), Always("}\n")];
    var t := RequirementsTemplate();
    assert t == p + m + e;
    assert t[1] == p[1] == WhenGuava(GuavaImports);
    assert t[5] == p[5] == WhenGuava(GuavaVerifierMember);
    assert t[11] == p[11] == WhenGuava(GuavaParameter);
    assert t[|p| + |m| + 1] == e[1] == WhenGuava(RequirementsMultimapMethods);
    RunsIffEnabled(t, t[1], guavaEnabled);
    RunsIffEnabled(t, t[5], guavaEnabled);
    RunsIffEnabled(t, t[11], guavaEnabled);
    RunsIffEnabled(t, t[|p| + |m| + 1], guavaEnabled);
  }

  /** Changing the Guava flag changes both generated files, so the next write rewrites them. */
  lemma ToggleChangesText(guavaEnabled: bool)
    ensures DefaultRequirementsText(guavaEnabled) != DefaultRequirementsText(!guavaEnabled)
    ensures RequirementsText(guavaEnabled) != RequirementsText(!guavaEnabled)
  {
    ToggleChangesDefaultText(guavaEnabled);
    ToggleChangesRequirementsText(guavaEnabled);
  }

  lemma ToggleChangesDefaultText(guavaEnabled: bool)
    ensures DefaultRequirementsText(guavaEnabled) != DefaultRequirementsText(!guavaEnabled)
  {
    var d := DefaultRequirementsTemplate();
    assert d[1] == WhenGuava(GuavaImports) && GuavaImports != [];
    GuardedWriteChangesRender(d, 1, guavaEnabled);
  }

  lemma ToggleChangesRequirementsText(guavaEnabled: bool)
    ensures RequirementsText(guavaEnabled) != RequirementsText(!guavaEnabled)
  {
    var r := RequirementsTemplate();
    assert r[1] == RequirementsPrologue()[1] == WhenGuava(GuavaImports) && GuavaImports != [];
    GuardedWriteChangesRender(r, 1, guavaEnabled);
  }

  lemma {:induction false} GuavaLengthPositive(t: seq<Write>, i: nat)
    requires i < |t| && t[i].WhenGuava? && t[i].text != []
    ensures GuavaLength(t) > 0
  {
    if i > 0 {
      GuavaLengthPositive(t[1..], i - 1);
    }
  }

  /** Running writeDefaultRequirements twice with the same flag: the second run writes nothing. */
  lemma WriteIsIdempotent(files: map<Path, string>, path: Path, text: string)
    ensures WriteIfChanged(WriteIfChanged(files, path, text).0, path, text) ==
            (WriteIfChanged(files, path, text).0, false)
  {
  }

  /** The two output files are distinct, so writing one leaves the other's contents alone. */
  lemma OutputPathsDiffer(rootPackage: Path, files: map<Path, string>, text: string)
    ensures DefaultRequirementsPath(rootPackage) != RequirementsPath(rootPackage)
    ensures OldContents(WriteIfChanged(files, DefaultRequirementsPath(rootPackage), text).0,
              RequirementsPath(rootPackage)) == OldContents(files, RequirementsPath(rootPackage))
  {
    var n := |rootPackage.names|;
    assert DefaultRequirementsPath(rootPackage).names[n + 4] != RequirementsPath(rootPackage).names[n + 4];
  }

  // ---------------------------------------------------------------------------------------------
  // main(): the log message after each write

  /** The message main() logs after a write, as written: the two branches are swapped. */
  function LogMessageAsWritten(updated: bool, path: string): (r: string)
    ensures updated ==> |" was up-to-date"| <= |r| && r[|r| - |" was up-to-date"|..] == " was up-to-date"
    ensures !updated ==> |"Generated "| <= |r| && r[..|"Generated "|] == "Generated "
  {
    if updated then path + " was up-to-date" else "Generated " + path
  }

  /**
   * Counterexample: for every path, both branches differ from the intended message; a write that
   * did update the file is reported as up-to-date.
   */
  lemma LogMessageAsWrittenIsSwapped()
    ensures LogMessageAsWritten(true, "R.java") == "R.java was up-to-date"
    ensures forall p :: LogMessageAsWritten(true, p) != LogMessage(true, p)
    ensures forall p :: LogMessageAsWritten(false, p) != LogMessage(false, p)
  {
    forall p
      ensures LogMessageAsWritten(true, p) != LogMessage(true, p)
      ensures LogMessageAsWritten(false, p) != LogMessage(false, p)
    {
      assert |LogMessageAsWritten(true, p)| != |LogMessage(true, p)|;
      assert |LogMessageAsWritten(false, p)| != |LogMessage(false, p)|;
    }
  }

  /** The intended message: "Generated" after a write, "was up-to-date" when nothing was written. */
  function LogMessage(updated: bool, path: string): (r: string)
    ensures updated ==> |"Generated "| <= |r| && r[..|"Generated "|] == "Generated "
    ensures !updated ==> |" was up-to-date"| <= |r| && r[|r| - |" was up-to-date"|..] == " was up-to-date"
    ensures r == LogMessageAsWritten(!updated, path)
  {
    if updated then "Generated " + path else path + " was up-to-date"
  }
}
