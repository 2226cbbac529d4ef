# requirements.java: code generators, validator factories and requirements front-ends

This project models three parts of the `requirements.java` library in Dafny and proves properties
of each.

- **The API source generators.** The `com.github` generator assembles `Requirements.java` and
  `DefaultRequirements.java` from the parsed plugin classes. It:
  - forwards each plugin's `requireThat` and `validateThat` methods;
  - re-indents their Javadoc;
  - derives delegate field names;
  - de-duplicates imports through a shared set.

  The older `org.bitbucket` generator writes two fixed texts. Some blocks of those texts appear
  only when Guava is enabled. It rewrites a file only when the contents would change, and reports
  whether it wrote.
- **The validator factories.** `JavaValidatorsImpl` exists in three revisions: `requirements10`,
  the `implementation` package and `requirements11`. The factory holds a mutable context map.
  Every validator it creates receives:
  - a snapshot of that map;
  - an empty failure list;
  - the configuration of the entry point that created it (`requireThat`, `assumeThat`/`that`,
    `checkIf`);
  - the name `"value"` when the call gives none.
- **The requirements front-ends.** `DefaultJavaRequirements` exists in two revisions. The
  `com.github` one is copy-on-write: each `withX` returns `this` when the configuration would not
  change, and otherwise a new instance. The `org.bitbucket` one updates a shared configuration
  object in place. In both, `assertThat` is a no-op when assertions are disabled, and
  `validateThat` verifies the name first.

Modules:

| module | models |
|---|---|
| `Wrappers` | `Option` and `Result` |
| `JavaStrings` | the `String` operations the sources use |
| `Configurations` | the records of `Configuration` and `ApplicationScope`, with pure `withX` updates |
| `FileSystems` | a file system as a map from path to contents |
| `Validators` | name verification, validator and verifier records, `GenericType.from`, `putAll` |
| `GithubApiGenerator` | code_generator/.../com/github/cowwoc/requirements/generator/ApiGenerator.java |
| `BitbucketApiGenerator` | code-generator/.../org/bitbucket/cowwoc/requirements/generator/ApiGenerator.java |
| `Requirements10Validators`, `ImplementationValidators`, `Requirements11Validators` | the three `JavaValidatorsImpl` revisions |
| `GithubRequirements`, `BitbucketRequirements` | the two `DefaultJavaRequirements` revisions |

Each module takes the form of its source:

- Copy-on-write front-end and pure name builders: datatypes and functions.
- Factories with a mutable context map: classes with the map as a field.
- `org.bitbucket` front-end: a class over a shared, mutable configuration object.
- String-builder loops of the `com.github` generator (`appendJavadoc`'s tab-insertion loop, the
  forwarding loops, import emission through the `importedTypes` set): methods with loops (a `while` loop
  in `IndentJavadoc`, `for` loops elsewhere), each proved equal to a specification function.
- `org.bitbucket` text: a sequence of the `writer.write` calls, some guarded by `guavaEnabled`;
  rendering keeps the guarded calls exactly when Guava is enabled.

## Model

| member | source | states |
|---|---|---|
| `Validators.GenericTypeFrom` | java/src/main/java/com/github/cowwoc/requirements11/java/internal/validator/JavaValidatorsImpl.java:1490-1493 | the generic type made from a class is a generic type whose raw type is that class |
| `Validators.ClassAsGenericType` | java/src/main/java/com/github/cowwoc/requirements10/java/internal/validator/JavaValidatorsImpl.java:1528-1531 | a validated value is never a raw `Class`: a class becomes its `GenericType`, and any other value is passed through unchanged |
| `Validators.PutAll` | java/src/main/java/com/github/cowwoc/requirements10/java/internal/validator/JavaValidatorsImpl.java:1301-1306 | `putAll` yields the union of the keys: the added map's values win, and the other entries keep the old map's values |
| `Validators.PutAllIntoEmpty` | java/src/main/java/com/github/cowwoc/requirements10/java/internal/validator/JavaValidatorsImpl.java:89-93 | putting every entry of a map into an empty map yields a map equal to it |
| `Validators.VerifyName` | java/src/main/java/org/bitbucket/cowwoc/requirements/java/DefaultJavaVerifier.java:280-293 | a name is accepted exactly when it is non-null and not blank after trimming; null raises `NullPointerException("name may not be null")`, and blank raises `IllegalArgumentException("name may not be empty")` |
| `Validators.BlankNamesAreRefused` | java/src/main/java/org/bitbucket/cowwoc/requirements/java/DefaultJavaVerifier.java:286-292 | a name made only of spaces, tabs and newlines is refused as empty |
| `Validators.ValidateThat` | java/src/main/java/com/github/cowwoc/requirements/java/DefaultJavaRequirements.java:317-321 | fails exactly when the name is refused, with the same exception; otherwise yields a validator of the value with the given scope, configuration and name and no failures |
| `Validators.RequireThat` | java/src/main/java/com/github/cowwoc/requirements/java/DefaultJavaRequirements.java:303-306 | fails exactly when `validateThat` fails; otherwise wraps `validateThat`'s validator in a real verifier |
| `Validators.AssertThat` | java/src/main/java/com/github/cowwoc/requirements/java/DefaultJavaRequirements.java:309-314 | with assertions disabled, the no-op verifier; otherwise exactly `requireThat` |
| `Validators.AssertThatNoOpIffDisabled` | java/src/main/java/com/github/cowwoc/requirements/java/DefaultJavaRequirements.java:309-314 | `assertThat` yields the no-op verifier if and only if assertions are disabled, and it fails if and only if assertions are enabled and the name is refused |
| `FileSystems.Resolve` | code-generator/src/main/java/org/bitbucket/cowwoc/requirements/generator/ApiGenerator.java:72-75 | resolving a relative path keeps the root as a prefix and appends exactly the relative names |
| `FileSystems.FileSystem.ReadOrEmpty` | code-generator/src/main/java/org/bitbucket/cowwoc/requirements/generator/ApiGenerator.java:88-96 | a file's old contents are its text, or the empty string when the file does not exist |
| `FileSystems.FileSystem.Write` | code-generator/src/main/java/org/bitbucket/cowwoc/requirements/generator/ApiGenerator.java:1237-1242 | after a write, the file's contents are exactly the text, and no other file changes |
| `BitbucketApiGenerator.ApiGenerator.constructor` | code-generator/src/main/java/org/bitbucket/cowwoc/requirements/generator/ApiGenerator.java:21 | a new generator has Guava disabled |
| `BitbucketApiGenerator.ApiGenerator.SetGuavaEnabled` | code-generator/src/main/java/org/bitbucket/cowwoc/requirements/generator/ApiGenerator.java:63-66 | the flag takes the given value |
| `BitbucketApiGenerator.ApiGenerator.WriteDefaultRequirements` | code-generator/src/main/java/org/bitbucket/cowwoc/requirements/generator/ApiGenerator.java:84-1243 | returns false and leaves every file alone exactly when the old contents (empty for a missing file) equal the text for the current Guava flag; otherwise the file holds exactly that text, and the call returns true |
| `BitbucketApiGenerator.ApiGenerator.WriteRequirements` | code-generator/src/main/java/org/bitbucket/cowwoc/requirements/generator/ApiGenerator.java:1261-2614 | the same write-if-changed contract for the text of `Requirements.java` |
| `BitbucketApiGenerator.RunsIffEnabled` | code-generator/src/main/java/org/bitbucket/cowwoc/requirements/generator/ApiGenerator.java:106-112 | a `write` call of a template runs if and only if it is unguarded, or Guava is enabled |
| `BitbucketApiGenerator.RenderLength` | code-generator/src/main/java/org/bitbucket/cowwoc/requirements/generator/ApiGenerator.java:106-112 | enabling Guava lengthens the output by exactly the total length of the guarded writes |
| `BitbucketApiGenerator.RenderStartsWith` | code-generator/src/main/java/org/bitbucket/cowwoc/requirements/generator/ApiGenerator.java:100-105 | an unguarded first write is always the start of the output |
| `BitbucketApiGenerator.SkipsGuarded` | code-generator/src/main/java/org/bitbucket/cowwoc/requirements/generator/ApiGenerator.java:106-112 | a guarded first write contributes its text only when Guava is enabled |
| `BitbucketApiGenerator.GuardedWriteChangesRender` | code-generator/src/main/java/org/bitbucket/cowwoc/requirements/generator/ApiGenerator.java:106-112 | a template with a non-empty guarded write renders differently with and without Guava |
| `BitbucketApiGenerator.HeaderComesFirst` | code-generator/src/main/java/org/bitbucket/cowwoc/requirements/generator/ApiGenerator.java:100-105 | both generated files start with the copyright header and the package line, whatever the flag |
| `BitbucketApiGenerator.DefaultRequirementsGuavaBlocks` | code-generator/src/main/java/org/bitbucket/cowwoc/requirements/generator/ApiGenerator.java:106-112 | in `DefaultRequirements.java`, these appear if and only if Guava is enabled: the four Guava imports, the `@see GuavaVerifier` line, the `GUAVA_VERIFIER` field (lines 173-174) and the Multimap methods (lines 1181-1216) |
| `BitbucketApiGenerator.RequirementsGuavaBlocks` | code-generator/src/main/java/org/bitbucket/cowwoc/requirements/generator/ApiGenerator.java:1383-1386 | in `Requirements.java`, these appear if and only if Guava is enabled: the Guava imports, the `GuavaVerifier` member, the constructor's `GuavaVerifier` parameter and the Multimap methods |
| `BitbucketApiGenerator.ToggleChangesText` | code-generator/src/main/java/org/bitbucket/cowwoc/requirements/generator/ApiGenerator.java:106-112 | flipping the Guava flag changes the text of each generated file |
| `BitbucketApiGenerator.WriteIsIdempotent` | code-generator/src/main/java/org/bitbucket/cowwoc/requirements/generator/ApiGenerator.java:1234-1242 | writing the same text twice leaves the files as after the first write, and the second write reports no update |
| `BitbucketApiGenerator.DefaultRequirementsPath` | code-generator/src/main/java/org/bitbucket/cowwoc/requirements/generator/ApiGenerator.java:72-75 | the root package's names, then `org`, `bitbucket`, `cowwoc`, `requirements` and finally `DefaultRequirements.java` |
| `BitbucketApiGenerator.RequirementsPath` | code-generator/src/main/java/org/bitbucket/cowwoc/requirements/generator/ApiGenerator.java:1249-1252 | the root package's names, then `org`, `bitbucket`, `cowwoc`, `requirements` and finally `Requirements.java` |
| `BitbucketApiGenerator.OutputPathsDiffer` | code-generator/src/main/java/org/bitbucket/cowwoc/requirements/generator/ApiGenerator.java:1249-1252 | the two output paths differ, so writing `DefaultRequirements.java` never changes `Requirements.java` |
| `BitbucketApiGenerator.LogMessageAsWritten` | code-generator/src/main/java/org/bitbucket/cowwoc/requirements/generator/ApiGenerator.java:46-55 | as written, an update is logged with a message ending in " was up-to-date", and no update with one starting with "Generated " |
| `BitbucketApiGenerator.LogMessageAsWrittenIsSwapped` | code-generator/src/main/java/org/bitbucket/cowwoc/requirements/generator/ApiGenerator.java:46-55 | for every path, both branches as written differ from the corrected message; a write that updated `R.java` is logged as "R.java was up-to-date" |
| `BitbucketApiGenerator.LogMessage` | code-generator/src/main/java/org/bitbucket/cowwoc/requirements/generator/ApiGenerator.java:46-55 | the intended message begins with "Generated " after an update, ends with " was up-to-date" otherwise, and is the as-written message with the condition negated |
| `GithubApiGenerator.PluginNames` | code_generator/src/main/java/com/github/cowwoc/requirements/generator/ApiGenerator.java:430-437 | the plugin list starts with "java" and contains "guava" if and only if Guava is enabled: one or two entries |
| `GithubApiGenerator.Capitalize` | code_generator/src/main/java/com/github/cowwoc/requirements/generator/ApiGenerator.java:449-450 | upper-cases the first character and keeps the rest |
| `GithubApiGenerator.PluginClassName` | code_generator/src/main/java/com/github/cowwoc/requirements/generator/ApiGenerator.java:449-450 | a plugin's class name is as long as the package prefix, twice the plugin name and ".Requirements" together |
| `GithubApiGenerator.PluginClassNameParts` | code_generator/src/main/java/com/github/cowwoc/requirements/generator/ApiGenerator.java:449-450 | for every plugin name p, the class is in package `com.github.cowwoc.requirements.p` and is named p capitalized followed by `Requirements` |
| `GithubApiGenerator.JavaPluginNames` | code_generator/src/main/java/com/github/cowwoc/requirements/generator/ApiGenerator.java:449-450 | the class names loaded for the two plugins are `com.github.cowwoc.requirements.java.JavaRequirements` and `...guava.GuavaRequirements` |
| `GithubApiGenerator.ResourcePath` | code_generator/src/main/java/com/github/cowwoc/requirements/generator/ApiGenerator.java:462-463 | the resource path is "/", then the name with no dot left, then ".java", and is 6 characters longer than the name |
| `GithubApiGenerator.ResourcePathInverse` | code_generator/src/main/java/com/github/cowwoc/requirements/generator/ApiGenerator.java:462-463 | for a name without slashes, mapping the path's slashes back to dots and stripping "/" and ".java" recovers the class name |
| `GithubApiGenerator.DelegateName` | code_generator/src/main/java/com/github/cowwoc/requirements/generator/ApiGenerator.java:595-601 | static delegates are "REQUIREMENTS"; otherwise the plugin name with only its first character lower-cased (a non-empty name is required) |
| `GithubApiGenerator.DelegateNameOfPlugin` | code_generator/src/main/java/com/github/cowwoc/requirements/generator/ApiGenerator.java:595-601 | lower-casing the class name of a lower-case plugin `p` gives back `p + "Requirements"` |
| `GithubApiGenerator.CreateDelegate` | code_generator/src/main/java/com/github/cowwoc/requirements/generator/ApiGenerator.java:607-614 | undefined (the Java code throws) exactly when the name lacks "Requirements"; otherwise the initializer of the delegate field, using the prefix before the first "Requirements" |
| `GithubApiGenerator.CreateDelegateOfPlugin` | code_generator/src/main/java/com/github/cowwoc/requirements/generator/ApiGenerator.java:607-614 | for a plugin class `P + "Requirements"`, the initializer is `this.pRequirements = PSecrets.INSTANCE.createRequirements(scope);` |
| `GithubApiGenerator.UnindentTabAfterNewlines` | code_generator/src/main/java/com/github/cowwoc/requirements/generator/ApiGenerator.java:562-571 | inserting a tab after every newline loses nothing: removing those tabs recovers the comment |
| `GithubApiGenerator.NewlinesAreIndented` | code_generator/src/main/java/com/github/cowwoc/requirements/generator/ApiGenerator.java:562-571 | after re-indenting, every newline is followed by a tab |
| `GithubApiGenerator.IndentedEndingWithNewline` | code_generator/src/main/java/com/github/cowwoc/requirements/generator/ApiGenerator.java:572-573 | a comment that ends with a newline is indented with no trailing tab left after that newline |
| `GithubApiGenerator.IndentedSingleLine` | code_generator/src/main/java/com/github/cowwoc/requirements/generator/ApiGenerator.java:561-573 | a single-line comment not ending in a tab only gains one leading tab |
| `GithubApiGenerator.IndentLoopStep` | code_generator/src/main/java/com/github/cowwoc/requirements/generator/ApiGenerator.java:565-570 | each iteration consumes at least one more character of the comment and keeps the loop invariant: the text so far is the indented prefix followed by the unread rest |
| `GithubApiGenerator.IndentJavadoc` | code_generator/src/main/java/com/github/cowwoc/requirements/generator/ApiGenerator.java:558-573 | the source's tab-insertion loop terminates and yields a tab, then the comment with a tab after every newline, with exactly one trailing tab removed when the result ends in one |
| `GithubApiGenerator.AppendJavadoc` | code_generator/src/main/java/com/github/cowwoc/requirements/generator/ApiGenerator.java:554-575 | a method without Javadoc leaves the buffer unchanged; otherwise the buffer gains exactly the indented comment |
| `GithubApiGenerator.AddModifierContents` | code_generator/src/main/java/com/github/cowwoc/requirements/generator/ApiGenerator.java:523-525 | adding a modifier keeps the existing ones, adds the keyword and adds nothing else |
| `GithubApiGenerator.ForwardingModifiersPublic` | code_generator/src/main/java/com/github/cowwoc/requirements/generator/ApiGenerator.java:522-526 | every forwarding method is public; static forwarding methods are static, and instance ones are static only if the plugin method was |
| `GithubApiGenerator.TypeParameterList` | code_generator/src/main/java/com/github/cowwoc/requirements/generator/ApiGenerator.java:529-532 | the type-parameter list is empty exactly when the method has no type parameters |
| `GithubApiGenerator.ParameterStrings` | code_generator/src/main/java/com/github/cowwoc/requirements/generator/ApiGenerator.java:538-540 | one entry per parameter, each its type, a space and its name |
| `GithubApiGenerator.ForwardingMethodShape` | code_generator/src/main/java/com/github/cowwoc/requirements/generator/ApiGenerator.java:503-548 | a forwarded method is empty unless it is `requireThat` or `validateThat`; otherwise it starts with a newline and ends by returning `delegate.name(actual, name)` |
| `GithubApiGenerator.UnforwardedMethodsAddNothing` | code_generator/src/main/java/com/github/cowwoc/requirements/generator/ApiGenerator.java:506-513 | methods of any other name contribute no text |
| `GithubApiGenerator.ForwardingMethodParts` | code_generator/src/main/java/com/github/cowwoc/requirements/generator/ApiGenerator.java:515-538 | a forwarded method's text contains the `@CheckReturnValue` line and its signature line |
| `GithubApiGenerator.AppendForwardingMethod` | code_generator/src/main/java/com/github/cowwoc/requirements/generator/ApiGenerator.java:503-548 | the buffer keeps its old text as a prefix and is unchanged unless the method is `requireThat` or `validateThat`; otherwise the appended text starts with a newline, contains `@CheckReturnValue` and the signature line, and ends with the call on the delegate; the signature is public, and static exactly when the plugin method is or the target is `DefaultRequirements` |
| `GithubApiGenerator.AppendMethods` | code_generator/src/main/java/com/github/cowwoc/requirements/generator/ApiGenerator.java:490-491 | the loop over a plugin's methods appends their forwarding texts in order |
| `GithubApiGenerator.AppendPluginMethods` | code_generator/src/main/java/com/github/cowwoc/requirements/generator/ApiGenerator.java:483-493 | the loop over plugins appends every plugin's forwarding texts in plugin order, each using that plugin's delegate name |
| `GithubApiGenerator.RawTypeName` | code_generator/src/main/java/com/github/cowwoc/requirements/generator/ApiGenerator.java:1186-1191 | a class or interface type is keyed by its name without type arguments; any other type by its printed form |
| `GithubApiGenerator.ImportEndsWithRawTypeName` | code_generator/src/main/java/com/github/cowwoc/requirements/generator/ApiGenerator.java:1186-1223 | whenever a type needs an import, the imported name ends with the key the type is de-duplicated under |
| `GithubApiGenerator.FullyQualifiedTypeToImport` | code_generator/src/main/java/com/github/cowwoc/requirements/generator/ApiGenerator.java:1200-1223 | non-class types import nothing; a dotted name is imported as is; otherwise the type is imported from the plugin's package if that class exists there, and not at all if it does not |
| `GithubApiGenerator.ImportDeclCandidates` | code_generator/src/main/java/com/github/cowwoc/requirements/generator/ApiGenerator.java:1105-1108 | one import candidate per declared import, keyed by its identifier and carrying its printed line |
| `GithubApiGenerator.FirstOccurrencesFresh` | code_generator/src/main/java/com/github/cowwoc/requirements/generator/ApiGenerator.java:1105-1109 | an emitted import was a candidate, and its identifier was not already in `importedTypes` |
| `GithubApiGenerator.FirstOccurrencesDistinct` | code_generator/src/main/java/com/github/cowwoc/requirements/generator/ApiGenerator.java:1105-1109 | no two emitted imports share an identifier |
| `GithubApiGenerator.FirstOccurrencesCover` | code_generator/src/main/java/com/github/cowwoc/requirements/generator/ApiGenerator.java:1105-1109 | every candidate is either already imported or has its identifier emitted |
| `GithubApiGenerator.EmitImports` | code_generator/src/main/java/com/github/cowwoc/requirements/generator/ApiGenerator.java:1105-1109 | the loop gated on `importedTypes.add` emits exactly the first occurrence of each new identifier, and the set grows by every candidate's identifier |
| `GithubApiGenerator.AppendPluginImports` | code_generator/src/main/java/com/github/cowwoc/requirements/generator/ApiGenerator.java:1102-1136 | over all plugins sharing one set, emits the first occurrence of every import: declared imports, method types, the plugin's default implementation and extended types |
| `GithubApiGenerator.AppendImports` | code_generator/src/main/java/com/github/cowwoc/requirements/generator/ApiGenerator.java:1067-1092 | the buffer gains `Consumer`, the de-duplicated plugin imports, `CheckReturnValue`, then `ThreadRequirements` for `DefaultRequirements`, or the scope and secrets imports when the scope is exported |
| `GithubApiGenerator.ImportsEmittedOnce` | code_generator/src/main/java/com/github/cowwoc/requirements/generator/ApiGenerator.java:1102-1136 | across all plugins, each import identifier is emitted at most once, and every candidate identifier is emitted |
| `GithubApiGenerator.AppendConfigurationUpdate` | code_generator/src/main/java/com/github/cowwoc/requirements/generator/ApiGenerator.java:1017-1030 | the buffer gains one `delegate.change;` line per plugin, in plugin order, then `return this;` |
| `GithubApiGenerator.StaticDelegationsAsWritten` | code_generator/src/main/java/com/github/cowwoc/requirements/generator/ApiGenerator.java:201-282 | as written, the static methods are those of the corrected list, and each delegates to its namesake except `withoutDiff`, which delegates to `withDiff` |
| `GithubApiGenerator.StaticDelegations` | code_generator/src/main/java/com/github/cowwoc/requirements/generator/ApiGenerator.java:201-282 | in the corrected static methods, each delegates to the configuration method of its own name |
| `GithubApiGenerator.SameNameDelegation` | code_generator/src/main/java/com/github/cowwoc/requirements/generator/ApiGenerator.java:201-282 | when every static method delegates to its own name, calling one applies exactly that configuration change |
| `GithubApiGenerator.WithoutDiffAsWrittenEnablesDiff` | code_generator/src/main/java/com/github/cowwoc/requirements/generator/ApiGenerator.java:242-245 | as written, the static `withoutDiff()` returns a copy with diffs enabled |
| `GithubApiGenerator.StaticDelegationsCorrect` | code_generator/src/main/java/com/github/cowwoc/requirements/generator/ApiGenerator.java:242-245 | with the correction, each static method applies its own change; `withoutDiff()` disables diffs |
| `Requirements10Validators.JavaValidatorsImpl.constructor` | java/src/main/java/com/github/cowwoc/requirements10/java/internal/validator/JavaValidatorsImpl.java:78-81 | a new factory has the given scope and configurations and an empty context |
| `Requirements10Validators.JavaValidatorsImpl.Copy` | java/src/main/java/com/github/cowwoc/requirements10/java/internal/validator/JavaValidatorsImpl.java:89-93 | the copy has the same scope and configurations and a context equal to the other factory's |
| `Requirements10Validators.JavaValidatorsImpl.CopyOf` | java/src/main/java/com/github/cowwoc/requirements10/java/internal/validator/JavaValidatorsImpl.java:1553-1556 | `copy()` returns a new factory with the same scope, configurations and context |
| `Requirements10Validators.JavaValidatorsImpl.WithContext` | java/src/main/java/com/github/cowwoc/requirements10/java/internal/validator/JavaValidatorsImpl.java:1559-1563 | maps the name to the value, leaves every other entry as it was, and returns the factory itself |
| `Requirements10Validators.JavaValidatorsImpl.RemoveContext` | java/src/main/java/com/github/cowwoc/requirements10/java/internal/validator/JavaValidatorsImpl.java:1566-1570 | deletes only that name (a no-op when absent) and returns the factory itself |
| `Requirements10Validators.JavaValidatorsImpl.NewValidatorContext` | java/src/main/java/com/github/cowwoc/requirements10/java/internal/validator/JavaValidatorsImpl.java:1301-1306 | the validator's new map equals the factory's context |
| `Requirements10Validators.JavaValidatorsImpl.NewValidatorFailures` | java/src/main/java/com/github/cowwoc/requirements10/java/internal/validator/JavaValidatorsImpl.java:1308-1311 | each validator starts with an empty list of failures |
| `Requirements10Validators.JavaValidatorsImpl.NewInstance` | java/src/main/java/com/github/cowwoc/requirements10/java/internal/validator/JavaValidatorsImpl.java:1295-1311 | the validator gets the factory's scope, the given configuration and name, the value as defined (a `Class` as its `GenericType`), the current context and no failures |
| `Requirements10Validators.JavaValidatorsImpl.RequireThat` | java/src/main/java/com/github/cowwoc/requirements10/java/internal/validator/JavaValidatorsImpl.java:96-99 | the validator has the factory's own configuration, the given name, the current context and no failures |
| `Requirements10Validators.JavaValidatorsImpl.AssumeThat` | java/src/main/java/com/github/cowwoc/requirements10/java/internal/validator/JavaValidatorsImpl.java:336-339 | the same, with the `assumeThat` configuration |
| `Requirements10Validators.JavaValidatorsImpl.AssumeThatDefaultName` | java/src/main/java/com/github/cowwoc/requirements10/java/internal/validator/JavaValidatorsImpl.java:342-345 | the one-argument form equals the two-argument form with name "value" |
| `Requirements10Validators.JavaValidatorsImpl.CheckIf` | java/src/main/java/com/github/cowwoc/requirements10/java/internal/validator/JavaValidatorsImpl.java:816-819 | the same, with the `checkIf` configuration |
| `Requirements10Validators.JavaValidatorsImpl.CheckIfDefaultName` | java/src/main/java/com/github/cowwoc/requirements10/java/internal/validator/JavaValidatorsImpl.java:822-825 | the one-argument form equals the two-argument form with name "value" |
| `Requirements10Validators.EntryPointsDifferOnlyInConfiguration` | java/src/main/java/com/github/cowwoc/requirements10/java/internal/validator/JavaValidatorsImpl.java:1295-1299 | `assumeThat` and `checkIf` build the validator `requireThat` builds, except for its configuration |
| `Requirements10Validators.ValidatorKeepsItsContext` | java/src/main/java/com/github/cowwoc/requirements10/java/internal/validator/JavaValidatorsImpl.java:1301-1306 | a validator keeps the context it was created with when the factory's context changes afterwards |
| `Requirements10Validators.CopyIsIndependent` | java/src/main/java/com/github/cowwoc/requirements10/java/internal/validator/JavaValidatorsImpl.java:89-93 | changing a copy's context leaves the original's unchanged |
| `ImplementationValidators.JavaValidatorsImpl.constructor` | java/src/main/java/com/github/cowwoc/requirements/java/internal/implementation/JavaValidatorsImpl.java:74-77 | a new factory has the given scope and configurations and an empty context |
| `ImplementationValidators.JavaValidatorsImpl.Copy` | java/src/main/java/com/github/cowwoc/requirements/java/internal/implementation/JavaValidatorsImpl.java:85-89 | the copy has the same scope and configurations and a context equal to the other factory's |
| `ImplementationValidators.JavaValidatorsImpl.CopyOf` | java/src/main/java/com/github/cowwoc/requirements/java/internal/implementation/JavaValidatorsImpl.java:1514-1517 | `copy()` returns a new factory with the same scope, configurations and context |
| `ImplementationValidators.JavaValidatorsImpl.PutContext` | java/src/main/java/com/github/cowwoc/requirements/java/internal/implementation/JavaValidatorsImpl.java:1520-1524 | maps the name to the value, leaves every other entry as it was, and returns the factory itself |
| `ImplementationValidators.JavaValidatorsImpl.RemoveContext` | java/src/main/java/com/github/cowwoc/requirements/java/internal/implementation/JavaValidatorsImpl.java:1527-1531 | deletes only that name and returns the factory itself |
| `ImplementationValidators.JavaValidatorsImpl.NewValidatorContext` | java/src/main/java/com/github/cowwoc/requirements/java/internal/implementation/JavaValidatorsImpl.java:1267-1272 | the validator's new map equals the factory's context |
| `ImplementationValidators.JavaValidatorsImpl.NewValidatorFailures` | java/src/main/java/com/github/cowwoc/requirements/java/internal/implementation/JavaValidatorsImpl.java:1274-1277 | each validator starts with an empty list of failures |
| `ImplementationValidators.JavaValidatorsImpl.NewInstance` | java/src/main/java/com/github/cowwoc/requirements/java/internal/implementation/JavaValidatorsImpl.java:1261-1277 | the validator gets the factory's scope, the given configuration, name and value, the current context and no failures |
| `ImplementationValidators.JavaValidatorsImpl.RequireThat` | java/src/main/java/com/github/cowwoc/requirements/java/internal/implementation/JavaValidatorsImpl.java:92-95 | the validator has the factory's own configuration, the given name, the current context and no failures |
| `ImplementationValidators.JavaValidatorsImpl.AssumeThat` | java/src/main/java/com/github/cowwoc/requirements/java/internal/implementation/JavaValidatorsImpl.java:326-329 | the same, with the `assumeThat` configuration |
| `ImplementationValidators.JavaValidatorsImpl.AssumeThatDefaultName` | java/src/main/java/com/github/cowwoc/requirements/java/internal/implementation/JavaValidatorsImpl.java:332-335 | the one-argument form equals the two-argument form with `AbstractValidator.DEFAULT_NAME`, "value" |
| `ImplementationValidators.JavaValidatorsImpl.CheckIf` | java/src/main/java/com/github/cowwoc/requirements/java/internal/implementation/JavaValidatorsImpl.java:794-797 | the same, with the `checkIf` configuration |
| `ImplementationValidators.JavaValidatorsImpl.CheckIfDefaultName` | java/src/main/java/com/github/cowwoc/requirements/java/internal/implementation/JavaValidatorsImpl.java:800-803 | the one-argument form equals the two-argument form with name "value" |
| `ImplementationValidators.EntryPointsDifferOnlyInConfiguration` | java/src/main/java/com/github/cowwoc/requirements/java/internal/implementation/JavaValidatorsImpl.java:1261-1265 | `assumeThat` and `checkIf` build the validator `requireThat` builds, except for its configuration |
| `ImplementationValidators.ValidatorKeepsItsContext` | java/src/main/java/com/github/cowwoc/requirements/java/internal/implementation/JavaValidatorsImpl.java:1267-1272 | a validator keeps the context it was created with when the factory's context changes afterwards |
| `ImplementationValidators.CopyIsIndependent` | java/src/main/java/com/github/cowwoc/requirements/java/internal/implementation/JavaValidatorsImpl.java:85-89 | changing a copy's context leaves the original's unchanged |
| `Requirements11Validators.OfNullable` | java/src/main/java/com/github/cowwoc/requirements11/java/internal/validator/JavaValidatorsImpl.java:1522-1526 | `Optional.ofNullable` is empty exactly for null, and otherwise holds the value |
| `Requirements11Validators.JavaValidatorsImpl.constructor` | java/src/main/java/com/github/cowwoc/requirements11/java/internal/validator/JavaValidatorsImpl.java:76-79 | a new factory has the given scope and configurations and an empty context |
| `Requirements11Validators.JavaValidatorsImpl.Copy` | java/src/main/java/com/github/cowwoc/requirements11/java/internal/validator/JavaValidatorsImpl.java:87-91 | the copy has the same scope and configurations and a context equal to the other factory's |
| `Requirements11Validators.JavaValidatorsImpl.CopyOf` | java/src/main/java/com/github/cowwoc/requirements11/java/internal/validator/JavaValidatorsImpl.java:1516-1519 | `copy()` returns a new factory with the same scope, configurations and context |
| `Requirements11Validators.JavaValidatorsImpl.WithContext` | java/src/main/java/com/github/cowwoc/requirements11/java/internal/validator/JavaValidatorsImpl.java:1522-1526 | maps the name to the value as an Optional, leaves other entries as they were, and returns the factory; a null value keeps the name present, mapped to the empty Optional |
| `Requirements11Validators.JavaValidatorsImpl.RemoveContext` | java/src/main/java/com/github/cowwoc/requirements11/java/internal/validator/JavaValidatorsImpl.java:1529-1533 | deletes only that name and returns the factory itself |
| `Requirements11Validators.JavaValidatorsImpl.NewValidatorContext` | java/src/main/java/com/github/cowwoc/requirements11/java/internal/validator/JavaValidatorsImpl.java:1269-1274 | the validator's new map equals the factory's Optional-valued context |
| `Requirements11Validators.JavaValidatorsImpl.NewValidatorFailures` | java/src/main/java/com/github/cowwoc/requirements11/java/internal/validator/JavaValidatorsImpl.java:1276-1279 | each validator starts with an empty list of failures |
| `Requirements11Validators.JavaValidatorsImpl.NewInstance` | java/src/main/java/com/github/cowwoc/requirements11/java/internal/validator/JavaValidatorsImpl.java:1263-1279 | the validator gets the factory's scope, the given configuration and name, the value as valid (a `Class` as its `GenericType`), the current context and no failures |
| `Requirements11Validators.JavaValidatorsImpl.RequireThat` | java/src/main/java/com/github/cowwoc/requirements11/java/internal/validator/JavaValidatorsImpl.java:94-97 | the validator has the factory's own configuration, the given name, the current context and no failures |
| `Requirements11Validators.JavaValidatorsImpl.That` | java/src/main/java/com/github/cowwoc/requirements11/java/internal/validator/JavaValidatorsImpl.java:328-331 | the same, with the `assertThat` configuration |
| `Requirements11Validators.JavaValidatorsImpl.ThatDefaultName` | java/src/main/java/com/github/cowwoc/requirements11/java/internal/validator/JavaValidatorsImpl.java:334-337 | `that(value)` equals `that(value, "value")` |
| `Requirements11Validators.JavaValidatorsImpl.CheckIf` | java/src/main/java/com/github/cowwoc/requirements11/java/internal/validator/JavaValidatorsImpl.java:796-799 | the same, with the `checkIf` configuration |
| `Requirements11Validators.JavaValidatorsImpl.CheckIfDefaultName` | java/src/main/java/com/github/cowwoc/requirements11/java/internal/validator/JavaValidatorsImpl.java:802-805 | `checkIf(value)` equals `checkIf(value, "value")` |
| `Requirements11Validators.EntryPointsDifferOnlyInConfiguration` | java/src/main/java/com/github/cowwoc/requirements11/java/internal/validator/JavaValidatorsImpl.java:1263-1267 | `that` and `checkIf` build the validator `requireThat` builds, except for its configuration |
| `Requirements11Validators.ValidatorKeepsItsContext` | java/src/main/java/com/github/cowwoc/requirements11/java/internal/validator/JavaValidatorsImpl.java:1269-1274 | a validator keeps the context it was created with when the factory's context changes afterwards |
| `Requirements11Validators.CopyIsIndependent` | java/src/main/java/com/github/cowwoc/requirements11/java/internal/validator/JavaValidatorsImpl.java:87-91 | changing a copy's context leaves the original's unchanged |
| `GithubRequirements.DefaultJavaRequirements.OfScope` | java/src/main/java/com/github/cowwoc/requirements/java/DefaultJavaRequirements.java:140-145 | a front-end built from a scope has that scope and the scope's default configuration |
| `GithubRequirements.DefaultJavaRequirements.Updated` | java/src/main/java/com/github/cowwoc/requirements/java/DefaultJavaRequirements.java:152-158 | returns this if and only if the new configuration equals the current one; in either case the result has the same scope and the new configuration |
| `GithubRequirements.DefaultJavaRequirements.AssertionsAreEnabled` | java/src/main/java/com/github/cowwoc/requirements/java/DefaultJavaRequirements.java:161-164 | true exactly when `withAssertionsEnabled()` would return this, and false exactly when `withAssertionsDisabled()` would |
| `GithubRequirements.DefaultJavaRequirements.IsCleanStackTrace` | java/src/main/java/com/github/cowwoc/requirements/java/DefaultJavaRequirements.java:167-170 | true exactly when `withCleanStackTrace()` would return this, and false exactly when `withoutCleanStackTrace()` would |
| `GithubRequirements.DefaultJavaRequirements.IsDiffEnabled` | java/src/main/java/com/github/cowwoc/requirements/java/DefaultJavaRequirements.java:247-250 | true exactly when `withDiff()` would return this, and false exactly when `withoutDiff()` would |
| `GithubRequirements.DefaultJavaRequirements.GetContext` | java/src/main/java/com/github/cowwoc/requirements/java/DefaultJavaRequirements.java:191-194 | a name has an entry exactly when `withoutContext(name)` would return a new instance, and putting an entry's own value back returns this |
| `GithubRequirements.DefaultJavaRequirements.WithCleanStackTrace` | java/src/main/java/com/github/cowwoc/requirements/java/DefaultJavaRequirements.java:173-179 | returns this if and only if stack traces are already cleaned; the result has the same scope and stack-trace cleaning on |
| `GithubRequirements.DefaultJavaRequirements.WithoutCleanStackTrace` | java/src/main/java/com/github/cowwoc/requirements/java/DefaultJavaRequirements.java:182-188 | returns this if and only if cleaning is already off; the result has cleaning off |
| `GithubRequirements.DefaultJavaRequirements.WithContext` | java/src/main/java/com/github/cowwoc/requirements/java/DefaultJavaRequirements.java:204-210 | returns this if and only if the context already maps the name to the value; the result's context maps it |
| `GithubRequirements.DefaultJavaRequirements.PutContext` | java/src/main/java/com/github/cowwoc/requirements/java/DefaultJavaRequirements.java:198-201 | the deprecated `putContext` returns what `withContext` returns |
| `GithubRequirements.DefaultJavaRequirements.WithoutContext` | java/src/main/java/com/github/cowwoc/requirements/java/DefaultJavaRequirements.java:220-226 | returns this if and only if the name has no entry; the result's context lacks the name |
| `GithubRequirements.DefaultJavaRequirements.RemoveContext` | java/src/main/java/com/github/cowwoc/requirements/java/DefaultJavaRequirements.java:214-217 | the deprecated `removeContext` returns what `withoutContext` returns |
| `GithubRequirements.DefaultJavaRequirements.WithAssertionsDisabled` | java/src/main/java/com/github/cowwoc/requirements/java/DefaultJavaRequirements.java:229-235 | returns this if and only if assertions are already disabled; the result has them disabled |
| `GithubRequirements.DefaultJavaRequirements.WithAssertionsEnabled` | java/src/main/java/com/github/cowwoc/requirements/java/DefaultJavaRequirements.java:238-244 | returns this if and only if assertions are already enabled; the result has them enabled |
| `GithubRequirements.DefaultJavaRequirements.WithDiff` | java/src/main/java/com/github/cowwoc/requirements/java/DefaultJavaRequirements.java:253-259 | returns this if and only if diffs are already enabled; the result has them enabled |
| `GithubRequirements.DefaultJavaRequirements.WithoutDiff` | java/src/main/java/com/github/cowwoc/requirements/java/DefaultJavaRequirements.java:262-268 | returns this if and only if diffs are already disabled; the result has them disabled |
| `GithubRequirements.DefaultJavaRequirements.WithStringConverter` | java/src/main/java/com/github/cowwoc/requirements/java/DefaultJavaRequirements.java:277-283 | returns this if and only if that converter is already registered for the type; the result registers it |
| `GithubRequirements.DefaultJavaRequirements.WithoutStringConverter` | java/src/main/java/com/github/cowwoc/requirements/java/DefaultJavaRequirements.java:286-292 | returns this if and only if the type has no converter; the result has none for it |
| `GithubRequirements.DefaultJavaRequirements.WithConfiguration` | java/src/main/java/com/github/cowwoc/requirements/java/DefaultJavaRequirements.java:295-300 | returns this if and only if the configuration equals the current one; the result has the same scope and the given configuration |
| `GithubRequirements.DefaultJavaRequirements.ValidateThat` | java/src/main/java/com/github/cowwoc/requirements/java/DefaultJavaRequirements.java:317-321 | fails if and only if the name is refused; otherwise yields a validator with this scope and configuration and no failures |
| `GithubRequirements.DefaultJavaRequirements.RequireThat` | java/src/main/java/com/github/cowwoc/requirements/java/DefaultJavaRequirements.java:303-306 | fails if and only if the name is refused; otherwise yields a verifier over that validator |
| `GithubRequirements.DefaultJavaRequirements.AssertThat` | java/src/main/java/com/github/cowwoc/requirements/java/DefaultJavaRequirements.java:309-314 | the no-op verifier when assertions are disabled, otherwise exactly `requireThat` |
| `GithubRequirements.RepeatedUpdateReturnsThis` | java/src/main/java/com/github/cowwoc/requirements/java/DefaultJavaRequirements.java:173-292 | repeating any update on the instance it returned returns that same instance |
| `GithubRequirements.QueriesReflectUpdates` | java/src/main/java/com/github/cowwoc/requirements/java/DefaultJavaRequirements.java:161-250 | the queries of an updated instance (assertions, stack trace, diff, context) report the update |
| `GithubRequirements.DisabledAssertionsSkipNameVerification` | java/src/main/java/com/github/cowwoc/requirements/java/DefaultJavaRequirements.java:309-314 | with assertions disabled, `assertThat` accepts even a null name, while `requireThat` raises `NullPointerException` |
| `BitbucketRequirements.DefaultJavaRequirements.constructor` | java/src/main/java/org/bitbucket/cowwoc/requirements/java/DefaultJavaRequirements.java:144-150 | the front-end keeps the given scope and configuration object |
| `BitbucketRequirements.DefaultJavaRequirements.OfScope` | java/src/main/java/org/bitbucket/cowwoc/requirements/java/DefaultJavaRequirements.java:132-137 | a front-end built from a scope holds a new configuration object with the scope's default configuration |
| `BitbucketRequirements.DefaultJavaRequirements.AssertionsAreEnabled` | java/src/main/java/org/bitbucket/cowwoc/requirements/java/DefaultJavaRequirements.java:153-156 | true exactly when enabling assertions would leave the configuration as it is, and false exactly when disabling them would |
| `BitbucketRequirements.DefaultJavaRequirements.IsDiffEnabled` | java/src/main/java/org/bitbucket/cowwoc/requirements/java/DefaultJavaRequirements.java:193-196 | true exactly when enabling diffs would leave the configuration as it is, and false exactly when disabling them would |
| `BitbucketRequirements.DefaultJavaRequirements.GetContext` | java/src/main/java/org/bitbucket/cowwoc/requirements/java/DefaultJavaRequirements.java:159-162 | a name has an entry exactly when removing it would change the configuration, and putting an entry's own value back changes nothing |
| `BitbucketRequirements.DefaultJavaRequirements.PutContext` | java/src/main/java/org/bitbucket/cowwoc/requirements/java/DefaultJavaRequirements.java:165-169 | adds the context entry to the configuration in place and returns this; `getContext` then maps the name to the value, and the other settings are unchanged |
| `BitbucketRequirements.DefaultJavaRequirements.RemoveContext` | java/src/main/java/org/bitbucket/cowwoc/requirements/java/DefaultJavaRequirements.java:172-176 | removes the context entry in place and returns this; `getContext` then lacks the name and is otherwise unchanged |
| `BitbucketRequirements.DefaultJavaRequirements.WithAssertionsDisabled` | java/src/main/java/org/bitbucket/cowwoc/requirements/java/DefaultJavaRequirements.java:179-183 | disables assertions in place and returns this; `assertionsAreEnabled` is then false, and diff and context are unchanged |
| `BitbucketRequirements.DefaultJavaRequirements.WithAssertionsEnabled` | java/src/main/java/org/bitbucket/cowwoc/requirements/java/DefaultJavaRequirements.java:186-190 | enables assertions in place and returns this; `assertionsAreEnabled` is then true, and diff and context are unchanged |
| `BitbucketRequirements.DefaultJavaRequirements.WithDiff` | java/src/main/java/org/bitbucket/cowwoc/requirements/java/DefaultJavaRequirements.java:199-203 | enables diffs in place and returns this; `isDiffEnabled` is then true, and assertions and context are unchanged |
| `BitbucketRequirements.DefaultJavaRequirements.WithoutDiff` | java/src/main/java/org/bitbucket/cowwoc/requirements/java/DefaultJavaRequirements.java:206-210 | disables diffs in place and returns this; `isDiffEnabled` is then false, and assertions and context are unchanged |
| `BitbucketRequirements.DefaultJavaRequirements.WithStringConverter` | java/src/main/java/org/bitbucket/cowwoc/requirements/java/DefaultJavaRequirements.java:219-223 | registers the converter in place and returns this |
| `BitbucketRequirements.DefaultJavaRequirements.WithoutStringConverter` | java/src/main/java/org/bitbucket/cowwoc/requirements/java/DefaultJavaRequirements.java:226-230 | removes the type's converter in place and returns this |
| `BitbucketRequirements.DefaultJavaRequirements.WithConfiguration` | java/src/main/java/org/bitbucket/cowwoc/requirements/java/DefaultJavaRequirements.java:233-238 | returns this when the configurations are equal; otherwise a new instance with the same scope sharing the given configuration object; the receiver is untouched |
| `BitbucketRequirements.DefaultJavaRequirements.ValidateThat` | java/src/main/java/org/bitbucket/cowwoc/requirements/java/DefaultJavaRequirements.java:255-259 | fails if and only if the name is refused, with that exception; otherwise yields a validator with no failures that holds this instance's configuration object itself, and whose current state is the shared `validateThat` result for the current configuration |
| `BitbucketRequirements.DefaultJavaRequirements.RequireThat` | java/src/main/java/org/bitbucket/cowwoc/requirements/java/DefaultJavaRequirements.java:241-244 | fails if and only if the name is refused, with that exception; otherwise yields a verifier over `validateThat`'s validator |
| `BitbucketRequirements.DefaultJavaRequirements.AssertThat` | java/src/main/java/org/bitbucket/cowwoc/requirements/java/DefaultJavaRequirements.java:247-252 | the no-op verifier when assertions are disabled, otherwise exactly `requireThat` |
| `BitbucketRequirements.LatestUpdateWins` | java/src/main/java/org/bitbucket/cowwoc/requirements/java/DefaultJavaRequirements.java:153-196 | after a chain of in-place updates, the queries report the latest value of each setting, and the instance is the same one throughout |
| `BitbucketRequirements.ValidatorSeesLaterUpdates` | java/src/main/java/org/bitbucket/cowwoc/requirements/java/DefaultJavaRequirements.java:255-259 | a validator holds the front-end's configuration object, so an update made through the front-end after `validateThat` is the configuration the validator then has |
| `BitbucketRequirements.NewInstanceSharesConfiguration` | java/src/main/java/org/bitbucket/cowwoc/requirements/java/DefaultJavaRequirements.java:233-238 | the instance `withConfiguration` creates shares the given object: an update through it changes that object, and the receiver's configuration stays as it was |

## Left out

- File and classpath I/O:
  - `Files.createDirectories`, `Files.readString`, `FileWriter` and `getResourceAsStream` are not modelled;
  - the file system is a map from path to contents;
  - `IOException` is not modelled.
- The existence check behind `classLoader.loadClass` is a set of loadable class names passed in as a parameter.
- SLF4J logging is left out, except for the text of `main`'s messages (see Findings).
- JavaParser is left out. Parsing and pretty-printing are inputs of the model: each plugin arrives as its class name, package, imports, methods and extended types, with every node's printed form given as a string.
  - Javadoc's `toComment().toString(defaultFormatter)` is that text.
  - `getRawTypeAsString` and `appendMethodImports` are modelled over those printed forms.
- The parts of the `com.github` generator other than the named builders are not modelled: `writeTo`, the fixed class texts, `appendCopyright`, `appendPackage` and the per-method javadoc texts of the configuration methods. The static delegations are modelled only as their name and target call.
- Long fixed text blocks of the `org.bitbucket` generator are shortened:
  - the verifier and requirements methods that do not depend on `guavaEnabled` are shortened;
  - the guarded blocks, the header, the Guava imports, the verifier field, the constructor parameter and the Multimap methods are kept verbatim;
  - `Files.createDirectories` on the parent directory is not modelled.
- `Configuration`, `ApplicationScope`, `GenericType.from`, `Verifiers.verifyName`, the validator implementation classes and the no-op verifiers are not part of this model. The model defines them as follows:
  - `Configuration` is a record of its settings with pure `withX` updates;
  - a scope is an identity and its default configuration;
  - name verification follows `DefaultJavaVerifier.verifyName`;
  - validators and verifiers are records of what they are built from.
- The entry-point configurations (`configuration()`, `getAssumeThatConfiguration()`, `getAssertThatConfiguration()`, `getCheckIfConfiguration()`) come from the factories' base class, which is not part of this model. They are constructor parameters.
- The many typed overloads of `requireThat`/`assumeThat`/`that`/`checkIf` (one per Java type) are collapsed into one entry point over a value that is an object, a `Class` or a `GenericType`. Only the `Class` overload converts its argument.
- `DefaultJavaValidators`, the interface-only files, `Floats`, `Doubles` and the tests are not modelled. These are lock-based delegation, declarations, floating-point checks and tests of implementations that are not shown.
- `MainApplicationScope` as the default scope is not modelled: the model always takes a scope.
- Thread safety is not modelled.
- Character case conversion covers ASCII letters only. The names the generators capitalize are ASCII.
- `GithubApiGenerator.AppendConfigurationUpdate`: requires a non-empty plugin list, because `plugins.get(0)` throws on an empty one. The generator always passes at least the Java plugin.
- `GithubApiGenerator.DelegateName`: requires a non-empty plugin name when not static, because `charAt(0)` throws; Java class names are never empty.
- `BitbucketRequirements.DefaultJavaRequirements.OfScope`: models the scope's default configuration as a new configuration object; the scope's own object is not modelled.
- `BitbucketRequirements.NewInstanceSharesConfiguration`: states the sharing only for a configuration whose value differs from the receiver's; when they are equal, `withConfiguration` returns the receiver.

## Findings

| source | as written | input that shows it | evidently intended | confidence | as-written member | corrected member |
|---|---|---|---|---|---|---|
| code-generator/src/main/java/org/bitbucket/cowwoc/requirements/generator/ApiGenerator.java:46-55 | `main` logs "{} was up-to-date" when `writeDefaultRequirements`/`writeRequirements` return true, and "Generated {}" when they return false; true means the file was written | a write that updates `R.java` is logged as "R.java was up-to-date" | "Generated" after an update, "was up-to-date" when nothing was written | not executed | `BitbucketApiGenerator.LogMessageAsWrittenIsSwapped` | `BitbucketApiGenerator.LogMessage` |
| code_generator/src/main/java/com/github/cowwoc/requirements/generator/ApiGenerator.java:242-245 | the generated static `DefaultRequirements.withoutDiff()` returns `REQUIREMENTS.copy().withDiff()` | calling the static `withoutDiff()` yields a configuration with diffs enabled | `REQUIREMENTS.copy().withoutDiff()`, like every other static method, which delegates to its own name | not executed | `GithubApiGenerator.WithoutDiffAsWrittenEnablesDiff` | `GithubApiGenerator.StaticDelegationsCorrect` |
