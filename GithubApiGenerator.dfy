/**
 * The com.github code generator: derives the Requirements and DefaultRequirements endpoints from
 * the parsed plugin interfaces (JavaRequirements, and GuavaRequirements when Guava is enabled).
 *
 * The shared StringBuilder `out` is threaded through as a value: each append method takes the
 * buffer's contents and returns them extended. The parsed plugin files are given as values of
 * `Plugin`, and the class loader as the set of class names it can load.
 */
module GithubApiGenerator {
  import opened Wrappers
  import opened JavaStrings
  import opened Configurations

  // ---------------------------------------------------------------------------------------------
  // The parsed plugin interfaces (the parts of a JavaParser CompilationUnit the generator reads)

  /** A type reference: a class or interface type (its simple name and printed form), or anything else. */
  datatype TypeRef = ClassOrInterfaceType(name: string, printed: string) | OtherType(printed: string)

  datatype Parameter = Parameter(typ: TypeRef, name: string)

  datatype MethodDecl = MethodDecl(
    name: string,
    modifiers: seq<string>,
    typeParameters: seq<string>,
    returnType: TypeRef,
    parameters: seq<Parameter>,
    javadoc: Option<string>)

  /** An import declaration: the identifier the import names and its printed line. */
  datatype ImportDecl = ImportDecl(identifier: string, printed: string)

  /** A Java identifier, such as a class name: never empty. */
  type Identifier = s: string | s != [] witness "A"

  /** A plugin's compilation unit, reduced to its package, imports and first type declaration. */
  datatype Plugin = Plugin(
    packageName: Option<string>,
    imports: seq<ImportDecl>,
    className: Identifier,
    methods: seq<MethodDecl>,
    extendedTypes: seq<TypeRef>)

  // ---------------------------------------------------------------------------------------------
  // getPlugins, loadJavaFile

  /** getPlugins(): the enabled plugin names. */
  function PluginNames(guavaEnabled: bool): (r: seq<string>)
    ensures |r| == (if guavaEnabled then 2 else 1)
    ensures r[0] == "java"
    ensures "guava" in r <==> guavaEnabled
  {
    ["java"] + (if guavaEnabled then ["guava"] else [])
  }

  /** p.substring(0, 1).toUpperCase(Locale.US) + p.substring(1). */
  function Capitalize(p: string): (r: string)
    requires p != []
    ensures |r| == |p| && r[0] == ToUpper(p[0]) && r[1..] == p[1..]
  {
    [ToUpper(p[0])] + p[1..]
  }

  /** getPlugins(list): the fully-qualified name of a plugin's interface. */
  function PluginClassName(p: string): (r: string)
    requires p != []
    ensures |r| == |"com.github.cowwoc.requirements."| + 2 * |p| + |".Requirements"|
  {
    "com.github.cowwoc.requirements." + p + "." + Capitalize(p) + "Requirements"
  }

  /** The class lives in package com.github.cowwoc.requirements.p and is named Capitalize(p) + "Requirements". */
  lemma PluginClassNameParts(p: string)
    requires p != []
    ensures var r := PluginClassName(p);
            var pkg := "com.github.cowwoc.requirements." + p;
            |pkg| < |r| && r[..|pkg|] == pkg && r[|pkg|] == '.' &&
            r[|pkg| + 1..] == Capitalize(p) + "Requirements"
  {
    var pkg := "com.github.cowwoc.requirements." + p;
    var r := PluginClassName(p);
    assert r == pkg + ("." + (Capitalize(p) + "Requirements"));
  }

  /** loadJavaFile: the classpath resource that holds the plugin's source. */
  function ResourcePath(fullyQualifiedName: string): (r: string)
    ensures |r| == |fullyQualifiedName| + 6
    ensures r[0] == '/' && r[|r| - 5..] == ".java"
    ensures forall i :: 1 <= i < |r| - 5 ==> r[i] != '.'
  {
    "/" + ReplaceChar(fullyQualifiedName, '.', '/') + ".java"
  }

  /** A dotted name without slashes is recovered from its resource path. */
  lemma ResourcePathInverse(fullyQualifiedName: string)
    requires forall i :: 0 <= i < |fullyQualifiedName| ==> fullyQualifiedName[i] != '/'
    ensures var r := ResourcePath(fullyQualifiedName);
            ReplaceChar(r[1..|r| - 5], '/', '.') == fullyQualifiedName
  {
    var r := ResourcePath(fullyQualifiedName);
    assert r[1..|r| - 5] == ReplaceChar(fullyQualifiedName, '.', '/');
  }

  lemma JavaPluginNames()
    ensures PluginClassName("java") == "com.github.cowwoc.requirements.java.JavaRequirements"
    ensures PluginClassName("guava") == "com.github.cowwoc.requirements.guava.GuavaRequirements"
  {
    JavaPluginName();
    GuavaPluginName();
  }

  lemma JavaPluginName()
    ensures PluginClassName("java") == "com.github.cowwoc.requirements.java.JavaRequirements"
  {
    assert Capitalize("java") == "Java";
  }

  lemma GuavaPluginName()
    ensures PluginClassName("guava") == "com.github.cowwoc.requirements.guava.GuavaRequirements"
  {
    assert Capitalize("guava") == "Guava";
  }

  // ---------------------------------------------------------------------------------------------
  // getDelegateName, createDelegate

  /**
   * getDelegateName: "REQUIREMENTS" for the static DefaultRequirements, otherwise the plugin's
   * name with its first character lower-cased (charAt(0) throws on an empty name).
   */
  function DelegateName(pluginName: string, isStatic: bool): (r: string)
    requires isStatic || pluginName != []
    ensures isStatic ==> r == "REQUIREMENTS"
    ensures !isStatic ==> |r| == |pluginName| && r[0] == ToLower(pluginName[0]) && r[1..] == pluginName[1..]
  {
    if !isStatic then [ToLower(pluginName[0])] + pluginName[1..] else "REQUIREMENTS"
  }

  /** For a plugin named in lower case, the delegate field is the plugin name followed by "Requirements". */
  lemma DelegateNameOfPlugin(p: string)
    requires p != [] && 'a' <= p[0] <= 'z'
    ensures DelegateName(Capitalize(p) + "Requirements", false) == p + "Requirements"
  {
    var n := Capitalize(p) + "Requirements";
    var d := DelegateName(n, false);
    assert d[0] == p[0];
    assert d[1..] == p[1..] + "Requirements";
  }

  /**
   * createDelegate: the statement that initialises the delegate from the plugin's Secrets class.
   * None when the name does not contain "Requirements" (substring(0, -1) throws).
   */
  function CreateDelegate(pluginName: string): (r: Option<string>)
    ensures r.None? <==> !Contains(pluginName, "Requirements")
    ensures r.Some? ==> exists i: nat | i <= |pluginName| ::
      OccursAt(pluginName, "Requirements", i) &&
      (forall j: nat :: j < i ==> !OccursAt(pluginName, "Requirements", j)) &&
      r.value == DelegateInitializer(DelegateName(pluginName, false), pluginName[..i])
  {
    var i := IndexOf(pluginName, "Requirements");
    if i < 0 then None
    else Some(DelegateInitializer(DelegateName(pluginName, false), pluginName[..i]))
  }

  /** The assignment of a delegate field from the Secrets class whose name starts with `secretsPrefix`. */
  function DelegateInitializer(delegateName: string, secretsPrefix: string): string
  {
    "this." + delegateName + " = " + secretsPrefix + "Secrets.INSTANCE.createRequirements(scope);\n"
  }

  /**
   * For a plugin interface named Capitalize(p) + "Requirements" (the first "Requirements" being the
   * suffix), the delegate is initialised from the plugin's Secrets class: JavaSecrets for JavaRequirements.
   */
  lemma CreateDelegateOfPlugin(p: string)
    requires p != [] && 'a' <= p[0] <= 'z'
    requires forall i: nat :: i < |p| ==> !OccursAt(Capitalize(p) + "Requirements", "Requirements", i)
    ensures CreateDelegate(Capitalize(p) + "Requirements") ==
            Some(DelegateInitializer(p + "Requirements", Capitalize(p)))
  {
    var c := Capitalize(p);
    var n := c + "Requirements";
    assert OccursAt(n, "Requirements", |c|) by {
      assert n[|c|..|c| + 12] == "Requirements";
    }
    var i := IndexOf(n, "Requirements");
    assert i == |c|;
    assert n[..i] == c;
    DelegateNameOfPlugin(p);
  }

  // ---------------------------------------------------------------------------------------------
  // appendJavadoc

  /** The comment text with a tab inserted after every newline. */
  function TabAfterNewlines(s: string): string
  {
    if s == [] then [] else (if s[0] == '\n' then "\n\t" else [s[0]]) + TabAfterNewlines(s[1..])
  }

  /** Removes the tab that follows each newline: the inverse of TabAfterNewlines. */
  function Unindent(t: string): string
  {
    if t == [] then []
    else if |t| >= 2 && t[0] == '\n' && t[1] == '\t' then "\n" + Unindent(t[2..])
    else [t[0]] + Unindent(t[1..])
  }

  /** text.delete(length - 1, length) when the text ends with a tab. */
  function DropTrailingTab(t: string): string
  {
    if t != [] && t[|t| - 1] == '\t' then t[..|t| - 1] else t
  }

  /** What appendJavadoc appends for a comment: a tab, the comment re-indented, one trailing tab dropped. */
  function Indented(comment: string): string
  {
    DropTrailingTab("\t" + TabAfterNewlines(comment))
  }

  lemma {:induction false} TabAfterNewlinesAppend(a: string, b: string)
    ensures TabAfterNewlines(a + b) == TabAfterNewlines(a) + TabAfterNewlines(b)
  {
    if a == [] {
      assert a + b == b;
    } else {
      assert (a + b)[0] == a[0];
      assert (a + b)[1..] == a[1..] + b;
      TabAfterNewlinesAppend(a[1..], b);
    }
  }

  lemma {:induction false} TabAfterNewlinesNoNewline(s: string)
    requires forall i :: 0 <= i < |s| ==> s[i] != '\n'
    ensures TabAfterNewlines(s) == s
  {
    if s != [] {
      TabAfterNewlinesNoNewline(s[1..]);
    }
  }

  /** Re-indenting loses nothing: removing the inserted tabs gives the comment back. */
  lemma {:induction false} UnindentTabAfterNewlines(s: string)
    ensures Unindent(TabAfterNewlines(s)) == s
  {
    if s != [] {
      UnindentTabAfterNewlines(s[1..]);
      var rest := TabAfterNewlines(s[1..]);
      if s[0] == '\n' {
        assert TabAfterNewlines(s) == "\n\t" + rest;
        assert ("\n\t" + rest)[2..] == rest;
      } else {
        assert TabAfterNewlines(s) == [s[0]] + rest;
        assert ([s[0]] + rest)[1..] == rest;
      }
    }
  }

  predicate NewlinesFollowedByTab(t: string)
  {
    forall i :: 0 <= i < |t| && t[i] == '\n' ==> i + 1 < |t| && t[i + 1] == '\t'
  }

  /** Every newline of the re-indented text is followed by a tab. */
  lemma {:induction false} NewlinesAreIndented(s: string)
    ensures NewlinesFollowedByTab(TabAfterNewlines(s))
  {
    if s != [] {
      NewlinesAreIndented(s[1..]);
      var rest := TabAfterNewlines(s[1..]);
      var t := TabAfterNewlines(s);
      var h := if s[0] == '\n' then "\n\t" else [s[0]];
      assert t == h + rest;
      forall i | 0 <= i < |t| && t[i] == '\n'
        ensures i + 1 < |t| && t[i + 1] == '\t'
      {
        if i >= |h| {
          var j := i - |h|;
          assert rest[j] == '\n';
          assert j + 1 < |rest| && rest[j + 1] == '\t';
          assert t[i + 1] == rest[j + 1];
        } else {
          assert s[0] == '\n';
          assert i == 0 && t[1] == '\t';
        }
      }
    }
  }

  /** A comment that ends with a newline: its trailing tab is dropped and nothing else. */
  lemma IndentedEndingWithNewline(comment: string)
    requires comment != [] && comment[|comment| - 1] == '\n'
    ensures Indented(comment) == "\t" + TabAfterNewlines(comment[..|comment| - 1]) + "\n"
  {
    var c := comment[..|comment| - 1];
    assert comment == c + "\n";
    TabAfterNewlinesAppend(c, "\n");
  }

  /** A comment without newlines (and not ending in a tab) is only prefixed with a tab. */
  lemma IndentedSingleLine(comment: string)
    requires forall i :: 0 <= i < |comment| ==> comment[i] != '\n'
    requires comment != [] && comment[|comment| - 1] != '\t'
    ensures Indented(comment) == "\t" + comment
  {
    TabAfterNewlinesNoNewline(comment);
  }

  /** StringBuilder.insert(index, c). */
  function Insert(s: string, index: nat, c: char): string
    requires index <= |s|
  {
    s[..index] + [c] + s[index..]
  }

  /**
   * The state of the re-indenting loop: the first k characters of the comment are re-indented,
   * and there is no newline between `index` and the end of that part.
   */
  ghost predicate IndentState(comment: string, k: nat, text: string, index: nat)
  {
    k <= |comment| &&
    text == "\t" + TabAfterNewlines(comment[..k]) + comment[k..] &&
    index <= 1 + |TabAfterNewlines(comment[..k])| &&
    forall j :: index <= j < 1 + |TabAfterNewlines(comment[..k])| ==> text[j] != '\n'
  }

  /** The next newline at or after `index` lies in the part not yet re-indented. */
  lemma IndentNextNewline(comment: string, k: nat, text: string, index: nat, found: nat) returns (m: nat)
    requires IndentState(comment, k, text, index)
    requires index <= found < |text| && text[found] == '\n'
    requires forall j :: index <= j < found ==> text[j] != '\n'
    ensures k + m < |comment| && comment[k + m] == '\n'
    ensures found == 1 + |TabAfterNewlines(comment[..k])| + m
    ensures forall j :: k <= j < k + m ==> comment[j] != '\n'
  {
    var p := 1 + |TabAfterNewlines(comment[..k])|;
    assert found >= p;
    m := found - p;
    assert text[p + m] == comment[k..][m];
    forall j | k <= j < k + m
      ensures comment[j] != '\n'
    {
      assert text[p + j - k] == comment[k..][j - k];
    }
  }

  /** Re-indenting one more line of the comment, up to and including its newline, appends it and a tab. */
  lemma TabAfterNextLine(comment: string, k: nat, m: nat)
    requires k + m < |comment| && comment[k + m] == '\n'
    requires forall j :: k <= j < k + m ==> comment[j] != '\n'
    ensures TabAfterNewlines(comment[..k + m + 1]) == TabAfterNewlines(comment[..k]) + comment[k..k + m] + "\n\t"
  {
    var line := comment[k..k + m];
    TabAfterNewlinesNoNewline(line);
    assert comment[..k + m + 1] == comment[..k] + line + "\n";
    TabAfterNewlinesAppend(comment[..k] + line, "\n");
    TabAfterNewlinesAppend(comment[..k], line);
  }

  /** Inserting a tab after that newline re-indents one more line of the comment. */
  lemma IndentLoopStep(comment: string, k: nat, text: string, index: nat, found: nat) returns (k': nat)
    requires IndentState(comment, k, text, index)
    requires index <= found < |text| && text[found] == '\n'
    requires forall j :: index <= j < found ==> text[j] != '\n'
    ensures k < k' <= |comment|
    ensures IndentState(comment, k', Insert(text, found + 1, '\t'), found + 2)
  {
    var done := TabAfterNewlines(comment[..k]);
    var m := IndentNextNewline(comment, k, text, index, found);
    k' := k + m + 1;
    var line := comment[k..k + m];
    TabAfterNextLine(comment, k, m);
    var done' := TabAfterNewlines(comment[..k']);
    assert |done'| == |done| + m + 2;
    assert comment[k..] == line + "\n" + comment[k'..];
    var head := "\t" + done + line + "\n";
    assert text == head + comment[k'..];
    assert |head| == found + 1;
    assert text[..found + 1] == head && text[found + 1..] == comment[k'..];
    var text' := Insert(text, found + 1, '\t');
    assert text' == head + "\t" + comment[k'..];
    assert head + "\t" == "\t" + done';
    assert found + 2 == 1 + |done'|;
  }

  /** Before the loop nothing is re-indented yet, and the inserted tab is not a newline. */
  lemma IndentLoopStart(comment: string)
    ensures IndentState(comment, 0, Insert(comment, 0, '\t'), 0)
  {
    assert comment[..0] == [] && comment[0..] == comment;
    assert TabAfterNewlines([]) == [];
  }

  /** When no newline is left, the whole comment is re-indented. */
  lemma IndentLoopDone(comment: string, k: nat, text: string, index: nat)
    requires IndentState(comment, k, text, index)
    requires forall j :: index <= j < |text| ==> text[j] != '\n'
    ensures text == "\t" + TabAfterNewlines(comment)
  {
    var done := comment[..k];
    var head := "\t" + TabAfterNewlines(done);
    var rest := comment[k..];
    NoNewlineInSuffix(text, head, rest, index);
    TabAfterNewlinesUpToLastLine(done, rest);
    assert done + rest == comment;
  }

  /** A part of the text after `index` holds no newline either. */
  lemma NoNewlineInSuffix(text: string, head: string, rest: string, index: nat)
    requires text == head + rest && index <= |head|
    requires forall j :: index <= j < |text| ==> text[j] != '\n'
    ensures forall j :: 0 <= j < |rest| ==> rest[j] != '\n'
  {
    forall j | 0 <= j < |rest|
      ensures rest[j] != '\n'
    {
      assert text[|head| + j] == rest[j];
    }
  }

  /** The last line, which has no newline, is re-indented unchanged. */
  lemma TabAfterNewlinesUpToLastLine(done: string, rest: string)
    requires forall j :: 0 <= j < |rest| ==> rest[j] != '\n'
    ensures "\t" + TabAfterNewlines(done + rest) == "\t" + TabAfterNewlines(done) + rest
  {
    TabAfterNewlinesNoNewline(rest);
    TabAfterNewlinesAppend(done, rest);
  }

  /** The re-indenting loop of appendJavadoc, on the formatted comment. */
  method IndentJavadoc(comment: string) returns (text: string)
    ensures text == Indented(comment)
  {
    text := Insert(comment, 0, '\t');
    var index: nat := 0;
    ghost var k: nat := 0;
    IndentLoopStart(comment);
    while true
      invariant IndentState(comment, k, text, index)
      decreases |text| - index
    {
      var found := IndexOfCharFrom(text, '\n', index);
      if found == -1 {
        IndentLoopDone(comment, k, text, index);
        break;
      }
      k := IndentLoopStep(comment, k, text, index, found);
      index := found + 1;
      text := Insert(text, index, '\t');
      index := index + 1;
    }
    if text != [] && text[|text| - 1] == '\t' {
      text := text[..|text| - 1];
    }
  }

  /** appendJavadoc: appends the re-indented comment if the method has one. */
  method AppendJavadoc(m: MethodDecl, out: string) returns (r: string)
    ensures m.javadoc.None? ==> r == out
    ensures m.javadoc.Some? ==> r == out + Indented(m.javadoc.value)
  {
    r := out;
    if m.javadoc.Some? {
      var text := IndentJavadoc(m.javadoc.value);
      r := r + text;
    }
  }

  // ---------------------------------------------------------------------------------------------
  // appendPluginMethods

  /** Only these plugin methods are forwarded to a delegate. */
  predicate IsForwarded(methodName: string)
  {
    methodName == "requireThat" || methodName == "validateThat"
  }

  /** Modifier addition, which keeps a keyword that is already present only once. */
  function AddModifier(modifiers: seq<string>, keyword: string): seq<string>
  {
    if keyword in modifiers then modifiers else modifiers + [keyword]
  }

  /** The keyword is present afterwards, and the modifiers are the old ones plus at most the keyword. */
  lemma AddModifierContents(modifiers: seq<string>, keyword: string)
    ensures var r := AddModifier(modifiers, keyword);
            keyword in r &&
            (forall k :: k in modifiers ==> k in r) &&
            (forall k :: k in r ==> k in modifiers || k == keyword)
  {
    if keyword !in modifiers {
      var r := modifiers + [keyword];
      assert r[|modifiers|] == keyword;
      assert forall k :: k in r <==> k in modifiers || k == keyword;
    }
  }

  /** The forwarding method's modifiers: the plugin's, then public, then static for DefaultRequirements. */
  function ForwardingModifiers(m: MethodDecl, isStatic: bool): seq<string>
  {
    var withPublic := AddModifier(m.modifiers, "public");
    if isStatic then AddModifier(withPublic, "static") else withPublic
  }

  function ParameterStrings(parameters: seq<Parameter>): (r: seq<string>)
    ensures |r| == |parameters|
    ensures forall i :: 0 <= i < |r| ==> r[i] == parameters[i].typ.printed + " " + parameters[i].name
  {
    if parameters == [] then []
    else [parameters[0].typ.printed + " " + parameters[0].name] + ParameterStrings(parameters[1..])
  }

  /** The type-parameter list: "<T, U> ", or "" when there are none. */
  function TypeParameterList(typeParameters: seq<string>): (r: string)
    ensures typeParameters == [] <==> r == []
  {
    if typeParameters == [] then ""
    else JoinedAffixes(typeParameters, ", ", "<", "> "); Joined(typeParameters, ", ", "<", "> ")
  }

  /** The body of a forwarding method: it calls the same method on the delegate. */
  function ForwardingBody(m: MethodDecl, delegateName: string): string
  {
    "\t{\n" + "\t\treturn " + delegateName + "." + m.name + "(actual, name);\n" + "\t}\n"
  }

  /**
   * What appendPluginMethods(method, ...) appends: nothing for a method that is not forwarded;
   * otherwise javadoc (static) or @Override, @CheckReturnValue, the signature and the forwarding body.
   */
  function ForwardingMethod(m: MethodDecl, isStatic: bool, delegateName: string): string
  {
    if !IsForwarded(m.name) then ""
    else "\n" + Annotations(m, isStatic) + Signature(m, isStatic) + "\n" + ForwardingBody(m, delegateName)
  }

  /**
   * Only requireThat and validateThat produce text; that text starts on a new line and ends with
   * the call on the delegate.
   */
  lemma ForwardingMethodShape(m: MethodDecl, isStatic: bool, delegateName: string)
    ensures var r := ForwardingMethod(m, isStatic, delegateName);
            var body := ForwardingBody(m, delegateName);
            (r == [] <==> !IsForwarded(m.name)) &&
            (IsForwarded(m.name) ==> r[0] == '\n' && |body| < |r| && r[|r| - |body|..] == body)
  {
    if IsForwarded(m.name) {
      var head := "\n" + Annotations(m, isStatic) + Signature(m, isStatic) + "\n";
      var body := ForwardingBody(m, delegateName);
      assert ForwardingMethod(m, isStatic, delegateName) == head + body;
      assert (head + body)[0] == head[0];
      assert (head + body)[|head|..] == body;
    }
  }

  /** The javadoc (DefaultRequirements) or @Override (Requirements), then @CheckReturnValue. */
  function Annotations(m: MethodDecl, isStatic: bool): string
  {
    (if !isStatic then "\t@Override\n" else if m.javadoc.Some? then Indented(m.javadoc.value) else "") +
    "\t@CheckReturnValue\n"
  }

  /** The declaration line: modifiers, type parameters, return type, name and parameter list. */
  function Signature(m: MethodDecl, isStatic: bool): string
  {
    "\t" + Joined(ForwardingModifiers(m, isStatic), " ", "", " ") +
    TypeParameterList(m.typeParameters) + m.returnType.printed + " " + m.name +
    Joined(ParameterStrings(m.parameters), ", ", "(", ")")
  }

  /** The signature line of a forwarded method declares it public, and static exactly in DefaultRequirements. */
  lemma ForwardingModifiersPublic(m: MethodDecl, isStatic: bool)
    ensures "public" in ForwardingModifiers(m, isStatic)
    ensures isStatic ==> "static" in ForwardingModifiers(m, isStatic)
    ensures !isStatic ==> ("static" in ForwardingModifiers(m, isStatic) <==> "static" in m.modifiers)
  {
    AddModifierContents(m.modifiers, "public");
    AddModifierContents(AddModifier(m.modifiers, "public"), "static");
  }

  /** The text appended for each method of one plugin, in declaration order. */
  function ForwardingMethods(methods: seq<MethodDecl>, isStatic: bool, delegateName: string): seq<string>
  {
    seq(|methods|, i requires 0 <= i < |methods| => ForwardingMethod(methods[i], isStatic, delegateName))
  }

  /** The text appended for one plugin: its methods, forwarded to the plugin's delegate. */
  function PluginForwardingText(plugin: Plugin, isStatic: bool): string
  {
    Concat(ForwardingMethods(plugin.methods, isStatic, DelegateName(plugin.className, isStatic)))
  }

  /** The text appended for each plugin, in plugin order. */
  function PluginsForwardingMethods(plugins: seq<Plugin>, isStatic: bool): seq<string>
  {
    seq(|plugins|, i requires 0 <= i < |plugins| => PluginForwardingText(plugins[i], isStatic))
  }

  /** Methods that are not forwarded contribute nothing. */
  lemma {:induction false} UnforwardedMethodsAddNothing(texts: seq<string>, methods: seq<MethodDecl>, isStatic: bool, delegateName: string)
    requires texts == ForwardingMethods(methods, isStatic, delegateName)
    requires forall i :: 0 <= i < |methods| ==> !IsForwarded(methods[i].name)
    ensures Concat(texts) == []
  {
    if methods != [] {
      UnforwardedMethodsAddNothing(texts[1..], methods[1..], isStatic, delegateName);
    }
  }

  lemma ContainsMiddle(pre: string, sub: string, post: string)
    ensures Contains(pre + sub + post, sub)
  {
    var s := pre + sub + post;
    assert OccursAt(s, sub, |pre|);
  }

  /** A text laid out as new line, lead, check, signature, new line and body holds both check and signature. */
  lemma LayoutContains(lead: string, check: string, sig: string, body: string)
    ensures var r := "\n" + (lead + check) + sig + "\n" + body;
            Contains(r, check) && Contains(r, sig)
  {
    var r := "\n" + (lead + check) + sig + "\n" + body;
    assert r == ("\n" + lead) + check + (sig + "\n" + body);
    ContainsMiddle("\n" + lead, check, sig + "\n" + body);
    assert r == ("\n" + (lead + check)) + sig + ("\n" + body);
    ContainsMiddle("\n" + (lead + check), sig, "\n" + body);
  }

  /** A forwarded method's text carries @CheckReturnValue and then its signature line. */
  lemma ForwardingMethodParts(m: MethodDecl, isStatic: bool, delegateName: string)
    requires IsForwarded(m.name)
    ensures var r := ForwardingMethod(m, isStatic, delegateName);
            Contains(r, "\t@CheckReturnValue\n") && Contains(r, Signature(m, isStatic))
  {
    var lead := if !isStatic then "\t@Override\n" else if m.javadoc.Some? then Indented(m.javadoc.value) else "";
    assert Annotations(m, isStatic) == lead + "\t@CheckReturnValue\n";
    LayoutContains(lead, "\t@CheckReturnValue\n", Signature(m, isStatic), ForwardingBody(m, delegateName));
  }

  /**
   * appendPluginMethods(method, ...): appends nothing unless the method is requireThat or validateThat;
   * otherwise a new line, @CheckReturnValue, the public (and, in DefaultRequirements, static) signature
   * and a body that ends with the call on the delegate.
   */
  method AppendForwardingMethod(m: MethodDecl, isStatic: bool, delegateName: string, out: string) returns (r: string)
    ensures |out| <= |r| && r[..|out|] == out
    ensures !IsForwarded(m.name) <==> r == out
    ensures IsForwarded(m.name) ==>
              var t := r[|out|..];
              var body := ForwardingBody(m, delegateName);
              t[0] == '\n' && Contains(t, "\t@CheckReturnValue\n") && Contains(t, Signature(m, isStatic)) &&
              |body| < |t| && t[|t| - |body|..] == body
    ensures "public" in ForwardingModifiers(m, isStatic)
    ensures "static" in ForwardingModifiers(m, isStatic) <==> isStatic || "static" in m.modifiers
    ensures r == out + ForwardingMethod(m, isStatic, delegateName)
  {
    var text := ForwardingMethod(m, isStatic, delegateName);
    ForwardingMethodShape(m, isStatic, delegateName);
    ForwardingModifiersPublic(m, isStatic);
    if IsForwarded(m.name) {
      ForwardingMethodParts(m, isStatic, delegateName);
    }
    r := out + text;
    assert r[..|out|] == out && r[|out|..] == text;
  }

  lemma AppendStep(out: string, r: string, texts: seq<string>, j: nat)
    requires j < |texts| && r == out + Concat(texts[..j])
    ensures r + texts[j] == out + Concat(texts[..j + 1])
  {
    ConcatStep(out, texts[..j], texts[j]);
    assert texts[..j + 1] == texts[..j] + [texts[j]];
  }

  /** The inner loop of appendPluginMethods(plugins, isStatic, out): one plugin's methods. */
  method AppendMethods(methods: seq<MethodDecl>, isStatic: bool, delegateName: string, out: string) returns (r: string)
    ensures r == out + Concat(ForwardingMethods(methods, isStatic, delegateName))
  {
    ghost var texts := ForwardingMethods(methods, isStatic, delegateName);
    r := out;
    assert texts[..0] == [];
    for j := 0 to |methods|
      invariant r == out + Concat(texts[..j])
    {
      AppendStep(out, r, texts, j);
      r := AppendForwardingMethod(methods[j], isStatic, delegateName, r);
    }
    assert texts[..|methods|] == texts;
  }

  /** appendPluginMethods(plugins, isStatic, out): the loop over plugins and their methods. */
  method AppendPluginMethods(plugins: seq<Plugin>, isStatic: bool, out: string) returns (r: string)
    ensures r == out + Concat(PluginsForwardingMethods(plugins, isStatic))
  {
    ghost var texts := PluginsForwardingMethods(plugins, isStatic);
    r := out;
    assert texts[..0] == [];
    for i := 0 to |plugins|
      invariant r == out + Concat(texts[..i])
    {
      var plugin := plugins[i];
      var delegateName := DelegateName(plugin.className, isStatic);
      AppendStep(out, r, texts, i);
      r := AppendMethods(plugin.methods, isStatic, delegateName, r);
    }
    assert texts[..|plugins|] == texts;
  }

  // ---------------------------------------------------------------------------------------------
  // Imports: getRawTypeAsString, getFullyQualifiedTypeToImport, appendPluginImports, appendImports

  /** getRawTypeAsString: the simple name of a class or interface type, the printed form otherwise. */
  function RawTypeName(t: TypeRef): (r: string)
    ensures t.ClassOrInterfaceType? ==> r == t.name
    ensures t.OtherType? ==> r == t.printed
  {
    if t.ClassOrInterfaceType? then t.name else t.printed
  }

  /**
   * getFullyQualifiedTypeToImport: "" for void and primitive types, the name itself when it is
   * already qualified, the name in the plugin's package when the class loader finds it there, and
   * "" otherwise (a java.lang type).
   */
  function FullyQualifiedTypeToImport(t: TypeRef, classPackage: string, loadable: set<string>): (r: string)
    ensures t.OtherType? ==> r == []
    ensures r != [] ==> (t.ClassOrInterfaceType? &&
      (r == t.name || (r == classPackage + "." + t.name && r in loadable)))
    ensures t.ClassOrInterfaceType? && Contains(t.name, ".") ==> r == t.name
    ensures t.ClassOrInterfaceType? && !Contains(t.name, ".") ==>
      (r == [] <==> classPackage + "." + t.name !in loadable)
  {
    if !t.ClassOrInterfaceType? then ""
    else if Contains(t.name, ".") then t.name
    else if classPackage + "." + t.name in loadable then classPackage + "." + t.name
    else ""
  }

  /** The import line for a fully-qualified name, or nothing when no import is needed. */
  function ImportLine(fullyQualifiedType: string): string
  {
    if fullyQualifiedType == [] then "" else "import " + fullyQualifiedType + ";\n"
  }

  /** One importedTypes.add(key) that, when it returns true, appends `line`. */
  datatype Candidate = Candidate(key: string, line: string)

  function TypeCandidate(t: TypeRef, classPackage: string, loadable: set<string>): Candidate
  {
    Candidate(RawTypeName(t), ImportLine(FullyQualifiedTypeToImport(t, classPackage, loadable)))
  }

  function ParameterCandidates(parameters: seq<Parameter>, classPackage: string, loadable: set<string>): (r: seq<Candidate>)
    ensures |r| == |parameters|
  {
    if parameters == [] then []
    else [TypeCandidate(parameters[0].typ, classPackage, loadable)] +
         ParameterCandidates(parameters[1..], classPackage, loadable)
  }

  /** appendMethodImports: each parameter type, then the return type. */
  function MethodCandidates(methods: seq<MethodDecl>, classPackage: string, loadable: set<string>): seq<Candidate>
  {
    if methods == [] then []
    else ParameterCandidates(methods[0].parameters, classPackage, loadable) +
         [TypeCandidate(methods[0].returnType, classPackage, loadable)] +
         MethodCandidates(methods[1..], classPackage, loadable)
  }

  function ImportDeclCandidates(imports: seq<ImportDecl>): (r: seq<Candidate>)
    ensures |r| == |imports|
    ensures forall i :: 0 <= i < |r| ==> r[i] == Candidate(imports[i].identifier, imports[i].printed)
  {
    if imports == [] then [] else [Candidate(imports[0].identifier, imports[0].printed)] + ImportDeclCandidates(imports[1..])
  }

  function ExtendedTypeCandidates(types: seq<TypeRef>, classPackage: string, loadable: set<string>): (r: seq<Candidate>)
    ensures |r| == |types|
  {
    if types == [] then [] else [TypeCandidate(types[0], classPackage, loadable)] +
                                ExtendedTypeCandidates(types[1..], classPackage, loadable)
  }

  function ClassPackage(plugin: Plugin): string
  {
    if plugin.packageName.Some? then plugin.packageName.value else ""
  }

  /** The key a type is de-duplicated under is the simple name that ends the name it imports. */
  lemma ImportEndsWithRawTypeName(t: TypeRef, classPackage: string, loadable: set<string>)
    ensures var q := FullyQualifiedTypeToImport(t, classPackage, loadable);
            var n := RawTypeName(t);
            q != [] ==> |n| <= |q| && q[|q| - |n|..] == n
  {
    var q := FullyQualifiedTypeToImport(t, classPackage, loadable);
    if q != [] && q != t.name {
      assert q == (classPackage + ".") + t.name;
    }
  }

  /**
   * appendPluginImports, as the sequence of set additions it performs: the plugin's own imports,
   * the types its methods use, its default implementation (Requirements only) and its supertypes.
   */
  function PluginImportCandidates(plugin: Plugin, isDefaultRequirements: bool, loadable: set<string>): seq<Candidate>
  {
    var pkg := ClassPackage(plugin);
    var defaultImplementation := "Default" + plugin.className;
    ImportDeclCandidates(plugin.imports) +
    MethodCandidates(plugin.methods, pkg, loadable) +
    (if isDefaultRequirements then []
     else [Candidate(defaultImplementation, "import " + pkg + "." + defaultImplementation + ";\n")]) +
    ExtendedTypeCandidates(plugin.extendedTypes, pkg, loadable)
  }

  function AllImportCandidates(plugins: seq<Plugin>, isDefaultRequirements: bool, loadable: set<string>): seq<Candidate>
  {
    if plugins == [] then []
    else PluginImportCandidates(plugins[0], isDefaultRequirements, loadable) +
         AllImportCandidates(plugins[1..], isDefaultRequirements, loadable)
  }

  function Keys(cands: seq<Candidate>): set<string>
  {
    set c | c in cands :: c.key
  }

  /** The candidates whose add() returns true: the first one of each key that is not already in `seen`. */
  function FirstOccurrences(cands: seq<Candidate>, seen: set<string>): seq<Candidate>
  {
    if cands == [] then []
    else if cands[0].key in seen then FirstOccurrences(cands[1..], seen)
    else [cands[0]] + FirstOccurrences(cands[1..], seen + {cands[0].key})
  }

  function Lines(cands: seq<Candidate>): string
  {
    if cands == [] then [] else cands[0].line + Lines(cands[1..])
  }

  lemma {:induction false} LinesAppend(a: seq<Candidate>, b: seq<Candidate>)
    ensures Lines(a + b) == Lines(a) + Lines(b)
  {
    if a == [] {
      assert a + b == b;
    } else {
      assert (a + b)[0] == a[0];
      assert (a + b)[1..] == a[1..] + b;
      LinesAppend(a[1..], b);
    }
  }

  lemma {:induction false} FirstOccurrencesAppend(a: seq<Candidate>, b: seq<Candidate>, seen: set<string>)
    ensures FirstOccurrences(a + b, seen) == FirstOccurrences(a, seen) + FirstOccurrences(b, seen + Keys(a))
  {
    if a == [] {
      assert a + b == b;
      assert Keys(a) == {};
      assert seen + Keys(a) == seen;
    } else {
      assert (a + b)[0] == a[0];
      assert (a + b)[1..] == a[1..] + b;
      assert Keys(a) == {a[0].key} + Keys(a[1..]) by {
        assert forall c :: c in a <==> c == a[0] || c in a[1..];
      }
      if a[0].key in seen {
        FirstOccurrencesAppend(a[1..], b, seen);
        assert seen + Keys(a[1..]) == seen + Keys(a);
      } else {
        FirstOccurrencesAppend(a[1..], b, seen + {a[0].key});
        assert seen + {a[0].key} + Keys(a[1..]) == seen + Keys(a);
      }
    }
  }

  /** Every emitted candidate is one of the candidates, and its key was not already imported. */
  lemma {:induction false} FirstOccurrencesFresh(cands: seq<Candidate>, seen: set<string>)
    ensures forall c :: c in FirstOccurrences(cands, seen) ==> c.key !in seen && c in cands
  {
    if cands != [] {
      var rest := cands[1..];
      assert forall c :: c in rest ==> c in cands;
      if cands[0].key in seen {
        FirstOccurrencesFresh(rest, seen);
        assert FirstOccurrences(cands, seen) == FirstOccurrences(rest, seen);
      } else {
        var seen' := seen + {cands[0].key};
        FirstOccurrencesFresh(rest, seen');
        var f' := FirstOccurrences(rest, seen');
        var f := [cands[0]] + f';
        assert FirstOccurrences(cands, seen) == f;
        assert forall c :: c in f ==> c == cands[0] || c in f';
      }
    }
  }

  /** No two candidates share a key. */
  predicate DistinctKeys(f: seq<Candidate>)
  {
    forall i, j :: 0 <= i < j < |f| ==> f[i].key != f[j].key
  }

  /** No key is emitted twice. */
  lemma {:induction false} FirstOccurrencesDistinct(cands: seq<Candidate>, seen: set<string>)
    ensures DistinctKeys(FirstOccurrences(cands, seen))
  {
    if cands != [] {
      var rest := cands[1..];
      if cands[0].key in seen {
        FirstOccurrencesDistinct(rest, seen);
        assert FirstOccurrences(cands, seen) == FirstOccurrences(rest, seen);
      } else {
        var seen' := seen + {cands[0].key};
        FirstOccurrencesDistinct(rest, seen');
        FirstOccurrencesFresh(rest, seen');
        var f' := FirstOccurrences(rest, seen');
        var f := [cands[0]] + f';
        assert FirstOccurrences(cands, seen) == f;
        forall i, j | 0 <= i < j < |f|
          ensures f[i].key != f[j].key
        {
          assert f[j] == f'[j - 1] && f[j] in f';
          if i > 0 {
            assert f[i] == f'[i - 1];
          }
        }
      }
    }
  }

  /** Every candidate's key was imported before or is emitted. */
  lemma {:induction false} FirstOccurrencesCover(cands: seq<Candidate>, seen: set<string>)
    ensures forall c :: c in cands ==> c.key in seen || c.key in Keys(FirstOccurrences(cands, seen))
  {
    if cands != [] {
      var c0 := cands[0];
      var rest := cands[1..];
      assert forall c :: c in cands ==> c == c0 || c in rest;
      if c0.key in seen {
        FirstOccurrencesCover(rest, seen);
        assert FirstOccurrences(cands, seen) == FirstOccurrences(rest, seen);
      } else {
        var seen' := seen + {c0.key};
        FirstOccurrencesCover(rest, seen');
        var f' := FirstOccurrences(rest, seen');
        var f := [c0] + f';
        assert FirstOccurrences(cands, seen) == f;
        assert c0 in f;
        assert forall c :: c in f' ==> c in f;
      }
    }
  }

  /** The add-and-append loop over candidates; `seen` is the shared importedTypes set. */
  method EmitImports(cands: seq<Candidate>, seen: set<string>) returns (seen': set<string>, r: string)
    ensures seen' == seen + Keys(cands)
    ensures r == Lines(FirstOccurrences(cands, seen))
  {
    seen' := seen;
    r := "";
    for i := 0 to |cands|
      invariant seen' == seen + Keys(cands[..i])
      invariant r == Lines(FirstOccurrences(cands[..i], seen))
    {
      var c := cands[i];
      EmitOne(cands, i, seen, seen');
      if c.key !in seen' {
        seen' := seen' + {c.key};
        r := r + c.line;
      }
    }
    assert cands[..|cands|] == cands;
  }

  /** One importedTypes.add(key): the line is emitted exactly when the key is new. */
  lemma EmitOne(cands: seq<Candidate>, i: nat, seen: set<string>, seen': set<string>)
    requires i < |cands| && seen' == seen + Keys(cands[..i])
    ensures var c := cands[i];
            var before := Lines(FirstOccurrences(cands[..i], seen));
            var after := Lines(FirstOccurrences(cands[..i + 1], seen));
            Keys(cands[..i + 1]) == Keys(cands[..i]) + {c.key} &&
            (c.key in seen' ==> after == before) &&
            (c.key !in seen' ==> after == before + c.line)
  {
    var c := cands[i];
    FirstOccurrencesAppend(cands[..i], [c], seen);
    var fc := FirstOccurrences([c], seen');
    assert fc == (if c.key in seen' then [] else [c]) by {
      assert [c][1..] == [];
    }
    LinesAppend(FirstOccurrences(cands[..i], seen), fc);
    assert Lines([c]) == c.line + Lines([]) by {
      assert [c][1..] == [];
    }
    assert cands[..i + 1] == cands[..i] + [c];
    assert Keys(cands[..i + 1]) == Keys(cands[..i]) + {c.key} by {
      assert forall x :: x in cands[..i + 1] <==> x in cands[..i] || x == c;
    }
  }

  const ConsumerImport: string := "import java.util.function.Consumer;\n"
  const CheckReturnValueImport: string := "import com.github.cowwoc.requirements.annotation.CheckReturnValue;\n"
  const ThreadRequirementsImport: string := "import com.github.cowwoc.requirements.java.ThreadRequirements;\n"
  const ScopeImports: string :=
    "import com.github.cowwoc.requirements.java.internal.scope.ApplicationScope;\n" +
    "import com.github.cowwoc.requirements.java.internal.secrets.JavaSecrets;\n" +
    "import com.github.cowwoc.requirements.guava.internal.secrets.GuavaSecrets;\n"

  /** appendImports: the fixed imports around every plugin's de-duplicated imports. */
  function ImportsText(plugins: seq<Plugin>, isDefaultRequirements: bool, exportScope: bool, loadable: set<string>): string
  {
    ConsumerImport +
    Lines(FirstOccurrences(AllImportCandidates(plugins, isDefaultRequirements, loadable), {})) +
    CheckReturnValueImport +
    (if isDefaultRequirements then ThreadRequirementsImport else if exportScope then ScopeImports else "")
  }

  lemma {:induction false} AllImportCandidatesAppend(a: seq<Plugin>, b: seq<Plugin>, isDefault: bool, loadable: set<string>)
    ensures AllImportCandidates(a + b, isDefault, loadable) ==
            AllImportCandidates(a, isDefault, loadable) + AllImportCandidates(b, isDefault, loadable)
  {
    if a == [] {
      assert a + b == b;
    } else {
      assert (a + b)[0] == a[0];
      assert (a + b)[1..] == a[1..] + b;
      AllImportCandidatesAppend(a[1..], b, isDefault, loadable);
    }
  }

  /** The candidates of the first i + 1 plugins extend those of the first i by plugin i's. */
  lemma AllImportCandidatesStep(plugins: seq<Plugin>, i: nat, isDefault: bool, loadable: set<string>)
    requires i < |plugins|
    ensures AllImportCandidates(plugins[..i + 1], isDefault, loadable) ==
            AllImportCandidates(plugins[..i], isDefault, loadable) + PluginImportCandidates(plugins[i], isDefault, loadable)
  {
    AllImportCandidatesSingleton(plugins[i], isDefault, loadable);
    AllImportCandidatesAppend(plugins[..i], [plugins[i]], isDefault, loadable);
    assert plugins[..i + 1] == plugins[..i] + [plugins[i]];
  }

  lemma AllImportCandidatesSingleton(p: Plugin, isDefault: bool, loadable: set<string>)
    ensures AllImportCandidates([p], isDefault, loadable) == PluginImportCandidates(p, isDefault, loadable)
  {
    assert [p][1..] == [];
  }

  /** Emitting `more` after `done` with the keys of `done` recorded is emitting `done + more`. */
  lemma EmitStep(done: seq<Candidate>, more: seq<Candidate>)
    ensures Lines(FirstOccurrences(done + more, {})) ==
            Lines(FirstOccurrences(done, {})) + Lines(FirstOccurrences(more, Keys(done)))
    ensures Keys(done + more) == Keys(done) + Keys(more)
  {
    FirstOccurrencesAppend(done, more, {});
    assert {} + Keys(done) == Keys(done);
    LinesAppend(FirstOccurrences(done, {}), FirstOccurrences(more, Keys(done)));
    assert forall x :: x in done + more <==> x in done || x in more;
  }

  /** One iteration of the loop over plugins: plugin i's candidates, filtered by the keys already seen. */
  lemma ImportLoopStep(plugins: seq<Plugin>, i: nat, isDefault: bool, loadable: set<string>,
                       done: seq<Candidate>, cands: seq<Candidate>)
    requires i < |plugins|
    requires done == AllImportCandidates(plugins[..i], isDefault, loadable)
    requires cands == PluginImportCandidates(plugins[i], isDefault, loadable)
    ensures done + cands == AllImportCandidates(plugins[..i + 1], isDefault, loadable)
    ensures Lines(FirstOccurrences(done + cands, {})) ==
            Lines(FirstOccurrences(done, {})) + Lines(FirstOccurrences(cands, Keys(done)))
    ensures Keys(done + cands) == Keys(done) + Keys(cands)
  {
    AllImportCandidatesStep(plugins, i, isDefault, loadable);
    EmitStep(done, cands);
  }

  /** The loop of appendImports: every plugin's imports, skipping keys an earlier plugin emitted. */
  method AppendPluginImports(plugins: seq<Plugin>, isDefaultRequirements: bool, loadable: set<string>)
    returns (r: string)
    ensures r == Lines(FirstOccurrences(AllImportCandidates(plugins, isDefaultRequirements, loadable), {}))
  {
    r := "";
    var importedTypes: set<string> := {};
    ghost var done: seq<Candidate> := [];
    assert plugins[..0] == [];
    for i := 0 to |plugins|
      invariant done == AllImportCandidates(plugins[..i], isDefaultRequirements, loadable)
      invariant importedTypes == Keys(done)
      invariant r == Lines(FirstOccurrences(done, {}))
    {
      var cands := PluginImportCandidates(plugins[i], isDefaultRequirements, loadable);
      ImportLoopStep(plugins, i, isDefaultRequirements, loadable, done, cands);
      var lines;
      importedTypes, lines := EmitImports(cands, importedTypes);
      r := r + lines;
      done := done + cands;
    }
    assert plugins[..|plugins|] == plugins;
  }

  /** appendImports(plugins, isDefaultRequirements, out): the fixed imports around the plugins' own. */
  method AppendImports(plugins: seq<Plugin>, isDefaultRequirements: bool, exportScope: bool,
                       loadable: set<string>, out: string) returns (r: string)
    ensures r == out + ImportsText(plugins, isDefaultRequirements, exportScope, loadable)
  {
    var imports := AppendPluginImports(plugins, isDefaultRequirements, loadable);
    var scopeImports := if isDefaultRequirements then ThreadRequirementsImport else if exportScope then ScopeImports else "";
    r := out + (ConsumerImport + imports + CheckReturnValueImport + scopeImports);
  }

  /** Each import key is emitted at most once across all plugins. */
  lemma ImportsEmittedOnce(plugins: seq<Plugin>, isDefaultRequirements: bool, loadable: set<string>)
    ensures var cands := AllImportCandidates(plugins, isDefaultRequirements, loadable);
            var f := FirstOccurrences(cands, {});
            DistinctKeys(f) &&
            (forall c :: c in f ==> c in cands) &&
            (forall c :: c in cands ==> c.key in Keys(f))
  {
    var cands := AllImportCandidates(plugins, isDefaultRequirements, loadable);
    FirstOccurrencesDistinct(cands, {});
    FirstOccurrencesFresh(cands, {});
    FirstOccurrencesCover(cands, {});
  }

  // ---------------------------------------------------------------------------------------------
  // appendConfigurationUpdate

  /** The line that applies `change` to the delegate of the plugin interface `pluginName`. */
  function UpdateLine(pluginName: Identifier, change: string): string
  {
    "\t\t" + DelegateName(pluginName, false) + "." + change + ";\n"
  }

  /** One update line per plugin, in plugin order. */
  function UpdateLines(pluginNames: seq<Identifier>, change: string): seq<string>
  {
    seq(|pluginNames|, i requires 0 <= i < |pluginNames| => UpdateLine(pluginNames[i], change))
  }

  /**
   * appendConfigurationUpdate: the first plugin's line, then one line per remaining plugin, then
   * "return this". plugins.get(0) throws on an empty list, hence the precondition.
   */
  method AppendConfigurationUpdate(pluginNames: seq<Identifier>, change: string, out: string) returns (r: string)
    requires |pluginNames| > 0
    ensures r == out + Concat(UpdateLines(pluginNames, change)) + "\t\treturn this;\n"
  {
    ghost var lines := UpdateLines(pluginNames, change);
    var text := UpdateLine(pluginNames[0], change);
    assert lines[..1] == [lines[0]] && Concat([lines[0]]) == lines[0] + Concat([]);
    var rest := pluginNames[1..];
    for i := 0 to |rest|
      invariant text == Concat(lines[..i + 1])
    {
      UpdateLinesStep(lines, i + 1);
      text := text + UpdateLine(rest[i], change);
    }
    assert lines[..|rest| + 1] == lines;
    r := out + text + "\t\treturn this;\n";
  }

  /** Appending line j extends the concatenation of the lines before it. */
  lemma UpdateLinesStep(lines: seq<string>, j: nat)
    requires j < |lines|
    ensures Concat(lines[..j]) + lines[j] == Concat(lines[..j + 1])
  {
    ConcatAppend(lines[..j], [lines[j]]);
    assert lines[..j + 1] == lines[..j] + [lines[j]];
    assert Concat([lines[j]]) == lines[j] + Concat([]);
  }

  // ---------------------------------------------------------------------------------------------
  // The static configuration methods of the generated DefaultRequirements

  /** The parameterless configuration methods that DefaultRequirements exposes statically. */
  datatype ConfigurationCall =
    | WithAssertionsEnabledCall | WithAssertionsDisabledCall
    | WithDiffCall | WithoutDiffCall
    | WithCleanStackTraceCall | WithoutCleanStackTraceCall

  /** A generated static method `name` that returns REQUIREMENTS.copy().`call`(). */
  datatype StaticDelegation = StaticDelegation(name: ConfigurationCall, call: ConfigurationCall)

  /** The static configuration methods as the generator writes them (withoutDiff calls withDiff). */
  function StaticDelegationsAsWritten(): (r: seq<StaticDelegation>)
    ensures |r| == |StaticDelegations()|
    ensures forall i :: 0 <= i < |r| ==> r[i].name == StaticDelegations()[i].name
    ensures forall i :: 0 <= i < |r| ==> (r[i].call == r[i].name <==> r[i].name != WithoutDiffCall)
    ensures StaticDelegation(WithoutDiffCall, WithDiffCall) in r
  {
    [StaticDelegation(WithAssertionsEnabledCall, WithAssertionsEnabledCall),
     StaticDelegation(WithAssertionsDisabledCall, WithAssertionsDisabledCall),
     StaticDelegation(WithDiffCall, WithDiffCall),
     StaticDelegation(WithoutDiffCall, WithDiffCall),
     StaticDelegation(WithCleanStackTraceCall, WithCleanStackTraceCall),
     StaticDelegation(WithoutCleanStackTraceCall, WithoutCleanStackTraceCall)]
  }

  /** The intended static configuration methods: each delegates to the method of the same name. */
  function StaticDelegations(): (r: seq<StaticDelegation>)
    ensures forall d :: d in r ==> d.call == d.name
  {
    [StaticDelegation(WithAssertionsEnabledCall, WithAssertionsEnabledCall),
     StaticDelegation(WithAssertionsDisabledCall, WithAssertionsDisabledCall),
     StaticDelegation(WithDiffCall, WithDiffCall),
     StaticDelegation(WithoutDiffCall, WithoutDiffCall),
     StaticDelegation(WithCleanStackTraceCall, WithCleanStackTraceCall),
     StaticDelegation(WithoutCleanStackTraceCall, WithoutCleanStackTraceCall)]
  }

  /** The effect of a configuration call on the copied configuration. */
  function ApplyCall(call: ConfigurationCall, c: Configuration): Configuration
  {
    match call
    case WithAssertionsEnabledCall => c.WithAssertionsEnabled()
    case WithAssertionsDisabledCall => c.WithAssertionsDisabled()
    case WithDiffCall => c.WithDiff()
    case WithoutDiffCall => c.WithoutDiff()
    case WithCleanStackTraceCall => c.WithCleanStackTrace()
    case WithoutCleanStackTraceCall => c.WithoutCleanStackTrace()
  }

  /** What the static method `name` returns, by configuration; None if there is no such method. */
  function CallStatic(delegations: seq<StaticDelegation>, name: ConfigurationCall, c: Configuration): Option<Configuration>
  {
    if delegations == [] then None
    else if delegations[0].name == name then Some(ApplyCall(delegations[0].call, c))
    else CallStatic(delegations[1..], name, c)
  }

  /** With every method delegating to its namesake, each static method has its instance method's effect. */
  lemma {:induction false} SameNameDelegation(delegations: seq<StaticDelegation>, name: ConfigurationCall, c: Configuration)
    requires forall d :: d in delegations ==> d.call == d.name
    requires exists d :: d in delegations && d.name == name
    ensures CallStatic(delegations, name, c) == Some(ApplyCall(name, c))
  {
    if delegations[0].name != name {
      var d :| d in delegations && d.name == name;
      assert d in delegations[1..];
      SameNameDelegation(delegations[1..], name, c);
    }
  }

  /** As written, DefaultRequirements.withoutDiff() returns a configuration with the diff enabled. */
  lemma WithoutDiffAsWrittenEnablesDiff(c: Configuration)
    ensures CallStatic(StaticDelegationsAsWritten(), WithoutDiffCall, c) == Some(c.WithDiff())
    ensures CallStatic(StaticDelegationsAsWritten(), WithoutDiffCall, c).value.diffEnabled
  {
    var d := StaticDelegationsAsWritten();
    assert CallStatic(d, WithoutDiffCall, c) == CallStatic(d[1..], WithoutDiffCall, c);
    assert d[1..][1..] == d[2..] && d[2..][1..] == d[3..];
    assert CallStatic(d[1..], WithoutDiffCall, c) == CallStatic(d[2..], WithoutDiffCall, c);
    assert CallStatic(d[2..], WithoutDiffCall, c) == CallStatic(d[3..], WithoutDiffCall, c);
  }

  /** Corrected, every static configuration method of DefaultRequirements has its namesake's effect. */
  lemma StaticDelegationsCorrect(name: ConfigurationCall, c: Configuration)
    ensures CallStatic(StaticDelegations(), name, c) == Some(ApplyCall(name, c))
    ensures name == WithoutDiffCall ==> !CallStatic(StaticDelegations(), name, c).value.diffEnabled
  {
    var r := StaticDelegations();
    var i := match name
      case WithAssertionsEnabledCall => 0
      case WithAssertionsDisabledCall => 1
      case WithDiffCall => 2
      case WithoutDiffCall => 3
      case WithCleanStackTraceCall => 4
      case WithoutCleanStackTraceCall => 5;
    assert r[i] in r && r[i].name == name;
    SameNameDelegation(r, name, c);
  }
}
