# JBoss Logging Tools: generation model and message-annotation validator

This project models in Dafny the core of the JBoss Logging Tools code generator,
which turns annotated logger interfaces into implementation classes at compile time.
It covers three parts:

- **The message-annotation validator** (`message_annotation_validator.dfy`, module
  `MessageAnnotationValidator`). It takes the methods of one interface. It visits
  each simple name once, at its first occurrence. It then scans that name's
  overloads in input order. An error is reported against an overload when that
  overload carries `@Message` and so does the overload of the same name just
  before it. `Validate` and `FindByName` are loops, as in the source; the inner scan of one
  name's overloads is the method `ScanOverloads`. Each is
  proved equal to a reference function (`Validation`, `FilterByName`). Lemmas
  then state what those functions return, in terms of the input sequence alone.
- **The implementation class model** (`implementation_class_model.dfy`, module
  `ImplementationModel`). The constructor fixes the class shape: the name is the
  interface name followed by the implementation type, the superclass is
  `java.lang.Object`, and the interfaces are the source interface then
  `java.io.Serializable`. `GenerateModel` adds one field to the defined class:
  `private static final long serialVersionUID = 1L`.
- **The message logger translator** (`message_logger_translator.dfy`, module
  `TranslatorModel`). A null translation map is stored as the empty map.
  `GenerateModel` adds a protected constructor `(final Logger logger)` whose body
  is the single verbatim statement `super(logger);`. It then adds one
  `@Override` message method per map entry.

`code_model.dfy` holds the class-declaration model that stands in for the code-model
emitter library (module `CodeModel`), and an `Option` type (module `Wrappers`). A
defined class is a Dafny `class` whose field, constructor and method lists the
generators extend in place, as the emitter's defined classes are.

The validator's rule follows the code. The error is raised when the *immediately
preceding* same-named overload is annotated, because the flag is reset on every
overload (`foundFirst = found`). So annotated, plain, annotated gives no error.
A reading of "any earlier overload was annotated" would report the third one.

## Model

| member | source | states |
|---|---|---|
| `MessageAnnotationValidator.FindByName` | src/main/java/org/jboss/logging/validation/validator/MessageAnnotationValidator.java:86-94 | the result is `FilterByName(methods, methodName)`: the methods of that name, in input order (see the next two rows) |
| `MessageAnnotationValidator.FilterByNameMembers` | src/main/java/org/jboss/logging/validation/validator/MessageAnnotationValidator.java:88-92 | a method is in the group of a name iff it is an input method with that name |
| `MessageAnnotationValidator.FilterByNameAppend` | src/main/java/org/jboss/logging/validation/validator/MessageAnnotationValidator.java:88-92 | grouping distributes over concatenation, so the kept methods keep their relative input order |
| `MessageAnnotationValidator.Validate` | src/main/java/org/jboss/logging/validation/validator/MessageAnnotationValidator.java:53-75 | the errors returned are `Validation(elementMethods)`: each distinct name's group scanned once, in first-occurrence order, with the previous-member flag; an empty input gives no error |
| `MessageAnnotationValidator.ScanOverloads` | src/main/java/org/jboss/logging/validation/validator/MessageAnnotationValidator.java:63-71 | the errors of one name's overload scan are `GroupErrors(likeMethods)`: one error per annotated overload whose predecessor is annotated, in order (see `GroupErrorsCharacterization`) |
| `MessageAnnotationValidator.DistinctNamesSpec` | src/main/java/org/jboss/logging/validation/validator/MessageAnnotationValidator.java:58-61 | the names whose groups are scanned are exactly the input's names, and no name is scanned twice, however many overloads share it |
| `MessageAnnotationValidator.GroupErrorsCharacterization` | src/main/java/org/jboss/logging/validation/validator/MessageAnnotationValidator.java:64-71 | within a group, an error is reported for position i iff i > 0 and members i-1 and i are both annotated; the error names member i and `@Message` |
| `MessageAnnotationValidator.GroupErrorsOnInput` | src/main/java/org/jboss/logging/validation/validator/MessageAnnotationValidator.java:63-71 | the errors of a name's group are exactly the conflicts of input methods of that name, where a conflict means the method and the last earlier method of the same name are both annotated |
| `MessageAnnotationValidator.ValidationCharacterization` | src/main/java/org/jboss/logging/validation/validator/MessageAnnotationValidator.java:53-75 | an error is reported iff it names an input method that conflicts with the previous method of its name, and it names `@Message` |
| `MessageAnnotationValidator.ValidationErrorsAttributed` | src/main/java/org/jboss/logging/validation/validator/MessageAnnotationValidator.java:64-70 | every error names `@Message` and an annotated input method; an earlier annotated method of that name exists, with no method of that name in between |
| `MessageAnnotationValidator.GroupErrorsSingleAnnotated` | src/main/java/org/jboss/logging/validation/validator/MessageAnnotationValidator.java:64-71 | a group with at most one annotated member produces no error |
| `MessageAnnotationValidator.GroupErrorsAllAnnotated` | src/main/java/org/jboss/logging/validation/validator/MessageAnnotationValidator.java:64-71 | when all n members of a group are annotated, exactly n-1 errors are produced, for members 2..n in order |
| `MessageAnnotationValidator.GroupFirstNeverReported` | src/main/java/org/jboss/logging/validation/validator/MessageAnnotationValidator.java:64-70 | the first member of a group of distinct methods is never reported |
| `MessageAnnotationValidator.ThreeAnnotatedOverloads` | src/main/java/org/jboss/logging/validation/validator/MessageAnnotationValidator.java:64-71 | three annotated overloads A, B, C give exactly the errors for B and C, in that order |
| `MessageAnnotationValidator.InterleavedOverloads` | src/main/java/org/jboss/logging/validation/validator/MessageAnnotationValidator.java:64-71 | annotated, plain, annotated overloads give no error, because the flag resets on the plain one |
| `MessageAnnotationValidator.ValidationIndependentNames` | src/main/java/org/jboss/logging/validation/validator/MessageAnnotationValidator.java:58-73 | for inputs with disjoint name sets, the errors of the concatenation are the errors of each part, so groups never mix |
| `ImplementationModel.ImplementationClassModel.constructor` | src/main/java/org/jboss/logging/model/ImplementationClassModel.java:63-67 | the class name is `interfaceName + type`; the superclass is `java.lang.Object`; the interfaces are exactly the interface then `java.io.Serializable`; the project code is passed unchanged; `GetType()` is the given type; no descriptor is set yet |
| `ImplementationModel.ImplementationClassModel.GetType` | src/main/java/org/jboss/logging/model/ImplementationClassModel.java:74-76 | the type returned is the suffix that follows the implemented interface's name in the class name |
| `ImplementationModel.ImplementationClassModel.SetMethodDescriptor` | src/main/java/org/jboss/logging/model/ImplementationClassModel.java:78-80 | only the descriptor changes, to the given one (it may be null); name and type are unaffected, and the construction rule still holds |
| `ImplementationModel.ImplementationClassModel.GenerateModel` | src/main/java/org/jboss/logging/model/ImplementationClassModel.java:86-94 | exactly one field is appended to the defined class: `serialVersionUID`, private static final, of type long, initialised to 1; constructors and methods are unchanged; a missing defined class is an `IllegalState` failure |
| `ImplementationModel.GenerateImplementation` | src/main/java/org/jboss/logging/model/ImplementationClassModel.java:63-94 | on a member-less base shell, the generated class has name `interfaceName + type`, extends Object, implements the interface and Serializable, and has the single serialVersionUID field |
| `TranslatorModel.MessageLoggerTranslator.constructor` | jboss-logging-tools/src/main/java/org/jboss/logging/model/MessageLoggerTranslator.java:60-68 | class and superclass names are passed unchanged, with no interfaces; a null map is stored as the empty map and a non-null map as given |
| `TranslatorModel.MessageLoggerTranslator.GenerateModel` | jboss-logging-tools/src/main/java/org/jboss/logging/model/MessageLoggerTranslator.java:74-94 | one protected constructor is appended, taking one final `Logger` parameter named `logger`, with the single body statement `super(logger);`; the methods appended are `Overrides(order)` for some visiting order that lists each key of the map exactly once, so their count is the map's size; fields and earlier methods are unchanged; a failed lookup of the defined class fails with a null dereference |
| `TranslatorModel.MessageLoggerTranslator.OverridesSpec` | jboss-logging-tools/src/main/java/org/jboss/logging/model/MessageLoggerTranslator.java:84-91 | the i-th overriding method is the base's method for the i-th visited key and its translated text, with `@Override` appended to its annotations and nothing else changed |
| `TranslatorModel.MessageLoggerTranslator.OverridesAnnotated` | jboss-logging-tools/src/main/java/org/jboss/logging/model/MessageLoggerTranslator.java:89-90 | every overriding method ends its annotations with `java.lang.Override` |
| `TranslatorModel.NullMapSameShapeAsEmpty` | jboss-logging-tools/src/main/java/org/jboss/logging/model/MessageLoggerTranslator.java:60-94 | translators built with a null map and with an empty map generate the same shape: the logger constructor, no methods, no fields |

## Left out

- The code-model emitter library is not part of this model. Its classes, methods and modifiers are replaced by the datatypes of `CodeModel`. The verbatim statement of `directStatement` is kept as a string.
- The base `ClassModel` is not part of this model. Its `generateModel` and the lookup of the defined class (`getDefinedClass`, `_getClass` by `getClassName()`) become a parameter: the defined class that was found, or null. `addMessageMethod` becomes a function parameter giving the method for a key and its text. What the base puts in the shell is not specified. `GenerateImplementation` and `NullMapSameShapeAsEmpty` start from a member-less shell.
- The base's two-argument constructor used by the translator is not part of this model. It is taken to set no interfaces.
- `TranslatorModel.MessageLoggerTranslator.GenerateModel`: does not state the order of the added methods, because the source iterates a hash map, whose order is unspecified. Only the count and the per-key content are stated.
- `TranslatorModel.MessageLoggerTranslator.GenerateModel`: when the defined class is not found, `_getClass` returns null and the next call dereferences it. The model reports this as `NullDereference`, not as the `IllegalStateException` that `generateModel` declares.
- Compiler-API elements (`ExecutableElement`, `Name`, `TypeElement`, `getAnnotation`) are abstracted to a record of simple name, annotation flag and identity. `validate`'s `TypeElement` parameter is not used by the source, and is dropped.
- The formatted error text (`ValidationErrorMessage.of` with `ERROR_MESSAGE`) is not modelled. An error is the element and the annotation's fully qualified name.
- Running the validator twice on the same input yields the same errors. This follows from `Validate`'s contract, which fixes the result as a function of the input; no separate lemma states it.
- `MethodDescriptor` is an opaque type. `ImplementationType`'s enum constants are not visible, so a type is represented by the text string concatenation gives it.
- The unused constant `ID_FIELD_NAME_SUFFIX` is not modelled.
- Java nulls among names, map keys or map values are not modelled, apart from the null translation map and the null method descriptor.
