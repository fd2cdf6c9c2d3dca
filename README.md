# dsl-json annotation processor: naming, emission and configuration

This project models the code-emitting core of dsl-json's compile-time annotation
processor, `CompiledJsonAnnotationProcessor`. For every analysed type, the processor
writes a Java converter class whose `configure(DslJson)` method declares converter
objects and registers them as binder, reader and writer. It then writes an optional
root `Configuration` class that calls every generated converter. Around that, it keeps
static tables (annotation synonyms, built-in codecs, default literals) and reads its
`-A` options in `init`.

The model has these parts:

- `Naming` (`naming.dfy`): `findConverterName`. It splits a binary name at its last
  `.`, decorates the simple name as `_Cls_DslJsonConverter`, and moves the converter
  under `dsl_json.` for sealed and `java.` packages.
- `Generated` (`generated.dfy`): the `java.io.Writer` the processor appends to. It is a
  `CodeWriter` object holding the sequence of emitted pieces. A piece is either a
  `Fragment` or an opaque call into the converter templates. `Render` gives each
  fragment's exact characters.
- `ConverterSource` (`converter_source.dfy`): `buildCode` and `mixin`. These are
  imperative methods on the writer, each proved to write exactly `ConverterFile` (or
  `MixinSection`), the specification of the emitted class.
- `ConverterProperties` (`converter_properties.dfy`): what that class contains, by
  type kind, formats, constructors and `deserializeAs`.
- `RootConfiguration` (`root_configuration.dfy`): `buildRootConfiguration`, with its
  namespace check and the errors it reports.
- `ProcessorOptions` (`options.dfy`): the option fields, `init` and
  `getSupportedOptions`.
- `Tables` (`tables.dfy`): the static tables, verbatim.
- `RuntimeTypes` (`runtime_types.dfy`): the encoder/decoder intersection at the start
  of `process`.

Some behaviours of the source are kept as written and stated as lemmas:

- **Unclosed reader call.** A mixin whose `deserializeAs` target has both formats gets
  an opened `json.registerReader(T, ` call. Nothing completes it, and the end of
  `configure` follows it directly (`DeserializeAsBothFormatsLeavesReaderOpen`).
- **No format.** A class with a constructor and attributes but no format registers a
  converter named `converter`, which nothing declares. `RegisteredConvertersAreDeclared`
  is stated for the other cases.
- **Converter-name collisions.** Converter names are injective only among types whose
  binary names do not already start with `dsl_json.`. `java.X` and `dsl_json.java.X`
  collide (`ConverterNameInjective`, `ConverterNamesCollideUnderDslPackage`).
- **Swapped date-time fields.** The `java.time.OffsetDateTime` codec has its writer and
  reader field names swapped.
- **Long reader.** `java.lang.Long` reads with the non-nullable `LONG_READER`.
- **Float default.** `float` defaults to `"0.0"` among the codecs but to `"0.0f"`
  among the defaults.
- **Empty configuration name.** `init` only stores a non-empty configuration name
  (`CompiledJsonAnnotationProcessor.java:159-161`), so an empty value leaves the name at
  its default `null` (:127). `process` then writes no root class (:273), exactly as when
  the option is absent. The warn-and-stop branch of `process` at :223-233 tests for the
  empty name, so it is never taken (`ConfigurationNameNeverEmpty`).

Some behaviours of the source are kept as written:

- **Failing root configuration.** `buildRootConfiguration` writes the root class in
  full, with one configure call per entry, and only then returns `false` (:505).
  `process` stops the round at :278-279. Nothing is aborted before the output.
- **Call order.** Converters are called in the iteration order of the `HashMap` built
  at :246, not in the order they were discovered.

## Model

| member | source | states |
|---|---|---|
| Strings.LastIndexOf | java8/src/main/java/com/dslplatform/json/processor/CompiledJsonAnnotationProcessor.java:326 | `lastIndexOf`: -1 or an index holding the character, with no occurrence after it |
| Naming.SimpleName | java8/src/main/java/com/dslplatform/json/processor/CompiledJsonAnnotationProcessor.java:327 | the text after the last `.` holds no `.`, and is the whole name when there is none |
| Naming.PackageName | java8/src/main/java/com/dslplatform/json/processor/CompiledJsonAnnotationProcessor.java:329 | the name is its package, a `.`, and its simple name |
| Naming.FindConverterName | java8/src/main/java/com/dslplatform/json/processor/CompiledJsonAnnotationProcessor.java:325-333 | every converter name ends with `_DslJsonConverter` |
| Naming.ConverterSimpleName | java8/src/main/java/com/dslplatform/json/processor/CompiledJsonAnnotationProcessor.java:331-332 | the decorated simple name holds no `.` |
| Naming.ConverterNameWithoutPackage | java8/src/main/java/com/dslplatform/json/processor/CompiledJsonAnnotationProcessor.java:328 | a name without `.` gives exactly `"_" + name + "_DslJsonConverter"`, with no package |
| Naming.ConverterNameWithPackage | java8/src/main/java/com/dslplatform/json/processor/CompiledJsonAnnotationProcessor.java:329-332 | a packaged name gives package (possibly behind `dsl_json.`) + `"._"` + simple name + suffix; its package and simple name split back out |
| Naming.DslPrefixExactlyWhenMoved | java8/src/main/java/com/dslplatform/json/processor/CompiledJsonAnnotationProcessor.java:330-332 | unless the type already lies under `dsl_json.`, the result starts with `dsl_json.` iff the type has a package that is sealed or in `java.` |
| Naming.ConverterNameInjective | java8/src/main/java/com/dslplatform/json/processor/CompiledJsonAnnotationProcessor.java:325-333 | distinct types outside `dsl_json.` get distinct converter names |
| Naming.ConverterNamesCollideUnderDslPackage | java8/src/main/java/com/dslplatform/json/processor/CompiledJsonAnnotationProcessor.java:331-332 | `java.X` and `dsl_json.java.X` get the same converter name |
| Tables.CharDefaultHoldsNulCharacter | java8/src/main/java/com/dslplatform/json/processor/CompiledJsonAnnotationProcessor.java:115 | the `char` default is quote, U+0000, quote |
| Tables.InlinedDefaultsOnlyForPrimitives | java8/src/main/java/com/dslplatform/json/processor/CompiledJsonAnnotationProcessor.java:88-106 | a built-in codec carries a default literal iff it is for int, long, float, double or boolean |
| Tables.ArrayCodecsHaveNoReadMethod | java8/src/main/java/com/dslplatform/json/processor/CompiledJsonAnnotationProcessor.java:88-106 | exactly the five array codecs lack a read method |
| Tables.InlinedDefaultsAgreeExceptFloat | java8/src/main/java/com/dslplatform/json/processor/CompiledJsonAnnotationProcessor.java:88-119 | codec defaults equal the default-literal table for every such primitive except `float` ("0.0" against "0.0f") |
| Tables.BoxedReadersNullableExceptLong | java8/src/main/java/com/dslplatform/json/processor/CompiledJsonAnnotationProcessor.java:90-102 | boxed codecs read through nullable readers, except `java.lang.Long`, which uses `LONG_READER` |
| Tables.OffsetDateTimeFieldsSwapped | java8/src/main/java/com/dslplatform/json/processor/CompiledJsonAnnotationProcessor.java:105-106 | the `OffsetDateTime` writer slot names `DATE_TIME_READER` and its reader slot `DATE_TIME_WRITER`, unlike `LocalDate` |
| Tables.PropertyAnnotationRoles | java8/src/main/java/com/dslplatform/json/processor/CompiledJsonAnnotationProcessor.java:58-86 | Jackson's `JsonProperty` gives alias, required and index; `JsonbProperty` gives alias and nullability; ignore and creator markers are disjoint |
| Tables.InlinedTypes | java8/src/main/java/com/dslplatform/json/processor/CompiledJsonAnnotationProcessor.java:87-106 | exactly nineteen types have a built-in codec: five primitives, their arrays and boxes, `String`, `UUID`, `LocalDate` and `OffsetDateTime` |
| Tables.DefaultTypes | java8/src/main/java/com/dslplatform/json/processor/CompiledJsonAnnotationProcessor.java:107-119 | exactly the eight primitives and the four `Optional` wrappers have a default literal |
| Tables.AnnotationTables | java8/src/main/java/com/dslplatform/json/processor/CompiledJsonAnnotationProcessor.java:58-86 | the annotations each of the non-null, alias, required and index tables recognises, and that every alias is read from `value()` |
| ProcessorOptions.AnnotationProcessor.constructor | java8/src/main/java/com/dslplatform/json/processor/CompiledJsonAnnotationProcessor.java:122-127 | the option fields start at ERRORS, IMPLICIT, ERROR, false, false and no configuration name |
| ProcessorOptions.AnnotationProcessor.Init | java8/src/main/java/com/dslplatform/json/processor/CompiledJsonAnnotationProcessor.java:134-166 | the new fields and the failure are those of reading the options in order; a configuration name never becomes empty |
| ProcessorOptions.AnnotationProcessor.ReadLogLevel | java8/src/main/java/com/dslplatform/json/processor/CompiledJsonAnnotationProcessor.java:138-141 | a given log level replaces the field, or is rejected when it names no constant |
| ProcessorOptions.AnnotationProcessor.ReadAnnotationUsage | java8/src/main/java/com/dslplatform/json/processor/CompiledJsonAnnotationProcessor.java:142-145 | a given annotation usage replaces the field, or is rejected when it names no constant |
| ProcessorOptions.AnnotationProcessor.ReadUnknownTypes | java8/src/main/java/com/dslplatform/json/processor/CompiledJsonAnnotationProcessor.java:146-149 | a given unknown-types policy replaces the field, or is rejected when it names no constant |
| ProcessorOptions.AnnotationProcessor.ReadFlags | java8/src/main/java/com/dslplatform/json/processor/CompiledJsonAnnotationProcessor.java:150-161 | the Jackson and JSON-B flags and the configuration name are set from non-empty options |
| ProcessorOptions.AnnotationProcessor.SupportedOptions | java8/src/main/java/com/dslplatform/json/processor/CompiledJsonAnnotationProcessor.java:168-177 | all six option names, plus the aggregating marker iff a non-empty configuration name is set and the isolating marker otherwise, and nothing else; under `Valid()` (which the constructor and `Init` keep), the aggregating marker iff a configuration name is set at all |
| ProcessorOptions.UnsetOptionsKeepFields | java8/src/main/java/com/dslplatform/json/processor/CompiledJsonAnnotationProcessor.java:138-161 | an absent or empty option leaves its field unchanged |
| ProcessorOptions.OptionsFailOnlyOnUnknownConstants | java8/src/main/java/com/dslplatform/json/processor/CompiledJsonAnnotationProcessor.java:138-149 | `init` fails iff an enum option names no constant, reporting the first in reading order |
| ProcessorOptions.GivenOptionsApplied | java8/src/main/java/com/dslplatform/json/processor/CompiledJsonAnnotationProcessor.java:138-161 | after a successful `init`, every given option is in force |
| ProcessorOptions.ConfigurationNameNeverEmpty | java8/src/main/java/com/dslplatform/json/processor/CompiledJsonAnnotationProcessor.java:223 | the configuration name is never the empty string, so the disabled-configuration branch is dead |
| ProcessorOptions.ParseBoolean | java8/src/main/java/com/dslplatform/json/processor/CompiledJsonAnnotationProcessor.java:150-157 | `Boolean.parseBoolean` of the two flag options: never fails, true only for "true" ignoring case (as proved below) |
| ProcessorOptions.ParseBooleanIgnoringCase | java8/src/main/java/com/dslplatform/json/processor/CompiledJsonAnnotationProcessor.java:150-157 | for every string: `parseBoolean` is true iff it has four characters, each `t`, `r`, `u`, `e` in either case |
| RuntimeTypes.KnownTypes | java8/src/main/java/com/dslplatform/json/processor/CompiledJsonAnnotationProcessor.java:185-192 | the known types are exactly the encoder types that also have a decoder |
| Generated.CodeWriter.Append | java8/src/main/java/com/dslplatform/json/processor/CompiledJsonAnnotationProcessor.java:350-355 | appending adds the fragment at the end and keeps what was written |
| Generated.Render | java8/src/main/java/com/dslplatform/json/processor/CompiledJsonAnnotationProcessor.java:350-508 | the exact characters each append statement (or run of append statements) writes |
| ConverterSource.BuildCode | java8/src/main/java/com/dslplatform/json/processor/CompiledJsonAnnotationProcessor.java:335-436 | writes exactly the converter class: header, registrations, mixin, deserialize-as reader, end of `configure`, templates, end of class |
| ConverterSource.WriteHeader | java8/src/main/java/com/dslplatform/json/processor/CompiledJsonAnnotationProcessor.java:345-355 | writes the package line (when the converter name has a `.`), the class line and the start of `configure` |
| ConverterSource.WriteHeaderFor | java8/src/main/java/com/dslplatform/json/processor/CompiledJsonAnnotationProcessor.java:346-355 | appends exactly `HeaderFor` of the converter name: the package line iff the name has a `.`, then the class line on the text after the last `.` |
| ConverterSource.WriteRegistrations | java8/src/main/java/com/dslplatform/json/processor/CompiledJsonAnnotationProcessor.java:357-397 | writes the declarations and registrations for the type's kind |
| ConverterSource.WriteClassRegistrations | java8/src/main/java/com/dslplatform/json/processor/CompiledJsonAnnotationProcessor.java:357-388 | writes a class's converter declarations and its binder, reader and writer registrations |
| ConverterSource.WriteClassDeclarations | java8/src/main/java/com/dslplatform/json/processor/CompiledJsonAnnotationProcessor.java:358-376 | appends one declaration per requested format and the format description when both are requested; the name it returns is `description`, or the last single-format converter declared, or `converter` |
| ConverterSource.WriteDeserializeAs | java8/src/main/java/com/dslplatform/json/processor/CompiledJsonAnnotationProcessor.java:402-411 | writes the mixin's deserialize-as reader, closed only for a single-format target |
| ConverterSource.WriteTemplates | java8/src/main/java/com/dslplatform/json/processor/CompiledJsonAnnotationProcessor.java:415-433 | invokes the templates for the type |
| ConverterSource.Mixin | java8/src/main/java/com/dslplatform/json/processor/CompiledJsonAnnotationProcessor.java:438-478 | writes the mixin descriptor over all implementations, with its separators and registrations |
| ConverterSource.WriteMixinEntries | java8/src/main/java/com/dslplatform/json/processor/CompiledJsonAnnotationProcessor.java:445-471 | the countdown loop appends every implementation's entry in order, with a separator after each but the last (`MixinEntries`, laid out by `MixinEntriesLayout`) |
| ConverterSource.WriteMixinEntry | java8/src/main/java/com/dslplatform/json/processor/CompiledJsonAnnotationProcessor.java:447-467 | appends one entry: by name with both formats, otherwise an inline description (slots by `MixinEntrySlots`) |
| ConverterProperties.HeaderNamesConverter | java8/src/main/java/com/dslplatform/json/processor/CompiledJsonAnnotationProcessor.java:345-352 | the class is named `_Cls_DslJsonConverter`; a package line for the converter's package appears iff the type has a package |
| ConverterProperties.ClassRegistration | java8/src/main/java/com/dslplatform/json/processor/CompiledJsonAnnotationProcessor.java:357-388 | one converter (format description with alias and object-first flag for both formats, else the single format's) is registered as reader and writer under `Cls.class`, and as binder iff there is an empty constructor; each format's converter is declared iff requested |
| ConverterProperties.RegisteredConvertersAreDeclared | java8/src/main/java/com/dslplatform/json/processor/CompiledJsonAnnotationProcessor.java:357-397 | for a class with a format and for an enum, every registration names a converter declared before it |
| ConverterProperties.RegistrationByKind | java8/src/main/java/com/dslplatform/json/processor/CompiledJsonAnnotationProcessor.java:357-397 | a reader is registered iff a writer is, iff the type is a complete class, a converter or an enum; converters register their own writer and reader fields; mixins register nothing here |
| ConverterProperties.TemplateSelection | java8/src/main/java/com/dslplatform/json/processor/CompiledJsonAnnotationProcessor.java:415-433 | empty-constructor templates with an empty constructor, else from-constructor templates with a constructor, one per format; the enum template for enums; nothing else |
| ConverterProperties.SkippedClassesWouldBeEmpty | java8/src/main/java/com/dslplatform/json/processor/CompiledJsonAnnotationProcessor.java:251-253 | a class without attributes would get no registration and no template, so skipping it loses nothing |
| ConverterProperties.MixinEntriesLayout | java8/src/main/java/com/dslplatform/json/processor/CompiledJsonAnnotationProcessor.java:445-470 | entry `i` of the implementations sits at position `2i`, followed by a separator iff it is not the last |
| ConverterProperties.MixinSeparators | java8/src/main/java/com/dslplatform/json/processor/CompiledJsonAnnotationProcessor.java:445-473 | `n` implementations give `n - 1` separators, and the last entry is followed by the end of the list |
| ConverterProperties.MixinEntrySlots | java8/src/main/java/com/dslplatform/json/processor/CompiledJsonAnnotationProcessor.java:447-467 | both formats: listed by name; otherwise each slot holds the type's converter iff the format is present, with its alias and object-first flag |
| ConverterProperties.MixinRegistration | java8/src/main/java/com/dslplatform/json/processor/CompiledJsonAnnotationProcessor.java:439-477 | the writer is always registered, the reader iff not write-only, and the descriptor type is `MixinWriter` iff write-only |
| ConverterProperties.DeserializeAsReader | java8/src/main/java/com/dslplatform/json/processor/CompiledJsonAnnotationProcessor.java:402-411 | a single-format target gives one complete `registerReader` statement with that format's converter |
| ConverterProperties.DeserializeAsBothFormatsLeavesReaderOpen | java8/src/main/java/com/dslplatform/json/processor/CompiledJsonAnnotationProcessor.java:405-413 | a target with both formats leaves `registerReader(T, ` directly followed by the end of `configure` |
| RootConfiguration.BuildRootConfiguration | java8/src/main/java/com/dslplatform/json/processor/CompiledJsonAnnotationProcessor.java:480-510 | writes the root class and returns true iff every converter is reachable, reporting each unreachable one |
| RootConfiguration.WriteRootHeader | java8/src/main/java/com/dslplatform/json/processor/CompiledJsonAnnotationProcessor.java:485-493 | appends the root header and returns whether the configuration name has a package |
| RootConfiguration.WriteConfigureCalls | java8/src/main/java/com/dslplatform/json/processor/CompiledJsonAnnotationProcessor.java:494-506 | the loop appends one configure call per entry, collects an error exactly for each unreachable entry, and returns true iff none was collected |
| RootConfiguration.Message | java8/src/main/java/com/dslplatform/json/processor/CompiledJsonAnnotationProcessor.java:497-500 | the error text for an unreachable converter, as `MessageFrame` and `ReportedMessagesAdvise` describe it |
| RootConfiguration.MessageFrame | java8/src/main/java/com/dslplatform/json/processor/CompiledJsonAnnotationProcessor.java:497-500 | the message opens by quoting the configuration name and closes with the proposed package-less configuration name |
| RootConfiguration.ReportedMessagesAdvise | java8/src/main/java/com/dslplatform/json/processor/CompiledJsonAnnotationProcessor.java:494-502 | every reported error is for the configuration and for an unreachable entry's type, and the configuration name the message proposes would report nothing for the same entries |
| RootConfiguration.OneConfigureCallPerEntry | java8/src/main/java/com/dslplatform/json/processor/CompiledJsonAnnotationProcessor.java:495-506 | exactly one `configure` call per entry, in order, valid or not |
| RootConfiguration.RootPackageLine | java8/src/main/java/com/dslplatform/json/processor/CompiledJsonAnnotationProcessor.java:485-491 | the package line is the text before the last `.` of the configuration name, and the class is its simple name |
| RootConfiguration.ReportedExactlyUnreachable | java8/src/main/java/com/dslplatform/json/processor/CompiledJsonAnnotationProcessor.java:495-504 | errors are reported iff some converter is unreachable, and never when the root class has no package |
| RootConfiguration.ReachableByTypePackage | java8/src/main/java/com/dslplatform/json/processor/CompiledJsonAnnotationProcessor.java:496 | a converter is unreachable iff the root class has a package and the converted type has none |

## Left out

- `process` orchestration is not modelled: round queries, Filer and Messager calls, `IOException` handling and the early returns are host I/O. Only the known-types intersection and the skip of classes without attributes are modelled.
- The text of diagnostics is modelled only for the root configuration error. Other `printMessage` calls are I/O.
- Runtime reflection (`Class.forName`, `canSerialize`, `Package.isSealed`) is not modelled. The sealed answer is the `packageSealed` input.
- `saveToServiceConfigFile` and `getSupportedSourceVersion` are not modelled, because they are file output and JDK version negotiation.
- The creator-annotation lookups at the end of `init` are not modelled, because they query the compiler's element utilities.
- `Analysis`, `StructInfo`, `ConverterTemplate`, `EnumTemplate`, `Context.typeOrClass` and `nonGenericObject` are not part of this model. The type is a record of the fields `buildCode` reads. Template calls are opaque tokens. The type expression for converter and mixin registrations is the `typeExpr` input.
- The constants of `LogLevel`, `AnnotationUsage` and `UnknownTypes` are not part of this model. They are taken as DEBUG/INFO/ERRORS/NONE, IMPLICIT/EXPLICIT and ERROR/WARNING/IGNORE.
- ProcessorOptions.AnnotationProcessor.Init: a `valueOf` that throws becomes a returned failure naming the option.
- RootConfiguration.BuildRootConfiguration: `HashMap` iteration order is not modelled. Entries are a sequence in whatever order the map yields, and no discovery order is claimed.
- The static tables are constants equal to the maps the static initializer fills. Their `HashMap`/`HashSet` identity is not modelled.
- Generated.Render: fragments group consecutive `append` calls. The model fixes their concatenated text, not how the calls are split.
