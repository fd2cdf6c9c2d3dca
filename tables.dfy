/**
  The processor's static tables: the annotation synonyms handed to the field
  analysis, the built-in codecs it may inline and the default literals of
  primitive and optional types. Each constant holds exactly the entries the
  static initializer puts; no key is put twice, so the order of the puts does
  not matter.
*/
module Tables {
  import opened Wrappers

  /** `Analysis.AnnotationMapping<Boolean>`: an annotation member and the value it must have (None: null). */
  datatype AnnotationMapping = AnnotationMapping(member: string, value: Option<bool>)

  /**
    `OptimizedConverter`: the codec class, its writer field and write method, its
    reader field, the read method and the default literal. The four-argument
    constructor used for array codecs leaves the last two absent, as does a
    `null` argument.
  */
  datatype OptimizedConverter = OptimizedConverter(
    converter: string,
    writer: string,
    writeMethod: string,
    reader: string,
    readMethod: Option<string>,
    defaultValue: Option<string>)

  /** Annotations that exclude a member. */
  const JsonIgnore: set<string> := {
    "com.fasterxml.jackson.annotation.JsonIgnore",
    "javax.json.bind.annotation.JsonbTransient"
  }

  /** Annotations that make a member non-null; None: unconditionally, otherwise when a mapping matches. */
  const NonNullable: map<string, Option<seq<AnnotationMapping>>> := map[
    "javax.validation.constraints.NotNull" := None,
    "javax.annotation.Nonnull" := None,
    "android.support.annotation.NonNull" := None,
    "org.jetbrains.annotations.NotNull" := None,
    "javax.json.bind.annotation.JsonbNillable" := Some([
      AnnotationMapping("value()", None),
      AnnotationMapping("value()", Some(true))]),
    "javax.json.bind.annotation.JsonbProperty" := Some([AnnotationMapping("nillable()", Some(true))])
  ]

  /** Annotations whose given member renames a property. */
  const PropertyAlias: map<string, string> := map[
    "com.fasterxml.jackson.annotation.JsonProperty" := "value()",
    "com.google.gson.annotations.SerializedName" := "value()",
    "javax.json.bind.annotation.JsonbProperty" := "value()"
  ]

  /** Annotations that make a property required when a mapping matches. */
  const JsonRequired: map<string, seq<AnnotationMapping>> := map[
    "com.fasterxml.jackson.annotation.JsonProperty" := [AnnotationMapping("required()", Some(true))]
  ]

  /** Annotations that mark the constructor to deserialize through. */
  const Constructors: set<string> := {
    "com.fasterxml.jackson.annotation.JsonCreator",
    "javax.json.bind.annotation.JsonbCreator"
  }

  /** Annotations whose given member sets a property's array index. */
  const Indexes: map<string, string> := map[
    "com.fasterxml.jackson.annotation.JsonProperty" := "index()"
  ]

  const NUMBER := "com.dslplatform.json.NumberConverter"
  const BOOL := "com.dslplatform.json.BoolConverter"

  /** Built-in codecs inlined for these type names instead of a generated converter. */
  const InlinedConverters: map<string, OptimizedConverter> := map[
    "int" := OptimizedConverter(NUMBER, "INT_WRITER", "serialize", "INT_READER", Some("deserializeInt"), Some("0")),
    "int[]" := OptimizedConverter(NUMBER, "INT_ARRAY_WRITER", "serialize", "INT_ARRAY_READER", None, None),
    "java.lang.Integer" := OptimizedConverter(NUMBER, "INT_WRITER", "serialize", "NULLABLE_INT_READER", Some("deserializeInt"), None),
    "long" := OptimizedConverter(NUMBER, "LONG_WRITER", "serialize", "LONG_READER", Some("deserializeLong"), Some("0L")),
    "long[]" := OptimizedConverter(NUMBER, "LONG_ARRAY_WRITER", "serialize", "LONG_ARRAY_READER", None, None),
    "java.lang.Long" := OptimizedConverter(NUMBER, "LONG_WRITER", "serialize", "LONG_READER", Some("deserializeLong"), None),
    "float" := OptimizedConverter(NUMBER, "FLOAT_WRITER", "serialize", "FLOAT_READER", Some("deserializeFloat"), Some("0.0")),
    "float[]" := OptimizedConverter(NUMBER, "FLOAT_ARRAY_WRITER", "serialize", "FLOAT_ARRAY_READER", None, None),
    "java.lang.Float" := OptimizedConverter(NUMBER, "FLOAT_WRITER", "serialize", "NULLABLE_FLOAT_READER", Some("deserializeFloat"), None),
    "double" := OptimizedConverter(NUMBER, "DOUBLE_WRITER", "serialize", "DOUBLE_READER", Some("deserializeDouble"), Some("0.0")),
    "double[]" := OptimizedConverter(NUMBER, "DOUBLE_ARRAY_WRITER", "serialize", "DOUBLE_ARRAY_READER", None, None),
    "java.lang.Double" := OptimizedConverter(NUMBER, "DOUBLE_WRITER", "serialize", "NULLABLE_DOUBLE_READER", Some("deserializeDouble"), None),
    "boolean" := OptimizedConverter(BOOL, "WRITER", "serialize", "READER", Some("deserialize"), Some("false")),
    "boolean[]" := OptimizedConverter(BOOL, "ARRAY_WRITER", "serialize", "ARRAY_READER", None, None),
    "java.lang.Boolean" := OptimizedConverter(BOOL, "WRITER", "serialize", "NULLABLE_READER", Some("deserialize"), None),
    "java.lang.String" := OptimizedConverter("com.dslplatform.json.StringConverter", "WRITER", "serialize", "READER", Some("deserialize"), None),
    "java.util.UUID" := OptimizedConverter("com.dslplatform.json.UUIDConverter", "WRITER", "serialize", "READER", Some("deserialize"), None),
    "java.time.LocalDate" := OptimizedConverter("com.dslplatform.json.JavaTimeConverter", "LOCAL_DATE_WRITER", "serialize", "LOCAL_DATE_READER", Some("deserializeLocalDate"), None),
    "java.time.OffsetDateTime" := OptimizedConverter("com.dslplatform.json.JavaTimeConverter", "DATE_TIME_READER", "serialize", "DATE_TIME_WRITER", Some("deserializeDateTime"), None)
  ]

  /** Literals used for a missing value of these types. */
  const Defaults: map<string, string> := map[
    "byte" := "(byte)0",
    "boolean" := "false",
    "int" := "0",
    "long" := "0L",
    "short" := "(short)0",
    "double" := "0.0",
    "float" := "0.0f",
    "char" := "'\0'",
    "java.util.OptionalLong" := "java.util.OptionalLong.empty()",
    "java.util.OptionalInt" := "java.util.OptionalInt.empty()",
    "java.util.OptionalDouble" := "java.util.OptionalDouble.empty()",
    "java.util.Optional" := "java.util.Optional.empty()"
  ]

  /**
    The `char` default is a three-character literal whose middle character is
    U+0000 itself (the Java string escape), not the two characters of an escape.
  */
  lemma CharDefaultHoldsNulCharacter()
    ensures Defaults["char"] == ['\'', '\0', '\'']
  {
  }

  /** The primitives whose built-in codec carries a default literal. */
  const PrimitivesWithDefault: set<string> := {"int", "long", "float", "double", "boolean"}

  /** Only the five primitive codecs carry a default; boxed, array and object codecs have none. */
  lemma InlinedDefaultsOnlyForPrimitives()
    ensures forall t :: t in InlinedConverters ==>
      (InlinedConverters[t].defaultValue.Some? <==> t in PrimitivesWithDefault)
  {
    PrimitiveCodecsHaveDefaults();
    OnlyPrimitiveCodecsHaveDefaults();
  }

  lemma PrimitiveCodecsHaveDefaults()
    ensures forall t | t in PrimitivesWithDefault :: t in InlinedConverters && InlinedConverters[t].defaultValue.Some?
  {
    forall t | t in PrimitivesWithDefault
      ensures t in InlinedConverters && InlinedConverters[t].defaultValue.Some?
    {
      if t == "int" || t == "long" {
        IntegralDefaultsAgree();
      } else if t == "float" {
        FloatDefaultsDiffer();
      } else {
        DoubleAndBooleanDefaultsAgree();
      }
    }
  }

  lemma OnlyPrimitiveCodecsHaveDefaults()
    ensures forall t | t in InlinedConverters && InlinedConverters[t].defaultValue.Some? :: t in PrimitivesWithDefault
  {
  }

  /** Array codecs are the ones without a read method. */
  lemma ArrayCodecsHaveNoReadMethod()
    ensures forall t :: t in InlinedConverters ==>
      (InlinedConverters[t].readMethod.None? <==> t in {"int[]", "long[]", "float[]", "double[]", "boolean[]"})
  {
  }

  /**
    The two tables agree on the default of every primitive they share except
    `float`: "0.0" among the codecs, "0.0f" among the defaults.
  */
  lemma InlinedDefaultsAgreeExceptFloat()
    ensures forall t | t in PrimitivesWithDefault :: t in Defaults && t in InlinedConverters
    ensures forall t | t in PrimitivesWithDefault ::
      (InlinedConverters[t].defaultValue == Some(Defaults[t]) <==> t != "float")
  {
    IntegralDefaultsAgree();
    DoubleAndBooleanDefaultsAgree();
    FloatDefaultsDiffer();
  }

  lemma IntegralDefaultsAgree()
    ensures "int" in InlinedConverters && "int" in Defaults
    ensures InlinedConverters["int"].defaultValue == Some(Defaults["int"])
    ensures "long" in InlinedConverters && "long" in Defaults
    ensures InlinedConverters["long"].defaultValue == Some(Defaults["long"])
  {
  }

  lemma DoubleAndBooleanDefaultsAgree()
    ensures "double" in InlinedConverters && "double" in Defaults
    ensures InlinedConverters["double"].defaultValue == Some(Defaults["double"])
    ensures "boolean" in InlinedConverters && "boolean" in Defaults
    ensures InlinedConverters["boolean"].defaultValue == Some(Defaults["boolean"])
  {
  }

  lemma FloatDefaultsDiffer()
    ensures "float" in InlinedConverters && "float" in Defaults
    ensures InlinedConverters["float"].defaultValue == Some("0.0") && Defaults["float"] == "0.0f"
  {
  }

  /**
    The boxed numeric and boolean codecs read through a nullable reader, except
    `java.lang.Long`, which shares `LONG_READER` with `long`.
  */
  lemma BoxedReadersNullableExceptLong()
    ensures InlinedConverters["java.lang.Integer"].reader == "NULLABLE_INT_READER"
    ensures InlinedConverters["java.lang.Float"].reader == "NULLABLE_FLOAT_READER"
    ensures InlinedConverters["java.lang.Double"].reader == "NULLABLE_DOUBLE_READER"
    ensures InlinedConverters["java.lang.Boolean"].reader == "NULLABLE_READER"
    ensures InlinedConverters["java.lang.Long"].reader == InlinedConverters["long"].reader == "LONG_READER"
  {
    IntegerAndFloatReaders();
    DoubleAndBooleanReaders();
    LongReaders();
  }

  lemma IntegerAndFloatReaders()
    ensures InlinedConverters["java.lang.Integer"].reader == "NULLABLE_INT_READER"
    ensures InlinedConverters["java.lang.Float"].reader == "NULLABLE_FLOAT_READER"
  {
  }

  lemma DoubleAndBooleanReaders()
    ensures InlinedConverters["java.lang.Double"].reader == "NULLABLE_DOUBLE_READER"
    ensures InlinedConverters["java.lang.Boolean"].reader == "NULLABLE_READER"
  {
  }

  lemma LongReaders()
    ensures InlinedConverters["java.lang.Long"].reader == InlinedConverters["long"].reader == "LONG_READER"
  {
  }

  /**
    `java.time.OffsetDateTime` has its writer and reader fields swapped: the
    writer slot names `DATE_TIME_READER` and the reader slot `DATE_TIME_WRITER`,
    unlike `java.time.LocalDate`.
  */
  lemma OffsetDateTimeFieldsSwapped()
    ensures InlinedConverters["java.time.OffsetDateTime"].writer == "DATE_TIME_READER"
    ensures InlinedConverters["java.time.OffsetDateTime"].reader == "DATE_TIME_WRITER"
    ensures InlinedConverters["java.time.LocalDate"].writer == "LOCAL_DATE_WRITER"
    ensures InlinedConverters["java.time.LocalDate"].reader == "LOCAL_DATE_READER"
  {
  }

  /** `JsonProperty` is consulted for alias, required and index; `JsonbProperty` for alias and nullability. */
  lemma PropertyAnnotationRoles()
    ensures var jackson := "com.fasterxml.jackson.annotation.JsonProperty";
      jackson in PropertyAlias && jackson in JsonRequired && jackson in Indexes && jackson !in NonNullable
    ensures var jsonb := "javax.json.bind.annotation.JsonbProperty";
      jsonb in PropertyAlias && jsonb in NonNullable && jsonb !in JsonRequired && jsonb !in Indexes
    ensures JsonIgnore !! Constructors
  {
  }

  /** The types with a built-in codec: five primitives, their arrays and boxes, and four library types. */
  lemma InlinedTypes()
    ensures InlinedConverters.Keys == {
      "int", "int[]", "java.lang.Integer", "long", "long[]", "java.lang.Long",
      "float", "float[]", "java.lang.Float", "double", "double[]", "java.lang.Double",
      "boolean", "boolean[]", "java.lang.Boolean",
      "java.lang.String", "java.util.UUID", "java.time.LocalDate", "java.time.OffsetDateTime"}
  {
  }

  /** The types with a default literal: the eight primitives and the four optional wrappers. */
  lemma DefaultTypes()
    ensures Defaults.Keys == {
      "byte", "boolean", "int", "long", "short", "double", "float", "char",
      "java.util.OptionalLong", "java.util.OptionalInt", "java.util.OptionalDouble", "java.util.Optional"}
  {
  }

  /** Which annotations each annotation table recognises. */
  lemma AnnotationTables()
    ensures NonNullable.Keys == {
      "javax.validation.constraints.NotNull", "javax.annotation.Nonnull", "android.support.annotation.NonNull",
      "org.jetbrains.annotations.NotNull", "javax.json.bind.annotation.JsonbNillable",
      "javax.json.bind.annotation.JsonbProperty"}
    ensures PropertyAlias.Keys == {
      "com.fasterxml.jackson.annotation.JsonProperty", "com.google.gson.annotations.SerializedName",
      "javax.json.bind.annotation.JsonbProperty"}
    ensures JsonRequired.Keys == Indexes.Keys == {"com.fasterxml.jackson.annotation.JsonProperty"}
    ensures forall a | a in PropertyAlias :: PropertyAlias[a] == "value()"
  {
  }
}
