/**
  `buildCode` and `mixin`: the per-type converter class. Its `configure` method
  declares the converter objects and registers them with `DslJson`; the class
  body then gets the converters from the templates.
*/
module ConverterSource {
  import opened Wrappers
  import opened Strings
  import opened Naming
  import opened Generated

  /** The kinds of analysed type (`ObjectType`). */
  datatype ObjectType = CLASS | CONVERTER | ENUM | MIXIN

  /**
    What the emitter reads of an analysed type (`StructInfo`). The constructor and
    the attributes matter only through whether they exist; `packageSealed` is the
    reflective "package is loaded and sealed" answer; `deserializeAs` holds the
    analysed target type of the `deserializeAs` setting.
  */
  datatype StructInfo = StructInfo(
    name: string,
    qualifiedName: string,
    binaryName: string,
    packageSealed: bool,
    kind: ObjectType,
    formats: set<Format>,
    isObjectFormatFirst: bool,
    deserializeName: string,
    hasConstructor: bool,
    hasEmptyCtor: bool,
    hasAttributes: bool,
    converter: string,
    converterWriter: string,
    converterReader: string,
    implementations: seq<StructInfo>,
    deserializeAs: Option<StructInfo>)

  /** The generated converter's qualified name. */
  function ConverterName(si: StructInfo): string {
    FindConverterName(si.binaryName, si.packageSealed)
  }

  /** The processor skips a class without attributes before `buildCode` is reached. */
  predicate IsGenerated(si: StructInfo) {
    !(si.kind == CLASS && !si.hasAttributes)
  }

  /** The package line (when the converter name has a package), the class line and the start of `configure`. */
  function Header(si: StructInfo): seq<Piece> {
    HeaderFor(ConverterName(si))
  }

  /** The header for a converter named `full`. */
  function HeaderFor(full: string): seq<Piece> {
    var dot := LastIndexOf(full, '.');
    (if dot != -1 then [Code(PackageDecl(full[..dot]))] else [])
    + [Code(ClassOpen(full[dot + 1..])), Code(Utf8Field), Code(OverrideMark), Code(ConfigureOpen)]
  }

  /** The alias a format description carries: `deserializeName`, or the given name when that is empty. */
  function Alias(deserializeName: string, fallback: string): string {
    if deserializeName == "" then fallback else deserializeName
  }

  /** The converter a single-format class registers (the last one declared). */
  function SingleFormatConverter(formats: set<Format>): string {
    if ARRAY in formats then "arrayConverter"
    else if OBJECT in formats then "objectConverter"
    else "converter"
  }

  /** A class's converter declarations: one per requested format, then the format description for both. */
  function ClassDeclarations(className: string, si: StructInfo): seq<Piece> {
    (if OBJECT in si.formats then [Code(DeclareObjectConverter)] else [])
    + (if ARRAY in si.formats then [Code(DeclareArrayConverter)] else [])
    + (if OBJECT in si.formats && ARRAY in si.formats
       then [Code(FormatDescriptionDecl(className, si.isObjectFormatFirst, Alias(si.deserializeName, className)))]
       else [])
  }

  /** A class's part of `configure`: its declarations, then binder (with an empty constructor), reader and writer. */
  function ClassRegistrations(className: string, si: StructInfo): seq<Piece> {
    var cls := className + ".class";
    var conv := if OBJECT in si.formats && ARRAY in si.formats then "description" else SingleFormatConverter(si.formats);
    ClassDeclarations(className, si)
    + (if si.hasEmptyCtor then [Code(Register(Binder, cls, conv))] else [])
    + [Code(Register(Reader, cls, conv)), Code(Register(Writer, cls, conv))]
  }

  /** The registrations inside `configure`, by kind. */
  function Registrations(className: string, si: StructInfo, typeExpr: string): seq<Piece> {
    var cls := className + ".class";
    if si.kind == CLASS && si.hasConstructor && si.hasAttributes then
      ClassRegistrations(className, si)
    else if si.kind == CONVERTER then
      [Code(Register(Writer, typeExpr, si.converter + "." + si.converterWriter)),
       Code(Register(Reader, typeExpr, si.converter + "." + si.converterReader))]
    else if si.kind == ENUM then
      [Code(DeclareEnumConverter), Code(Register(Writer, cls, "enumConverter")), Code(Register(Reader, cls, "enumConverter"))]
    else []
  }

  /** A mixin implementation's entry: by name when it has both formats, otherwise an inline description. */
  function MixinEntry(im: StructInfo): Fragment {
    if OBJECT in im.formats && ARRAY in im.formats then MixinNamedEntry(im.name)
    else MixinInlineEntry(
      im.qualifiedName,
      if OBJECT in im.formats then Some(ConverterName(im)) else None,
      if ARRAY in im.formats then Some(ConverterName(im)) else None,
      im.isObjectFormatFirst,
      Alias(im.deserializeName, im.qualifiedName))
  }

  /** The first `k` entries, each followed by `",\n"` unless it is the last of all. */
  function MixinEntries(impls: seq<StructInfo>, k: nat): seq<Piece>
    requires k <= |impls|
  {
    if k == 0 then []
    else MixinEntries(impls, k - 1) + [Code(MixinEntry(impls[k - 1]))]
         + (if k < |impls| then [Code(MixinSeparator)] else [])
  }

  function MixinKindFor(writeOnly: bool): MixinKind {
    if writeOnly then MixinWriter else MixinDescription
  }

  /** What `mixin` writes. */
  function MixinSection(writeOnly: bool, si: StructInfo, className: string): seq<Piece> {
    var cls := className + ".class";
    [Code(MixinOpen(MixinKindFor(writeOnly), className))]
    + MixinEntries(si.implementations, |si.implementations|)
    + [Code(MixinClose)]
    + (if !writeOnly then [Code(Register(Reader, cls, "description"))] else [])
    + [Code(Register(Writer, cls, "description"))]
  }

  /** The mixin part of `configure`: present for a mixin with implementations. */
  function MixinPart(className: string, si: StructInfo): seq<Piece> {
    if si.kind == MIXIN && |si.implementations| > 0
    then MixinSection(si.deserializeAs.Some?, si, className)
    else []
  }

  /**
    The reader for a mixin's `deserializeAs` target: the call is opened, and closed
    with the target's converter only when the target has exactly one format.
  */
  function DeserializeAsPart(si: StructInfo, typeExpr: string): seq<Piece> {
    if si.kind == MIXIN && si.deserializeAs.Some? then
      var target := si.deserializeAs.value;
      [Code(OpenReaderCall(typeExpr))]
      + (if OBJECT !in target.formats then [Code(TargetConverter(ConverterName(target), ARRAY))]
         else if ARRAY !in target.formats then [Code(TargetConverter(ConverterName(target), OBJECT))]
         else [])
    else []
  }

  /** The template calls that write the converters into the class body. */
  function Templates(className: string, si: StructInfo): seq<Piece> {
    if si.kind == CLASS && si.hasAttributes then
      if si.hasEmptyCtor then
        (if OBJECT in si.formats then [Template(EmptyCtorObject(className))] else [])
        + (if ARRAY in si.formats then [Template(EmptyCtorArray(className))] else [])
      else if si.hasConstructor then
        (if OBJECT in si.formats then [Template(FromCtorObject(className))] else [])
        + (if ARRAY in si.formats then [Template(FromCtorArray(className))] else [])
      else []
    else if si.kind == ENUM then [Template(EnumCreate(className))]
    else []
  }

  /** Everything `buildCode` writes. */
  function ConverterFile(className: string, si: StructInfo, typeExpr: string): seq<Piece> {
    Header(si) + Registrations(className, si, typeExpr) + MixinPart(className, si)
    + DeserializeAsPart(si, typeExpr) + [Code(ConfigureClose)] + Templates(className, si) + [Code(ClassClose)]
  }

  /**
    `buildCode`: writes the converter class for `si`, registered under `className`;
    `typeExpr` is the type expression the processor derives from `className` for
    converter and mixin registrations.
  */
  method BuildCode(code: CodeWriter, className: string, si: StructInfo, typeExpr: string)
    modifies code
    ensures code.pieces == old(code.pieces) + ConverterFile(className, si, typeExpr)
  {
    ghost var p0 := code.pieces;
    WriteHeader(code, si);
    WriteRegistrations(code, className, si, typeExpr);
    ghost var p1 := code.pieces;
    if si.kind == MIXIN && |si.implementations| > 0 {
      Mixin(code, si.deserializeAs.Some?, si, className);
    }
    assert code.pieces == p1 + MixinPart(className, si);
    WriteDeserializeAs(code, si, typeExpr);
    code.Append(ConfigureClose);
    WriteTemplates(code, className, si);
    code.Append(ClassClose);
    ConcatSeven(p0, Header(si), Registrations(className, si, typeExpr), MixinPart(className, si),
      DeserializeAsPart(si, typeExpr), [Code(ConfigureClose)], Templates(className, si), [Code(ClassClose)]);
  }

  lemma ConcatSeven<T>(p: seq<T>, a: seq<T>, b: seq<T>, c: seq<T>, d: seq<T>, e: seq<T>, f: seq<T>, g: seq<T>)
    ensures p + a + b + c + d + e + f + g == p + (a + b + c + d + e + f + g)
  {
  }

  method WriteHeader(code: CodeWriter, si: StructInfo)
    modifies code
    ensures code.pieces == old(code.pieces) + Header(si)
  {
    var generateFullClassName := ConverterName(si);
    WriteHeaderFor(code, generateFullClassName);
  }

  /** The header lines for the converter named `generateFullClassName`. */
  method WriteHeaderFor(code: CodeWriter, generateFullClassName: string)
    modifies code
    ensures code.pieces == old(code.pieces) + HeaderFor(generateFullClassName)
  {
    var dotIndex := LastIndexOf(generateFullClassName, '.');
    var generateClassName := generateFullClassName[dotIndex + 1..];
    ghost var package: seq<Piece> := if dotIndex != -1 then [Code(PackageDecl(generateFullClassName[..dotIndex]))] else [];
    ghost var before := code.pieces;
    if dotIndex != -1 {
      code.Append(PackageDecl(generateFullClassName[..dotIndex]));
    }
    assert code.pieces == before + package;
    code.Append(ClassOpen(generateClassName));
    code.Append(Utf8Field);
    code.Append(OverrideMark);
    code.Append(ConfigureOpen);
    AppendedFour(before, package, Code(ClassOpen(generateClassName)), Code(Utf8Field), Code(OverrideMark), Code(ConfigureOpen));
  }

  /** Appending two parts and then two pieces one by one builds the whole. */
  lemma AppendedPair<T>(before: seq<T>, a: seq<T>, b: seq<T>, x: T, y: T)
    ensures before + a + b + [x] + [y] == before + (a + b + [x, y])
  {
  }

  /** Appending a prefix and then four pieces one by one builds the whole. */
  lemma AppendedFour<T>(before: seq<T>, prefix: seq<T>, a: T, b: T, c: T, d: T)
    ensures before + prefix + [a] + [b] + [c] + [d] == before + (prefix + [a, b, c, d])
  {
  }

  method WriteRegistrations(code: CodeWriter, className: string, si: StructInfo, typeExpr: string)
    modifies code
    ensures code.pieces == old(code.pieces) + Registrations(className, si, typeExpr)
  {
    var cls := className + ".class";
    if si.kind == CLASS && si.hasConstructor && si.hasAttributes {
      WriteClassRegistrations(code, className, si);
    } else if si.kind == CONVERTER {
      code.Append(Register(Writer, typeExpr, si.converter + "." + si.converterWriter));
      code.Append(Register(Reader, typeExpr, si.converter + "." + si.converterReader));
    } else if si.kind == ENUM {
      code.Append(DeclareEnumConverter);
      code.Append(Register(Writer, cls, "enumConverter"));
      code.Append(Register(Reader, cls, "enumConverter"));
    }
  }

  method WriteClassRegistrations(code: CodeWriter, className: string, si: StructInfo)
    requires si.kind == CLASS && si.hasConstructor && si.hasAttributes
    modifies code
    ensures code.pieces == old(code.pieces) + ClassRegistrations(className, si)
  {
    var cls := className + ".class";
    var objectFormatConverterName := WriteClassDeclarations(code, className, si);
    ghost var decls := code.pieces;
    ghost var binder: seq<Piece> := if si.hasEmptyCtor then [Code(Register(Binder, cls, objectFormatConverterName))] else [];
    if si.hasEmptyCtor {
      code.Append(Register(Binder, cls, objectFormatConverterName));
    }
    assert code.pieces == decls + binder;
    code.Append(Register(Reader, cls, objectFormatConverterName));
    code.Append(Register(Writer, cls, objectFormatConverterName));
    AppendedPair(old(code.pieces), ClassDeclarations(className, si), binder,
      Code(Register(Reader, cls, objectFormatConverterName)), Code(Register(Writer, cls, objectFormatConverterName)));
  }

  /** The declarations of a class's converters; returns the name of the one its registrations use. */
  method WriteClassDeclarations(code: CodeWriter, className: string, si: StructInfo) returns (objectFormatConverterName: string)
    modifies code
    ensures code.pieces == old(code.pieces) + ClassDeclarations(className, si)
    ensures objectFormatConverterName
      == if OBJECT in si.formats && ARRAY in si.formats then "description" else SingleFormatConverter(si.formats)
  {
    objectFormatConverterName := "converter";
    if OBJECT in si.formats {
      code.Append(DeclareObjectConverter);
      objectFormatConverterName := "objectConverter";
    }
    if ARRAY in si.formats {
      code.Append(DeclareArrayConverter);
      objectFormatConverterName := "arrayConverter";
    }
    if OBJECT in si.formats && ARRAY in si.formats {
      var typeAlias := if si.deserializeName == "" then className else si.deserializeName;
      code.Append(FormatDescriptionDecl(className, si.isObjectFormatFirst, typeAlias));
      objectFormatConverterName := "description";
    }
  }

  method WriteDeserializeAs(code: CodeWriter, si: StructInfo, typeExpr: string)
    modifies code
    ensures code.pieces == old(code.pieces) + DeserializeAsPart(si, typeExpr)
  {
    if si.kind == MIXIN && si.deserializeAs.Some? {
      var target := si.deserializeAs.value;
      code.Append(OpenReaderCall(typeExpr));
      if OBJECT !in target.formats {
        code.Append(TargetConverter(ConverterName(target), ARRAY));
      } else if ARRAY !in target.formats {
        code.Append(TargetConverter(ConverterName(target), OBJECT));
      }
    }
  }

  method WriteTemplates(code: CodeWriter, className: string, si: StructInfo)
    modifies code
    ensures code.pieces == old(code.pieces) + Templates(className, si)
  {
    if si.kind == CLASS && si.hasAttributes {
      if si.hasEmptyCtor {
        if OBJECT in si.formats {
          code.Invoke(EmptyCtorObject(className));
        }
        if ARRAY in si.formats {
          code.Invoke(EmptyCtorArray(className));
        }
      } else if si.hasConstructor {
        if OBJECT in si.formats {
          code.Invoke(FromCtorObject(className));
        }
        if ARRAY in si.formats {
          code.Invoke(FromCtorArray(className));
        }
      }
    } else if si.kind == ENUM {
      code.Invoke(EnumCreate(className));
    }
  }

  /** One implementation's entry in the descriptor list. */
  method WriteMixinEntry(code: CodeWriter, im: StructInfo)
    modifies code
    ensures code.pieces == old(code.pieces) + [Code(MixinEntry(im))]
  {
    if OBJECT in im.formats && ARRAY in im.formats {
      code.Append(MixinNamedEntry(im.name));
    } else {
      var objectSlot := if OBJECT in im.formats then Some(ConverterName(im)) else None;
      var arraySlot := if ARRAY in im.formats then Some(ConverterName(im)) else None;
      var typeAlias := if im.deserializeName == "" then im.qualifiedName else im.deserializeName;
      code.Append(MixinInlineEntry(im.qualifiedName, objectSlot, arraySlot, im.isObjectFormatFirst, typeAlias));
    }
  }

  /** `mixin`: the polymorphic descriptor over the implementations, and its registration. */
  method Mixin(code: CodeWriter, writeOnly: bool, si: StructInfo, className: string)
    modifies code
    ensures code.pieces == old(code.pieces) + MixinSection(writeOnly, si, className)
  {
    ghost var before := code.pieces;
    var mixinType := if writeOnly then MixinWriter else MixinDescription;
    code.Append(MixinOpen(mixinType, className));
    WriteMixinEntries(code, si.implementations);
    ghost var entries := code.pieces;
    code.Append(MixinClose);
    ghost var reader: seq<Piece> := if !writeOnly then [Code(Register(Reader, className + ".class", "description"))] else [];
    if !writeOnly {
      code.Append(Register(Reader, className + ".class", "description"));
    }
    assert code.pieces == entries + [Code(MixinClose)] + reader;
    code.Append(Register(Writer, className + ".class", "description"));
    AppendedParts(before, [Code(MixinOpen(mixinType, className))], MixinEntries(si.implementations, |si.implementations|),
      [Code(MixinClose)], reader, [Code(Register(Writer, className + ".class", "description"))]);
  }

  /** The implementations' entries, separated by commas, the last one without. */
  method WriteMixinEntries(code: CodeWriter, impls: seq<StructInfo>)
    modifies code
    ensures code.pieces == old(code.pieces) + MixinEntries(impls, |impls|)
  {
    var i := |impls|;
    var k := 0;
    while k < |impls|
      invariant 0 <= k <= |impls|
      invariant i == |impls| - k
      invariant code.pieces == old(code.pieces) + MixinEntries(impls, k)
    {
      ghost var before := code.pieces;
      WriteMixinEntry(code, impls[k]);
      i := i - 1;
      if i > 0 {
        code.Append(MixinSeparator);
      }
      k := k + 1;
      assert code.pieces == before + [Code(MixinEntry(impls[k - 1]))]
        + (if k < |impls| then [Code(MixinSeparator)] else []);
    }
  }

  /** Appending five parts one after another builds their concatenation. */
  lemma AppendedParts<T>(before: seq<T>, a: seq<T>, b: seq<T>, c: seq<T>, d: seq<T>, e: seq<T>)
    ensures before + a + b + c + d + e == before + (a + b + c + d + e)
  {
  }
}
