/**
  The text the processor writes. A `Fragment` is what one append statement (or
  one run of consecutive append statements) of the processor adds to a
  `java.io.Writer`; `Render` gives its exact characters. Calls to the converter
  templates, whose text is produced by code outside this model, are kept as
  opaque `TemplateCall` tokens.
*/
module Generated {
  import opened Wrappers

  /** The two wire shapes of `CompiledJson.Format`. */
  datatype Format = OBJECT | ARRAY

  /** The runtime class a mixin descriptor is built from. */
  datatype MixinKind = MixinWriter | MixinDescription

  /** The three `DslJson` registration calls. */
  datatype Role = Binder | Reader | Writer

  datatype Fragment =
    | PackageDecl(pkg: string)
    | ClassOpen(name: string)
    | Utf8Field
    | OverrideMark
    | ConfigureOpen
    | DeclareObjectConverter
    | DeclareArrayConverter
    | FormatDescriptionDecl(className: string, objectFirst: bool, alias: string)
    | Register(role: Role, target: string, converter: string)
    | DeclareEnumConverter
    | MixinOpen(kind: MixinKind, className: string)
    | MixinNamedEntry(name: string)
    | MixinInlineEntry(qualifiedName: string, objectConverter: Option<string>,
                       arrayConverter: Option<string>, objectFirst: bool, alias: string)
    | MixinSeparator
    | MixinClose
    | OpenReaderCall(target: string)
    | TargetConverter(converterClass: string, format: Format)
    | ConfigureCall(configurationClass: string)
    | ConfigureClose
    | ClassClose
    | RootClassClose

  /** The `ConverterTemplate` and `EnumTemplate` entry points, by the class they are called for. */
  datatype TemplateCall =
    | EmptyCtorObject(className: string)
    | EmptyCtorArray(className: string)
    | FromCtorObject(className: string)
    | FromCtorArray(className: string)
    | EnumCreate(className: string)

  /** One item of a writer's output. */
  datatype Piece = Code(fragment: Fragment) | Template(call: TemplateCall)

  function RoleName(role: Role): string {
    match role
    case Binder => "registerBinder"
    case Reader => "registerReader"
    case Writer => "registerWriter"
  }

  function MixinKindName(kind: MixinKind): string {
    match kind
    case MixinWriter => "MixinWriter"
    case MixinDescription => "MixinDescription"
  }

  function FlagText(b: bool): string {
    if b then "true" else "false"
  }

  /** A mixin entry's converter slot: a generated converter, or `null`. */
  function SlotText(converter: Option<string>, shapeClass: string): string {
    match converter
    case Some(c) => "new " + c + "." + shapeClass + "(json), "
    case None => "null, "
  }

  /** The characters each fragment contributes to the generated source. */
  function Render(f: Fragment): string {
    match f
    case PackageDecl(pkg) => "package " + pkg + ";\n\n"
    case ClassOpen(name) => "public class " + name + " implements com.dslplatform.json.Configuration {\n"
    case Utf8Field =>
      "\tprivate static final java.nio.charset.Charset utf8 = java.nio.charset.Charset.forName(\"UTF-8\");\n"
    case OverrideMark => "\t@Override\n"
    case ConfigureOpen => "\tpublic void configure(com.dslplatform.json.DslJson json) {\n"
    case DeclareObjectConverter => "\t\tObjectFormatConverter objectConverter = new ObjectFormatConverter(json);\n"
    case DeclareArrayConverter => "\t\tArrayFormatConverter arrayConverter = new ArrayFormatConverter(json);\n"
    case FormatDescriptionDecl(className, objectFirst, alias) =>
      "\t\tcom.dslplatform.json.runtime.FormatDescription description = new com.dslplatform.json.runtime.FormatDescription(\n"
      + "\t\t\t" + className + ".class,\n"
      + "\t\t\tobjectConverter,\n"
      + "\t\t\tarrayConverter,\n"
      + "\t\t\t" + FlagText(objectFirst) + ",\n"
      + "\t\t\t\"" + alias + "\",\n"
      + "\t\t\tjson);\n"
    case Register(role, target, converter) =>
      "\t\tjson." + RoleName(role) + "(" + target + ", " + converter + ");\n"
    case DeclareEnumConverter => "\t\tEnumConverter enumConverter = new EnumConverter();\n"
    case MixinOpen(kind, className) =>
      "\t\tcom.dslplatform.json.runtime." + MixinKindName(kind) + "<" + className
      + "> description = new com.dslplatform.json.runtime." + MixinKindName(kind) + "<>(\n"
      + "\t\t\t" + className + ".class,\n"
      + "\t\t\tjson,\n"
      + "\t\t\tnew com.dslplatform.json.runtime.FormatDescription[] {\n"
    case MixinNamedEntry(name) => "\t\t\t" + name
    case MixinInlineEntry(qualifiedName, objectConverter, arrayConverter, objectFirst, alias) =>
      "\t\t\t\tnew com.dslplatform.json.runtime.FormatDescription("
      + qualifiedName + ".class, "
      + SlotText(objectConverter, "ObjectFormatConverter")
      + SlotText(arrayConverter, "ArrayFormatConverter")
      + FlagText(objectFirst) + ", "
      + "\"" + alias + "\", json)"
    case MixinSeparator => ",\n"
    case MixinClose => "\n\t\t\t}\n" + "\t\t);\n"
    case OpenReaderCall(target) => "\t\tjson.registerReader(" + target + ", "
    case TargetConverter(converterClass, format) =>
      "new " + converterClass
      + (if format == ARRAY then ".ArrayFormatConverter(json));\n" else ".ObjectFormatConverter(json));\n")
    case ConfigureCall(configurationClass) => "\t\tnew " + configurationClass + "().configure(json);\n"
    case ConfigureClose => "\t}\n"
    case ClassClose => "}\n"
    case RootClassClose => "}"
  }

  /** The generated source file, as the append-only output of a `java.io.Writer`. */
  class CodeWriter {
    var pieces: seq<Piece>

    constructor ()
      ensures pieces == []
    {
      pieces := [];
    }

    /** `append` of the fragment's text. */
    method Append(f: Fragment)
      modifies this
      ensures pieces == old(pieces) + [Code(f)]
    {
      pieces := pieces + [Code(f)];
    }

    /** A template writing its part of the class to this writer. */
    method Invoke(call: TemplateCall)
      modifies this
      ensures pieces == old(pieces) + [Template(call)]
    {
      pieces := pieces + [Template(call)];
    }
  }
}
