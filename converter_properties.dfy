/** What the generated converter class is guaranteed to contain. */
module ConverterProperties {
  import opened Wrappers
  import opened Strings
  import opened Naming
  import opened Generated
  import opened ConverterSource

  /**
    The header names the class after the converter name: a type with a package gets
    a `package` line for the converter's package, and the class line always carries
    `_Cls_DslJsonConverter`.
  */
  lemma HeaderNamesConverter(si: StructInfo)
    ensures var h := Header(si);
      && h[|h| - 1] == Code(ConfigureOpen)
      && ('.' in si.binaryName ==>
            && |h| == 5
            && h[0] == Code(PackageDecl(ConverterPackage(si.binaryName, si.packageSealed)))
            && h[1] == Code(ClassOpen(ConverterSimpleName(si.binaryName))))
      && ('.' !in si.binaryName ==>
            && |h| == 4
            && h[0] == Code(ClassOpen(ConverterSimpleName(si.binaryName))))
  {
    if '.' in si.binaryName {
      HeaderWithPackage(si);
    } else {
      HeaderWithoutPackage(si);
    }
  }

  lemma HeaderWithPackage(si: StructInfo)
    requires '.' in si.binaryName
    ensures var h := Header(si);
      && |h| == 5
      && h[0] == Code(PackageDecl(ConverterPackage(si.binaryName, si.packageSealed)))
      && h[1] == Code(ClassOpen(ConverterSimpleName(si.binaryName)))
      && h[4] == Code(ConfigureOpen)
  {
    ConverterNameWithPackage(si.binaryName, si.packageSealed);
    HeaderOfPackagedName(ConverterName(si));
  }

  /** A converter name with a package gives the package line, then the class line on its simple name. */
  lemma HeaderOfPackagedName(full: string)
    requires '.' in full
    ensures HeaderFor(full) == [Code(PackageDecl(PackageName(full))), Code(ClassOpen(SimpleName(full)))]
      + [Code(Utf8Field), Code(OverrideMark), Code(ConfigureOpen)]
  {
    assert LastIndexOf(full, '.') != -1;
  }

  /** A converter name without a package gives the class line on the whole name. */
  lemma HeaderOfUnpackagedName(full: string)
    requires '.' !in full
    ensures HeaderFor(full) == [Code(ClassOpen(full)), Code(Utf8Field), Code(OverrideMark), Code(ConfigureOpen)]
  {
    assert LastIndexOf(full, '.') == -1;
    assert full[0..] == full;
  }

  lemma HeaderWithoutPackage(si: StructInfo)
    requires '.' !in si.binaryName
    ensures var h := Header(si);
      && |h| == 4
      && h[0] == Code(ClassOpen(ConverterSimpleName(si.binaryName)))
      && h[3] == Code(ConfigureOpen)
  {
    ConverterNameWithoutPackage(si.binaryName, si.packageSealed);
    HeaderOfUnpackagedName(ConverterName(si));
  }

  /** The converter a class registers, by its formats: the format description for both. */
  function RegisteredConverter(formats: set<Format>): string {
    if formats == {OBJECT, ARRAY} then "description"
    else if formats == {OBJECT} then "objectConverter"
    else if formats == {ARRAY} then "arrayConverter"
    else "converter"
  }

  /** A set of formats is determined by which of the two formats it holds. */
  lemma FormatsByMembership(formats: set<Format>)
    ensures formats == (if OBJECT in formats then {OBJECT} else {}) + (if ARRAY in formats then {ARRAY} else {})
  {
    var other := (if OBJECT in formats then {OBJECT} else {}) + (if ARRAY in formats then {ARRAY} else {});
    forall x: Format ensures x in formats <==> x in other {
      if x == OBJECT {
      } else {
        assert x == ARRAY;
      }
    }
  }

  /** Whether `ps` holds a registration in `role`. */
  predicate Registers(ps: seq<Piece>, role: Role) {
    exists p :: p in ps && p.Code? && p.fragment.Register? && p.fragment.role == role
  }

  /**
    A class with a constructor and attributes registers one converter, under its own
    `.class`, as reader and writer, and as binder exactly when it has an empty
    constructor; with both formats that converter is a format description carrying the
    alias and the object-first flag.
  */
  lemma ClassRegistration(className: string, si: StructInfo, typeExpr: string)
    requires si.kind == CLASS && si.hasConstructor && si.hasAttributes
    ensures var r := Registrations(className, si, typeExpr);
      var cls := className + ".class";
      var conv := RegisteredConverter(si.formats);
      && Code(Register(Reader, cls, conv)) in r
      && Code(Register(Writer, cls, conv)) in r
      && (Registers(r, Binder) <==> si.hasEmptyCtor)
      && (forall p | p in r && p.Code? && p.fragment.Register? ::
            p.fragment.target == cls && p.fragment.converter == conv)
      && (OBJECT in si.formats && ARRAY in si.formats ==>
            Code(FormatDescriptionDecl(className, si.isObjectFormatFirst,
              if si.deserializeName == "" then className else si.deserializeName)) in r)
      && (Code(DeclareObjectConverter) in r <==> OBJECT in si.formats)
      && (Code(DeclareArrayConverter) in r <==> ARRAY in si.formats)
  {
    ClassRegistersOneConverter(className, si, typeExpr);
    ClassBinderIffEmptyConstructor(className, si, typeExpr);
    ClassDeclaresRequestedFormats(className, si, typeExpr);
  }

  lemma ClassRegistersOneConverter(className: string, si: StructInfo, typeExpr: string)
    requires si.kind == CLASS && si.hasConstructor && si.hasAttributes
    ensures var r := Registrations(className, si, typeExpr);
      var cls := className + ".class";
      var conv := RegisteredConverter(si.formats);
      && Code(Register(Reader, cls, conv)) in r
      && Code(Register(Writer, cls, conv)) in r
      && (forall p | p in r && p.Code? && p.fragment.Register? ::
            p.fragment.target == cls && p.fragment.converter == conv)
  {
    var decls := ClassShape(className, si, typeExpr);
    RegistrationsAfterDeclarations(decls, si.hasEmptyCtor, className + ".class", RegisteredConverter(si.formats));
  }

  /** Declarations followed by the registrations of one converter register only that converter. */
  lemma RegistrationsAfterDeclarations(decls: seq<Piece>, binder: bool, cls: string, conv: string)
    requires forall p | p in decls :: p.Code? && !p.fragment.Register?
    ensures var r := decls + ((if binder then [Code(Register(Binder, cls, conv))] else [])
                              + [Code(Register(Reader, cls, conv)), Code(Register(Writer, cls, conv))]);
      && Code(Register(Reader, cls, conv)) in r
      && Code(Register(Writer, cls, conv)) in r
      && (forall p | p in r && p.Code? && p.fragment.Register? ::
            p.fragment.target == cls && p.fragment.converter == conv)
      && (Registers(r, Binder) <==> binder)
  {
    var regs: seq<Piece> := (if binder then [Code(Register(Binder, cls, conv))] else [])
      + [Code(Register(Reader, cls, conv)), Code(Register(Writer, cls, conv))];
    var r := decls + regs;
    assert forall p | p in r :: p in decls || p in regs;
    assert r[|r| - 2] == Code(Register(Reader, cls, conv));
    assert r[|r| - 1] == Code(Register(Writer, cls, conv));
    if binder {
      assert r[|decls|] == Code(Register(Binder, cls, conv));
    }
  }

  /** The last declaration precedes every registration after it, all of which use `conv`. */
  lemma DeclarationBeforeRegistrations(decls: seq<Piece>, binder: bool, cls: string, conv: string)
    requires forall p | p in decls :: p.Code? && !p.fragment.Register?
    requires |decls| > 0 && Declares(decls[|decls| - 1].fragment, conv)
    ensures var r := decls + ((if binder then [Code(Register(Binder, cls, conv))] else [])
                              + [Code(Register(Reader, cls, conv)), Code(Register(Writer, cls, conv))]);
      var j := |decls| - 1;
      && j < |r| && r[j].Code? && Declares(r[j].fragment, conv)
      && (forall i | 0 <= i <= j :: !(r[i].Code? && r[i].fragment.Register?))
      && (forall i | 0 <= i < |r| && r[i].Code? && r[i].fragment.Register? :: r[i].fragment.converter == conv)
  {
    var rest: seq<Piece> := (if binder then [Code(Register(Binder, cls, conv))] else [])
      + [Code(Register(Reader, cls, conv)), Code(Register(Writer, cls, conv))];
    var r := decls + rest;
    assert forall i | 0 <= i < |decls| :: r[i] == decls[i] && decls[i] in decls;
    assert forall i | |decls| <= i < |r| :: r[i] == rest[i - |decls|];
  }

  lemma ClassBinderIffEmptyConstructor(className: string, si: StructInfo, typeExpr: string)
    requires si.kind == CLASS && si.hasConstructor && si.hasAttributes
    ensures Registers(Registrations(className, si, typeExpr), Binder) <==> si.hasEmptyCtor
  {
    var decls := ClassShape(className, si, typeExpr);
    RegistrationsAfterDeclarations(decls, si.hasEmptyCtor, className + ".class", RegisteredConverter(si.formats));
  }

  lemma ClassDeclaresRequestedFormats(className: string, si: StructInfo, typeExpr: string)
    requires si.kind == CLASS && si.hasConstructor && si.hasAttributes
    ensures var r := Registrations(className, si, typeExpr);
      && (OBJECT in si.formats && ARRAY in si.formats ==>
            Code(FormatDescriptionDecl(className, si.isObjectFormatFirst,
              if si.deserializeName == "" then className else si.deserializeName)) in r)
      && (Code(DeclareObjectConverter) in r <==> OBJECT in si.formats)
      && (Code(DeclareArrayConverter) in r <==> ARRAY in si.formats)
  {
    var decls := ClassShape(className, si, typeExpr);
    var cls := className + ".class";
    var conv := RegisteredConverter(si.formats);
    var alias := Alias(si.deserializeName, className);
    DeclarationKept(decls, si.hasEmptyCtor, cls, conv, Code(DeclareObjectConverter));
    DeclarationKept(decls, si.hasEmptyCtor, cls, conv, Code(DeclareArrayConverter));
    DeclarationKept(decls, si.hasEmptyCtor, cls, conv, Code(FormatDescriptionDecl(className, si.isObjectFormatFirst, alias)));
  }

  /** A piece that is not a registration appears in the class's part exactly when it is among the declarations. */
  lemma DeclarationKept(decls: seq<Piece>, binder: bool, cls: string, conv: string, x: Piece)
    requires !(x.Code? && x.fragment.Register?)
    ensures x in decls + ((if binder then [Code(Register(Binder, cls, conv))] else [])
                          + [Code(Register(Reader, cls, conv)), Code(Register(Writer, cls, conv))])
            <==> x in decls
  {
  }

  lemma ClassShape(className: string, si: StructInfo, typeExpr: string) returns (decls: seq<Piece>)
    requires si.kind == CLASS && si.hasConstructor && si.hasAttributes
    ensures var cls := className + ".class";
      var conv := RegisteredConverter(si.formats);
      && Registrations(className, si, typeExpr)
         == decls + ((if si.hasEmptyCtor then [Code(Register(Binder, cls, conv))] else [])
                     + [Code(Register(Reader, cls, conv)), Code(Register(Writer, cls, conv))])
      && (forall p | p in decls :: p.Code? && !p.fragment.Register?)
      && (Code(DeclareObjectConverter) in decls <==> OBJECT in si.formats)
      && (Code(DeclareArrayConverter) in decls <==> ARRAY in si.formats)
      && (OBJECT in si.formats && ARRAY in si.formats ==>
            decls == [Code(DeclareObjectConverter), Code(DeclareArrayConverter),
              Code(FormatDescriptionDecl(className, si.isObjectFormatFirst, Alias(si.deserializeName, className)))])
      && (si.formats != {} ==> |decls| > 0 && Declares(decls[|decls| - 1].fragment, conv))
  {
    decls := ClassDeclarations(className, si);
    ConverterChoice(si.formats);
    DeclarationsShape(className, si);
  }

  /** The converter a class's registrations name is the one its formats select. */
  lemma ConverterChoice(formats: set<Format>)
    ensures (if OBJECT in formats && ARRAY in formats then "description" else SingleFormatConverter(formats))
      == RegisteredConverter(formats)
  {
    FormatsByMembership(formats);
  }

  /** What a class declares, format by format. */
  lemma DeclarationsShape(className: string, si: StructInfo)
    ensures var decls := ClassDeclarations(className, si);
      && (forall p | p in decls :: p.Code? && !p.fragment.Register?)
      && (Code(DeclareObjectConverter) in decls <==> OBJECT in si.formats)
      && (Code(DeclareArrayConverter) in decls <==> ARRAY in si.formats)
      && (OBJECT in si.formats && ARRAY in si.formats ==>
            decls == [Code(DeclareObjectConverter), Code(DeclareArrayConverter),
              Code(FormatDescriptionDecl(className, si.isObjectFormatFirst, Alias(si.deserializeName, className)))])
      && (si.formats != {} ==> |decls| > 0 && Declares(decls[|decls| - 1].fragment, RegisteredConverter(si.formats)))
  {
    FormatsByMembership(si.formats);
  }

  /** The converter a declaration in `configure` introduces. */
  predicate Declares(f: Fragment, name: string) {
    || (f == DeclareObjectConverter && name == "objectConverter")
    || (f == DeclareArrayConverter && name == "arrayConverter")
    || (f.FormatDescriptionDecl? && name == "description")
    || (f == DeclareEnumConverter && name == "enumConverter")
  }

  /**
    For a class with at least one format and for an enum, every registration names a
    converter declared earlier in `configure`.
  */
  lemma RegisteredConvertersAreDeclared(className: string, si: StructInfo, typeExpr: string)
    requires (si.kind == CLASS && si.hasConstructor && si.hasAttributes && si.formats != {}) || si.kind == ENUM
    ensures var r := Registrations(className, si, typeExpr);
      forall i | 0 <= i < |r| && r[i].Code? && r[i].fragment.Register? ::
        exists j :: 0 <= j < i && r[j].Code? && Declares(r[j].fragment, r[i].fragment.converter)
  {
    var r := Registrations(className, si, typeExpr);
    if si.kind == ENUM {
      DeclaredBeforeUse(r, 0, "enumConverter");
    } else {
      var j := ClassDeclarationIndex(className, si, typeExpr);
      DeclaredBeforeUse(r, j, RegisteredConverter(si.formats));
    }
  }

  /** A declaration that precedes every registration, all of which use what it declares. */
  lemma DeclaredBeforeUse(r: seq<Piece>, j: nat, conv: string)
    requires j < |r| && r[j].Code? && Declares(r[j].fragment, conv)
    requires forall i | 0 <= i <= j :: !(r[i].Code? && r[i].fragment.Register?)
    requires forall i | 0 <= i < |r| && r[i].Code? && r[i].fragment.Register? :: r[i].fragment.converter == conv
    ensures forall i | 0 <= i < |r| && r[i].Code? && r[i].fragment.Register? ::
      exists k :: 0 <= k < i && r[k].Code? && Declares(r[k].fragment, r[i].fragment.converter)
  {
    forall i | 0 <= i < |r| && r[i].Code? && r[i].fragment.Register?
      ensures exists k :: 0 <= k < i && r[k].Code? && Declares(r[k].fragment, r[i].fragment.converter)
    {
      assert j < i;
    }
  }

  /** Where a class with a format declares the converter it registers. */
  lemma ClassDeclarationIndex(className: string, si: StructInfo, typeExpr: string) returns (j: nat)
    requires si.kind == CLASS && si.hasConstructor && si.hasAttributes && si.formats != {}
    ensures var r := Registrations(className, si, typeExpr);
      && j < |r| && r[j].Code? && Declares(r[j].fragment, RegisteredConverter(si.formats))
      && (forall i | 0 <= i <= j :: !(r[i].Code? && r[i].fragment.Register?))
      && (forall i | 0 <= i < |r| && r[i].Code? && r[i].fragment.Register? ::
            r[i].fragment.converter == RegisteredConverter(si.formats))
  {
    var decls := ClassShape(className, si, typeExpr);
    DeclarationBeforeRegistrations(decls, si.hasEmptyCtor, className + ".class", RegisteredConverter(si.formats));
    j := |decls| - 1;
  }

  /** Which registrations each kind of type gets in `configure`. */
  lemma RegistrationByKind(className: string, si: StructInfo, typeExpr: string)
    ensures var r := Registrations(className, si, typeExpr);
      && (Registers(r, Reader) <==> Registers(r, Writer))
      && (Registers(r, Writer) <==>
            (si.kind == CLASS && si.hasConstructor && si.hasAttributes) || si.kind == CONVERTER || si.kind == ENUM)
      && (si.kind == CONVERTER ==>
            && Code(Register(Writer, typeExpr, si.converter + "." + si.converterWriter)) in r
            && Code(Register(Reader, typeExpr, si.converter + "." + si.converterReader)) in r
            && !Registers(r, Binder))
      && (si.kind == ENUM ==>
            && Code(Register(Writer, className + ".class", "enumConverter")) in r
            && Code(Register(Reader, className + ".class", "enumConverter")) in r
            && !Registers(r, Binder))
      && (si.kind == MIXIN ==> r == [])
  {
    var r := Registrations(className, si, typeExpr);
    var cls := className + ".class";
    if si.kind == CLASS && si.hasConstructor && si.hasAttributes {
      ClassRegistration(className, si, typeExpr);
      assert Code(Register(Writer, cls, RegisteredConverter(si.formats))) in r;
      assert Code(Register(Reader, cls, RegisteredConverter(si.formats))) in r;
    } else if si.kind == CONVERTER {
      assert r[0].fragment.role == Writer && r[1].fragment.role == Reader;
    } else if si.kind == ENUM {
      assert r[1].fragment.role == Writer && r[2].fragment.role == Reader;
    }
  }

  /**
    A class with attributes gets, per requested format, the empty-constructor template
    when it has an empty constructor, otherwise the from-constructor template when it
    has a constructor; an enum gets the enum template; nothing else gets a template.
  */
  lemma TemplateSelection(className: string, si: StructInfo)
    ensures var t := Templates(className, si);
      var withAttributes := si.kind == CLASS && si.hasAttributes;
      && (Template(EmptyCtorObject(className)) in t <==> withAttributes && si.hasEmptyCtor && OBJECT in si.formats)
      && (Template(EmptyCtorArray(className)) in t <==> withAttributes && si.hasEmptyCtor && ARRAY in si.formats)
      && (Template(FromCtorObject(className)) in t <==>
            withAttributes && !si.hasEmptyCtor && si.hasConstructor && OBJECT in si.formats)
      && (Template(FromCtorArray(className)) in t <==>
            withAttributes && !si.hasEmptyCtor && si.hasConstructor && ARRAY in si.formats)
      && (Template(EnumCreate(className)) in t <==> si.kind == ENUM)
      && (forall p | p in t :: p.Template? && p.call.className == className)
  {
  }

  /**
    A class without attributes, which the processor skips, would get an empty
    `configure` and no converter: nothing is lost by skipping it.
  */
  lemma SkippedClassesWouldBeEmpty(className: string, si: StructInfo, typeExpr: string)
    requires !IsGenerated(si)
    ensures ConverterFile(className, si, typeExpr) == Header(si) + [Code(ConfigureClose), Code(ClassClose)]
  {
  }

  /**
    The implementations' entries are interleaved with separators: entry `i` sits at
    `2 * i` and is followed by a separator exactly when it is not the last one.
  */
  lemma {:induction false} MixinEntriesLayout(impls: seq<StructInfo>, k: nat)
    requires k <= |impls|
    ensures var e := MixinEntries(impls, k);
      && |e| == (if k == 0 then 0 else if k < |impls| then 2 * k else 2 * k - 1)
      && (forall i | 0 <= i < k :: e[2 * i] == Code(MixinEntry(impls[i])))
      && (forall i | 0 <= i < k && i + 1 < |impls| :: e[2 * i + 1] == Code(MixinSeparator))
  {
    if k > 0 {
      MixinEntriesLayout(impls, k - 1);
    }
  }

  /** The number of `",\n"` separators among `ps`. */
  function SeparatorCount(ps: seq<Piece>): nat {
    if ps == [] then 0
    else SeparatorCount(ps[..|ps| - 1]) + (if ps[|ps| - 1] == Code(MixinSeparator) then 1 else 0)
  }

  lemma {:induction false} SeparatorCountConcat(a: seq<Piece>, b: seq<Piece>)
    ensures SeparatorCount(a + b) == SeparatorCount(a) + SeparatorCount(b)
    decreases |b|
  {
    if b != [] {
      assert (a + b)[..|a + b| - 1] == a + b[..|b| - 1];
      SeparatorCountConcat(a, b[..|b| - 1]);
    } else {
      assert a + b == a;
    }
  }

  lemma {:induction false} EntriesSeparatorCount(impls: seq<StructInfo>, k: nat)
    requires k <= |impls|
    ensures SeparatorCount(MixinEntries(impls, k)) == (if k == 0 then 0 else if k < |impls| then k else k - 1)
  {
    if k > 0 {
      var prev := MixinEntries(impls, k - 1);
      var entry := Code(MixinEntry(impls[k - 1]));
      var sep: seq<Piece> := if k < |impls| then [Code(MixinSeparator)] else [];
      assert MixinEntries(impls, k) == prev + [entry] + sep;
      EntriesSeparatorCount(impls, k - 1);
      SeparatorCountConcat(prev, [entry]);
      SeparatorCountConcat(prev + [entry], sep);
      SeparatorCountSingle(entry);
      if k < |impls| {
        SeparatorCountSingle(Code(MixinSeparator));
      }
    }
  }

  lemma SeparatorCountSingle(p: Piece)
    ensures SeparatorCount([p]) == if p == Code(MixinSeparator) then 1 else 0
  {
    assert [p][..0] == [];
  }

  /**
    `n` implementations give a descriptor list of `n` entries and `n - 1` separators,
    the last entry being followed directly by the end of the list.
  */
  lemma MixinSeparators(writeOnly: bool, si: StructInfo, className: string)
    requires |si.implementations| > 0
    ensures var m := MixinSection(writeOnly, si, className);
      var n := |si.implementations|;
      && |m| > 2 * n
      && SeparatorCount(m) == n - 1
      && m[2 * n - 1] == Code(MixinEntry(si.implementations[n - 1]))
      && m[2 * n] == Code(MixinClose)
  {
    var n := |si.implementations|;
    var e := MixinEntries(si.implementations, n);
    var m := MixinSection(writeOnly, si, className);
    MixinEntriesLayout(si.implementations, n);
    EntriesSeparatorCount(si.implementations, n);
    var head: seq<Piece> := [Code(MixinOpen(MixinKindFor(writeOnly), className))];
    var tail: seq<Piece> := [Code(MixinClose)]
      + (if !writeOnly then [Code(Register(Reader, className + ".class", "description"))] else [])
      + [Code(Register(Writer, className + ".class", "description"))];
    assert m == head + e + tail;
    SeparatorCountConcat(head, e);
    SeparatorCountConcat(head + e, tail);
    assert SeparatorCount(head) == 0 by {
      assert head[..0] == [];
    }
    assert SeparatorCount(tail) == 0 by {
      assert forall i | 0 <= i < |tail| :: tail[i] != Code(MixinSeparator);
      NoSeparators(tail);
    }
  }

  lemma {:induction false} NoSeparators(ps: seq<Piece>)
    requires forall i | 0 <= i < |ps| :: ps[i] != Code(MixinSeparator)
    ensures SeparatorCount(ps) == 0
    decreases |ps|
  {
    if ps != [] {
      NoSeparators(ps[..|ps| - 1]);
    }
  }

  /**
    An implementation with both formats is listed by name; any other is described
    inline, with a converter in its object (array) slot exactly when it has the
    object (array) format, and its alias.
  */
  lemma MixinEntrySlots(im: StructInfo)
    ensures var f := MixinEntry(im);
      && (f.MixinNamedEntry? <==> OBJECT in im.formats && ARRAY in im.formats)
      && (f.MixinNamedEntry? ==> f.name == im.name)
      && (!f.MixinNamedEntry? ==>
            && f.MixinInlineEntry?
            && (f.objectConverter == None <==> OBJECT !in im.formats)
            && (f.arrayConverter == None <==> ARRAY !in im.formats)
            && (f.objectConverter.Some? ==> f.objectConverter.value == ConverterName(im))
            && (f.arrayConverter.Some? ==> f.arrayConverter.value == ConverterName(im))
            && f.objectFirst == im.isObjectFormatFirst
            && f.alias == (if im.deserializeName == "" then im.qualifiedName else im.deserializeName))
  {
  }

  /** Every piece of the descriptor list is an entry or a separator. */
  lemma {:induction false} EntriesAreEntries(impls: seq<StructInfo>, k: nat)
    requires k <= |impls|
    ensures forall p | p in MixinEntries(impls, k) ::
      p.Code? && (p.fragment.MixinNamedEntry? || p.fragment.MixinInlineEntry? || p.fragment == MixinSeparator)
  {
    if k > 0 {
      EntriesAreEntries(impls, k - 1);
    }
  }

  /**
    The mixin descriptor is always registered as writer, and as reader exactly when it
    is not write-only; its type is `MixinWriter` exactly when it is write-only.
  */
  lemma MixinRegistration(writeOnly: bool, si: StructInfo, className: string)
    ensures var m := MixinSection(writeOnly, si, className);
      var cls := className + ".class";
      && Code(Register(Writer, cls, "description")) in m
      && (Registers(m, Reader) <==> !writeOnly)
      && (Code(Register(Reader, cls, "description")) in m <==> !writeOnly)
      && (m[0] == Code(MixinOpen(MixinWriter, className)) <==> writeOnly)
      && (m[0] == Code(MixinOpen(MixinDescription, className)) <==> !writeOnly)
  {
    var m := MixinSection(writeOnly, si, className);
    var cls := className + ".class";
    var e := MixinEntries(si.implementations, |si.implementations|);
    EntriesAreEntries(si.implementations, |si.implementations|);
    if writeOnly {
      assert m == [Code(MixinOpen(MixinWriter, className))] + e + [Code(MixinClose)]
        + [Code(Register(Writer, cls, "description"))];
      assert !Registers(m, Reader);
    } else {
      assert Code(Register(Reader, cls, "description")) in m;
    }
  }

  /**
    A mixin that deserializes as a type with a single format registers a reader of
    that type's converter for the format, as one complete statement.
  */
  lemma DeserializeAsReader(si: StructInfo, typeExpr: string)
    requires si.kind == MIXIN && si.deserializeAs.Some?
    requires var formats := si.deserializeAs.value.formats; !(OBJECT in formats && ARRAY in formats)
    ensures var target := si.deserializeAs.value;
      var format := if OBJECT in target.formats then OBJECT else ARRAY;
      && DeserializeAsPart(si, typeExpr)
         == [Code(OpenReaderCall(typeExpr)), Code(TargetConverter(ConverterName(target), format))]
      && Render(OpenReaderCall(typeExpr)) + Render(TargetConverter(ConverterName(target), format))
         == "\t\tjson.registerReader(" + typeExpr + ", " + "new " + ConverterName(target)
            + (if format == OBJECT then ".ObjectFormatConverter(json));\n" else ".ArrayFormatConverter(json));\n")
  {
    var target := si.deserializeAs.value;
    var format := if OBJECT in target.formats then OBJECT else ARRAY;
    assert DeserializeAsPart(si, typeExpr)
      == [Code(OpenReaderCall(typeExpr)), Code(TargetConverter(ConverterName(target), format))];
    ReaderCallText(typeExpr, ConverterName(target), format);
  }

  lemma ReaderCallText(typeExpr: string, name: string, format: Format)
    ensures Render(OpenReaderCall(typeExpr)) + Render(TargetConverter(name, format))
      == "\t\tjson.registerReader(" + typeExpr + ", " + "new " + name
         + (if format == OBJECT then ".ObjectFormatConverter(json));\n" else ".ArrayFormatConverter(json));\n")
  {
  }

  lemma Adjacent<T>(s: seq<T>, p: seq<T>, a: T, b: T, q: seq<T>)
    requires s == p + [a, b] + q
    ensures 0 <= |p| < |s| - 1 && s[|p|] == a && s[|p| + 1] == b
  {
  }

  /**
    A mixin that deserializes as a type with both formats opens a `registerReader(`
    call that nothing completes: the end of `configure` follows it directly.
  */
  lemma DeserializeAsBothFormatsLeavesReaderOpen(className: string, si: StructInfo, typeExpr: string)
    requires si.kind == MIXIN && si.deserializeAs.Some?
    requires var formats := si.deserializeAs.value.formats; OBJECT in formats && ARRAY in formats
    ensures var f := ConverterFile(className, si, typeExpr);
      exists i :: 0 <= i < |f| - 1 && f[i] == Code(OpenReaderCall(typeExpr)) && f[i + 1] == Code(ConfigureClose)
    ensures Render(OpenReaderCall(typeExpr)) + Render(ConfigureClose)
      == "\t\tjson.registerReader(" + typeExpr + ", " + "\t}\n"
  {
    var f := ConverterFile(className, si, typeExpr);
    var before := OpenReaderFollowedByClose(className, si, typeExpr);
    Adjacent(f, before, Code(OpenReaderCall(typeExpr)), Code(ConfigureClose), Templates(className, si) + [Code(ClassClose)]);
    UnclosedReaderText(typeExpr);
  }

  lemma UnclosedReaderText(typeExpr: string)
    ensures Render(OpenReaderCall(typeExpr)) + Render(ConfigureClose)
      == "\t\tjson.registerReader(" + typeExpr + ", " + "\t}\n"
  {
  }

  /** With both target formats, the opened reader call is followed directly by the end of `configure`. */
  lemma OpenReaderFollowedByClose(className: string, si: StructInfo, typeExpr: string) returns (before: seq<Piece>)
    requires si.kind == MIXIN && si.deserializeAs.Some?
    requires var formats := si.deserializeAs.value.formats; OBJECT in formats && ARRAY in formats
    ensures ConverterFile(className, si, typeExpr)
      == before + [Code(OpenReaderCall(typeExpr)), Code(ConfigureClose)] + (Templates(className, si) + [Code(ClassClose)])
  {
    var h, r, m := Header(si), Registrations(className, si, typeExpr), MixinPart(className, si);
    var t := Templates(className, si);
    assert DeserializeAsPart(si, typeExpr) == [Code(OpenReaderCall(typeExpr))];
    before := h + r + m;
  }
}
