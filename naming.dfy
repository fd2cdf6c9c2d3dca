/**
  The naming resolver: from the binary name of an analysed type to the fully
  qualified name of the converter class generated for it.
*/
module Naming {
  import opened Strings

  /** Appended to every generated converter's simple name. */
  const CONVERTER_SUFFIX := "_DslJsonConverter"
  /** Library-owned package that hosts converters for sealed and `java.` packages. */
  const DSL_PACKAGE := "dsl_json."

  /** The text after the last `.` (the whole name when there is no `.`). */
  function SimpleName(name: string): (r: string)
    ensures '.' !in r
    ensures '.' !in name ==> r == name
  {
    var dot := LastIndexOf(name, '.');
    assert dot == -1 ==> name[dot + 1..] == name;
    name[dot + 1..]
  }

  /** The text before the last `.`: the package of a qualified name. */
  function PackageName(name: string): (r: string)
    requires '.' in name
    ensures name == r + "." + SimpleName(name)
  {
    var dot := LastIndexOf(name, '.');
    assert name == name[..dot] + [name[dot]] + name[dot + 1..];
    name[..dot]
  }

  /** A name split at a `.` whose right part holds no `.` is split at its last `.`. */
  lemma SplitAtLastDot(name: string, pkg: string, simple: string)
    requires name == pkg + "." + simple && '.' !in simple
    ensures '.' in name && PackageName(name) == pkg && SimpleName(name) == simple
  {
    LastIndexOfJoin(name, pkg, '.', simple);
    assert name[|pkg|] == '.';
  }

  /**
    Whether the converter moves under `dsl_json.`: the package is sealed (a fact
    the processor obtains by reflection, here an input) or the name is in `java.`.
  */
  predicate UsesDslPackage(binaryName: string, packageSealed: bool) {
    packageSealed || StartsWith(binaryName, "java.")
  }

  /** `findConverterName`: `pkg.Cls` becomes `[dsl_json.]pkg._Cls_DslJsonConverter`. */
  function FindConverterName(binaryName: string, packageSealed: bool): (r: string)
    ensures EndsWith(r, CONVERTER_SUFFIX)
  {
    var dotIndex := LastIndexOf(binaryName, '.');
    var className := binaryName[dotIndex + 1..];
    if dotIndex == -1 then "_" + className + CONVERTER_SUFFIX
    else
      (if UsesDslPackage(binaryName, packageSealed) then DSL_PACKAGE else "")
      + binaryName[..dotIndex] + "._" + className + CONVERTER_SUFFIX
  }

  /** The simple name a converter gets: `_Cls_DslJsonConverter`; it holds no `.`. */
  function ConverterSimpleName(binaryName: string): (r: string)
    ensures '.' !in r
  {
    var s := SimpleName(binaryName);
    assert forall j | 0 <= j < |s| :: ("_" + s + CONVERTER_SUFFIX)[j + 1] == s[j];
    "_" + s + CONVERTER_SUFFIX
  }

  /** The package a converter gets when the type has one. */
  function ConverterPackage(binaryName: string, packageSealed: bool): string
    requires '.' in binaryName
  {
    (if UsesDslPackage(binaryName, packageSealed) then DSL_PACKAGE else "") + PackageName(binaryName)
  }

  /** A name without a package gives `_Name_DslJsonConverter`, with no package at all. */
  lemma ConverterNameWithoutPackage(binaryName: string, packageSealed: bool)
    requires '.' !in binaryName
    ensures FindConverterName(binaryName, packageSealed) == "_" + binaryName + "_DslJsonConverter"
    ensures FindConverterName(binaryName, packageSealed) == ConverterSimpleName(binaryName)
  {
    assert binaryName[0..] == binaryName;
  }

  /**
    A name with a package keeps its package (behind `dsl_json.` when moved) and
    its simple name becomes `_Cls_DslJsonConverter`.
  */
  lemma ConverterNameWithPackage(binaryName: string, packageSealed: bool)
    requires '.' in binaryName
    ensures var r := FindConverterName(binaryName, packageSealed);
      && r == ConverterPackage(binaryName, packageSealed) + "." + ConverterSimpleName(binaryName)
      && '.' in r
      && SimpleName(r) == "_" + SimpleName(binaryName) + CONVERTER_SUFFIX
      && PackageName(r) == ConverterPackage(binaryName, packageSealed)
  {
    var r := FindConverterName(binaryName, packageSealed);
    var pkg := ConverterPackage(binaryName, packageSealed);
    assert r == pkg + "." + ConverterSimpleName(binaryName);
    SplitAtLastDot(r, pkg, ConverterSimpleName(binaryName));
  }

  /**
    Unless the source package itself lies under `dsl_json.`, a converter name starts
    with `dsl_json.` exactly when the type has a package that is sealed or in `java.`.
  */
  lemma DslPrefixExactlyWhenMoved(binaryName: string, packageSealed: bool)
    requires !StartsWith(binaryName, DSL_PACKAGE)
    ensures StartsWith(FindConverterName(binaryName, packageSealed), DSL_PACKAGE)
        <==> '.' in binaryName && UsesDslPackage(binaryName, packageSealed)
  {
    if '.' !in binaryName {
      NoPackageNotUnderDsl(binaryName, packageSealed);
    } else if UsesDslPackage(binaryName, packageSealed) {
      MovedUnderDsl(binaryName, packageSealed);
    } else {
      KeptNotUnderDsl(binaryName, packageSealed);
    }
  }

  lemma NoPackageNotUnderDsl(binaryName: string, packageSealed: bool)
    requires '.' !in binaryName
    ensures !StartsWith(FindConverterName(binaryName, packageSealed), DSL_PACKAGE)
  {
    ConverterNameWithoutPackage(binaryName, packageSealed);
    var r := FindConverterName(binaryName, packageSealed);
    assert r[0] == '_';
  }

  lemma MovedUnderDsl(binaryName: string, packageSealed: bool)
    requires '.' in binaryName && UsesDslPackage(binaryName, packageSealed)
    ensures StartsWith(FindConverterName(binaryName, packageSealed), DSL_PACKAGE)
  {
    var r := FindConverterName(binaryName, packageSealed);
    ConverterNameWithPackage(binaryName, packageSealed);
    var cp := ConverterPackage(binaryName, packageSealed);
    var pkg := PackageName(binaryName);
    assert cp == DSL_PACKAGE + pkg;
    StartsWithConcat(r, cp + ".", ConverterSimpleName(binaryName));
    StartsWithConcat(cp + ".", cp, ".");
    StartsWithConcat(cp, DSL_PACKAGE, pkg);
    StartsWithTrans(r, cp + ".", cp);
    StartsWithTrans(r, cp, DSL_PACKAGE);
  }

  lemma KeptNotUnderDsl(binaryName: string, packageSealed: bool)
    requires !StartsWith(binaryName, DSL_PACKAGE)
    requires '.' in binaryName && !UsesDslPackage(binaryName, packageSealed)
    ensures !StartsWith(FindConverterName(binaryName, packageSealed), DSL_PACKAGE)
  {
    var r := FindConverterName(binaryName, packageSealed);
    ConverterNameWithPackage(binaryName, packageSealed);
    var pkg := PackageName(binaryName);
    assert ConverterPackage(binaryName, packageSealed) == pkg;
    NotUnderDsl(r, binaryName, pkg, ConverterSimpleName(binaryName), SimpleName(binaryName));
  }

  /** Two names sharing the prefix `pkg.` both start with `dsl_json.` or neither does. */
  lemma NotUnderDsl(r: string, b: string, pkg: string, t: string, u: string)
    requires r == pkg + "." + t && b == pkg + "." + u
    requires !StartsWith(b, DSL_PACKAGE)
    ensures !StartsWith(r, DSL_PACKAGE)
  {
    if |r| >= |DSL_PACKAGE| {
      if |pkg| < 8 {
        assert r[..|DSL_PACKAGE|][|pkg|] == '.' != DSL_PACKAGE[|pkg|];
      } else {
        assert r[..|DSL_PACKAGE|] == (pkg + ".")[..|DSL_PACKAGE|] == b[..|DSL_PACKAGE|];
      }
    }
  }

  /** `_x_DslJsonConverter` determines `x`. */
  lemma DecoratedNameCancels(x: string, y: string)
    requires "_" + x + CONVERTER_SUFFIX == "_" + y + CONVERTER_SUFFIX
    ensures x == y
  {
    var r := "_" + x + CONVERTER_SUFFIX;
    assert x == r[1..|r| - |CONVERTER_SUFFIX|] == y;
  }

  /** Equal converter packages come from equal source packages unless one is under `dsl_json.`. */
  lemma ConverterPackageCancels(pa: string, movedA: bool, sa: string, pb: string, movedB: bool, sb: string)
    requires (if movedA then DSL_PACKAGE else "") + pa == (if movedB then DSL_PACKAGE else "") + pb
    requires !StartsWith(pa + "." + sa, DSL_PACKAGE) && !StartsWith(pb + "." + sb, DSL_PACKAGE)
    ensures pa == pb
  {
    if movedA && !movedB {
      assert pb == DSL_PACKAGE + pa;
      StartsWithConcat(pb, DSL_PACKAGE, pa);
      StartsWithConcat(pb + "." + sb, pb, "." + sb);
      StartsWithTrans(pb + "." + sb, pb, DSL_PACKAGE);
    } else if movedB && !movedA {
      assert pa == DSL_PACKAGE + pb;
      StartsWithConcat(pa, DSL_PACKAGE, pb);
      StartsWithConcat(pa + "." + sa, pa, "." + sa);
      StartsWithTrans(pa + "." + sa, pa, DSL_PACKAGE);
    } else if movedA {
      var c := DSL_PACKAGE + pa;
      assert pa == c[|DSL_PACKAGE|..] == pb;
    } else {
      assert pa == "" + pa == "" + pb == pb;
    }
  }

  /**
    Distinct binary names get distinct converter names, as long as neither lies
    under the library-owned `dsl_json.` package.
  */
  lemma {:induction false} ConverterNameInjective(a: string, sealedA: bool, b: string, sealedB: bool)
    requires !StartsWith(a, DSL_PACKAGE) && !StartsWith(b, DSL_PACKAGE)
    requires FindConverterName(a, sealedA) == FindConverterName(b, sealedB)
    ensures a == b
  {
    if '.' !in a && '.' !in b {
      ConverterNameWithoutPackage(a, sealedA);
      ConverterNameWithoutPackage(b, sealedB);
      DecoratedNameCancels(a, b);
    } else if '.' !in a {
      ConverterNameWithoutPackage(a, sealedA);
      ConverterNameWithPackage(b, sealedB);
    } else if '.' !in b {
      ConverterNameWithoutPackage(b, sealedB);
      ConverterNameWithPackage(a, sealedA);
    } else {
      BothPackaged(a, sealedA, b, sealedB);
    }
  }

  lemma BothPackaged(a: string, sealedA: bool, b: string, sealedB: bool)
    requires '.' in a && '.' in b
    requires !StartsWith(a, DSL_PACKAGE) && !StartsWith(b, DSL_PACKAGE)
    requires FindConverterName(a, sealedA) == FindConverterName(b, sealedB)
    ensures a == b
  {
    ConverterNameWithPackage(a, sealedA);
    ConverterNameWithPackage(b, sealedB);
    var pa, pb := PackageName(a), PackageName(b);
    var sa, sb := SimpleName(a), SimpleName(b);
    DecoratedNameCancels(sa, sb);
    ConverterPackageCancels(pa, UsesDslPackage(a, sealedA), sa, pb, UsesDslPackage(b, sealedB), sb);
  }

  /**
    Without that proviso two types do share a converter name: a type `java.C` and
    a user type `dsl_json.java.C` (in an unsealed package) both get
    `dsl_json.java._C_DslJsonConverter`.
  */
  lemma ConverterNamesCollideUnderDslPackage(cls: string)
    requires '.' !in cls
    ensures FindConverterName("java" + "." + cls, false)
         == FindConverterName(DSL_PACKAGE + "java" + "." + cls, false)
  {
    var a, b := "java" + "." + cls, DSL_PACKAGE + "java" + "." + cls;
    SplitAtLastDot(a, "java", cls);
    SplitAtLastDot(b, DSL_PACKAGE + "java", cls);
    StartsWithConcat(a, "java" + ".", cls);
    assert "java" + "." == "java.";
    assert !StartsWith(b, "java.") by { assert b[0] != 'j'; }
    ConverterNameWithPackage(a, false);
    ConverterNameWithPackage(b, false);
    assert ConverterPackage(b, false) == "" + (DSL_PACKAGE + "java") == DSL_PACKAGE + "java";
  }
}
