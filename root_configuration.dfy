/**
  `buildRootConfiguration`: the optional root `Configuration` class that calls the
  `configure` method of every converter generated in the round. A root class that
  lives in a package cannot reach a converter in the default package; each such
  converter is reported and the round fails.
*/
module RootConfiguration {
  import opened Strings
  import opened Naming
  import opened Generated

  /** A generated converter: its qualified name and the binary name of its type. */
  datatype GeneratedEntry = GeneratedEntry(converterName: string, binaryName: string)

  /** The header of the root class: no `utf8` field, unlike a converter class. */
  function RootHeader(configurationName: string): seq<Piece> {
    var dot := LastIndexOf(configurationName, '.');
    (if dot != -1 then [Code(PackageDecl(configurationName[..dot]))] else [])
    + [Code(ClassOpen(configurationName[dot + 1..])), Code(OverrideMark), Code(ConfigureOpen)]
  }

  /** One `new K().configure(json);` line per entry, in order. */
  function ConfigureCalls(entries: seq<GeneratedEntry>): seq<Piece> {
    if entries == [] then []
    else ConfigureCalls(entries[..|entries| - 1]) + [Code(ConfigureCall(entries[|entries| - 1].converterName))]
  }

  /** Everything `buildRootConfiguration` writes; the class ends without a newline. */
  function RootFile(configurationName: string, entries: seq<GeneratedEntry>): seq<Piece> {
    RootHeader(configurationName) + ConfigureCalls(entries) + [Code(ConfigureClose), Code(RootClassClose)]
  }

  /** The error reported for a converter the packaged root class cannot reference. */
  datatype Unreachable = Unreachable(configurationName: string, binaryName: string)

  /** The configuration name the error message proposes instead: no package, in two parts. */
  const SuggestedConfigurationName := "dsl_json_Annotation_Processor" + "_External_Serialization"

  const MessageOpen := "Configuration file: '"
  const MessageMiddle := "' is not in the root package, but referenced element does not have a package specified: '"
  const MessageAdvice := "'. Use configuration name without package, eg: '"
  const MessageClose := "' to allow access to specified class."

  /** The text of the reported error. */
  function Message(d: Unreachable): string {
    MessageOpen + d.configurationName + MessageMiddle + d.binaryName
    + MessageAdvice + SuggestedConfigurationName + MessageClose
  }

  /** Whether the root class can reference the entry's converter. */
  predicate Reachable(configurationName: string, e: GeneratedEntry) {
    !('.' in configurationName && '.' !in e.converterName)
  }

  /** The errors reported over `entries`, in order. */
  function Reported(configurationName: string, entries: seq<GeneratedEntry>): seq<Unreachable> {
    if entries == [] then []
    else
      var last := entries[|entries| - 1];
      Reported(configurationName, entries[..|entries| - 1])
      + (if Reachable(configurationName, last) then [] else [Unreachable(configurationName, last.binaryName)])
  }

  /**
    Writes the root class and returns whether every entry is reachable, along with
    the errors reported on the way.
  */
  method BuildRootConfiguration(code: CodeWriter, configurationName: string, entries: seq<GeneratedEntry>)
    returns (allValid: bool, reported: seq<Unreachable>)
    modifies code
    ensures code.pieces == old(code.pieces) + RootFile(configurationName, entries)
    ensures reported == Reported(configurationName, entries)
    ensures allValid <==> forall e | e in entries :: Reachable(configurationName, e)
  {
    ghost var before := code.pieces;
    var hasNamespace := WriteRootHeader(code, configurationName);
    allValid, reported := WriteConfigureCalls(code, configurationName, hasNamespace, entries);
    ReportedExactlyUnreachable(configurationName, entries);
    code.Append(ConfigureClose);
    code.Append(RootClassClose);
    AppendedInOrder(before, RootHeader(configurationName), ConfigureCalls(entries), Code(ConfigureClose), Code(RootClassClose));
  }

  /** Appending the parts one after another builds the whole. */
  lemma AppendedInOrder<T>(before: seq<T>, header: seq<T>, body: seq<T>, x: T, y: T)
    ensures before + header + body + [x] + [y] == before + (header + body + [x, y])
  {
  }

  /** The loop over the entries: one configure call each, and an error for each unreachable one. */
  method WriteConfigureCalls(code: CodeWriter, configurationName: string, hasNamespace: bool, entries: seq<GeneratedEntry>)
    returns (allValid: bool, reported: seq<Unreachable>)
    requires hasNamespace <==> '.' in configurationName
    modifies code
    ensures code.pieces == old(code.pieces) + ConfigureCalls(entries)
    ensures reported == Reported(configurationName, entries)
    ensures allValid <==> reported == []
  {
    allValid := true;
    reported := [];
    var k := 0;
    while k < |entries|
      invariant 0 <= k <= |entries|
      invariant code.pieces == old(code.pieces) + ConfigureCalls(entries[..k])
      invariant reported == Reported(configurationName, entries[..k])
      invariant allValid <==> reported == []
    {
      var kv := entries[k];
      PrefixStep(configurationName, entries, k);
      if hasNamespace && '.' !in kv.converterName {
        reported := reported + [Unreachable(configurationName, kv.binaryName)];
        allValid := false;
      }
      code.Append(ConfigureCall(kv.converterName));
      k := k + 1;
    }
    assert entries[..k] == entries;
  }

  /** The package line, the class line and the start of `configure`; says whether there is a package. */
  method WriteRootHeader(code: CodeWriter, configurationName: string) returns (hasNamespace: bool)
    modifies code
    ensures code.pieces == old(code.pieces) + RootHeader(configurationName)
    ensures hasNamespace <==> '.' in configurationName
  {
    var dotIndex := LastIndexOf(configurationName, '.');
    var generateClassName := configurationName[dotIndex + 1..];
    hasNamespace := dotIndex != -1;
    if hasNamespace {
      code.Append(PackageDecl(configurationName[..dotIndex]));
    }
    code.Append(ClassOpen(generateClassName));
    code.Append(OverrideMark);
    code.Append(ConfigureOpen);
  }

  /** Extending the prefix by one entry adds its call and, when unreachable, its error. */
  lemma PrefixStep(configurationName: string, entries: seq<GeneratedEntry>, k: nat)
    requires k < |entries|
    ensures ConfigureCalls(entries[..k + 1]) == ConfigureCalls(entries[..k]) + [Code(ConfigureCall(entries[k].converterName))]
    ensures Reported(configurationName, entries[..k + 1]) == Reported(configurationName, entries[..k])
      + (if Reachable(configurationName, entries[k]) then [] else [Unreachable(configurationName, entries[k].binaryName)])
  {
    assert entries[..k + 1][..k] == entries[..k];
  }

  /** Entry `i` gets the `i`-th configure call: one per entry, valid or not. */
  lemma {:induction false} OneConfigureCallPerEntry(entries: seq<GeneratedEntry>)
    ensures var calls := ConfigureCalls(entries);
      && |calls| == |entries|
      && forall i | 0 <= i < |entries| :: calls[i] == Code(ConfigureCall(entries[i].converterName))
  {
    if entries != [] {
      var init := entries[..|entries| - 1];
      OneConfigureCallPerEntry(init);
      forall i | 0 <= i < |init| ensures init[i] == entries[i] { }
    }
  }

  /** The root class is written into the package before the last `.` of its name. */
  lemma RootPackageLine(configurationName: string, entries: seq<GeneratedEntry>)
    ensures var f := RootFile(configurationName, entries);
      && ('.' in configurationName ==>
            && f[0] == Code(PackageDecl(PackageName(configurationName)))
            && f[1] == Code(ClassOpen(SimpleName(configurationName))))
      && ('.' !in configurationName ==> f[0] == Code(ClassOpen(configurationName)))
      && f[|f| - 1] == Code(RootClassClose)
  {
    var h := RootHeader(configurationName);
    RootHeaderNames(configurationName);
    var f := RootFile(configurationName, entries);
    assert f == h + (ConfigureCalls(entries) + [Code(ConfigureClose), Code(RootClassClose)]);
    assert f[0] == h[0] && f[1] == h[1];
  }

  lemma RootHeaderNames(configurationName: string)
    ensures var h := RootHeader(configurationName);
      && |h| >= 3
      && ('.' in configurationName ==>
            && h[0] == Code(PackageDecl(PackageName(configurationName)))
            && h[1] == Code(ClassOpen(SimpleName(configurationName))))
      && ('.' !in configurationName ==> h[0] == Code(ClassOpen(configurationName)))
  {
    var dot := LastIndexOf(configurationName, '.');
    if '.' in configurationName {
      assert dot != -1;
      assert configurationName[..dot] == PackageName(configurationName);
      assert configurationName[dot + 1..] == SimpleName(configurationName);
    } else {
      assert dot == -1;
      assert configurationName[dot + 1..] == configurationName;
    }
  }

  /**
    The round fails exactly when errors are reported, and errors are reported
    exactly for unreachable entries: none at all when the root class has no package.
  */
  lemma {:induction false} ReportedExactlyUnreachable(configurationName: string, entries: seq<GeneratedEntry>)
    ensures |Reported(configurationName, entries)| <= |entries|
    ensures Reported(configurationName, entries) == [] <==>
      forall e | e in entries :: Reachable(configurationName, e)
    ensures '.' !in configurationName ==> Reported(configurationName, entries) == []
  {
    if entries != [] {
      var init := entries[..|entries| - 1];
      ReportedExactlyUnreachable(configurationName, init);
      assert entries == init + [entries[|entries| - 1]];
    }
  }

  /**
    A converter name has a package exactly when its type does, so the root class in a
    package fails exactly when some generated type is in the default package.
  */
  lemma ReachableByTypePackage(configurationName: string, binaryName: string, packageSealed: bool)
    ensures Reachable(configurationName, GeneratedEntry(FindConverterName(binaryName, packageSealed), binaryName))
        <==> !('.' in configurationName && '.' !in binaryName)
  {
    if '.' in binaryName {
      ConverterNameWithPackage(binaryName, packageSealed);
    } else {
      ConverterNameWithoutPackage(binaryName, packageSealed);
    }
  }

  /**
    Each reported error names the configuration and an unreachable entry's type, and
    the configuration name its message proposes would have made every entry reachable.
  */
  lemma ReportedMessagesAdvise(configurationName: string, entries: seq<GeneratedEntry>)
    ensures forall d | d in Reported(configurationName, entries) ::
      && StartsWith(Message(d), MessageOpen + configurationName + MessageMiddle)
      && exists e | e in entries :: !Reachable(configurationName, e) && e.binaryName == d.binaryName
    ensures forall d | d in Reported(configurationName, entries) ::
      EndsWith(Message(d), SuggestedConfigurationName + MessageClose)
    ensures Reported(SuggestedConfigurationName, entries) == []
  {
    ReportedAreUnreachable(configurationName, entries);
    forall d | d in Reported(configurationName, entries)
      ensures StartsWith(Message(d), MessageOpen + configurationName + MessageMiddle)
      ensures EndsWith(Message(d), SuggestedConfigurationName + MessageClose)
    {
      MessageFrame(d);
    }
    assert '.' !in SuggestedConfigurationName;
    ReportedExactlyUnreachable(SuggestedConfigurationName, entries);
  }

  /** Every reported error is for the configuration and for an unreachable entry. */
  lemma {:induction false} ReportedAreUnreachable(configurationName: string, entries: seq<GeneratedEntry>)
    ensures forall d | d in Reported(configurationName, entries) ::
      && d.configurationName == configurationName
      && exists e | e in entries :: !Reachable(configurationName, e) && e.binaryName == d.binaryName
  {
    if entries != [] {
      var init := entries[..|entries| - 1];
      ReportedAreUnreachable(configurationName, init);
      assert forall e | e in init :: e in entries;
      assert entries[|entries| - 1] in entries;
    }
  }

  /** A message opens with the quoted configuration name and closes with the advice. */
  lemma MessageFrame(d: Unreachable)
    ensures StartsWith(Message(d), MessageOpen + d.configurationName + MessageMiddle)
    ensures EndsWith(Message(d), SuggestedConfigurationName + MessageClose)
  {
    var head := MessageOpen + d.configurationName + MessageMiddle;
    var tail := SuggestedConfigurationName + MessageClose;
    var rest := d.binaryName + MessageAdvice;
    Regrouped(MessageOpen, d.configurationName, MessageMiddle, d.binaryName, MessageAdvice,
      SuggestedConfigurationName, MessageClose);
    Framed(Message(d), head, rest, tail);
  }

  /** Seven parts concatenated in order, grouped as three, two and two. */
  lemma Regrouped<T>(a: seq<T>, b: seq<T>, c: seq<T>, d: seq<T>, e: seq<T>, f: seq<T>, g: seq<T>)
    ensures a + b + c + d + e + f + g == (a + b + c) + (d + e) + (f + g)
  {
  }

  /** A concatenation starts with its first part and ends with its last. */
  lemma Framed(s: string, head: string, middle: string, tail: string)
    requires s == head + middle + tail
    ensures StartsWith(s, head) && EndsWith(s, tail)
  {
    assert s[..|head|] == head;
    assert s[|s| - |tail|..] == tail;
  }
}
