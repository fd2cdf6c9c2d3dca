/**
  The types the runtime already handles: `process` asks a runtime `DslJson` for its
  registered encoders and decoders and keeps the names of the types that have both.
  Types are represented by their type names.
*/
module RuntimeTypes {
  /** The names of the types that have both an encoder and a decoder. */
  method KnownTypes(knownEncoders: seq<string>, knownDecoders: set<string>) returns (allTypes: set<string>)
    ensures allTypes == set t | t in knownEncoders && t in knownDecoders
    ensures allTypes <= knownDecoders
  {
    allTypes := {};
    var k := 0;
    while k < |knownEncoders|
      invariant 0 <= k <= |knownEncoders|
      invariant allTypes == set t | t in knownEncoders[..k] && t in knownDecoders
    {
      var t := knownEncoders[k];
      assert knownEncoders[..k + 1] == knownEncoders[..k] + [t];
      if t in knownDecoders {
        allTypes := allTypes + {t};
      }
      k := k + 1;
    }
    assert knownEncoders[..k] == knownEncoders;
  }
}
