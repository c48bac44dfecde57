/** `str_to_wchar`: the null-terminated UTF-16 text every SDK text call takes. */
module WideText {
  import opened Wrappers
  import opened Utf16
  import opened LcdTypes

  /**
   * The wire form of `s`: its UTF-16 encoding and one 0 terminator, or `NullCharacter`
   * when the text holds U+0000 (which the SDK would read as an early end of text).
   */
  function WireText(s: string): (r: Result<seq<CodeUnit>, LcdError>)
    ensures r.Failure? <==> '\0' in s
    ensures r.Failure? ==> r.error == NullCharacter
    ensures r.Success? ==> |r.value| == |Encode(s)| + 1 && r.value[|r.value| - 1] == 0
    ensures r.Success? ==> forall i :: 0 <= i < |r.value| - 1 ==> r.value[i] != 0
    ensures r.Success? ==> Decode(r.value[..|r.value| - 1]) == Some(s)
  {
    ZeroUnitIffNul(s);
    DecodeEncode(s);
    var v := Encode(s);
    if 0 in v then
      Failure(NullCharacter)
    else
      assert (v + [0])[..|v|] == v;
      Success(v + [0])
  }

  /**
   * `str_to_wchar`: collect the encoding, scan it for a 0 unit (`iter().any`), then push
   * the terminator.
   */
  method StrToWchar(s: string) returns (r: Result<seq<CodeUnit>, LcdError>)
    ensures r == WireText(s)
  {
    var v := Encode(s);
    var i := 0;
    while i < |v|
      invariant 0 <= i <= |v|
      invariant forall j :: 0 <= j < i ==> v[j] != 0
    {
      if v[i] == 0 {
        return Failure(NullCharacter);
      }
      i := i + 1;
    }
    v := v + [0];
    return Success(v);
  }
}
