/** NUL-terminated character strings as the native C++ code receives and writes them. */
module CStrings {

  /** A `const char*` argument: its characters up to, and without, the terminating NUL. */
  predicate IsCString(s: string) {
    '\0' !in s
  }

  /** `strcpy(buffer, s)`: the characters of `s` and then a NUL; nothing after them is touched. */
  method Strcpy(buffer: array<char>, s: string)
    requires |s| < buffer.Length
    modifies buffer
    ensures buffer[..|s| + 1] == s + ['\0']
    ensures buffer[|s| + 1..] == old(buffer[|s| + 1..])
  {
    var i := 0;
    while i < |s|
      invariant 0 <= i <= |s|
      invariant buffer[..i] == s[..i]
      invariant buffer[i..] == old(buffer[i..])
    {
      buffer[i] := s[i];
      i := i + 1;
    }
    buffer[|s|] := '\0';
    assert buffer[..|s| + 1] == buffer[..|s|] + [buffer[|s|]];
  }
}
