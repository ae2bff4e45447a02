/**
 * The C-string helpers of the expander. A C string argument is either a NULL pointer (None) or a
 * pointer to NUL-terminated text, of which the model keeps the characters before the terminator.
 * Where a helper works on a raw address it is a nat, 0 being NULL.
 */
module StringUtil {
  import opened Expander

  type CStr = Option<string>

  /** Addresses below this are never valid (the lowest 64 KB of a Win32 address space). */
  const MIN_VALID_POINTER: nat := 0x0001_0000

  // ---------------------------------------------------------------------------------------------
  // GetString / GetStringAddress

  /**
   * Both return the address they are given, except a non-NULL address below MIN_VALID_POINTER, for
   * which they report an error and return NULL. The result is therefore NULL or a valid address.
   */
  function CheckedPointer(p: nat): (r: nat)
    ensures r == 0 || r >= MIN_VALID_POINTER
    ensures p == 0 || p >= MIN_VALID_POINTER ==> r == p
    ensures 0 < p < MIN_VALID_POINTER ==> r == 0
  {
    if p != 0 && p < MIN_VALID_POINTER then 0 else p
  }

  lemma CheckedPointerIsIdempotent(p: nat)
    ensures CheckedPointer(CheckedPointer(p)) == CheckedPointer(p)
  {
  }

  // ---------------------------------------------------------------------------------------------
  // StringIsNull, StringCompare

  function StringIsNull(s: CStr): (r: bool)
    ensures r <==> s == None
  {
    !s.Some?
  }

  /** strcmp: the sign of the first differing character, compared as unsigned values, or 0. */
  function Strcmp(a: string, b: string): (r: int)
    ensures -1 <= r <= 1
  {
    if a == [] && b == [] then 0
    else if a == [] then -1
    else if b == [] then 1
    else if a[0] < b[0] then -1
    else if a[0] > b[0] then 1
    else Strcmp(a[1..], b[1..])
  }

  lemma {:induction false} StrcmpZeroIffEqual(a: string, b: string)
    ensures Strcmp(a, b) == 0 <==> a == b
  {
    if a != [] && b != [] && a[0] == b[0] {
      StrcmpZeroIffEqual(a[1..], b[1..]);
      assert a == [a[0]] + a[1..] && b == [b[0]] + b[1..];
    }
  }

  /** strcmp is antisymmetric: swapping the arguments flips the sign. */
  lemma {:induction false} StrcmpAntisymmetric(a: string, b: string)
    ensures Strcmp(b, a) == -Strcmp(a, b)
  {
    if a != [] && b != [] && a[0] == b[0] {
      StrcmpAntisymmetric(a[1..], b[1..]);
    }
  }

  /**
   * Two NULLs are equal, a NULL and a non-NULL string are not, and two strings are equal exactly
   * when their contents are.
   */
  function StringCompare(s1: CStr, s2: CStr): (r: bool)
    ensures r <==> s1 == s2
    ensures s1 == None && s2 == None ==> r
    ensures s1.None? != s2.None? ==> !r
  {
    match (s1, s2)
    case (None, None) => true
    case (None, Some(_)) => false
    case (Some(_), None) => false
    case (Some(a), Some(b)) =>
      StrcmpZeroIffEqual(a, b);
      Strcmp(a, b) == 0
  }

  // ---------------------------------------------------------------------------------------------
  // StringEndsWith

  /** Whether the call reported a warning (an unusable suffix argument). */
  datatype Answer = Answer(value: bool, warned: bool)

  /**
   * FALSE for a NULL string; FALSE with a warning for a NULL or empty suffix; otherwise whether the
   * string is at least as long as the suffix and its tail equals the suffix.
   */
  function StringEndsWith(str: CStr, suffix: CStr): (r: Answer)
    ensures str.None? ==> r == Answer(false, false)
    ensures str.Some? && (suffix.None? || suffix.value == []) ==> r == Answer(false, true)
    ensures str.Some? && suffix.Some? && suffix.value != [] ==>
              !r.warned && (r.value <==> exists head :: str.value == head + suffix.value)
  {
    match (str, suffix)
    case (None, _) => Answer(false, false)
    case (Some(_), None) => Answer(false, true)
    case (Some(s), Some(x)) =>
      if |x| == 0 then Answer(false, true)
      else if |s| >= |x| then
        var tail := s[|s| - |x|..];
        StrcmpZeroIffEqual(tail, x);
        if Strcmp(tail, x) == 0 then
          assert s == s[..|s| - |x|] + x;
          Answer(true, false)
        else
          EndsWithWitness(s, x);
          Answer(false, false)
      else
        EndsWithWitness(s, x);
        Answer(false, false)
  }

  /** If s is some head followed by x, then s is long enough and its tail is x. */
  lemma EndsWithWitness(s: string, x: string)
    ensures (exists head :: s == head + x) ==> |s| >= |x| && s[|s| - |x|..] == x
  {
    if exists head :: s == head + x {
      var head :| s == head + x;
      assert s[|s| - |x|..] == x;
    }
  }

  // ---------------------------------------------------------------------------------------------
  // Case mapping: tolower/toupper of the "C" locale, which map only the letters A-Z and a-z.

  function ToLower(c: char): (r: char)
    ensures 'A' <= c <= 'Z' ==> r as int == c as int + 32
    ensures !('A' <= c <= 'Z') ==> r == c
  {
    if 'A' <= c <= 'Z' then (c as int + 32) as char else c
  }

  function ToUpper(c: char): (r: char)
    ensures 'a' <= c <= 'z' ==> r as int == c as int - 32
    ensures !('a' <= c <= 'z') ==> r == c
  {
    if 'a' <= c <= 'z' then (c as int - 32) as char else c
  }

  /** The string with f applied to every character. */
  function MapChars(s: string, f: char -> char): string {
    if s == [] then [] else [f(s[0])] + MapChars(s[1..], f)
  }

  lemma {:induction false} MapCharsAt(s: string, f: char -> char)
    ensures |MapChars(s, f)| == |s|
    ensures forall k :: 0 <= k < |s| ==> MapChars(s, f)[k] == f(s[k])
  {
    if s != [] {
      MapCharsAt(s[1..], f);
    }
  }

  /** On a single character: lower-casing is idempotent, so is upper-casing, and lower-casing undoes upper-casing. */
  lemma CharCaseMapping(c: char)
    ensures ToLower(ToLower(c)) == ToLower(c)
    ensures ToUpper(ToUpper(c)) == ToUpper(c)
    ensures ToLower(ToUpper(c)) == ToLower(c)
  {
  }

  /** Lower-casing (upper-casing) twice is lower-casing (upper-casing) once. */
  lemma CaseMappingIsIdempotent(s: string)
    ensures MapChars(MapChars(s, ToLower), ToLower) == MapChars(s, ToLower)
    ensures MapChars(MapChars(s, ToUpper), ToUpper) == MapChars(s, ToUpper)
  {
    MapCharsAt(s, ToLower);
    MapCharsAt(MapChars(s, ToLower), ToLower);
    MapCharsAt(s, ToUpper);
    MapCharsAt(MapChars(s, ToUpper), ToUpper);
    forall k | 0 <= k < |s|
      ensures MapChars(MapChars(s, ToLower), ToLower)[k] == MapChars(s, ToLower)[k]
      ensures MapChars(MapChars(s, ToUpper), ToUpper)[k] == MapChars(s, ToUpper)[k]
    {
      CharCaseMapping(s[k]);
    }
  }

  /** Lower-casing after upper-casing is lower-casing: case information is lost, nothing else. */
  lemma LowerAfterUpperIsLower(s: string)
    ensures MapChars(MapChars(s, ToUpper), ToLower) == MapChars(s, ToLower)
  {
    MapCharsAt(s, ToUpper);
    MapCharsAt(MapChars(s, ToUpper), ToLower);
    MapCharsAt(s, ToLower);
    forall k | 0 <= k < |s|
      ensures MapChars(MapChars(s, ToUpper), ToLower)[k] == MapChars(s, ToLower)[k]
    {
      CharCaseMapping(s[k]);
    }
  }

  /** std::string form: rewrites every character of the buffer in place. */
  method MapInPlace(str: array<char>, f: char -> char)
    modifies str
    ensures str[..] == MapChars(old(str[..]), f)
  {
    ghost var before := str[..];
    var i := 0;
    while i < str.Length
      invariant 0 <= i <= str.Length
      invariant forall k :: 0 <= k < i ==> str[k] == f(before[k])
      invariant forall k :: i <= k < str.Length ==> str[k] == before[k]
    {
      str[i] := f(str[i]);
      i := i + 1;
    }
    MapCharsAt(before, f);
  }

  /** strlen: the position of the first NUL. */
  function Strlen(s: seq<char>): (n: nat)
    requires '\0' in s
    ensures n < |s| && s[n] == '\0' && '\0' !in s[..n]
  {
    if s[0] == '\0' then 0 else Strlen(s[1..]) + 1
  }

  /**
   * char* form: copies the text before the terminator into a std::string, maps that copy, and copies
   * it back with strcpy. The text is mapped, the terminator and anything after it stay as they were.
   */
  method MapCString(str: array<char>, f: char -> char)
    requires '\0' in str[..]
    modifies str
    ensures '\0' in old(str[..])
    ensures str[..] == MapChars(old(str[..])[..Strlen(old(str[..]))], f) + old(str[..])[Strlen(old(str[..]))..]
  {
    ghost var before := str[..];
    var n := Strlen(str[..]);
    // string s(str)
    var s := str[..n];
    var i := 0;
    while i < |s|
      invariant 0 <= i <= |s| == n
      invariant forall k :: 0 <= k < i ==> s[k] == f(before[k])
      invariant forall k :: i <= k < n ==> s[k] == before[k]
    {
      s := s[i := f(s[i])];
      i := i + 1;
    }
    // strcpy(str, s.c_str()): the n characters, then the terminator at position n again
    var j := 0;
    while j < n
      invariant 0 <= j <= n
      invariant forall k :: 0 <= k < j ==> str[k] == s[k]
      invariant forall k :: j <= k < str.Length ==> str[k] == before[k]
    {
      str[j] := s[j];
      j := j + 1;
    }
    str[n] := '\0';
    MapCharsAt(before[..n], f);
    assert str[..] == MapChars(before[..n], f) + before[n..];
  }

  method StrToLower(str: array<char>)
    requires '\0' in str[..]
    modifies str
    ensures '\0' in old(str[..])
    ensures str[..] == MapChars(old(str[..])[..Strlen(old(str[..]))], ToLower) + old(str[..])[Strlen(old(str[..]))..]
  {
    MapCString(str, ToLower);
  }

  method StrToUpper(str: array<char>)
    requires '\0' in str[..]
    modifies str
    ensures '\0' in old(str[..])
    ensures str[..] == MapChars(old(str[..])[..Strlen(old(str[..]))], ToUpper) + old(str[..])[Strlen(old(str[..]))..]
  {
    MapCString(str, ToUpper);
  }

  method StdStrToLower(str: array<char>)
    modifies str
    ensures str[..] == MapChars(old(str[..]), ToLower)
  {
    MapInPlace(str, ToLower);
  }

  method StdStrToUpper(str: array<char>)
    modifies str
    ensures str[..] == MapChars(old(str[..]), ToUpper)
  {
    MapInPlace(str, ToUpper);
  }
}
