/**
 * The few pieces of Java and library semantics the correlation starter relies on:
 * nullable values, 32-bit `int` arithmetic, and `StringUtils.isBlank`.
 */
module Java {

  /** A Java reference that may be null: `None` stands for null. */
  datatype Option<+T> = None | Some(value: T)

  /** The exceptions the modelled code raises or lets through. */
  datatype Exception =
    | NullPointerException
    | IllegalArgumentException
    | IOException            // raised by an external collaborator (HTTP execution)

  /** A call that either returns a value or throws. */
  datatype Result<+T> = Ok(value: T) | Thrown(exception: Exception)

  const INT_MIN: int := -0x8000_0000
  const INT_MAX: int := 0x7fff_ffff
  const TWO_TO_32: int := 0x1_0000_0000

  /** Java's `int`. */
  newtype int32 = x: int | -0x8000_0000 <= x < 0x8000_0000

  /** `Integer.MIN_VALUE` and `Integer.MAX_VALUE`. */
  const MIN_VALUE: int32 := -0x8000_0000
  const MAX_VALUE: int32 := 0x7fff_ffff

  /**
   * Java's `a + b` on `int`: two's-complement addition that wraps around.
   * The result is the unique 32-bit value congruent to the mathematical sum modulo 2^32.
   */
  function AddInt(a: int32, b: int32): (r: int32)
    ensures (r as int - (a as int + b as int)) % TWO_TO_32 == 0
    ensures INT_MIN <= a as int + b as int <= INT_MAX ==> r as int == a as int + b as int
    ensures a as int + b as int > INT_MAX ==> r as int == a as int + b as int - TWO_TO_32
    ensures a as int + b as int < INT_MIN ==> r as int == a as int + b as int + TWO_TO_32
  {
    var sum := a as int + b as int;
    if sum > INT_MAX then (sum - TWO_TO_32) as int32
    else if sum < INT_MIN then (sum + TWO_TO_32) as int32
    else sum as int32
  }

  /**
   * `Character.isWhitespace`: the Unicode space, line and paragraph separators other than the
   * non-breaking spaces U+00A0, U+2007 and U+202F, plus the ASCII controls U+0009-U+000D and
   * U+001C-U+001F (current Unicode tables, where U+180E is no longer a space separator).
   */
  predicate IsWhitespace(c: char) {
    || c == '\U{20}' || c == '\U{1680}'
    || ('\U{9}' <= c <= '\U{D}')
    || ('\U{1C}' <= c <= '\U{1F}')
    || ('\U{2000}' <= c <= '\U{2006}')
    || ('\U{2008}' <= c <= '\U{200A}')
    || c == '\U{2028}' || c == '\U{2029}'
    || c == '\U{205F}' || c == '\U{3000}'
  }

  /** `StringUtils.isBlank`: null, empty, or made only of whitespace. */
  predicate IsBlank(s: Option<string>) {
    match s
    case None => true
    case Some(str) => forall i :: 0 <= i < |str| ==> IsWhitespace(str[i])
  }

  /** `StringUtils.stripStart(s, null)`: leading whitespace removed. */
  function StripStart(s: string): (r: string)
    ensures |r| <= |s| && r == s[|s| - |r|..]
    ensures forall i :: 0 <= i < |s| - |r| ==> IsWhitespace(s[i])
    ensures r != [] ==> !IsWhitespace(r[0])
  {
    if |s| > 0 && IsWhitespace(s[0]) then StripStart(s[1..]) else s
  }

  /** `StringUtils.stripEnd(s, null)`: trailing whitespace removed. */
  function StripEnd(s: string): (r: string)
    ensures |r| <= |s| && r == s[..|r|]
    ensures forall i :: |r| <= i < |s| ==> IsWhitespace(s[i])
    ensures r != [] ==> !IsWhitespace(r[|r| - 1])
  {
    if |s| > 0 && IsWhitespace(s[|s| - 1]) then StripEnd(s[..|s| - 1]) else s
  }

  /** `StringUtils.strip(s)`: whitespace removed from both ends. */
  function Strip(s: string): string {
    StripEnd(StripStart(s))
  }

  /**
   * Blankness two ways: a value is non-blank exactly when it is non-null and holds a
   * non-whitespace character, and exactly when `strip` leaves something of it.
   */
  lemma NonBlankHasVisibleCharacter(s: Option<string>)
    ensures !IsBlank(s) <==> s.Some? && exists i :: 0 <= i < |s.value| && !IsWhitespace(s.value[i])
    ensures s.Some? ==> (IsBlank(s) <==> Strip(s.value) == "")
  {
    if s.Some? {
      var str := s.value;
      var t := StripStart(str);
      if !IsBlank(s) {
        var i :| 0 <= i < |str| && !IsWhitespace(str[i]);
        assert t != [] && t[i - (|str| - |t|)] == str[i];
        assert StripEnd(t) != [];
      }
    }
  }

  /** A concatenation is blank exactly when both of its parts are. */
  lemma BlankConcatenation(a: string, b: string)
    ensures IsBlank(Some(a + b)) <==> IsBlank(Some(a)) && IsBlank(Some(b))
  {
    if IsBlank(Some(a + b)) {
      forall i | 0 <= i < |a|
        ensures IsWhitespace(a[i])
      {
        assert (a + b)[i] == a[i];
      }
      forall i | 0 <= i < |b|
        ensures IsWhitespace(b[i])
      {
        assert (a + b)[|a| + i] == b[i];
      }
    }
    if IsBlank(Some(a)) && IsBlank(Some(b)) {
      forall i | 0 <= i < |a + b|
        ensures IsWhitespace((a + b)[i])
      {
        if i >= |a| {
          assert (a + b)[i] == b[i - |a|];
        } else {
          assert (a + b)[i] == a[i];
        }
      }
    }
  }

  /** Blankness is not trimming: a non-blank value may still carry surrounding whitespace. */
  lemma PaddedValueIsNotBlank()
    ensures !IsBlank(Some(" id "))
    ensures IsBlank(Some(" \t")) && IsBlank(Some("")) && IsBlank(None)
  {
    assert !IsWhitespace(" id "[1]);
  }
}
