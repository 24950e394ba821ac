// Shared vocabulary of the model: optional values, results, the character
// classes the validators use, trimming, and a few sequence operations that
// several pages and services apply (count, filter, update-by-match).
module Common {

  datatype Option<T> = None | Some(value: T)

  /** A call that either returns a value or fails with a message
      (a thrown exception on the Java side, an error toast on the client). */
  datatype Result<T> = Ok(value: T) | Err(error: string)

  /** An ASCII decimal digit, what `\d` matches in a JavaScript regex. */
  predicate IsDigit(c: char) { '0' <= c <= '9' }

  predicate IsAsciiLetter(c: char) { 'a' <= c <= 'z' || 'A' <= c <= 'Z' }

  /** What `\s` matches in a JavaScript regex, and what `String.trim` strips. */
  predicate IsJsSpace(c: char)
  {
    c == ' ' || c == '\t' || c == '\n' || c == '\r' || c == '\U{000B}' || c == '\U{000C}'
    || c == '\U{00A0}' || c == '\U{1680}' || ('\U{2000}' <= c <= '\U{200A}')
    || c == '\U{2028}' || c == '\U{2029}' || c == '\U{202F}' || c == '\U{205F}'
    || c == '\U{3000}' || c == '\U{FEFF}'
  }

  /** Java's `Character.isWhitespace` on the characters `String.isBlank` looks at. */
  predicate IsJavaWhitespace(c: char)
  {
    c == ' ' || c == '\t' || c == '\n' || c == '\r' || c == '\U{000B}' || c == '\U{000C}'
    || ('\U{001C}' <= c <= '\U{001F}') || c == '\U{1680}' || ('\U{2000}' <= c <= '\U{2006}')
    || ('\U{2008}' <= c <= '\U{200A}') || c == '\U{2028}' || c == '\U{2029}'
    || c == '\U{205F}' || c == '\U{3000}'
  }

  predicate AllDigits(s: string) { forall i :: 0 <= i < |s| ==> IsDigit(s[i]) }

  /** `s.replace(/\D/g, '')`: the digits of `s`, in order. */
  function DigitsOf(s: string): (r: string)
    ensures AllDigits(r) && |r| <= |s|
  {
    if s == [] then []
    else (if IsDigit(s[0]) then [s[0]] else []) + DigitsOf(s[1..])
  }

  lemma {:induction false} DigitsOfAppend(a: string, b: string)
    ensures DigitsOf(a + b) == DigitsOf(a) + DigitsOf(b)
  {
    if a != [] {
      assert (a + b)[0] == a[0] && (a + b)[1..] == a[1..] + b;
      DigitsOfAppend(a[1..], b);
    } else {
      assert a + b == b;
    }
  }

  /** Removing the non-digits of a string of digits changes nothing. */
  lemma {:induction false} DigitsOfDigits(s: string)
    requires AllDigits(s)
    ensures DigitsOf(s) == s
  {
    if s != [] { DigitsOfDigits(s[1..]); }
  }

  // ---- trimming -------------------------------------------------------------

  function TrimStart(s: string): (r: string)
    ensures |r| <= |s| && r == s[|s| - |r|..]
    ensures r == [] || !IsJsSpace(r[0])
  {
    if s != [] && IsJsSpace(s[0]) then TrimStart(s[1..]) else s
  }

  function TrimEnd(s: string): (r: string)
    ensures |r| <= |s| && r == s[..|r|]
    ensures r == [] || !IsJsSpace(r[|r| - 1])
  {
    if s != [] && IsJsSpace(s[|s| - 1]) then TrimEnd(s[..|s| - 1]) else s
  }

  /** JavaScript `String.prototype.trim`. */
  function JsTrim(s: string): string { TrimEnd(TrimStart(s)) }

  /** `!s.trim()`: the string is empty or all white space. */
  predicate JsBlank(s: string) { JsTrim(s) == [] }

  lemma {:induction false} JsBlankIffAllSpace(s: string)
    ensures JsBlank(s) <==> forall i :: 0 <= i < |s| ==> IsJsSpace(s[i])
  {
    if s != [] {
      if IsJsSpace(s[0]) {
        JsBlankIffAllSpace(s[1..]);
        assert forall i :: 1 <= i < |s| ==> s[i] == s[1..][i - 1];
      } else {
        assert TrimStart(s) == s;
        assert TrimEnd(s) != [] by {
          if TrimEnd(s) == [] {
            TrimEndEmptyAllSpace(s);
          }
        }
      }
    }
  }

  lemma {:induction false} TrimEndEmptyAllSpace(s: string)
    requires TrimEnd(s) == []
    ensures forall i :: 0 <= i < |s| ==> IsJsSpace(s[i])
  {
    if s != [] {
      TrimEndEmptyAllSpace(s[..|s| - 1]);
      assert forall i :: 0 <= i < |s| - 1 ==> s[i] == s[..|s| - 1][i];
    }
  }

  /** Java `String.isBlank`: empty, or white space only. */
  predicate JavaBlank(s: string) { forall i :: 0 <= i < |s| ==> IsJavaWhitespace(s[i]) }

  /** A Java string parameter that is null or blank. */
  predicate NullOrBlank(s: Option<string>) { s.None? || JavaBlank(s.value) }

  /** Java `String.trim`: strips every character up to U+0020 from both ends. */
  function JavaTrim(s: string): (r: string)
    ensures |r| <= |s|
    ensures r != [] ==> r[0] > ' ' && r[|r| - 1] > ' '
  {
    if s != [] && s[0] <= ' ' then JavaTrim(s[1..])
    else if s != [] && s[|s| - 1] <= ' ' then JavaTrim(s[..|s| - 1])
    else s
  }

  /** Cutting `s` down to `s[i..j]` removes only characters up to U+0020. */
  predicate CutsOnlySpace(s: string, i: int, j: int)
  {
    0 <= i <= j <= |s| && (forall k :: 0 <= k < i ==> s[k] <= ' ') && (forall k :: j <= k < |s| ==> s[k] <= ' ')
  }

  /** `trim` keeps one slice of the text: what it strips in front and behind is
      all at most U+0020. */
  lemma {:induction false} JavaTrimIsSlice(s: string)
    ensures exists i, j :: CutsOnlySpace(s, i, j) && JavaTrim(s) == s[i..j]
  {
    if s != [] && s[0] <= ' ' {
      var t := s[1..];
      JavaTrimIsSlice(t);
      var i, j :| CutsOnlySpace(t, i, j) && JavaTrim(t) == t[i..j];
      assert t[i..j] == s[i + 1..j + 1];
      assert CutsOnlySpace(s, i + 1, j + 1) by {
        assert forall k :: 1 <= k < |s| ==> s[k] == t[k - 1];
      }
    } else if s != [] && s[|s| - 1] <= ' ' {
      var t := s[..|s| - 1];
      JavaTrimIsSlice(t);
      var i, j :| CutsOnlySpace(t, i, j) && JavaTrim(t) == t[i..j];
      assert t[i..j] == s[i..j];
      assert CutsOnlySpace(s, i, j) by {
        assert forall k :: 0 <= k < |t| ==> s[k] == t[k];
      }
    } else {
      assert CutsOnlySpace(s, 0, |s|) && JavaTrim(s) == s[0..|s|];
    }
  }

  /** `s == null || s.trim().isEmpty()` */
  predicate NullOrTrimsEmpty(s: Option<string>) { s.None? || JavaTrim(s.value) == [] }

  /** `trim` leaves nothing exactly when every character is at most U+0020. */
  lemma {:induction false} JavaTrimEmptyIff(s: string)
    ensures JavaTrim(s) == [] <==> forall i :: 0 <= i < |s| ==> s[i] <= ' '
  {
    if s != [] && s[0] <= ' ' {
      JavaTrimEmptyIff(s[1..]);
      assert forall i :: 1 <= i < |s| ==> s[i] == s[1..][i - 1];
    } else if s != [] && s[|s| - 1] <= ' ' {
      JavaTrimEmptyIff(s[..|s| - 1]);
      assert s[..|s| - 1][0] == s[0];
    }
  }

  // ---- JavaScript truthiness ------------------------------------------------

  /** A string-valued property that is present and not the empty string. */
  predicate Truthy(o: Option<string>) { o.Some? && o.value != "" }

  /** `a || b` on two string-valued properties. */
  function Or(a: Option<string>, b: Option<string>): (r: Option<string>)
    ensures Truthy(a) ==> r == a
    ensures !Truthy(a) ==> r == b
  {
    if Truthy(a) then a else b
  }

  /** `a || b` with an always-present fallback. */
  function OrElse(a: Option<string>, fallback: string): (r: string)
    ensures Truthy(a) ==> r == a.value
    ensures !Truthy(a) ==> r == fallback
  {
    if Truthy(a) then a.value else fallback
  }

  /** A numeric property that is present and not 0. */
  predicate IntTruthy(o: Option<int>) { o.Some? && o.value != 0 }

  function OrInt(a: Option<int>, b: Option<int>): (r: Option<int>)
    ensures IntTruthy(a) ==> r == a
    ensures !IntTruthy(a) ==> r == b
  {
    if IntTruthy(a) then a else b
  }

  /** `s.equalsIgnoreCase(t)` for ASCII text. */
  function ToUpper(c: char): char { if 'a' <= c <= 'z' then (c as int - 32) as char else c }

  function UpperCase(s: string): (r: string)
    ensures |r| == |s| && forall i :: 0 <= i < |s| ==> r[i] == ToUpper(s[i])
  {
    if s == [] then [] else [ToUpper(s[0])] + UpperCase(s[1..])
  }

  predicate EqualsIgnoreCase(s: string, t: string) { UpperCase(s) == UpperCase(t) }

  /** `word.equalsIgnoreCase(s)` for a fixed word, which is written here in
      upper case: `s` upper-cases to it. */
  predicate IsWordIgnoringCase(s: string, upperWord: string) { UpperCase(s) == upperWord }

  predicate StartsWith(s: string, prefix: string) { |prefix| <= |s| && s[..|prefix|] == prefix }

  /** `s.includes(sub)` / `s.contains(sub)`. */
  predicate Contains(s: string, sub: string)
  {
    StartsWith(s, sub) || (s != [] && Contains(s[1..], sub))
  }

  /** A JavaScript string's `.length`: UTF-16 code units, two for a character
      beyond U+FFFF. */
  function Utf16Length(s: string): (n: nat)
    ensures |s| <= n <= 2 * |s|
    ensures (forall i :: 0 <= i < |s| ==> s[i] as int <= 0xFFFF) ==> n == |s|
  {
    if s == [] then 0 else (if s[0] as int > 0xFFFF then 2 else 1) + Utf16Length(s[1..])
  }

  /** Three emoji are six code units long. */
  lemma Utf16LengthOfAstral()
    ensures Utf16Length("\U{1F600}\U{1F600}\U{1F600}") == 6
  {
  }

  // ---- numbers as text ------------------------------------------------------

  function DigitChar(d: int): char
    requires 0 <= d < 10
  {
    ('0' as int + d) as char
  }

  /** The decimal text of a natural number, as `String.valueOf` prints it. */
  function NatToString(n: nat): (r: string)
    ensures r != [] && AllDigits(r)
  {
    if n < 10 then [DigitChar(n)] else NatToString(n / 10) + [DigitChar(n % 10)]
  }

  function IntToString(n: int): string
  {
    if n < 0 then "-" + NatToString(-n) else NatToString(n)
  }

  /** The value of a run of decimal digits. */
  function DigitsValue(d: string): nat
    requires AllDigits(d)
  {
    if d == [] then 0 else DigitsValue(d[..|d| - 1]) * 10 + (d[|d| - 1] as int - '0' as int)
  }

  /** `Long.valueOf(s)`: an optional sign then one or more digits, anything else
      a NumberFormatException (None). */
  function ParseLong(s: string): (r: Option<int>)
    ensures r.Some? <==> var body := if s != [] && (s[0] == '-' || s[0] == '+') then s[1..] else s;
                         body != [] && AllDigits(body)
  {
    var body := if s != [] && (s[0] == '-' || s[0] == '+') then s[1..] else s;
    if body == [] || !AllDigits(body) then None
    else Some(if s[0] == '-' then -(DigitsValue(body) as int) else DigitsValue(body))
  }

  lemma {:induction false} DigitsValueOfNat(n: nat)
    ensures DigitsValue(NatToString(n)) == n
  {
    if n >= 10 {
      DigitsValueOfNat(n / 10);
      var s := NatToString(n / 10) + [DigitChar(n % 10)];
      assert s[..|s| - 1] == NatToString(n / 10);
    }
  }

  /** Reading back the decimal text of any number gives the number. */
  lemma ParseLongOfIntToString(n: int)
    ensures ParseLong(IntToString(n)) == Some(n)
  {
    if n < 0 {
      DigitsValueOfNat(-n);
      assert ("-" + NatToString(-n))[1..] == NatToString(-n);
    } else {
      DigitsValueOfNat(n);
    }
  }

  // ---- sequences ------------------------------------------------------------

  /** The number of elements satisfying `p` (a `filter(...).length`). */
  function Count<T>(s: seq<T>, p: T -> bool): (r: nat)
    ensures r <= |s|
  {
    if s == [] then 0 else (if p(s[0]) then 1 else 0) + Count(s[1..], p)
  }

  /** `s.filter(p)`, keeping order. */
  function Filter<T>(s: seq<T>, p: T -> bool): (r: seq<T>)
    ensures |r| == Count(s, p)
    ensures forall i :: 0 <= i < |r| ==> r[i] in s && p(r[i])
    ensures forall i :: 0 <= i < |s| && p(s[i]) ==> s[i] in r
  {
    if s == [] then []
    else (if p(s[0]) then [s[0]] else []) + Filter(s[1..], p)
  }

  /** Filtering distributes over concatenation. */
  lemma {:induction false} FilterAppend<T>(a: seq<T>, b: seq<T>, p: T -> bool)
    ensures Filter(a + b, p) == Filter(a, p) + Filter(b, p)
  {
    if a == [] {
      assert a + b == b;
    } else {
      assert (a + b)[0] == a[0];
      assert (a + b)[1..] == a[1..] + b;
      FilterAppend(a[1..], b, p);
    }
  }

  /** `s.stream().map(f).collect(...)` with a step that may throw: every
      result in order, or the exception of the first element that throws. */
  function MapAll<A, B>(s: seq<A>, f: A -> Result<B>): (r: Result<seq<B>>)
    ensures r.Ok? <==> forall i :: 0 <= i < |s| ==> f(s[i]).Ok?
    ensures r.Ok? ==> |r.value| == |s| && forall i :: 0 <= i < |s| ==> Ok(r.value[i]) == f(s[i])
    ensures r.Err? ==> exists i :: 0 <= i < |s| && f(s[i]) == Err(r.error) && forall j :: 0 <= j < i ==> f(s[j]).Ok?
  {
    if s == [] then Ok([])
    else
      var rest := MapAll(s[1..], f);
      assert forall i :: 1 <= i < |s| ==> s[i] == s[1..][i - 1];
      match f(s[0])
      case Err(e) => Err(e)
      case Ok(d) =>
        if rest.Err? then
          var i :| 0 <= i < |s[1..]| && f(s[1..][i]) == Err(rest.error) && forall j :: 0 <= j < i ==> f(s[1..][j]).Ok?;
          assert f(s[i + 1]) == Err(rest.error);
          rest
        else Ok([d] + rest.value)
  }

  /** `s.map(x => matches(x) ? f(x) : x)`: the matching elements are replaced,
      every other element stays where and what it was. */
  function UpdateWhere<T>(s: seq<T>, matches: T -> bool, f: T -> T): (r: seq<T>)
    ensures |r| == |s|
    ensures forall i :: 0 <= i < |s| ==> r[i] == if matches(s[i]) then f(s[i]) else s[i]
  {
    if s == [] then [] else [if matches(s[0]) then f(s[0]) else s[0]] + UpdateWhere(s[1..], matches, f)
  }

  /** A weaker predicate counts at least as many elements. */
  lemma {:induction false} CountImplies<T>(s: seq<T>, p: T -> bool, q: T -> bool)
    requires forall x :: x in s && p(x) ==> q(x)
    ensures Count(s, p) <= Count(s, q)
  {
    if s != [] { CountImplies(s[1..], p, q); }
  }

  /** No element satisfies `p`: the count is zero. */
  lemma {:induction false} CountNone<T>(s: seq<T>, p: T -> bool)
    requires forall i :: 0 <= i < |s| ==> !p(s[i])
    ensures Count(s, p) == 0
  {
    if s != [] {
      assert forall i :: 0 <= i < |s[1..]| ==> s[1..][i] == s[i + 1];
      CountNone(s[1..], p);
    }
  }

  /** Two predicates no element satisfies both of count at most the whole list. */
  lemma {:induction false} CountSplit<T>(s: seq<T>, p: T -> bool, q: T -> bool)
    requires forall x :: x in s ==> !(p(x) && q(x))
    ensures Count(s, p) + Count(s, q) <= |s|
  {
    if s != [] { CountSplit(s[1..], p, q); }
  }
}
