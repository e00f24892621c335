/** The `String.prototype` methods the site calls. A `string` here is a sequence of Unicode
    scalar values; JavaScript counts UTF-16 code units, so `length` and `substring` are written
    out in those units (a character above U+FFFF takes two). */
module JsString {
  import opened UnicodeTables

  predicate AllWhitespace(s: string) {
    forall i :: 0 <= i < |s| ==> IsJsWhitespace(s[i])
  }

  /** `s.toLowerCase()`: the Unicode lower-case mapping, character by character. */
  function ToLowerCase(s: string): (r: string)
    ensures forall i :: 0 <= i < |r| ==> !('A' <= r[i] <= 'Z')
  {
    if s == [] then []
    else (if s[0] == '\U{130}' then "i\U{307}" else [SimpleLower(s[0])]) + ToLowerCase(s[1..])
  }

  lemma {:induction false} ToLowerCaseConcat(a: string, b: string)
    ensures ToLowerCase(a + b) == ToLowerCase(a) + ToLowerCase(b)
  {
    if a == [] {
      assert a + b == b;
    } else {
      assert (a + b)[1..] == a[1..] + b;
      ToLowerCaseConcat(a[1..], b);
    }
  }

  /** A string without upper-case ASCII letters and without characters above U+007F is its
      own lower-case form. */
  lemma {:induction false} ToLowerCaseOfLowerAscii(s: string)
    requires forall i :: 0 <= i < |s| ==> s[i] < '\U{80}' && !('A' <= s[i] <= 'Z')
    ensures ToLowerCase(s) == s
  {
    if s != [] {
      ToLowerCaseOfLowerAscii(s[1..]);
    }
  }

  /** An ASCII string lower-cases character by character, to a string of the same length. */
  lemma {:induction false} ToLowerCaseOfAscii(s: string)
    requires forall i :: 0 <= i < |s| ==> s[i] < '\U{80}'
    ensures |ToLowerCase(s)| == |s|
    ensures forall i :: 0 <= i < |s| ==> ToLowerCase(s)[i] == SimpleLower(s[i])
  {
    if s != [] {
      ToLowerCaseOfAscii(s[1..]);
    }
  }

  /** One character other than U+0130 lower-cases to its simple lower-case form. */
  lemma ToLowerCaseOfChar(c: char)
    requires c != '\U{130}'
    ensures ToLowerCase([c]) == [SimpleLower(c)]
  {
    assert ToLowerCase([c]) == [SimpleLower(c)] + ToLowerCase([]);
  }

  /** Lower-casing never empties a string and never makes one up. */
  lemma ToLowerCaseEmptyIff(s: string)
    ensures ToLowerCase(s) == [] <==> s == []
  {
  }

  /** `s.replace(/x/g, y)` for single characters `x` and `y`. */
  function ReplaceChar(s: string, x: char, y: char): (r: string)
    ensures |r| == |s|
    ensures forall i :: 0 <= i < |s| ==> r[i] == if s[i] == x then y else s[i]
  {
    if s == [] then [] else [if s[0] == x then y else s[0]] + ReplaceChar(s[1..], x, y)
  }

  lemma {:induction false} ReplaceCharConcat(a: string, b: string, x: char, y: char)
    ensures ReplaceChar(a + b, x, y) == ReplaceChar(a, x, y) + ReplaceChar(b, x, y)
  {
    var l, r := ReplaceChar(a + b, x, y), ReplaceChar(a, x, y) + ReplaceChar(b, x, y);
    forall i | 0 <= i < |a + b| ensures l[i] == r[i] {
      if i < |a| {
        assert (a + b)[i] == a[i];
      } else {
        assert (a + b)[i] == b[i - |a|];
      }
    }
  }

  lemma ReplaceCharOfChar(c: char, x: char, y: char)
    ensures ReplaceChar([c], x, y) == [if c == x then y else c]
  {
    assert ReplaceChar([c], x, y) == [if c == x then y else c] + ReplaceChar([], x, y);
  }

  /** `s.trimStart()` */
  function TrimStart(s: string): (r: string)
    ensures r == [] || !IsJsWhitespace(r[0])
  {
    if s != [] && IsJsWhitespace(s[0]) then TrimStart(s[1..]) else s
  }

  /** `s.trimEnd()` */
  function TrimEnd(s: string): (r: string)
    ensures r == [] || !IsJsWhitespace(r[|r| - 1])
  {
    if s != [] && IsJsWhitespace(s[|s| - 1]) then TrimEnd(s[..|s| - 1]) else s
  }

  /** `s.trim()` */
  function Trim(s: string): string {
    TrimEnd(TrimStart(s))
  }

  lemma {:induction false} TrimStartConcat(a: string, b: string)
    ensures TrimStart(a + b) == if AllWhitespace(a) then TrimStart(b) else TrimStart(a) + b
  {
    if a == [] {
      assert a + b == b;
    } else {
      assert (a + b)[1..] == a[1..] + b;
      TrimStartConcat(a[1..], b);
      if IsJsWhitespace(a[0]) {
        assert AllWhitespace(a) == AllWhitespace(a[1..]);
      }
    }
  }

  lemma {:induction false} TrimEndAfterWhitespace(a: string, w: string)
    requires AllWhitespace(w)
    ensures TrimEnd(a + w) == TrimEnd(a)
    decreases |w|
  {
    if w == [] {
      assert a + w == a;
    } else {
      var w' := w[..|w| - 1];
      assert (a + w)[..|a + w| - 1] == a + w';
      TrimEndAfterWhitespace(a, w');
    }
  }

  lemma {:induction false} TrimStartOfWhitespace(w: string)
    requires AllWhitespace(w)
    ensures TrimStart(w) == []
  {
    if w != [] {
      TrimStartOfWhitespace(w[1..]);
    }
  }

  lemma {:induction false} TrimEndOfWhitespace(w: string)
    requires AllWhitespace(w)
    ensures TrimEnd(w) == []
    decreases |w|
  {
    if w != [] {
      TrimEndOfWhitespace(w[..|w| - 1]);
    }
  }

  /** White space around a string does not reach `trim()`'s result. */
  lemma TrimIgnoresSurroundingWhitespace(w1: string, s: string, w2: string)
    requires AllWhitespace(w1) && AllWhitespace(w2)
    ensures Trim(w1 + s + w2) == Trim(s)
  {
    assert w1 + s + w2 == w1 + (s + w2);
    TrimStartConcat(w1, s + w2);
    TrimStartConcat(s, w2);
    if AllWhitespace(s) {
      TrimStartOfWhitespace(s);
      TrimStartOfWhitespace(w2);
    } else {
      TrimEndAfterWhitespace(TrimStart(s), w2);
    }
  }

  /** A string that neither starts nor ends with white space is its own trim. */
  lemma TrimOfNonBlankEnds(s: string)
    requires s == [] || (!IsJsWhitespace(s[0]) && !IsJsWhitespace(s[|s| - 1]))
    ensures Trim(s) == s
  {
  }

  /** `s.startsWith(t)` */
  predicate StartsWith(s: string, t: string) {
    |t| <= |s| && s[..|t|] == t
  }

  /** `t` occurs in `s` starting at position `k`. */
  predicate OccursAt(s: string, t: string, k: int) {
    0 <= k && k + |t| <= |s| && s[k..k + |t|] == t
  }

  /** `s.includes(t)` */
  predicate Includes(s: string, t: string)
    decreases |s|
  {
    StartsWith(s, t) || (s != [] && Includes(s[1..], t))
  }

  /** `includes` holds exactly when there is a position at which `t` occurs. */
  lemma {:induction false} IncludesAt(s: string, t: string)
    ensures Includes(s, t) <==> exists k :: OccursAt(s, t, k)
    decreases |s|
  {
    if s != [] {
      IncludesAt(s[1..], t);
      if StartsWith(s, t) {
        assert OccursAt(s, t, 0);
      }
      if Includes(s[1..], t) {
        var k :| OccursAt(s[1..], t, k);
        assert OccursAt(s, t, k + 1);
      }
      if exists k :: OccursAt(s, t, k) {
        var k :| OccursAt(s, t, k);
        if k > 0 {
          assert OccursAt(s[1..], t, k - 1);
        } else {
          assert StartsWith(s, t);
        }
      }
    } else {
      if exists k :: OccursAt(s, t, k) {
        var k :| OccursAt(s, t, k);
        assert t == [];
      }
      if t == [] {
        assert OccursAt(s, t, 0);
      }
    }
  }

  /** Every string includes the empty string. */
  lemma IncludesEmpty(s: string)
    ensures Includes(s, [])
  {
    assert StartsWith(s, []);
  }
  /** The number of UTF-16 code units that encode `c`: a surrogate pair above U+FFFF, one unit
      otherwise. */
  function CodeUnits(c: char): nat {
    if c > '\U{FFFF}' then 2 else 1
  }

  /** `s.length`: the number of UTF-16 code units of `s`, which lies between the number of
      characters and twice that. */
  function Utf16Length(s: string): (r: nat)
    ensures |s| <= r <= 2 * |s|
  {
    if s == [] then 0 else CodeUnits(s[0]) + Utf16Length(s[1..])
  }

  /** Within the Basic Multilingual Plane every character is one code unit. */
  lemma {:induction false} Utf16LengthOfBmp(s: string)
    requires forall i :: 0 <= i < |s| ==> s[i] <= '\U{FFFF}'
    ensures Utf16Length(s) == |s|
  {
    if s != [] {
      Utf16LengthOfBmp(s[1..]);
    }
  }

  lemma {:induction false} Utf16LengthConcat(a: string, b: string)
    ensures Utf16Length(a + b) == Utf16Length(a) + Utf16Length(b)
  {
    if a == [] {
      assert a + b == b;
    } else {
      assert (a + b)[1..] == a[1..] + b;
      Utf16LengthConcat(a[1..], b);
    }
  }

  /** `s.substring(0, n)` where it does not cut a surrogate pair in two: the longest prefix of `s`
      of at most `n` code units. */
  function TakeCodeUnits(s: string, n: nat): (r: string)
    ensures |r| <= |s| && r == s[..|r|]
    ensures Utf16Length(r) <= n
    ensures |r| < |s| ==> n < Utf16Length(r) + CodeUnits(s[|r|])
  {
    if s == [] || n < CodeUnits(s[0]) then []
    else
      var rest := TakeCodeUnits(s[1..], n - CodeUnits(s[0]));
      assert ([s[0]] + rest)[1..] == rest;
      [s[0]] + rest
  }

  /** A string of at most `n` code units is taken whole. */
  lemma {:induction false} TakeCodeUnitsOfShort(s: string, n: nat)
    requires Utf16Length(s) <= n
    ensures TakeCodeUnits(s, n) == s
  {
    if s != [] {
      assert Utf16Length(s) == CodeUnits(s[0]) + Utf16Length(s[1..]);
      TakeCodeUnitsOfShort(s[1..], n - CodeUnits(s[0]));
      assert TakeCodeUnits(s, n) == [s[0]] + TakeCodeUnits(s[1..], n - CodeUnits(s[0]));
      assert s == [s[0]] + s[1..];
    }
  }

  /** Within the Basic Multilingual Plane, taking `n` code units is taking `n` characters. */
  lemma TakeCodeUnitsOfBmp(s: string, n: nat)
    requires forall i :: 0 <= i < |s| ==> s[i] <= '\U{FFFF}'
    ensures TakeCodeUnits(s, n) == s[..if n < |s| then n else |s|]
  {
    var r := TakeCodeUnits(s, n);
    Utf16LengthOfBmp(r);
  }
}
