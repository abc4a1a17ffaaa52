/**
  String primitives with the semantics of the Python built-ins the script uses:
  `str.strip`, `str.split(sep)`, `sep.join`, `in` on strings, `str.replace`,
  `str.isdigit`/`int` on decimal text and `f"{n}"` / `f"{n:02d}"`.
  Strings are `seq<char>`; a `char` is a Unicode scalar value, so lengths and
  slices count code points as Python's do.
*/
module Text {
  import opened Wrappers

  // ---------------------------------------------------------------------------
  // Whitespace and strip

  /** Python's `str.isspace` for one character, listed by code point. */
  predicate IsSpace(c: char) {
    var k := c as int;
    k == 32 || (9 <= k <= 13) || (28 <= k <= 31) || k == 0x85 || k == 0xA0
    || k == 0x1680 || (0x2000 <= k <= 0x200A) || k == 0x2028 || k == 0x2029
    || k == 0x202F || k == 0x205F || k == 0x3000
  }

  /** Neither end of `s` is whitespace. */
  predicate IsStripped(s: string) {
    s == [] || (!IsSpace(s[0]) && !IsSpace(s[|s| - 1]))
  }

  /** `s` with its leading whitespace removed. */
  function TrimStart(s: string): (r: string)
    ensures |r| <= |s|
  {
    if |s| > 0 && IsSpace(s[0]) then TrimStart(s[1..]) else s
  }

  /** TrimStart gives a suffix of `s` that does not start with whitespace, and drops only whitespace. */
  lemma {:induction false} TrimStartSpec(s: string)
    ensures var r := TrimStart(s);
      && r == s[|s| - |r|..]
      && (r == [] || !IsSpace(r[0]))
      && forall i :: 0 <= i < |s| - |r| ==> IsSpace(s[i])
  {
    if |s| > 0 && IsSpace(s[0]) {
      TrimStartSpec(s[1..]);
    }
  }

  /** `s` with its trailing whitespace removed. */
  function TrimEnd(s: string): (r: string)
    ensures |r| <= |s|
  {
    if |s| > 0 && IsSpace(s[|s| - 1]) then TrimEnd(s[..|s| - 1]) else s
  }

  /** TrimEnd gives a prefix of `s` that does not end with whitespace, and drops only whitespace. */
  lemma {:induction false} TrimEndSpec(s: string)
    ensures var r := TrimEnd(s);
      && r == s[..|r|]
      && (r == [] || !IsSpace(r[|r| - 1]))
      && forall i :: |r| <= i < |s| ==> IsSpace(s[i])
  {
    if |s| > 0 && IsSpace(s[|s| - 1]) {
      TrimEndSpec(s[..|s| - 1]);
    }
  }

  /** Python's `s.strip()`: the piece of `s` left after removing the whitespace at both ends. */
  function Strip(s: string): (r: string)
    ensures IsStripped(r)
    ensures |r| <= |s|
    ensures IsStripped(s) ==> r == s
  {
    TrimStartSpec(s);
    TrimEndSpec(TrimStart(s));
    TrimEnd(TrimStart(s))
  }

  /**
    What `Strip` keeps is one contiguous middle piece of `s`: everything before
    it and everything after it is whitespace, and nothing else is removed.
  */
  lemma StripKeepsMiddle(s: string)
    ensures var r, a := Strip(s), |s| - |TrimStart(s)|;
      && a + |r| <= |s| && r == s[a..a + |r|]
      && (forall i :: 0 <= i < a ==> IsSpace(s[i]))
      && (forall i :: a + |r| <= i < |s| ==> IsSpace(s[i]))
  {
    TrimStartSpec(s);
    TrimEndSpec(TrimStart(s));
  }

  /** Two strings without whitespace at their ends make one. */
  lemma {:induction false} StrippedConcat(x: string, y: string)
    requires IsStripped(x) && IsStripped(y)
    ensures IsStripped(x + y)
  {
    var xy := x + y;
    if xy != [] {
      assert xy[0] == if x != [] then x[0] else y[0];
      assert xy[|xy| - 1] == if y != [] then y[|y| - 1] else x[|x| - 1];
    }
  }

  /** Stripping is idempotent, and a string is left alone exactly when it is already stripped. */
  lemma {:induction false} StripFixpoint(s: string)
    ensures Strip(Strip(s)) == Strip(s)
    ensures Strip(s) == s <==> IsStripped(s)
  {
  }

  // ---------------------------------------------------------------------------
  // Substring search

  /** `sub` occurs in `s` starting at index `i`. */
  predicate OccursAt(s: string, sub: string, i: int) {
    0 <= i && i + |sub| <= |s| && s[i..i + |sub|] == sub
  }

  /** Python's `sub in s`. */
  predicate Contains(s: string, sub: string) {
    exists i | 0 <= i <= |s| :: OccursAt(s, sub, i)
  }

  /** The leftmost occurrence of `sub` in `s` at or after `from` (Python's `s.find(sub, from)`). */
  function FindFrom(s: string, sub: string, from: nat): (r: Option<nat>)
    decreases |s| - from
    ensures r.Some? ==> from <= r.value && OccursAt(s, sub, r.value)
    ensures r.Some? ==> forall j :: from <= j < r.value ==> !OccursAt(s, sub, j)
    ensures r.None? ==> forall j :: from <= j ==> !OccursAt(s, sub, j)
  {
    if from + |sub| > |s| then None
    else if s[from..from + |sub|] == sub then Some(from)
    else FindFrom(s, sub, from + 1)
  }

  /** `Contains` and the search agree. */
  lemma {:induction false} ContainsIffFound(s: string, sub: string)
    ensures Contains(s, sub) <==> FindFrom(s, sub, 0).Some?
  {
    var r := FindFrom(s, sub, 0);
    if r.Some? {
      assert OccursAt(s, sub, r.value);
    }
  }

  /** A string that occurs inside `a` occurs inside `a + b` and `b + a`. */
  lemma {:induction false} ContainsInConcat(a: string, b: string, sub: string)
    requires Contains(a, sub)
    ensures Contains(a + b, sub) && Contains(b + a, sub)
  {
    var i :| 0 <= i <= |a| && OccursAt(a, sub, i);
    assert (a + b)[i..i + |sub|] == a[i..i + |sub|];
    assert OccursAt(a + b, sub, i);
    assert (b + a)[|b| + i..|b| + i + |sub|] == a[i..i + |sub|];
    assert OccursAt(b + a, sub, |b| + i);
  }

  /** A string occurs in any string that starts with it. */
  lemma {:induction false} ContainsPrefix(s: string, sub: string)
    requires |sub| <= |s| && s[..|sub|] == sub
    ensures Contains(s, sub)
  {
    assert OccursAt(s, sub, 0);
  }

  /** Whatever occurs in the stripped string occurs in the original. */
  lemma {:induction false} ContainsStripped(s: string, sub: string)
    requires Contains(Strip(s), sub)
    ensures Contains(s, sub)
  {
    StripInside(s);
    ContainsTrans(s, Strip(s), sub);
  }

  /** No character of `s` is `c`. */
  predicate NoChar(s: string, c: char) {
    forall i :: 0 <= i < |s| ==> s[i] != c
  }

  /** A one-character string occurs exactly where that character does. */
  lemma {:induction false} NoCharIffAbsent(s: string, c: char)
    ensures NoChar(s, c) <==> !Contains(s, [c])
  {
    if !NoChar(s, c) {
      var i :| 0 <= i < |s| && s[i] == c;
      assert OccursAt(s, [c], i);
    }
    if Contains(s, [c]) {
      var i :| 0 <= i <= |s| && OccursAt(s, [c], i);
      assert s[i] == s[i..i + 1][0];
    }
  }

  /** A string lacking one of the characters of `sub` does not contain `sub`. */
  lemma {:induction false} MissingCharExcludes(s: string, sub: string, i: nat)
    requires i < |sub| && NoChar(s, sub[i])
    ensures !Contains(s, sub)
  {
    forall j | 0 <= j <= |s| ensures !OccursAt(s, sub, j) {
      if j + |sub| <= |s| {
        assert s[j..j + |sub|][i] == s[j + i];
      }
    }
  }

  /** Every string occurs in itself. */
  lemma {:induction false} ContainsSelf(s: string)
    ensures Contains(s, s)
  {
    assert OccursAt(s, s, 0);
  }

  /** Occurrence is transitive: what occurs in a part occurs in the whole. */
  lemma {:induction false} ContainsTrans(s: string, part: string, sub: string)
    requires Contains(s, part) && Contains(part, sub)
    ensures Contains(s, sub)
  {
    var i :| 0 <= i <= |s| && OccursAt(s, part, i);
    var k :| 0 <= k <= |part| && OccursAt(part, sub, k);
    assert s[i..i + |part|] == part;
    forall t | 0 <= t < |sub| ensures s[i + k + t] == sub[t] {
      assert sub[t] == part[k + t] == s[i..i + |part|][k + t];
    }
    assert s[i + k..i + k + |sub|] == sub;
    assert OccursAt(s, sub, i + k);
  }

  /** The stripped string sits inside the original. */
  lemma {:induction false} StripInside(s: string)
    ensures Contains(s, Strip(s))
  {
    var t := TrimStart(s);
    var r := TrimEnd(t);
    var d := |s| - |t|;
    TrimStartSpec(s);
    TrimEndSpec(t);
    assert r == s[d..d + |r|];
    assert OccursAt(s, r, d);
  }

  // ---------------------------------------------------------------------------
  // slicing

  function Min(a: int, b: int): int {
    if a <= b then a else b
  }

  /** Python's `s[:n]` for `n >= 0`. */
  function Take(s: string, n: nat): (r: string)
    ensures |r| == Min(n, |s|) && r == s[..|r|]
  {
    s[..Min(n, |s|)]
  }

  // ---------------------------------------------------------------------------
  // split / join

  /** Python's `s.split(sep)` for a non-empty separator: the pieces between leftmost, non-overlapping occurrences. */
  function Split(s: string, sep: string): (r: seq<string>)
    requires |sep| > 0
    decreases |s|
    ensures |r| >= 1
  {
    match FindFrom(s, sep, 0)
    case None => [s]
    case Some(i) => [s[..i]] + Split(s[i + |sep|..], sep)
  }

  /** Python's `sep.join(pieces)`. */
  function Join(pieces: seq<string>, sep: string): string
  {
    if |pieces| == 0 then ""
    else if |pieces| == 1 then pieces[0]
    else pieces[0] + sep + Join(pieces[1..], sep)
  }

  /** Splitting loses nothing: joining the pieces with the separator gives back the original string. */
  lemma {:induction false} JoinSplit(s: string, sep: string)
    requires |sep| > 0
    ensures Join(Split(s, sep), sep) == s
    decreases |s|
  {
    match FindFrom(s, sep, 0)
    case None =>
    case Some(i) =>
      var rest := s[i + |sep|..];
      var tail := Split(rest, sep);
      JoinSplit(rest, sep);
      assert Split(s, sep) == [s[..i]] + tail;
      assert ([s[..i]] + tail)[1..] == tail;
      assert Join(Split(s, sep), sep) == s[..i] + sep + Join(tail, sep);
      assert s[i..i + |sep|] == sep;
      assert s == s[..i] + s[i..i + |sep|] + rest;
  }

  /** No piece of a split contains the separator. */
  lemma {:induction false} SplitPiecesFree(s: string, sep: string)
    requires |sep| > 0
    ensures forall k :: 0 <= k < |Split(s, sep)| ==> !Contains(Split(s, sep)[k], sep)
    decreases |s|
  {
    var r := Split(s, sep);
    match FindFrom(s, sep, 0)
    case None =>
      if Contains(s, sep) {
        ContainsIffFound(s, sep);
      }
    case Some(i) =>
      var rest := s[i + |sep|..];
      SplitPiecesFree(rest, sep);
      if Contains(s[..i], sep) {
        var j :| 0 <= j <= i && OccursAt(s[..i], sep, j);
        assert s[j..j + |sep|] == s[..i][j..j + |sep|];
        assert OccursAt(s, sep, j);
      }
      forall k | 0 <= k < |r| ensures !Contains(r[k], sep) {
        if k > 0 {
          assert r[k] == Split(rest, sep)[k - 1];
        }
      }
  }

  /**
    `a` splits off cleanly in front of `sep`: no occurrence of `sep` in `a + sep`
    starts inside `a` (so `a` neither contains `sep` nor ends in a proper prefix of
    it that would run into the separator).
  */
  predicate SplitsCleanly(a: string, sep: string) {
    forall j :: 0 <= j < |a| ==> !OccursAt(a + sep, sep, j)
  }

  /** A piece that splits cleanly is the first field of `a + sep + b`. */
  lemma {:induction false} SplitCons(a: string, sep: string, b: string)
    requires |sep| > 0 && SplitsCleanly(a, sep)
    ensures Split(a + sep + b, sep) == [a] + Split(b, sep)
  {
    var s := a + sep + b;
    assert OccursAt(s, sep, |a|) by {
      assert s[|a|..|a| + |sep|] == sep;
    }
    forall j | 0 <= j < |a| ensures !OccursAt(s, sep, j) {
      assert !OccursAt(a + sep, sep, j);
      if j + |sep| <= |s| {
        assert s[j..j + |sep|] == (a + sep)[j..j + |sep|];
      }
    }
    var r := FindFrom(s, sep, 0);
    assert r == Some(|a|);
    assert s[..|a|] == a;
    assert s[|a| + |sep|..] == b;
  }

  /** A string without the separator splits into itself alone. */
  lemma {:induction false} SplitNone(s: string, sep: string)
    requires |sep| > 0 && !Contains(s, sep)
    ensures Split(s, sep) == [s]
  {
    ContainsIffFound(s, sep);
  }

  /** Each piece occurs in the joined string. */
  lemma {:induction false} PieceOfJoin(pieces: seq<string>, sep: string, k: nat)
    requires k < |pieces|
    ensures Contains(Join(pieces, sep), pieces[k])
    decreases |pieces|
  {
    var j := Join(pieces, sep);
    if |pieces| == 1 || k == 0 {
      assert OccursAt(j, pieces[0], 0);
    } else {
      PieceOfJoin(pieces[1..], sep, k - 1);
      assert j == (pieces[0] + sep) + Join(pieces[1..], sep);
      ContainsInConcat(Join(pieces[1..], sep), pieces[0] + sep, pieces[k]);
    }
  }

  /** Splitting undoes joining when every piece but the last splits cleanly and the last has no separator. */
  lemma {:induction false} SplitJoin(pieces: seq<string>, sep: string)
    requires |sep| > 0 && |pieces| >= 1
    requires forall k :: 0 <= k < |pieces| - 1 ==> SplitsCleanly(pieces[k], sep)
    requires !Contains(pieces[|pieces| - 1], sep)
    ensures Split(Join(pieces, sep), sep) == pieces
    decreases |pieces|
  {
    if |pieces| == 1 {
      SplitNone(pieces[0], sep);
    } else {
      SplitJoin(pieces[1..], sep);
      SplitCons(pieces[0], sep, Join(pieces[1..], sep));
    }
  }

  /** For a one-character separator, clean splitting just means the separator is absent. */
  lemma {:induction false} CleanSingle(a: string, c: char)
    requires !Contains(a, [c])
    ensures SplitsCleanly(a, [c])
  {
    forall j | 0 <= j < |a| ensures !OccursAt(a + [c], [c], j) {
      if OccursAt(a + [c], [c], j) {
        assert a[j..j + 1] == (a + [c])[j..j + 1];
        assert OccursAt(a, [c], j);
      }
    }
  }

  /** Three pieces that split off cleanly, followed by the rest, split into those pieces and then the rest. */
  lemma {:induction false} SplitThreeCons(x: string, y: string, z: string, sep: string, rest: string)
    requires |sep| > 0 && SplitsCleanly(x, sep) && SplitsCleanly(y, sep) && SplitsCleanly(z, sep)
    ensures Split(x + sep + (y + sep + (z + sep + rest)), sep) == [x, y, z] + Split(rest, sep)
    ensures var parts := Split(x + sep + (y + sep + (z + sep + rest)), sep);
      |parts| >= 3 && parts[0] == x && parts[1] == y && parts[2] == z
  {
    SplitCons(z, sep, rest);
    SplitCons(y, sep, z + sep + rest);
    SplitCons(x, sep, y + sep + (z + sep + rest));
  }

  /**
    For a separator made of one repeated character, a piece splits cleanly when it
    does not contain the separator and does not end with that character.
  */
  lemma {:induction false} CleanRepeated(a: string, sep: string)
    requires |sep| > 0 && forall k :: 0 <= k < |sep| ==> sep[k] == sep[0]
    requires !Contains(a, sep) && (a == [] || a[|a| - 1] != sep[0])
    ensures SplitsCleanly(a, sep)
  {
    forall j | 0 <= j < |a| ensures !OccursAt(a + sep, sep, j) {
      if j + |sep| <= |a| {
        assert (a + sep)[j..j + |sep|] == a[j..j + |sep|];
        assert !OccursAt(a, sep, j);
      } else {
        var k := |a| - 1 - j;
        assert (a + sep)[j..j + |sep|][k] == a[|a| - 1] != sep[k];
      }
    }
  }

  // ---------------------------------------------------------------------------
  // Character replacement

  /** Python's `s.replace(from, to)` for single-character `from` and `to`. */
  function ReplaceChar(s: string, from: char, to: char): (r: string)
    ensures |r| == |s|
    ensures forall i :: 0 <= i < |s| ==> r[i] == (if s[i] == from then to else s[i])
  {
    seq(|s|, i requires 0 <= i < |s| => if s[i] == from then to else s[i])
  }

  // ---------------------------------------------------------------------------
  // Decimal digits and numbers

  /** An ASCII decimal digit. */
  predicate IsDigit(c: char) {
    '0' <= c <= '9'
  }

  /** Every character is an ASCII decimal digit (Python's `isdigit`, restricted to ASCII, but true of ""). */
  predicate AllDigits(s: string) {
    forall i :: 0 <= i < |s| ==> IsDigit(s[i])
  }

  /** The value of a string of decimal digits (Python's `int(s)` on such a string). */
  function DecimalValue(s: string): nat
    requires AllDigits(s)
  {
    if s == [] then 0
    else DecimalValue(s[..|s| - 1]) * 10 + ((s[|s| - 1] as int) - ('0' as int))
  }

  /** The digit character for `d < 10`. */
  function DigitChar(d: nat): (c: char)
    requires d < 10
    ensures IsDigit(c) && (c as int) - ('0' as int) == d
  {
    (('0' as int) + d) as char
  }

  /** Python's `str(n)` for a natural number. */
  function NatToDecimal(n: nat): (r: string)
    ensures |r| >= 1 && AllDigits(r)
  {
    if n < 10 then [DigitChar(n)] else NatToDecimal(n / 10) + [DigitChar(n % 10)]
  }

  /** Reading back the decimal text of `n` gives `n`. */
  lemma {:induction false} DecimalRoundTrip(n: nat)
    ensures DecimalValue(NatToDecimal(n)) == n
  {
    var r := NatToDecimal(n);
    if n < 10 {
      assert r[..0] == [];
    } else {
      DecimalRoundTrip(n / 10);
      assert r[..|r| - 1] == NatToDecimal(n / 10);
    }
  }

  /** Python's `f"{n:02d}"`: zero-padded to two digits, wider numbers unpadded. */
  function ZeroPad2(n: nat): (r: string)
    ensures |r| >= 2 && AllDigits(r)
  {
    if n < 10 then "0" + NatToDecimal(n) else NatToDecimal(n)
  }

  /** The padded text still reads back as `n`. */
  lemma {:induction false} ZeroPad2RoundTrip(n: nat)
    ensures DecimalValue(ZeroPad2(n)) == n
  {
    DecimalRoundTrip(n);
    if n < 10 {
      var r := ZeroPad2(n);
      assert r[..|r| - 1] == "0";
      assert "0"[..0] == [];
    }
  }
}
