/**
 * The JavaScript string operations the screens rely on, over `seq<char>`:
 * `toLowerCase` (ASCII letters only), `includes`, `trim`, `split`, `join`,
 * `Number.prototype.toString` for integers and `parseInt` in base 10.
 */
module Text {

  // ---------------------------------------------------------------------------
  // Lower-casing and substring search

  function LowerChar(c: char): char {
    if 'A' <= c <= 'Z' then (c as int + 32) as char else c
  }

  function UpperChar(c: char): char {
    if 'a' <= c <= 'z' then (c as int - 32) as char else c
  }

  /** The text with its first letter upper-cased and the rest as it is. */
  function Capitalise(s: string): (r: string)
    ensures |r| == |s|
    ensures s != [] ==> r[0] == UpperChar(s[0]) && r[1..] == s[1..]
  {
    if s == [] then [] else [UpperChar(s[0])] + s[1..]
  }

  /** `toLowerCase`, restricted to the ASCII letters. */
  function Lower(s: string): (r: string)
    ensures |r| == |s|
    ensures forall i :: 0 <= i < |s| ==> r[i] == LowerChar(s[i])
    ensures forall i :: 0 <= i < |s| ==> !('A' <= r[i] <= 'Z')
  {
    if s == [] then [] else [LowerChar(s[0])] + Lower(s[1..])
  }

  /** Lower-casing twice is lower-casing once. */
  lemma LowerIdempotent(s: string)
    ensures Lower(Lower(s)) == Lower(s)
  {
    assert forall i :: 0 <= i < |s| ==> LowerChar(LowerChar(s[i])) == LowerChar(s[i]);
  }

  /** `t` occurs in `s` starting at position `i`. */
  predicate OccursAt(s: string, t: string, i: int) {
    0 <= i <= |s| - |t| && s[i..i + |t|] == t
  }

  /** `s.includes(t)`: `t` occurs in `s` as a contiguous block (the empty string occurs everywhere). */
  function Contains(s: string, t: string): (r: bool)
    ensures r <==> exists i :: OccursAt(s, t, i)
    decreases |s|
  {
    if |t| > |s| then false
    else if s[..|t|] == t then
      assert OccursAt(s, t, 0);
      true
    else
      var r := Contains(s[1..], t);
      assert r ==> exists i :: OccursAt(s, t, i) by {
        if r {
          var i :| OccursAt(s[1..], t, i);
          assert s[1..][i..i + |t|] == s[i + 1..i + 1 + |t|];
          assert OccursAt(s, t, i + 1);
        }
      }
      assert (exists i :: OccursAt(s, t, i)) ==> r by {
        if exists i :: OccursAt(s, t, i) {
          var i :| OccursAt(s, t, i);
          assert i != 0;
          assert s[1..][i - 1..i - 1 + |t|] == s[i..i + |t|];
          assert OccursAt(s[1..], t, i - 1);
        }
      }
      r
  }

  /** `a.toLowerCase().includes(b.toLowerCase())`: case-insensitive containment. */
  function ContainsCI(s: string, t: string): (r: bool)
    ensures t == "" ==> r
    ensures |t| > |s| ==> !r
  {
    assert t == "" ==> OccursAt(Lower(s), Lower(t), 0);
    Contains(Lower(s), Lower(t))
  }

  /** A case-insensitive search sees only the lower-cased text. */
  lemma ContainsCILowerInvariant(s: string, t: string)
    ensures ContainsCI(Lower(s), t) == ContainsCI(s, t)
    ensures ContainsCI(s, Lower(t)) == ContainsCI(s, t)
  {
    LowerIdempotent(s);
    LowerIdempotent(t);
  }

  /** A block of `s` is found in `s`, so a text always contains itself. */
  lemma ContainsSelf(s: string)
    ensures Contains(s, s) && ContainsCI(s, s)
  {
    assert OccursAt(s, s, 0);
    assert OccursAt(Lower(s), Lower(s), 0);
  }

  /** Lower-casing works character by character, so it distributes over concatenation. */
  lemma {:induction false} LowerAppend(a: string, b: string)
    ensures Lower(a + b) == Lower(a) + Lower(b)
  {
    var l, r := Lower(a + b), Lower(a) + Lower(b);
    forall i | 0 <= i < |l|
      ensures l[i] == r[i]
    {
      if i < |a| {
        assert (a + b)[i] == a[i] && r[i] == Lower(a)[i];
      } else {
        assert (a + b)[i] == b[i - |a|] && r[i] == Lower(b)[i - |a|];
      }
    }
  }

  /** Text appended after an occurrence does not hide it. */
  lemma ContainsAppend(s: string, u: string, w: string)
    requires Contains(s, w)
    ensures Contains(s + u, w)
  {
    var i :| OccursAt(s, w, i);
    assert (s + u)[i..i + |w|] == s[i..i + |w|];
    assert OccursAt(s + u, w, i);
  }

  // ---------------------------------------------------------------------------
  // Whitespace and trim

  /** The whitespace `trim` removes, restricted to the ASCII control and space characters. */
  predicate IsSpace(c: char) {
    c == ' ' || c == '\t' || c == '\n' || c == '\r' || c == '\U{0B}' || c == '\U{0C}'
  }

  function TrimStart(s: string): (r: string)
    ensures |r| <= |s| && r == s[|s| - |r|..]
    ensures r == [] || !IsSpace(r[0])
    ensures forall i :: 0 <= i < |s| - |r| ==> IsSpace(s[i])
  {
    if s != [] && IsSpace(s[0]) then TrimStart(s[1..]) else s
  }

  function TrimEnd(s: string): (r: string)
    ensures |r| <= |s| && r == s[..|r|]
    ensures r == [] || !IsSpace(r[|r| - 1])
    ensures forall i :: |r| <= i < |s| ==> IsSpace(s[i])
  {
    if s != [] && IsSpace(s[|s| - 1]) then TrimEnd(s[..|s| - 1]) else s
  }

  /** `r` is `s` with only whitespace removed before position `i` and after `r`. */
  predicate StripsTo(s: string, r: string, i: int) {
    OccursAt(s, r, i) &&
    (forall k :: 0 <= k < i ==> IsSpace(s[k])) &&
    (forall k :: i + |r| <= k < |s| ==> IsSpace(s[k]))
  }

  /** `trim`: `s` without its leading and trailing whitespace. */
  function Trim(s: string): (r: string)
    ensures r == [] || (!IsSpace(r[0]) && !IsSpace(r[|r| - 1]))
    ensures exists i :: StripsTo(s, r, i)
  {
    var a := TrimStart(s);
    var r := TrimEnd(a);
    assert r == s[|s| - |a|..|s| - |a| + |r|];
    assert StripsTo(s, r, |s| - |a|);
    r
  }

  /** A text is blank (trims to nothing) exactly when every character is whitespace. */
  lemma TrimEmptyIffBlank(s: string)
    ensures Trim(s) == [] <==> forall k :: 0 <= k < |s| ==> IsSpace(s[k])
  {
    var a := TrimStart(s);
    if forall k :: 0 <= k < |s| ==> IsSpace(s[k]) {
      assert a == [];
    }
    if Trim(s) == [] {
      assert forall k :: 0 <= k < |s| ==> IsSpace(s[k]) by {
        var i :| StripsTo(s, Trim(s), i);
      }
    }
  }

  /** One leading space in front of an already trimmed text is trimmed away again. */
  lemma TrimLeadingSpace(x: string)
    requires Trim(x) == x
    ensures Trim(" " + x) == x
  {
    assert (" " + x)[1..] == x;
    assert TrimStart(" " + x) == TrimStart(x);
    if x != [] {
      assert !IsSpace(x[0]);
      assert TrimStart(x) == x;
    }
  }

  // ---------------------------------------------------------------------------
  // split and join

  function Count(s: string, c: char): (n: nat)
    ensures n <= |s|
  {
    if s == [] then 0 else (if s[0] == c then 1 else 0) + Count(s[1..], c)
  }

  /** `s.split(c)` for a one-character separator: the pieces between separators, at least one. */
  function Split(s: string, c: char): (r: seq<string>)
    ensures |r| == Count(s, c) + 1
    ensures forall i :: 0 <= i < |r| ==> c !in r[i]
  {
    if s == [] then [""]
    else
      var rest := Split(s[1..], c);
      if s[0] == c then [""] + rest
      else [[s[0]] + rest[0]] + rest[1..]
  }

  /** `items.join(sep)`: the items with `sep` between neighbours; `""` for no items. */
  function Join(items: seq<string>, sep: string): (r: string)
  {
    if items == [] then ""
    else if |items| == 1 then items[0]
    else items[0] + sep + Join(items[1..], sep)
  }

  /** Joining the pieces with the separator gives back the text that was split. */
  lemma {:induction false} JoinSplit(s: string, c: char)
    ensures Join(Split(s, c), [c]) == s
  {
    if s != [] {
      JoinSplit(s[1..], c);
      var rest := Split(s[1..], c);
      if s[0] == c {
        assert Split(s, c) == [""] + rest;
        assert ([""] + rest)[1..] == rest;
        assert s == [c] + s[1..];
      } else {
        var r := Split(s, c);
        assert r[0] == [s[0]] + rest[0];
        if |rest| == 1 {
          assert r == [[s[0]] + rest[0]];
        } else {
          assert r[1..] == rest[1..];
          assert Join(rest, [c]) == rest[0] + [c] + Join(rest[1..], [c]);
        }
      }
    }
  }

  /** Splitting a join of separator-free items gives back the items. */
  lemma {:induction false} SplitJoin(items: seq<string>, c: char)
    requires |items| >= 1
    requires forall i :: 0 <= i < |items| ==> c !in items[i]
    ensures Split(Join(items, [c]), c) == items
  {
    if |items| == 1 {
      SplitFree(items[0], c);
    } else {
      SplitJoin(items[1..], c);
      var tail := Join(items[1..], [c]);
      SplitPrefix(items[0], [c] + tail, c);
      assert items[0] + [c] + tail == items[0] + ([c] + tail);
      assert ([c] + tail)[0] == c;
      assert ([c] + tail)[1..] == tail;
      assert Split([c] + tail, c) == [""] + items[1..];
      assert items[0] + "" == items[0];
      assert [items[0]] + items[1..] == items;
    }
  }

  /** A text without the separator splits into itself. */
  lemma {:induction false} SplitFree(s: string, c: char)
    requires c !in s
    ensures Split(s, c) == [s]
  {
    if s != [] {
      SplitFree(s[1..], c);
      assert s[0] != c;
      assert [s[0]] + s[1..] == s;
    }
  }

  /** A separator-free prefix is glued onto the first piece of what follows it. */
  lemma {:induction false} SplitPrefix(a: string, b: string, c: char)
    requires c !in a
    ensures Split(a + b, c) == [a + Split(b, c)[0]] + Split(b, c)[1..]
  {
    if a != [] {
      SplitPrefix(a[1..], b, c);
      assert a[0] != c;
      assert (a + b)[0] == a[0];
      assert (a + b)[1..] == a[1..] + b;
      var rest := Split(a[1..] + b, c);
      assert Split(a + b, c) == [[a[0]] + rest[0]] + rest[1..];
      assert [a[0]] + (a[1..] + Split(b, c)[0]) == a + Split(b, c)[0];
    } else {
      var r := Split(b, c);
      assert a + b == b;
      assert a + r[0] == r[0];
      assert [r[0]] + r[1..] == r;
    }
  }

  /** `s.split(c)[0]`: the text before the first `c`, or all of `s` when it has none. */
  function FirstPiece(s: string, c: char): (r: string)
    ensures c !in r
  {
    Split(s, c)[0]
  }

  /** The first piece is a prefix of the text, followed by the separator when it stops short. */
  lemma {:induction false} FirstPieceIsPrefix(s: string, c: char)
    ensures FirstPiece(s, c) <= s
    ensures |FirstPiece(s, c)| < |s| ==> s[|FirstPiece(s, c)|] == c
    ensures c !in s ==> FirstPiece(s, c) == s
  {
    if s != [] && s[0] != c {
      FirstPieceIsPrefix(s[1..], c);
      assert FirstPiece(s, c) == [s[0]] + FirstPiece(s[1..], c);
    }
  }

  /** Taking the first piece twice changes nothing. */
  lemma FirstPieceIdempotent(s: string, c: char)
    ensures FirstPiece(FirstPiece(s, c), c) == FirstPiece(s, c)
  {
    SplitFree(FirstPiece(s, c), c);
  }

  // ---------------------------------------------------------------------------
  // Decimal numbers

  predicate IsDigit(c: char) { '0' <= c <= '9' }

  function DigitChar(d: nat): (c: char)
    requires d < 10
    ensures IsDigit(c)
  {
    ('0' as int + d) as char
  }

  /** The value of a string of decimal digits, read most significant digit first. */
  function DigitsValue(d: string): nat
    requires forall i :: 0 <= i < |d| ==> IsDigit(d[i])
  {
    if d == [] then 0
    else
      assert IsDigit(d[|d| - 1]);
      DigitsValue(d[..|d| - 1]) * 10 + (d[|d| - 1] as int - '0' as int)
  }

  /** `n.toString()` for a natural number: its decimal digits, no leading zero. */
  function NatToString(n: nat): (r: string)
    ensures |r| >= 1
    ensures forall i :: 0 <= i < |r| ==> IsDigit(r[i])
    ensures |r| > 1 ==> r[0] != '0'
  {
    if n < 10 then [DigitChar(n)] else NatToString(n / 10) + [DigitChar(n % 10)]
  }

  /** `n.toString()` for an integer: a minus sign in front of a negative number's digits. */
  function IntToString(n: int): (r: string)
    ensures |r| >= 1
    ensures n >= 0 ==> r == NatToString(n)
    ensures n < 0 ==> r == "-" + NatToString(-n)
  {
    if n < 0 then "-" + NatToString(-n) else NatToString(n)
  }

  lemma {:induction false} NatToStringValue(n: nat)
    ensures DigitsValue(NatToString(n)) == n
  {
    if n >= 10 {
      NatToStringValue(n / 10);
      var r := NatToString(n);
      assert r[..|r| - 1] == NatToString(n / 10);
    }
  }

  /** Length of the longest prefix of `s` made of decimal digits. */
  function LeadingDigits(s: string): (k: nat)
    ensures k <= |s|
    ensures forall i :: 0 <= i < k ==> IsDigit(s[i])
    ensures k < |s| ==> !IsDigit(s[k])
  {
    if s != [] && IsDigit(s[0]) then 1 + LeadingDigits(s[1..]) else 0
  }

  /** What `parseInt` returns: a number or `NaN`. */
  datatype IntParse = NaN | Num(n: int)

  /**
   * `parseInt(s)` in base 10: leading whitespace is skipped, one optional sign is read,
   * then the longest run of digits; no digit at all gives `NaN`.
   */
  function ParseInt(s: string): (r: IntParse)
    ensures r.NaN? <==> LeadingDigits(SignStripped(TrimStart(s))) == 0
  {
    ParseSigned(TrimStart(s))
  }

  /** `parseInt` after the leading whitespace: an optional sign, then the run of digits. */
  function ParseSigned(t: string): (r: IntParse)
    ensures r.NaN? <==> LeadingDigits(SignStripped(t)) == 0
  {
    var u := SignStripped(t);
    var k := LeadingDigits(u);
    if k == 0 then NaN
    else
      var v: int := DigitsValue(u[..k]);
      Num(if t != [] && t[0] == '-' then -v else v)
  }

  function SignStripped(t: string): string {
    if t != [] && (t[0] == '-' || t[0] == '+') then t[1..] else t
  }

  /** Reading back an integer's decimal text gives the integer. */
  lemma ParseIntToString(n: int)
    ensures ParseInt(IntToString(n)) == Num(n)
  {
    var m: nat := if n < 0 then -n else n;
    NatToStringValue(m);
    if n < 0 {
      ParseNegatedDigits(NatToString(m));
    } else {
      ParseDigits(NatToString(m));
    }
  }

  /** A text that does not start with whitespace is left alone by `TrimStart`. */
  lemma TrimStartNoSpace(s: string)
    requires s == [] || !IsSpace(s[0])
    ensures TrimStart(s) == s
  {
  }

  /** A run of digits parses to its value. */
  lemma ParseDigits(d: string)
    requires |d| >= 1 && forall i :: 0 <= i < |d| ==> IsDigit(d[i])
    ensures ParseInt(d) == Num(DigitsValue(d))
  {
    assert IsDigit(d[0]);
    TrimStartNoSpace(d);
    ParseSignedDigits(d);
  }

  lemma ParseSignedDigits(d: string)
    requires |d| >= 1 && forall i :: 0 <= i < |d| ==> IsDigit(d[i])
    ensures ParseSigned(d) == Num(DigitsValue(d))
  {
    assert IsDigit(d[0]);
    assert d != [] && d[0] != '-' && d[0] != '+';
    assert SignStripped(d) == d;
    LeadingDigitsAll(d);
    assert d[..LeadingDigits(d)] == d;
    var v: int := DigitsValue(d);
    assert ParseSigned(d) == Num(v);
  }

  /** A minus sign followed by a run of digits parses to the negated value. */
  lemma ParseNegatedDigits(d: string)
    requires |d| >= 1 && forall i :: 0 <= i < |d| ==> IsDigit(d[i])
    ensures ParseInt("-" + d) == Num(-(DigitsValue(d) as int))
  {
    TrimStartNoSpace("-" + d);
    ParseSignedNegated(d);
  }

  lemma ParseSignedNegated(d: string)
    requires |d| >= 1 && forall i :: 0 <= i < |d| ==> IsDigit(d[i])
    ensures ParseSigned("-" + d) == Num(-(DigitsValue(d) as int))
  {
    var t := "-" + d;
    assert t[1..] == d;
    LeadingDigitsAll(d);
    assert d[..|d|] == d;
  }

  lemma {:induction false} LeadingDigitsAll(d: string)
    requires forall i :: 0 <= i < |d| ==> IsDigit(d[i])
    ensures LeadingDigits(d) == |d|
  {
    if d != [] {
      LeadingDigitsAll(d[1..]);
    }
  }
}
