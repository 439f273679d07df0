/** The JavaScript string primitives the application relies on, over
    `seq<char>`: decimal printing and parsing, `padStart`, `split`/`join`,
    `trim`, ASCII `toLowerCase`, `includes` and character removal. */
module Text {
  import opened Common

  // ---------------------------------------------------------------------
  // Decimal digits

  predicate IsDigit(c: char)
  {
    '0' <= c <= '9'
  }

  predicate AllDigits(s: string)
  {
    forall i :: 0 <= i < |s| ==> IsDigit(s[i])
  }

  function DigitChar(d: nat): (c: char)
    requires d < 10
    ensures IsDigit(c) && c as int - '0' as int == d
  {
    ('0' as int + d) as char
  }

  /** The value of a string of decimal digits, most significant first. */
  function DigitsValue(s: string): nat
    requires AllDigits(s)
  {
    if s == [] then 0
    else DigitsValue(s[..|s| - 1]) * 10 + (s[|s| - 1] as int - '0' as int)
  }

  /** `String(n)` for a non-negative integer: its shortest decimal form. */
  function NatToString(n: nat): (r: string)
    ensures |r| >= 1 && AllDigits(r)
    ensures r[0] == '0' ==> n == 0
    decreases n
  {
    if n < 10 then [DigitChar(n)] else NatToString(n / 10) + [DigitChar(n % 10)]
  }

  /** `String(i)` for any integer. */
  function IntToString(i: int): string
  {
    if i < 0 then "-" + NatToString(-i) else NatToString(i)
  }

  /** A non-empty run of digits read as a natural number; anything else is None. */
  function ParseNat(s: string): (r: Option<nat>)
    ensures r.Some? <==> s != [] && AllDigits(s)
  {
    if s != [] && AllDigits(s) then Some(DigitsValue(s)) else None
  }

  lemma {:induction false} DigitsOfNatToString(n: nat)
    ensures DigitsValue(NatToString(n)) == n
    decreases n
  {
    var r := NatToString(n);
    if n >= 10 {
      DigitsOfNatToString(n / 10);
      assert r[..|r| - 1] == NatToString(n / 10);
    }
  }

  /** Printing a natural number and reading it back gives the number. */
  lemma NatToStringRoundTrip(n: nat)
    ensures ParseNat(NatToString(n)) == Some(n)
  {
    DigitsOfNatToString(n);
  }

  /** Leading zeros do not change the value of a digit string. */
  lemma {:induction false} LeadingZero(s: string)
    requires AllDigits(s)
    ensures AllDigits("0" + s) && DigitsValue("0" + s) == DigitsValue(s)
    decreases |s|
  {
    var z := "0" + s;
    if s != [] {
      assert z[..|z| - 1] == "0" + s[..|s| - 1];
      LeadingZero(s[..|s| - 1]);
    }
  }

  // ---------------------------------------------------------------------
  // padStart

  /** `s.padStart(width, c)`. */
  function PadStart(s: string, width: nat, c: char): (r: string)
    ensures |r| == if |s| >= width then |s| else width
    decreases width - |s|
  {
    if |s| >= width then s else PadStart([c] + s, width, c)
  }

  /** The padded string is `s` preceded by copies of `c` only. */
  lemma {:induction false} PadStartShape(s: string, width: nat, c: char)
    ensures var r := PadStart(s, width, c);
      r[|r| - |s|..] == s && forall i :: 0 <= i < |r| - |s| ==> r[i] == c
    decreases width - |s|
  {
    if |s| < width {
      PadStartShape([c] + s, width, c);
      var r := PadStart(s, width, c);
      assert r[|r| - |s| - 1..] == [c] + s;
      assert r[|r| - |s|..] == ([c] + s)[1..];
    }
  }

  /** Zero padding keeps a digit string's value. */
  lemma {:induction false} PaddedValue(s: string, width: nat)
    requires AllDigits(s)
    ensures AllDigits(PadStart(s, width, '0')) && DigitsValue(PadStart(s, width, '0')) == DigitsValue(s)
    decreases width - |s|
  {
    if |s| < width {
      LeadingZero(s);
      PaddedValue("0" + s, width);
    }
  }

  /** Numbers below 10, 100, 1000 and 10000 print with at most 1, 2, 3 and 4 digits. */
  lemma {:induction false} NatToStringLength(n: nat)
    ensures n < 10 ==> |NatToString(n)| == 1
    ensures n < 100 ==> |NatToString(n)| <= 2
    ensures n < 1000 ==> |NatToString(n)| <= 3
    ensures n < 10000 ==> |NatToString(n)| <= 4
  {
    if n >= 10 {
      NatToStringLength(n / 10);
    }
  }

  // ---------------------------------------------------------------------
  // split and join

  /** `s.split(sep)` for a one-character separator: never empty, one more
      part than there are separators. */
  function Split(s: string, sep: char): (r: seq<string>)
    ensures |r| >= 1
    ensures forall k :: 0 <= k < |r| ==> sep !in r[k]
  {
    if s == [] then [""]
    else
      var rest := Split(s[1..], sep);
      if s[0] == sep then [""] + rest
      else [[s[0]] + rest[0]] + rest[1..]
  }

  /** `parts.join(sep)`. */
  function Join(parts: seq<string>, sep: string): string
  {
    if parts == [] then ""
    else if |parts| == 1 then parts[0]
    else parts[0] + sep + Join(parts[1..], sep)
  }

  /** Joining the parts of a split restores the string. */
  lemma {:induction false} JoinSplit(s: string, sep: char)
    ensures Join(Split(s, sep), [sep]) == s
  {
    if s != [] {
      JoinSplit(s[1..], sep);
      var rest := Split(s[1..], sep);
      if s[0] != sep {
        var r := [[s[0]] + rest[0]] + rest[1..];
        if |rest| > 1 {
          assert r[1..] == rest[1..];
        }
      }
    }
  }

  /** Splitting a string extended by a separator adds an empty last part. */
  lemma {:induction false} SplitSnocSeparator(s: string, sep: char)
    ensures Split(s + [sep], sep) == Split(s, sep) + [""]
  {
    if s == [] {
      assert s + [sep] == [sep] && [sep][1..] == [];
    } else {
      var t := s[1..];
      assert (s + [sep])[1..] == t + [sep];
      SplitSnocSeparator(t, sep);
      var rest := Split(t, sep);
      if s[0] != sep {
        assert Split(s + [sep], sep) == [[s[0]] + rest[0]] + (rest + [""])[1..];
      }
    }
  }

  /** The parts with `c` appended to the last one. */
  function Extend(parts: seq<string>, c: char): (r: seq<string>)
    requires |parts| >= 1
    ensures |r| == |parts|
  {
    parts[..|parts| - 1] + [parts[|parts| - 1] + [c]]
  }

  lemma ExtendAfterEmpty(rest: seq<string>, c: char)
    requires |rest| >= 1
    ensures Extend([""] + rest, c) == [""] + Extend(rest, c)
  {
    var k := |rest| - 1;
    assert ([""] + rest)[..k + 1] == [""] + rest[..k];
  }

  lemma ExtendFirst(h: char, rest: seq<string>, c: char)
    requires |rest| >= 1
    ensures var e := Extend(rest, c);
      Extend([[h] + rest[0]] + rest[1..], c) == [[h] + e[0]] + e[1..]
  {
    var k := |rest| - 1;
    var e := Extend(rest, c);
    var parts := [[h] + rest[0]] + rest[1..];
    if k == 0 {
      assert [h] + (rest[0] + [c]) == ([h] + rest[0]) + [c];
    } else {
      assert e[0] == rest[0];
      assert e[1..] == rest[1..k] + [rest[k] + [c]];
      assert parts[..k] == [[h] + rest[0]] + rest[1..k];
    }
  }

  /** Splitting a string extended by another character extends its last part. */
  lemma {:induction false} SplitSnocOther(s: string, c: char, sep: char)
    requires c != sep
    ensures Split(s + [c], sep) == Extend(Split(s, sep), c)
  {
    if s == [] {
      assert s + [c] == [c] && [c][1..] == [];
      assert Split(s, sep) == [""];
      assert [c] + "" == [c] && "" + [c] == [c];
    } else {
      var t := s[1..];
      assert (s + [c])[1..] == t + [c];
      SplitSnocOther(t, c, sep);
      var rest := Split(t, sep);
      if s[0] == sep {
        ExtendAfterEmpty(rest, c);
      } else {
        ExtendFirst(s[0], rest, c);
      }
    }
  }

  /** A string without the separator splits into itself. */
  lemma {:induction false} SplitNoSeparator(s: string, sep: char)
    requires sep !in s
    ensures Split(s, sep) == [s]
  {
    if s != [] {
      SplitNoSeparator(s[1..], sep);
      assert [s[0]] + s[1..] == s;
    }
  }

  /** Splitting `a + sep + b`, where `a` has no separator, yields `a` first. */
  lemma {:induction false} SplitAtSeparator(a: string, b: string, sep: char)
    requires sep !in a
    ensures Split(a + [sep] + b, sep) == [a] + Split(b, sep)
  {
    if a == [] {
      assert a + [sep] + b == [sep] + b;
      assert ([sep] + b)[1..] == b;
    } else {
      assert (a + [sep] + b)[1..] == a[1..] + [sep] + b;
      SplitAtSeparator(a[1..], b, sep);
      assert [a[0]] + a[1..] == a;
      assert ([a[1..]] + Split(b, sep))[1..] == Split(b, sep);
    }
  }

  /** Three separator-free parts joined by the separator split back into
      themselves. */
  lemma SplitThree(a: string, b: string, c: string, sep: char)
    requires sep !in a && sep !in b && sep !in c
    ensures Split(a + [sep] + b + [sep] + c, sep) == [a, b, c]
  {
    assert a + [sep] + b + [sep] + c == a + [sep] + (b + [sep] + c);
    SplitAtSeparator(a, b + [sep] + c, sep);
    SplitAtSeparator(b, c, sep);
    SplitNoSeparator(c, sep);
  }

  /** Splitting a join of separator-free parts gives the parts back. */
  lemma {:induction false} SplitJoin(parts: seq<string>, sep: char)
    requires |parts| >= 1
    requires forall k :: 0 <= k < |parts| ==> sep !in parts[k]
    ensures Split(Join(parts, [sep]), sep) == parts
  {
    if |parts| == 1 {
      SplitNoSeparator(parts[0], sep);
    } else {
      SplitJoin(parts[1..], sep);
      SplitAtSeparator(parts[0], Join(parts[1..], [sep]), sep);
      assert parts == [parts[0]] + parts[1..];
    }
  }

  // ---------------------------------------------------------------------
  // trim

  /** The white-space characters `trim` removes (the ASCII ones). */
  const Spaces: set<char> := {' ', '\t', '\n', '\r', '\U{000B}', '\U{000C}'}

  predicate IsSpace(c: char)
  {
    c in Spaces
  }

  /** `s.trimStart()`. Its shape is `TrimStartShape`. */
  function TrimStart(s: string): (r: string)
    ensures |r| <= |s|
  {
    if s != [] && IsSpace(s[0]) then TrimStart(s[1..]) else s
  }

  /** `s.trimEnd()`. Its shape is `TrimEndShape`. */
  function TrimEnd(s: string): (r: string)
    ensures |r| <= |s|
  {
    if s != [] && IsSpace(s[|s| - 1]) then TrimEnd(s[..|s| - 1]) else s
  }

  /** `s.trim()`: the longest slice of `s` that neither starts nor ends with
      white space (`TrimShape`). */
  function Trim(s: string): (r: string)
    ensures |r| <= |s|
  {
    TrimEnd(TrimStart(s))
  }

  /** `trimStart` drops a run of leading blanks and keeps the rest. */
  lemma {:induction false} TrimStartShape(s: string)
    ensures var r := TrimStart(s);
      r == s[|s| - |r|..] && (r != [] ==> !IsSpace(r[0]))
      && forall i :: 0 <= i < |s| - |r| ==> IsSpace(s[i])
  {
    if s != [] && IsSpace(s[0]) {
      TrimStartShape(s[1..]);
    }
  }

  /** `trimEnd` drops a run of trailing blanks and keeps the rest. */
  lemma {:induction false} TrimEndShape(s: string)
    ensures var r := TrimEnd(s);
      r == s[..|r|] && (r != [] ==> !IsSpace(r[|r| - 1]))
      && forall i :: |r| <= i < |s| ==> IsSpace(s[i])
  {
    if s != [] && IsSpace(s[|s| - 1]) {
      TrimEndShape(s[..|s| - 1]);
    }
  }

  /** What `Trim` removes is white space at both ends, and what it keeps is a
      contiguous slice of the input that neither starts nor ends with white
      space. */
  lemma TrimShape(s: string)
    ensures Trimmed(Trim(s))
    ensures |s| - |TrimStart(s)| + |Trim(s)| <= |s|
    ensures forall i :: 0 <= i < |Trim(s)| ==> Trim(s)[i] == s[|s| - |TrimStart(s)| + i]
    ensures forall i :: 0 <= i < |s| - |TrimStart(s)| ==> IsSpace(s[i])
    ensures forall i :: |s| - |TrimStart(s)| + |Trim(s)| <= i < |s| ==> IsSpace(s[i])
  {
    TrimBordersKept(s);
    TrimmedTrim(s);
  }

  lemma TrimmedTrim(s: string)
    ensures Trimmed(Trim(s))
  {
    var t := TrimStart(s);
    var r := TrimEnd(t);
    TrimStartShape(s);
    TrimEndShape(t);
    if r != [] {
      assert r[0] == t[0];
    }
  }

  lemma TrimBordersKept(s: string)
    ensures |s| - |TrimStart(s)| + |Trim(s)| <= |s|
    ensures forall i :: 0 <= i < |Trim(s)| ==> Trim(s)[i] == s[|s| - |TrimStart(s)| + i]
    ensures forall i :: 0 <= i < |s| - |TrimStart(s)| ==> IsSpace(s[i])
    ensures forall i :: |s| - |TrimStart(s)| + |Trim(s)| <= i < |s| ==> IsSpace(s[i])
  {
    var t := TrimStart(s);
    TrimStartShape(s);
    TrimEndShape(t);
    TrimParts(s, t, TrimEnd(t), |s| - |t|);
  }

  /** Dropping `k` leading blanks and then some trailing ones leaves a slice
      bordered by blanks on both sides. */
  lemma TrimParts(s: string, t: string, r: string, k: int)
    requires 0 <= k <= |s| && t == s[k..]
    requires forall i :: 0 <= i < k ==> IsSpace(s[i])
    requires |r| <= |t| && r == t[..|r|]
    requires forall i :: |r| <= i < |t| ==> IsSpace(t[i])
    ensures k + |r| <= |s|
    ensures forall i :: 0 <= i < |r| ==> r[i] == s[k + i]
    ensures forall i :: k + |r| <= i < |s| ==> IsSpace(s[i])
  {
    forall i | k + |r| <= i < |s|
      ensures IsSpace(s[i])
    {
      assert s[i] == t[i - k];
    }
  }

  predicate Trimmed(s: string)
  {
    s != [] ==> !IsSpace(s[0]) && !IsSpace(s[|s| - 1])
  }

  /** A string that is already trimmed is left alone. */
  lemma TrimOfTrimmed(s: string)
    requires Trimmed(s)
    ensures Trim(s) == s
  {
  }

  /** Trimming twice is trimming once. */
  lemma TrimIdempotent(s: string)
    ensures Trim(Trim(s)) == Trim(s)
  {
    TrimShape(s);
    TrimOfTrimmed(Trim(s));
  }

  /** Trimming introduces no character. */
  lemma TrimKeepsOut(s: string, c: char)
    requires c !in s
    ensures c !in Trim(s)
  {
    TrimShape(s);
  }

  // ---------------------------------------------------------------------
  // case, search, removal

  function LowerChar(c: char): (l: char)
    ensures 'A' <= c <= 'Z' ==> l as int == c as int + 32
    ensures !('A' <= c <= 'Z') ==> l == c
  {
    if 'A' <= c <= 'Z' then (c as int + 32) as char else c
  }

  /** `s.toLowerCase()` on ASCII letters. */
  function ToLower(s: string): (r: string)
    ensures |r| == |s|
    ensures forall i :: 0 <= i < |s| ==> r[i] == LowerChar(s[i])
  {
    if s == [] then [] else [LowerChar(s[0])] + ToLower(s[1..])
  }

  /** `s.startsWith(p)`. */
  predicate StartsWith(s: string, p: string)
  {
    |p| <= |s| && s[..|p|] == p
  }

  /** Does `sub` occur in `s` starting at index `i`? */
  predicate OccursAt(s: string, sub: string, i: int)
  {
    0 <= i <= |s| - |sub| && s[i..i + |sub|] == sub
  }

  /** `s.includes(sub)`, computed by trying every start position. */
  function Contains(s: string, sub: string): (b: bool)
    ensures b <==> exists i :: OccursAt(s, sub, i)
  {
    if StartsWith(s, sub) then
      assert OccursAt(s, sub, 0);
      true
    else if s == [] then false
    else
      var b := Contains(s[1..], sub);
      assert b ==> exists i :: OccursAt(s, sub, i) by {
        if b {
          var i :| OccursAt(s[1..], sub, i);
          assert s[i + 1..i + 1 + |sub|] == s[1..][i..i + |sub|];
          assert OccursAt(s, sub, i + 1);
        }
      }
      assert (exists i :: OccursAt(s, sub, i)) ==> b by {
        if exists i :: OccursAt(s, sub, i) {
          var i :| OccursAt(s, sub, i);
          assert i != 0;
          assert s[1..][i - 1..i - 1 + |sub|] == s[i..i + |sub|];
          assert OccursAt(s[1..], sub, i - 1);
        }
      }
      b
  }

  /** `s.replace(/[...]/g, '')`: every character of `drop` removed. */
  function RemoveChars(s: string, drop: set<char>): (r: string)
    ensures forall c :: c in r ==> c in s && c !in drop
    ensures forall c :: c in s && c !in drop ==> c in r
  {
    if s == [] then []
    else if s[0] in drop then RemoveChars(s[1..], drop)
    else [s[0]] + RemoveChars(s[1..], drop)
  }

  /** JavaScript's `Number(s)` (and the `.map(Number)` idiom) for strings that
      hold an integer: white space is trimmed, the empty string is 0, an
      optional sign may precede the digits; any other string is None (NaN or
      a fractional value, which the model does not represent). */
  function NumberOf(s: string): (r: Option<int>)
    ensures Trim(s) == "" ==> r == Some(0)
    ensures forall n: nat :: Trim(s) == NatToString(n) ==> r == Some(n)
  {
    var t := Trim(s);
    if t == "" then Some(0)
    else if t[0] == '-' || t[0] == '+' then
      match ParseNat(t[1..])
      case Some(n) => var v: int := if t[0] == '-' then 0 - (n as int) else n as int; Some(v)
      case None => None
    else
      assert forall n: nat :: t == NatToString(n) ==> ParseNat(t) == Some(n) by {
        forall n: nat | t == NatToString(n) ensures ParseNat(t) == Some(n) {
          NatToStringRoundTrip(n);
        }
      }
      match ParseNat(t)
      case Some(n) => Some(n)
      case None => None
  }
}
