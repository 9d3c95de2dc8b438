/**
 * String operations of the JavaScript/Python runtime that the project relies on:
 * `includes`, `split`, `join`, `trim`, `toLowerCase`, `encodeURIComponent` and
 * number-to-string conversion.
 */
module Text {

  // ---------------------------------------------------------------- includes

  predicate IsPrefix(p: string, s: string)
  {
    |p| <= |s| && s[..|p|] == p
  }

  /** `t` occurs in `s` at position `i`. */
  predicate OccursAt(s: string, t: string, i: int)
  {
    0 <= i && i + |t| <= |s| && s[i..i + |t|] == t
  }

  /** `s.includes(t)` / Python's `t in s`. */
  predicate Contains(s: string, t: string)
    decreases |s|
  {
    IsPrefix(t, s) || (|s| > 0 && Contains(s[1..], t))
  }

  /** `Contains` means: some occurrence exists. */
  lemma {:induction false} ContainsIff(s: string, t: string)
    ensures Contains(s, t) <==> exists i :: OccursAt(s, t, i)
    decreases |s|
  {
    if IsPrefix(t, s) {
      assert OccursAt(s, t, 0);
    } else if |s| > 0 {
      ContainsIff(s[1..], t);
      if Contains(s[1..], t) {
        var i :| OccursAt(s[1..], t, i);
        assert s[1..][i..i + |t|] == s[i + 1..i + 1 + |t|];
        assert OccursAt(s, t, i + 1);
      } else {
        forall i | OccursAt(s, t, i)
          ensures false
        {
          if i != 0 {
            assert s[1..][i - 1..i - 1 + |t|] == s[i..i + |t|];
            assert OccursAt(s[1..], t, i - 1);
          }
        }
      }
    } else {
      forall i | OccursAt(s, t, i)
        ensures false
      {
      }
    }
  }

  lemma ContainsAt(s: string, t: string, i: int)
    requires OccursAt(s, t, i)
    ensures Contains(s, t)
  {
    ContainsIff(s, t);
  }

  /** An occurrence is never longer than the text it occurs in. */
  lemma ContainsLength(s: string, t: string)
    requires Contains(s, t)
    ensures |t| <= |s|
  {
    ContainsIff(s, t);
  }

  /** If `s` lacks a character that `t` has, `t` does not occur in `s`. */
  lemma LacksChar(s: string, t: string, c: char)
    requires c !in s && c in t
    ensures !Contains(s, t)
  {
    ContainsIff(s, t);
  }

  lemma ContainsLeft(a: string, b: string, t: string)
    requires Contains(a, t)
    ensures Contains(a + b, t)
  {
    ContainsIff(a, t);
    var i :| OccursAt(a, t, i);
    assert (a + b)[i..i + |t|] == a[i..i + |t|];
    ContainsAt(a + b, t, i);
  }

  lemma ContainsRight(a: string, b: string, t: string)
    requires Contains(b, t)
    ensures Contains(a + b, t)
  {
    ContainsIff(b, t);
    var i :| OccursAt(b, t, i);
    assert (a + b)[|a| + i..|a| + i + |t|] == b[i..i + |t|];
    ContainsAt(a + b, t, |a| + i);
  }

  /** Where `t` occurs, so does every prefix of `t`. */
  lemma ContainsPrefixOf(s: string, t: string, u: string)
    requires Contains(s, t) && IsPrefix(u, t)
    ensures Contains(s, u)
  {
    ContainsIff(s, t);
    var i :| OccursAt(s, t, i);
    assert s[i..i + |u|] == t[..|u|];
    ContainsAt(s, u, i);
  }

  // ---------------------------------------------------------------- split / join

  /** `pieces.join(sep)` */
  function Join(pieces: seq<string>, sep: string): string
  {
    if |pieces| == 0 then ""
    else if |pieces| == 1 then pieces[0]
    else pieces[0] + sep + Join(pieces[1..], sep)
  }

  /**
   * `s.split(pat)` for a non-empty separator: the pieces between the occurrences of
   * `pat`, scanned from the left; there is always at least one piece.
   */
  function SplitOn(s: string, pat: string): (r: seq<string>)
    requires pat != []
    ensures |r| >= 1
    decreases |s|
  {
    if |s| < |pat| then [s]
    else if IsPrefix(pat, s) then [""] + SplitOn(s[|pat|..], pat)
    else
      var rest := SplitOn(s[1..], pat);
      [[s[0]] + rest[0]] + rest[1..]
  }

  lemma JoinCons(x: string, r: seq<string>, sep: string)
    requires |r| >= 1
    ensures Join([x] + r, sep) == x + sep + Join(r, sep)
  {
    assert ([x] + r)[1..] == r;
  }

  /** Adding a last piece adds the separator and the piece. */
  lemma JoinClosed(t: seq<string>, sep: string, z: string)
    requires |t| >= 1
    ensures Join(t + [z], sep) == Join(t, sep) + (sep + z)
  {
    JoinConcat(t, [z], sep);
  }

  /** Joining two non-empty lists is joining each and putting the separator between. */
  lemma {:induction false} JoinConcat(a: seq<string>, b: seq<string>, sep: string)
    requires |a| >= 1 && |b| >= 1
    ensures Join(a + b, sep) == Join(a, sep) + sep + Join(b, sep)
    decreases |a|
  {
    if |a| == 1 {
      assert a + b == [a[0]] + b;
      JoinCons(a[0], b, sep);
    } else {
      JoinConcat(a[1..], b, sep);
      assert a + b == [a[0]] + (a[1..] + b);
      JoinCons(a[0], a[1..] + b, sep);
      assert a == [a[0]] + a[1..];
      JoinCons(a[0], a[1..], sep);
    }
  }

  /** A character in neither the pieces nor the separator is not in the joined text. */
  lemma {:induction false} JoinLacks(pieces: seq<string>, sep: string, c: char)
    requires c !in sep
    requires forall k :: 0 <= k < |pieces| ==> c !in pieces[k]
    ensures c !in Join(pieces, sep)
    decreases |pieces|
  {
    if |pieces| > 1 {
      JoinLacks(pieces[1..], sep, c);
    }
  }

  /** Putting a character in front of the first piece puts it in front of the joined text. */
  lemma JoinPrependFirst(c: char, r: seq<string>, sep: string)
    requires |r| >= 1
    ensures Join([[c] + r[0]] + r[1..], sep) == [c] + Join(r, sep)
  {
    var w := [[c] + r[0]] + r[1..];
    if |r| > 1 {
      assert w[1..] == r[1..];
    }
  }

  lemma SplitAtSeparator(s: string, pat: string)
    requires pat != [] && |s| >= |pat| && IsPrefix(pat, s)
    ensures SplitOn(s, pat) == [""] + SplitOn(s[|pat|..], pat)
  {
  }

  lemma SplitPastChar(s: string, pat: string)
    requires pat != [] && |s| >= |pat| && !IsPrefix(pat, s)
    ensures var rest := SplitOn(s[1..], pat);
      SplitOn(s, pat) == [[s[0]] + rest[0]] + rest[1..]
  {
  }

  /** Joining the pieces with the separator gives the string back. */
  lemma {:induction false} JoinSplit(s: string, pat: string)
    requires pat != []
    ensures Join(SplitOn(s, pat), pat) == s
    decreases |s|
  {
    if |s| < |pat| {
    } else if IsPrefix(pat, s) {
      var t := s[|pat|..];
      SplitAtSeparator(s, pat);
      JoinSplit(t, pat);
      JoinCons("", SplitOn(t, pat), pat);
      assert s == pat + t;
    } else {
      var t := s[1..];
      SplitPastChar(s, pat);
      JoinSplit(t, pat);
      JoinPrependFirst(s[0], SplitOn(t, pat), pat);
      assert s == [s[0]] + t;
    }
  }

  /** The first piece is what precedes the first occurrence (or the whole string). */
  lemma FirstPieceIsPrefix(s: string, pat: string)
    requires pat != []
    ensures IsPrefix(SplitOn(s, pat)[0], s)
  {
    var r := SplitOn(s, pat);
    JoinSplit(s, pat);
    if |r| > 1 {
      assert s == r[0] + (pat + Join(r[1..], pat));
    }
  }

  /** No piece contains the separator. */
  lemma {:induction false} PiecesLackSeparator(s: string, pat: string)
    requires pat != []
    ensures forall k :: 0 <= k < |SplitOn(s, pat)| ==> !Contains(SplitOn(s, pat)[k], pat)
    decreases |s|
  {
    var r := SplitOn(s, pat);
    if |s| < |pat| {
      if Contains(s, pat) {
        ContainsLength(s, pat);
      }
    } else if IsPrefix(pat, s) {
      PiecesLackSeparator(s[|pat|..], pat);
      if Contains("", pat) {
        ContainsLength("", pat);
      }
      forall k | 0 <= k < |r|
        ensures !Contains(r[k], pat)
      {
        if k > 0 {
          assert r[k] == SplitOn(s[|pat|..], pat)[k - 1];
        }
      }
    } else {
      PiecesLackSeparator(s[1..], pat);
      var rest := SplitOn(s[1..], pat);
      forall k | 0 <= k < |r|
        ensures !Contains(r[k], pat)
      {
        if k > 0 {
          assert r[k] == rest[k];
        } else {
          FirstPieceIsPrefix(s[1..], pat);
          var p := [s[0]] + rest[0];
          assert !Contains(rest[0], pat);
          assert p[1..] == rest[0];
        }
      }
    }
  }

  /** The last piece follows the last occurrence. */
  lemma {:induction false} JoinLast(pieces: seq<string>, sep: string)
    requires |pieces| >= 2
    ensures Join(pieces, sep) == Join(pieces[..|pieces| - 1], sep) + sep + pieces[|pieces| - 1]
    decreases |pieces|
  {
    if |pieces| > 2 {
      JoinLast(pieces[1..], sep);
      assert pieces[1..][..|pieces| - 2] == pieces[..|pieces| - 1][1..];
    } else {
      assert pieces[..1] == [pieces[0]];
    }
  }

  /** Splitting yields more than one piece exactly when the separator occurs. */
  lemma {:induction false} SplitCountIff(s: string, pat: string)
    requires pat != []
    ensures |SplitOn(s, pat)| >= 2 <==> Contains(s, pat)
    decreases |s|
  {
    if |s| < |pat| {
      if Contains(s, pat) {
        ContainsLength(s, pat);
      }
    } else if IsPrefix(pat, s) {
    } else {
      SplitCountIff(s[1..], pat);
    }
  }

  /** A string without the separator character splits into itself alone. */
  lemma {:induction false} SplitNoSep(a: string, c: char)
    requires c !in a
    ensures SplitOn(a, [c]) == [a]
    decreases |a|
  {
    if |a| >= 1 {
      assert a[..1][0] == a[0] != c;
      SplitPastChar(a, [c]);
      SplitNoSep(a[1..], c);
      assert [a[0]] + a[1..] == a;
    }
  }

  /** A first piece free of the separator character is split off exactly. */
  lemma {:induction false} SplitPrefixPiece(a: string, c: char, b: string)
    requires c !in a
    ensures SplitOn(a + [c] + b, [c]) == [a] + SplitOn(b, [c])
    decreases |a|
  {
    var s := a + [c] + b;
    if a == [] {
      assert s == [c] + b;
      SplitAtSeparator(s, [c]);
      assert s[1..] == b;
    } else {
      assert s[..1][0] == a[0] != c;
      SplitPastChar(s, [c]);
      assert s[1..] == a[1..] + [c] + b;
      SplitPrefixPiece(a[1..], c, b);
      assert [a[0]] + a[1..] == a;
    }
  }

  /** Splitting on a single character undoes joining pieces that do not contain it. */
  lemma {:induction false} SplitJoin(pieces: seq<string>, c: char)
    requires |pieces| >= 1
    requires forall k :: 0 <= k < |pieces| ==> c !in pieces[k]
    ensures SplitOn(Join(pieces, [c]), [c]) == pieces
    decreases |pieces|
  {
    if |pieces| == 1 {
      SplitNoSep(pieces[0], c);
    } else {
      var rest := pieces[1..];
      SplitJoin(rest, c);
      SplitPrefixPiece(pieces[0], c, Join(rest, [c]));
      assert [pieces[0]] + rest == pieces;
    }
  }

  // ---------------------------------------------------------------- trim

  /** The characters JavaScript's `trim` and the `\s` class treat as white space. */
  predicate IsSpace(c: char)
  {
    c == ' ' || c == '\t' || c == '\n' || c == '\r' || c == '\U{000B}' || c == '\U{000C}'
    || c == '\U{00A0}' || c == '\U{1680}' || ('\U{2000}' <= c <= '\U{200A}')
    || c == '\U{2028}' || c == '\U{2029}' || c == '\U{202F}' || c == '\U{205F}'
    || c == '\U{3000}' || c == '\U{FEFF}'
  }

  predicate AllSpace(s: string)
  {
    forall k :: 0 <= k < |s| ==> IsSpace(s[k])
  }

  /** The number of white-space characters `s` starts with. */
  function LeadCount(s: string): (n: nat)
    ensures n <= |s| && AllSpace(s[..n])
    ensures n < |s| ==> !IsSpace(s[n])
  {
    if |s| > 0 && IsSpace(s[0]) then
      var n := 1 + LeadCount(s[1..]);
      assert forall k :: 1 <= k < n ==> s[..n][k] == s[1..][..n - 1][k - 1];
      n
    else 0
  }

  /** The number of white-space characters `s` ends with. */
  function TrailCount(s: string): (n: nat)
    ensures n <= |s| && AllSpace(s[|s| - n..])
    ensures n < |s| ==> !IsSpace(s[|s| - n - 1])
  {
    if |s| > 0 && IsSpace(s[|s| - 1]) then
      var t := s[..|s| - 1];
      var m := TrailCount(t);
      assert s[|s| - (m + 1)..] == t[|t| - m..] + [s[|s| - 1]];
      assert m < |t| ==> s[|s| - (m + 1) - 1] == t[|t| - m - 1];
      m + 1
    else 0
  }

  function TrimStart(s: string): string
  {
    s[LeadCount(s)..]
  }

  function TrimEnd(s: string): string
  {
    s[..|s| - TrailCount(s)]
  }

  /** `s.trim()` / Python's `s.strip()` on the same white-space set. */
  function Trim(s: string): string
  {
    TrimEnd(TrimStart(s))
  }

  /** `trim` removes exactly a white-space prefix and suffix and keeps no white space at either end. */
  lemma TrimShape(s: string)
    ensures var r := Trim(s);
      (exists i, j :: 0 <= i <= j <= |s| && r == s[i..j] && AllSpace(s[..i]) && AllSpace(s[j..]))
      && (r == [] || (!IsSpace(r[0]) && !IsSpace(r[|r| - 1])))
  {
    var i := LeadCount(s);
    var t := s[i..];
    var n := TrailCount(t);
    var j := i + |t| - n;
    assert Trim(s) == s[i..j];
    assert s[j..] == t[|t| - n..];
  }

  /** A string trims to nothing exactly when it is all white space. */
  lemma TrimEmptyIff(s: string)
    ensures Trim(s) == "" <==> AllSpace(s)
  {
    var i := LeadCount(s);
    var t := s[i..];
    var n := TrailCount(t);
    assert Trim(s) == t[..|t| - n];
    if Trim(s) == "" {
      assert n == |t|;
      assert t[|t| - n..] == t;
      forall k | 0 <= k < |s|
        ensures IsSpace(s[k])
      {
        if k < i {
          assert s[..i][k] == s[k];
        }
      }
    }
  }

  /** A string that neither starts nor ends with white space is its own trim. */
  lemma TrimNoop(s: string)
    requires s == [] || (!IsSpace(s[0]) && !IsSpace(s[|s| - 1]))
    ensures Trim(s) == s
  {
    if s != [] {
      assert LeadCount(s) == 0;
      assert s[0..] == s;
      assert TrailCount(s) == 0;
    }
  }

  /** Trimming twice is trimming once. */
  lemma TrimIdempotent(s: string)
    ensures Trim(Trim(s)) == Trim(s)
  {
    TrimShape(s);
    TrimNoop(Trim(s));
  }

  // ---------------------------------------------------------------- case

  function LowerChar(c: char): char
  {
    if 'A' <= c <= 'Z' then (c as int + 32) as char else c
  }

  /** `s.toLowerCase()` on ASCII letters; other characters are kept. */
  function ToLower(s: string): (r: string)
    ensures |r| == |s|
    ensures forall k :: 0 <= k < |s| ==> r[k] == LowerChar(s[k])
  {
    seq(|s|, k requires 0 <= k < |s| => LowerChar(s[k]))
  }

  predicate IsLower(s: string)
  {
    forall k :: 0 <= k < |s| ==> !('A' <= s[k] <= 'Z')
  }

  /** Lower-casing leaves no upper-case letter and is idempotent. */
  lemma ToLowerLower(s: string)
    ensures IsLower(ToLower(s))
    ensures ToLower(ToLower(s)) == ToLower(s)
  {
  }

  /** Lower-casing changes nothing in a string without upper-case letters. */
  lemma LowerFixed(s: string)
    requires IsLower(s)
    ensures ToLower(s) == s
  {
  }

  lemma ToLowerAppend(a: string, b: string)
    ensures ToLower(a + b) == ToLower(a) + ToLower(b)
  {
  }

  // ---------------------------------------------------------------- character classes

  /** `\w` in a JavaScript regular expression without the `u` flag. */
  predicate IsWordChar(c: char)
  {
    'a' <= c <= 'z' || 'A' <= c <= 'Z' || '0' <= c <= '9' || c == '_'
  }

  /** The precomposed Hangul syllable range `가-힣`. */
  predicate IsHangul(c: char)
  {
    '가' <= c <= '힣'
  }

  predicate IsDigit(c: char)
  {
    '0' <= c <= '9'
  }

  // ---------------------------------------------------------------- encodeURIComponent

  /** The characters `encodeURIComponent` leaves as they are. */
  predicate IsUnreserved(c: char)
  {
    (IsWordChar(c) && c != '_') || c == '-' || c == '_' || c == '.' || c == '!' || c == '~'
    || c == '*' || c == '\'' || c == '(' || c == ')'
  }

  /** Characters that can appear in the output of `encodeURIComponent`. */
  predicate IsEncodedChar(c: char)
  {
    IsUnreserved(c) || c == '%' || ('A' <= c <= 'F')
  }

  function HexDigit(n: nat): (c: char)
    requires n < 16
    ensures IsEncodedChar(c)
  {
    if n < 10 then ('0' as int + n) as char else ('A' as int + n - 10) as char
  }

  /** The UTF-8 bytes of a Unicode scalar value. */
  function Utf8(cp: nat): (r: seq<nat>)
    requires cp < 0x110000
    ensures 1 <= |r| <= 4
    ensures forall k :: 0 <= k < |r| ==> r[k] < 256
  {
    if cp < 0x80 then [cp]
    else if cp < 0x800 then [0xC0 + cp / 64, 0x80 + cp % 64]
    else if cp < 0x10000 then [0xE0 + cp / 4096, 0x80 + (cp / 64) % 64, 0x80 + cp % 64]
    else [0xF0 + cp / 262144, 0x80 + (cp / 4096) % 64, 0x80 + (cp / 64) % 64, 0x80 + cp % 64]
  }

  function PercentBytes(bytes: seq<nat>): (r: string)
    requires forall k :: 0 <= k < |bytes| ==> bytes[k] < 256
    ensures |r| == 3 * |bytes|
    ensures forall k :: 0 <= k < |r| ==> IsEncodedChar(r[k])
  {
    if bytes == [] then ""
    else ['%', HexDigit(bytes[0] / 16), HexDigit(bytes[0] % 16)] + PercentBytes(bytes[1..])
  }

  function EncodeChar(c: char): (r: string)
    ensures forall k :: 0 <= k < |r| ==> IsEncodedChar(r[k])
  {
    if IsUnreserved(c) then [c] else PercentBytes(Utf8(c as int))
  }

  /** `encodeURIComponent(s)`: every character outside the unreserved set becomes `%XX` per UTF-8 byte. */
  function Encode(s: string): (r: string)
    ensures forall k :: 0 <= k < |r| ==> IsEncodedChar(r[k])
    ensures |r| >= |s|
  {
    if s == [] then "" else EncodeChar(s[0]) + Encode(s[1..])
  }

  /** An encoded component never contains a URL delimiter, so it cannot break the URL around it. */
  lemma EncodeHasNoDelimiter(s: string)
    ensures '/' !in Encode(s) && ',' !in Encode(s) && '&' !in Encode(s) && '=' !in Encode(s)
    ensures '?' !in Encode(s) && ' ' !in Encode(s) && '"' !in Encode(s)
  {
    var r := Encode(s);
    forall k | 0 <= k < |r|
      ensures r[k] != '/' && r[k] != ',' && r[k] != '&' && r[k] != '=' && r[k] != '?' && r[k] != ' ' && r[k] != '"'
    {
      assert IsEncodedChar(r[k]);
    }
  }

  /** Encoding is the identity on strings made of unreserved characters. */
  lemma {:induction false} EncodeUnreserved(s: string)
    requires forall k :: 0 <= k < |s| ==> IsUnreserved(s[k])
    ensures Encode(s) == s
  {
    if s != [] {
      EncodeUnreserved(s[1..]);
    }
  }

  lemma EncodeAppend(a: string, b: string)
    ensures Encode(a + b) == Encode(a) + Encode(b)
  {
    if a != [] {
      assert (a + b)[1..] == a[1..] + b;
      EncodeAppend(a[1..], b);
    } else {
      assert a + b == b;
    }
  }

  // ---------------------------------------------------------------- numbers as text

  function Digit(n: nat): (c: char)
    requires n < 10
    ensures IsDigit(c)
  {
    ('0' as int + n) as char
  }

  /** Decimal digits of a natural number, without leading zeros. */
  function NatStr(n: nat): (r: string)
    ensures |r| >= 1
    ensures forall k :: 0 <= k < |r| ==> IsDigit(r[k])
    ensures n > 0 ==> r[0] != '0'
  {
    if n < 10 then [Digit(n)] else NatStr(n / 10) + [Digit(n % 10)]
  }

  /** The decimal value of a string of digits. */
  function DigitsValue(s: string): nat
    requires forall k :: 0 <= k < |s| ==> IsDigit(s[k])
  {
    if s == [] then 0
    else
      var d := s[|s| - 1];
      assert IsDigit(d);
      DigitsValue(s[..|s| - 1]) * 10 + (d as int - '0' as int)
  }

  /** Reading the digits back gives the number. */
  lemma {:induction false} NatStrValue(n: nat)
    ensures DigitsValue(NatStr(n)) == n
  {
    if n >= 10 {
      NatStrValue(n / 10);
      var r := NatStr(n);
      assert r[..|r| - 1] == NatStr(n / 10);
    }
  }

  lemma NatStrInjective(m: nat, n: nat)
    requires NatStr(m) == NatStr(n)
    ensures m == n
  {
    NatStrValue(m);
    NatStrValue(n);
  }

  /** `String(i)` for an integer. */
  function IntStr(i: int): string
  {
    if i < 0 then "-" + NatStr(-i) else NatStr(i)
  }

  predicate IsNumChar(c: char)
  {
    IsDigit(c) || c == '-' || c == '.'
  }

  /** Up to `fuel` decimals of a fraction in [0, 1), stopping once nothing is left. */
  function FracDigits(f: real, fuel: nat): (r: string)
    requires 0.0 <= f < 1.0
    ensures forall k :: 0 <= k < |r| ==> IsDigit(r[k])
    decreases fuel
  {
    if fuel == 0 || f == 0.0 then ""
    else
      var d := (f * 10.0).Floor;
      [Digit(d)] + FracDigits(f * 10.0 - d as real, fuel - 1)
  }

  /** `String(x)` for a finite number in plain decimal notation. */
  function NumStr(x: real): (r: string)
    ensures forall k :: 0 <= k < |r| ==> IsNumChar(r[k])
    ensures x == x.Floor as real && x >= 0.0 ==> r == NatStr(x.Floor)
  {
    var a := if x < 0.0 then -x else x;
    var ip := a.Floor;
    var frac := a - ip as real;
    (if x < 0.0 then "-" else "") + NatStr(ip) + (if frac == 0.0 then "" else "." + FracDigits(frac, 17))
  }

  lemma NumStrHasNoComma(x: real)
    ensures ',' !in NumStr(x) && '/' !in NumStr(x) && ' ' !in NumStr(x) && '&' !in NumStr(x)
    ensures '?' !in NumStr(x) && '=' !in NumStr(x)
  {
  }
}
