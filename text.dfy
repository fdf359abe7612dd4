/** The string operations the front end relies on: `toLowerCase` (on the
    ASCII letters), `includes`, `startsWith`, `split('@')[0]`,
    `split(',')`, `trim`, and the decimal rendering of a whole number in
    a template literal. */
module Text {

  predicate IsUpper(c: char) { 'A' <= c <= 'Z' }

  /** `toLowerCase` on one character, restricted to the ASCII letters. */
  function LowerChar(c: char): (d: char)
    ensures !IsUpper(d)
    ensures IsUpper(c) ==> d as int == c as int + 32
    ensures !IsUpper(c) ==> d == c
  {
    if IsUpper(c) then (c as int + 32) as char else c
  }

  function ToLower(s: string): (r: string)
    ensures |r| == |s|
    ensures forall i :: 0 <= i < |s| ==> r[i] == LowerChar(s[i])
  {
    if s == [] then [] else [LowerChar(s[0])] + ToLower(s[1..])
  }

  /** Lower-casing twice is lower-casing once. */
  lemma ToLowerIdempotent(s: string)
    ensures ToLower(ToLower(s)) == ToLower(s)
  {
    var t := ToLower(s);
    assert forall i :: 0 <= i < |t| ==> LowerChar(t[i]) == t[i];
  }

  predicate IsPrefix(p: string, s: string) { |p| <= |s| && s[..|p|] == p }

  /** `s.includes(q)`. */
  predicate Contains(s: string, q: string): (b: bool)
    ensures IsPrefix(q, s) ==> b
    ensures b ==> |q| <= |s|
    decreases |s|
  {
    IsPrefix(q, s) || (s != [] && Contains(s[1..], q))
  }

  /** `q` occurs in `s` starting at offset `i`. */
  predicate OccursAt(s: string, q: string, i: int)
  {
    0 <= i <= |s| - |q| && s[i..i + |q|] == q
  }

  /** `includes` holds exactly when `q` occurs at some offset of `s`;
      in particular the empty query occurs in every string. */
  lemma {:induction false} ContainsAt(s: string, q: string)
    ensures Contains(s, q) <==> exists i :: OccursAt(s, q, i)
    ensures Contains(s, [])
    decreases |s|
  {
    assert IsPrefix(q, s) ==> OccursAt(s, q, 0);
    assert IsPrefix([], s);
    if s != [] {
      ContainsAt(s[1..], q);
      if Contains(s[1..], q) {
        var i :| OccursAt(s[1..], q, i);
        assert OccursAt(s, q, i + 1);
      }
      if i :| OccursAt(s, q, i) {
        if i > 0 {
          assert OccursAt(s[1..], q, i - 1);
        }
      }
    }
  }

  /** `s.startsWith(p)`. */
  predicate StartsWith(s: string, p: string) { IsPrefix(p, s) }

  /** `email.split('@')[0]`: the text before the first '@', or all of it. */
  function NameFromEmail(email: string): (name: string)
    ensures IsPrefix(name, email)
    ensures '@' !in name
    ensures |name| < |email| ==> email[|name|] == '@'
  {
    if email == [] || email[0] == '@' then [] else [email[0]] + NameFromEmail(email[1..])
  }

  // ---------------------------------------------------------------------
  // Decimal text of a whole number, as `${n}` renders it.

  predicate IsDigit(c: char) { '0' <= c <= '9' }

  function DigitChar(d: nat): (c: char)
    requires d < 10
    ensures IsDigit(c) && c as int - '0' as int == d
  {
    ('0' as int + d) as char
  }

  function DigitValue(c: char): nat
    requires IsDigit(c)
  {
    c as int - '0' as int
  }

  /** Decimal digits of `n`, most significant first, without leading zeros. */
  function NatToString(n: nat): (r: string)
    ensures 1 <= |r|
    ensures forall i :: 0 <= i < |r| ==> IsDigit(r[i])
    ensures |r| > 1 ==> r[0] != '0'
  {
    if n < 10 then [DigitChar(n)] else NatToString(n / 10) + [DigitChar(n % 10)]
  }

  /** Reads decimal digits back into a number. */
  function ParseNat(s: string): nat
    requires forall i :: 0 <= i < |s| ==> IsDigit(s[i])
  {
    if s == [] then 0 else ParseNat(s[..|s| - 1]) * 10 + DigitValue(s[|s| - 1])
  }

  /** Reading the rendering gives the number back. */
  lemma {:induction false} ParseNatToString(n: nat)
    ensures ParseNat(NatToString(n)) == n
  {
    if n >= 10 {
      ParseNatToString(n / 10);
      var s := NatToString(n);
      assert s[..|s| - 1] == NatToString(n / 10);
    }
  }

  /** Different numbers render differently. */
  lemma NatToStringInjective(m: nat, n: nat)
    requires NatToString(m) == NatToString(n)
    ensures m == n
  {
    ParseNatToString(m);
    ParseNatToString(n);
  }

  // ---------------------------------------------------------------------
  // `split(sep)` on one character, its inverse `join(sep)`, and `trim()`.

  /** `s.split(sep)`: the pieces between separators, always at least one. */
  function Split(s: string, sep: char): (parts: seq<string>)
    ensures |parts| == multiset(s)[sep] + 1
    ensures forall p :: p in parts ==> sep !in p
  {
    if s == [] then [[]]
    else
      var rest := Split(s[1..], sep);
      assert s == [s[0]] + s[1..];
      if s[0] == sep then [[]] + rest
      else [[s[0]] + rest[0]] + rest[1..]
  }

  /** `parts.join(sep)`. */
  function Join(parts: seq<string>, sep: char): string
    requires |parts| >= 1
  {
    if |parts| == 1 then parts[0] else parts[0] + [sep] + Join(parts[1..], sep)
  }

  /** The join starts with the first piece. */
  lemma JoinStartsWithFirst(parts: seq<string>, sep: char)
    requires |parts| >= 1
    ensures parts[0] <= Join(parts, sep)
  {
    if |parts| > 1 {
      assert Join(parts, sep) == parts[0] + ([sep] + Join(parts[1..], sep));
    }
  }

  /** Joining pieces free of the separator puts one separator between
      each two pieces and no other. */
  lemma JoinCount(parts: seq<string>, sep: char)
    requires |parts| >= 1
    requires forall p :: p in parts ==> sep !in p
    ensures multiset(Join(parts, sep))[sep] == |parts| - 1
  {
    SplitJoin(parts, sep);
  }

  /** Gluing text to the front of the first piece glues it to the front of the join. */
  lemma {:induction false} JoinPrepend(x: string, parts: seq<string>, sep: char)
    requires |parts| >= 1
    ensures Join([x + parts[0]] + parts[1..], sep) == x + Join(parts, sep)
  {
    var glued := [x + parts[0]] + parts[1..];
    if |parts| > 1 {
      assert glued[1..] == parts[1..];
    }
  }

  /** Joining the pieces of a split restores the text. */
  lemma {:induction false} JoinSplit(s: string, sep: char)
    ensures Join(Split(s, sep), sep) == s
  {
    if s != [] {
      JoinSplit(s[1..], sep);
      JoinSplitCons(s[0], s[1..], sep);
      assert [s[0]] + s[1..] == s;
    }
  }

  lemma JoinSplitCons(c: char, t: string, sep: char)
    requires Join(Split(t, sep), sep) == t
    ensures Join(Split([c] + t, sep), sep) == [c] + t
  {
    SplitCons(c, t, sep);
    if c == sep {
      JoinEmptyFirst(Split(t, sep), sep);
    } else {
      JoinPrepend([c], Split(t, sep), sep);
    }
  }

  lemma JoinEmptyFirst(parts: seq<string>, sep: char)
    requires |parts| >= 1
    ensures Join([[]] + parts, sep) == [sep] + Join(parts, sep)
  {
    assert ([[]] + parts)[1..] == parts;
  }

  /** The characters `trim()` removes: the ECMAScript WhiteSpace and
      LineTerminator code points. */
  predicate IsWhitespace(c: char)
  {
    c == ' ' || c == '\t' || c == '\n' || c == '\r' || c == '\U{000B}' || c == '\U{000C}'
    || c == '\U{00A0}' || c == '\U{1680}' || ('\U{2000}' <= c <= '\U{200A}')
    || c == '\U{2028}' || c == '\U{2029}' || c == '\U{202F}' || c == '\U{205F}'
    || c == '\U{3000}' || c == '\U{FEFF}'
  }

  function TrimStart(s: string): (r: string)
    ensures |r| <= |s| && r == s[|s| - |r|..]
    ensures r == [] || !IsWhitespace(r[0])
    ensures forall i :: 0 <= i < |s| - |r| ==> IsWhitespace(s[i])
  {
    if s != [] && IsWhitespace(s[0]) then TrimStart(s[1..]) else s
  }

  function TrimEnd(s: string): (r: string)
    ensures |r| <= |s| && r == s[..|r|]
    ensures r == [] || !IsWhitespace(r[|r| - 1])
    ensures forall i :: |r| <= i < |s| ==> IsWhitespace(s[i])
  {
    if s != [] && IsWhitespace(s[|s| - 1]) then TrimEnd(s[..|s| - 1]) else s
  }

  /** `r` is the slice of `s` at offset `i` and everything of `s` around
      it is white space. */
  predicate TrimmedAt(s: string, r: string, i: int)
  {
    && 0 <= i <= |s| - |r| && r == s[i..i + |r|]
    && (forall k :: 0 <= k < i ==> IsWhitespace(s[k]))
    && (forall k :: i + |r| <= k < |s| ==> IsWhitespace(s[k]))
  }

  /** `s.trim()`: the slice of `s` left after dropping white space at both
      ends; it starts and ends with a non-space character, or is empty. */
  function Trim(s: string): (r: string)
    ensures exists i :: TrimmedAt(s, r, i)
    ensures r == [] || (!IsWhitespace(r[0]) && !IsWhitespace(r[|r| - 1]))
  {
    var t := TrimStart(s);
    var r := TrimEnd(t);
    assert TrimmedAt(s, r, |s| - |t|);
    r
  }
  // ---------------------------------------------------------------------
  // The default order of `Array.prototype.sort` on strings: code unit by
  // code unit, a proper prefix first.

  predicate StrLe(a: string, b: string)
    decreases |a|
  {
    a == [] || (b != [] && (a[0] < b[0] || (a[0] == b[0] && StrLe(a[1..], b[1..]))))
  }

  lemma {:induction false} StrLeTotal(a: string, b: string)
    ensures StrLe(a, b) || StrLe(b, a)
    decreases |a|
  {
    if a != [] && b != [] && a[0] == b[0] {
      StrLeTotal(a[1..], b[1..]);
    }
  }

  lemma {:induction false} StrLeTransitive(a: string, b: string, c: string)
    requires StrLe(a, b) && StrLe(b, c)
    ensures StrLe(a, c)
    decreases |a|
  {
    if a != [] && a[0] == b[0] && b[0] == c[0] {
      StrLeTransitive(a[1..], b[1..], c[1..]);
    }
  }

  lemma {:induction false} StrLeAntisymmetric(a: string, b: string)
    requires StrLe(a, b) && StrLe(b, a)
    ensures a == b
    decreases |a|
  {
    if a != [] {
      StrLeAntisymmetric(a[1..], b[1..]);
      assert a == [a[0]] + a[1..] && b == [b[0]] + b[1..];
    }
  }

  /** `String(n)` for a whole number: a minus sign before the digits of a
      negative one. */
  function IntToString(n: int): (r: string)
    ensures |r| >= 1 && (r[0] == '-' <==> n < 0)
    ensures forall i :: (if n < 0 then 1 else 0) <= i < |r| ==> IsDigit(r[i])
  {
    if n >= 0 then NatToString(n) else "-" + NatToString(-n)
  }
  /** Splitting at the first separator after a separator-free piece. */
  lemma {:induction false} SplitAfterPiece(a: string, rest: string, sep: char)
    requires sep !in a
    ensures Split(a + [sep] + rest, sep) == [a] + Split(rest, sep)
  {
    if a == [] {
      assert a + [sep] + rest == [sep] + rest;
      SplitCons(sep, rest, sep);
    } else {
      assert a[0] in a && sep !in a[1..];
      SplitAfterPiece(a[1..], rest, sep);
      SplitAfterPieceStep(a, rest, sep);
    }
  }

  lemma SplitAfterPieceStep(a: string, rest: string, sep: char)
    requires a != [] && a[0] != sep
    requires Split(a[1..] + [sep] + rest, sep) == [a[1..]] + Split(rest, sep)
    ensures Split(a + [sep] + rest, sep) == [a] + Split(rest, sep)
  {
    PieceRegroup(a, sep, rest);
    SplitGlue(a[0], a[1..], a[1..] + [sep] + rest, Split(rest, sep), sep);
  }

  lemma PieceRegroup(a: string, sep: char, rest: string)
    requires a != []
    ensures a + [sep] + rest == [a[0]] + (a[1..] + [sep] + rest) && [a[0]] + a[1..] == a
  {
  }

  /** A character other than the separator joins the first piece. */
  lemma SplitGlue(c: char, first: string, s: string, others: seq<string>, sep: char)
    requires c != sep && Split(s, sep) == [first] + others
    ensures Split([c] + s, sep) == [[c] + first] + others
  {
    SplitCons(c, s, sep);
    assert Split(s, sep)[0] == first && Split(s, sep)[1..] == others;
  }

  /** Splitting a text that starts with `c`: a new empty piece when `c` is
      the separator, otherwise `c` glued to the front of the first piece. */
  lemma SplitCons(c: char, s: string, sep: char)
    ensures c == sep ==> Split([c] + s, sep) == [[]] + Split(s, sep)
    ensures c != sep ==> Split([c] + s, sep) == [[c] + Split(s, sep)[0]] + Split(s, sep)[1..]
  {
    assert ([c] + s)[0] == c && ([c] + s)[1..] == s;
  }

  /** Pieces that hold no separator come back from splitting their join. */
  lemma {:induction false} SplitJoin(parts: seq<string>, sep: char)
    requires |parts| >= 1
    requires forall p :: p in parts ==> sep !in p
    ensures Split(Join(parts, sep), sep) == parts
  {
    if |parts| == 1 {
      SplitNoSeparator(parts[0], sep);
    } else {
      SplitJoin(parts[1..], sep);
      SplitAfterPiece(parts[0], Join(parts[1..], sep), sep);
      assert parts == [parts[0]] + parts[1..];
    }
  }

  lemma {:induction false} SplitNoSeparator(s: string, sep: char)
    requires sep !in s
    ensures Split(s, sep) == [s]
  {
    if s != [] {
      SplitNoSeparator(s[1..], sep);
      assert [s[0]] + s[1..] == s;
    }
  }
}
