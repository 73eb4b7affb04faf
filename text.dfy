/** Strings as the source's `QString`/`std::string` use them: case mapping (of
    ASCII letters), substring search, decimal conversion (`QString::toInt`,
    `string_cast`) and the code-point order a `std::map` of string keys iterates
    in (exact for `std::string` keys; see `Less` for `QString`). */
module Text {

  // ---------------------------------------------------------------------------
  // Case mapping (ASCII letters only)
  // ---------------------------------------------------------------------------

  function UpperChar(c: char): (r: char)
    ensures 'a' <= c <= 'z' ==> 'A' <= r <= 'Z' && r as int == c as int - 32
    ensures !('a' <= c <= 'z') ==> r == c
  {
    if 'a' <= c <= 'z' then (c as int - 32) as char else c
  }

  function LowerChar(c: char): (r: char)
    ensures 'A' <= c <= 'Z' ==> 'a' <= r <= 'z' && r as int == c as int + 32
    ensures !('A' <= c <= 'Z') ==> r == c
  {
    if 'A' <= c <= 'Z' then (c as int + 32) as char else c
  }

  /** `QString::toUpper` restricted to ASCII. */
  function Upper(s: string): (r: string)
    ensures |r| == |s|
    ensures forall i :: 0 <= i < |s| ==> r[i] == UpperChar(s[i])
  {
    if s == [] then [] else [UpperChar(s[0])] + Upper(s[1..])
  }

  function Lower(s: string): (r: string)
    ensures |r| == |s|
    ensures forall i :: 0 <= i < |s| ==> r[i] == LowerChar(s[i])
  {
    if s == [] then [] else [LowerChar(s[0])] + Lower(s[1..])
  }

  /** `QString::compare(a, b, Qt::CaseInsensitive) == 0`, for ASCII text. */
  predicate EqualsIgnoreCase(a: string, b: string)
  {
    Lower(a) == Lower(b)
  }

  lemma EqualsIgnoreCaseLength(a: string, b: string)
    requires EqualsIgnoreCase(a, b)
    ensures |a| == |b|
  {
    assert |Lower(a)| == |Lower(b)|;
  }

  /** `QString::contains`: `sub` occurs in `s` at some position. */
  predicate Contains(s: string, sub: string)
    decreases |s|
  {
    if |sub| > |s| then false
    else if s[..|sub|] == sub then true
    else Contains(s[1..], sub)
  }

  lemma {:induction false} ContainsAt(s: string, sub: string, i: nat)
    requires i + |sub| <= |s| && s[i..i + |sub|] == sub
    ensures Contains(s, sub)
    decreases i
  {
    if s[..|sub|] != sub {
      assert i > 0;
      assert s[1..][i - 1..i - 1 + |sub|] == s[i..i + |sub|];
      ContainsAt(s[1..], sub, i - 1);
    }
  }

  lemma {:induction false} ContainsWitness(s: string, sub: string) returns (i: nat)
    requires Contains(s, sub)
    ensures i + |sub| <= |s| && s[i..i + |sub|] == sub
    decreases |s|
  {
    if s[..|sub|] == sub {
      i := 0;
    } else {
      var j := ContainsWitness(s[1..], sub);
      assert s[1..][j..j + |sub|] == s[j + 1..j + 1 + |sub|];
      i := j + 1;
    }
  }

  // ---------------------------------------------------------------------------
  // Decimal conversion
  // ---------------------------------------------------------------------------

  predicate IsDigit(c: char) { '0' <= c <= '9' }

  predicate AllDigits(s: string)
  {
    forall i :: 0 <= i < |s| ==> IsDigit(s[i])
  }

  function DigitValue(c: char): nat
    requires IsDigit(c)
  {
    c as int - '0' as int
  }

  function DigitChar(d: nat): (c: char)
    requires d < 10
    ensures IsDigit(c) && DigitValue(c) == d
  {
    ('0' as int + d) as char
  }

  /** The value of a string of decimal digits, most significant first. */
  function DigitsValue(s: string): nat
    requires AllDigits(s)
  {
    if s == [] then 0 else DigitsValue(s[..|s| - 1]) * 10 + DigitValue(s[|s| - 1])
  }

  /** The range of a 32-bit `int`. */
  const Int32Min: int := -2147483648
  const Int32Max: int := 2147483647

  /** `QChar::isSpace`: tab to carriage return, space, U+0085, and the Unicode
      space, line and paragraph separators. */
  predicate IsSpace(c: char)
  {
    c == ' ' || '\t' <= c <= '\r' || c == '\U{0085}' || c == '\U{00A0}' || c == '\U{1680}'
    || '\U{2000}' <= c <= '\U{200A}' || c == '\U{2028}' || c == '\U{2029}' || c == '\U{202F}'
    || c == '\U{205F}' || c == '\U{3000}'
  }

  /** `s` without its leading white space. */
  function TrimFront(s: string): string
  {
    if s != [] && IsSpace(s[0]) then TrimFront(s[1..]) else s
  }

  /** `s` without its trailing white space. */
  function TrimBack(s: string): string
  {
    if s != [] && IsSpace(s[|s| - 1]) then TrimBack(s[..|s| - 1]) else s
  }

  /** Trimming the front drops exactly the leading white space. */
  lemma {:induction false} TrimFrontSpec(s: string)
    ensures var r := TrimFront(s);
      |r| <= |s| && r == s[|s| - |r|..]
      && (forall i :: 0 <= i < |s| - |r| ==> IsSpace(s[i]))
      && (r != [] ==> !IsSpace(r[0]))
    decreases |s|
  {
    if s != [] && IsSpace(s[0]) {
      TrimFrontSpec(s[1..]);
    }
  }

  /** Trimming the back drops exactly the trailing white space. */
  lemma {:induction false} TrimBackSpec(s: string)
    ensures var r := TrimBack(s);
      |r| <= |s| && r == s[..|r|]
      && (forall i :: |r| <= i < |s| ==> IsSpace(s[i]))
      && (r != [] ==> !IsSpace(r[|r| - 1]))
    decreases |s|
  {
    if s != [] && IsSpace(s[|s| - 1]) {
      TrimBackSpec(s[..|s| - 1]);
    }
  }

  /** The text `QString::toInt` converts: `s` without surrounding white space. */
  function Trimmed(s: string): string
  {
    TrimBack(TrimFront(s))
  }

  /** What the C-locale conversion accepts: an optional sign and at least one
      decimal digit, nothing else. */
  predicate IsNumeral(t: string)
  {
    (|t| > 0 && AllDigits(t))
    || (|t| > 1 && (t[0] == '+' || t[0] == '-') && AllDigits(t[1..]))
  }

  function NumeralValue(t: string): int
    requires IsNumeral(t)
  {
    if AllDigits(t) then DigitsValue(t)
    else if t[0] == '-' then 0 - DigitsValue(t[1..])
    else DigitsValue(t[1..])
  }

  /** `QString::toInt()` in base 10, C locale: surrounding white space is
      ignored, an optional sign and at least one digit give their value when it
      fits a 32-bit `int`; any other text, or a value out of range, gives 0, the
      value Qt returns when the conversion fails. */
  function ParseInt(s: string): (v: int)
    ensures Int32Min <= v <= Int32Max
  {
    var t := Trimmed(s);
    if IsNumeral(t) && Int32Min <= NumeralValue(t) <= Int32Max then NumeralValue(t) else 0
  }

  /** A non-zero result is the value of the trimmed numeral, and every numeral in
      the `int` range is read as its value. */
  lemma ParseIntSpec(s: string)
    ensures ParseInt(s) != 0 ==> IsNumeral(Trimmed(s)) && ParseInt(s) == NumeralValue(Trimmed(s))
    ensures IsNumeral(Trimmed(s)) && Int32Min <= NumeralValue(Trimmed(s)) <= Int32Max ==>
      ParseInt(s) == NumeralValue(Trimmed(s))
  {
  }

  /** `string_cast(n)` / `QString::number(n)` for a non-negative number. */
  function NatToString(n: nat): (r: string)
    ensures |r| > 0 && AllDigits(r)
  {
    if n < 10 then [DigitChar(n)] else NatToString(n / 10) + [DigitChar(n % 10)]
  }

  /** Printing a number and reading it back gives the number when it fits an
      `int`, and 0 when it does not. */
  lemma ParseNatToString(n: nat)
    ensures n <= Int32Max ==> ParseInt(NatToString(n)) == n
    ensures n > Int32Max ==> ParseInt(NatToString(n)) == 0
  {
    var s := NatToString(n);
    DigitsOfNatToString(n);
    DigitsAreNotSpace(s);
    assert Trimmed(s) == s;
  }

  /** A leading plus sign is accepted. */
  lemma ParsePlusNatToString(n: nat)
    ensures n <= Int32Max ==> ParseInt("+" + NatToString(n)) == n
  {
    var s := NatToString(n);
    var t := "+" + s;
    DigitsOfNatToString(n);
    DigitsAreNotSpace(t);
    assert Trimmed(t) == t;
    assert t[1..] == s;
  }

  /** White space around the text does not change the value read. */
  lemma ParseIntIgnoresSpace(pre: string, s: string, post: string)
    requires forall i :: 0 <= i < |pre| ==> IsSpace(pre[i])
    requires forall i :: 0 <= i < |post| ==> IsSpace(post[i])
    ensures ParseInt(pre + s + post) == ParseInt(s)
  {
    TrimFrontSkips(pre, s + post);
    assert pre + s + post == pre + (s + post);
    TrimFrontAppend(s, post);
    if TrimFront(s) == [] {
      AllSpaceTrimsEmpty(post);
    } else {
      TrimBackSkips(TrimFront(s), post);
    }
  }

  /** Text made only of white space trims to nothing. */
  lemma AllSpaceTrimsEmpty(s: string)
    requires forall i :: 0 <= i < |s| ==> IsSpace(s[i])
    ensures TrimFront(s) == []
  {
    TrimFrontSpec(s);
  }

  /** A string that starts or ends with no white space keeps its ends when
      trimmed; digits and signs are not white space. */
  lemma DigitsAreNotSpace(t: string)
    requires |t| > 0 && (IsDigit(t[0]) || t[0] == '+') && IsDigit(t[|t| - 1])
    ensures Trimmed(t) == t
  {
  }

  lemma {:induction false} TrimFrontSkips(pre: string, s: string)
    requires forall i :: 0 <= i < |pre| ==> IsSpace(pre[i])
    ensures TrimFront(pre + s) == TrimFront(s)
    decreases |pre|
  {
    if pre != [] {
      assert (pre + s)[0] == pre[0];
      assert (pre + s)[1..] == pre[1..] + s;
      TrimFrontSkips(pre[1..], s);
    } else {
      assert pre + s == s;
    }
  }

  lemma {:induction false} TrimBackSkips(s: string, post: string)
    requires forall i :: 0 <= i < |post| ==> IsSpace(post[i])
    ensures TrimBack(s + post) == TrimBack(s)
    decreases |post|
  {
    if post != [] {
      var p := post[..|post| - 1];
      assert (s + post)[|s + post| - 1] == post[|post| - 1];
      assert (s + post)[..|s + post| - 1] == s + p;
      TrimBackSkips(s, p);
    } else {
      assert s + post == s;
    }
  }

  /** Trimming the front of `s + post` trims the front of `s`, unless `s` is all
      white space. */
  lemma {:induction false} TrimFrontAppend(s: string, post: string)
    ensures TrimFront(s) != [] ==> TrimFront(s + post) == TrimFront(s) + post
    ensures TrimFront(s) == [] ==> TrimFront(s + post) == TrimFront(post)
    decreases |s|
  {
    if s == [] {
      assert s + post == post;
    } else if IsSpace(s[0]) {
      assert (s + post)[1..] == s[1..] + post;
      TrimFrontAppend(s[1..], post);
    }
  }

  lemma {:induction false} DigitsOfNatToString(n: nat)
    ensures DigitsValue(NatToString(n)) == n
  {
    var s := NatToString(n);
    if n >= 10 {
      DigitsOfNatToString(n / 10);
      assert s[..|s| - 1] == NatToString(n / 10);
    }
  }

  /** Different numbers print differently. */
  lemma NatToStringInjective(m: nat, n: nat)
    requires NatToString(m) == NatToString(n)
    ensures m == n
  {
    DigitsOfNatToString(m);
    DigitsOfNatToString(n);
  }

  // ---------------------------------------------------------------------------
  // The order of string keys in a std::map
  // ---------------------------------------------------------------------------

  /** `a < b` on strings: lexicographic order on code points, a proper prefix
      first. This is the byte order of UTF-8 `std::string` keys; `QString`
      compares UTF-16 code units, which differs once a character beyond U+FFFF
      meets one in U+E000..U+FFFF. */
  predicate Less(a: string, b: string)
    decreases |a|
  {
    if |a| == 0 then |b| > 0
    else if |b| == 0 then false
    else if a[0] != b[0] then a[0] < b[0]
    else Less(a[1..], b[1..])
  }

  lemma {:induction false} LessIrreflexive(a: string)
    ensures !Less(a, a)
    decreases |a|
  {
    if |a| > 0 { LessIrreflexive(a[1..]); }
  }

  lemma {:induction false} LessTransitive(a: string, b: string, c: string)
    requires Less(a, b) && Less(b, c)
    ensures Less(a, c)
    decreases |a|
  {
    if |a| > 0 && |b| > 0 && |c| > 0 && a[0] == b[0] && b[0] == c[0] {
      LessTransitive(a[1..], b[1..], c[1..]);
    }
  }

  lemma {:induction false} LessTotal(a: string, b: string)
    ensures a == b || Less(a, b) || Less(b, a)
    decreases |a|
  {
    if |a| > 0 && |b| > 0 && a[0] == b[0] {
      LessTotal(a[1..], b[1..]);
      if a[1..] == b[1..] {
        assert a == [a[0]] + a[1..] && b == [b[0]] + b[1..];
      }
    }
  }

  lemma LessAsymmetric(a: string, b: string)
    requires Less(a, b)
    ensures !Less(b, a)
  {
    if Less(b, a) {
      LessTransitive(a, b, a);
      LessIrreflexive(a);
    }
  }

  /** `m` is the first key of `s` in map order. */
  ghost predicate IsLeast(m: string, s: set<string>)
  {
    m in s && forall x :: x in s ==> x == m || Less(m, x)
  }

  lemma {:induction false} LeastExists(s: set<string>)
    requires s != {}
    ensures exists m :: IsLeast(m, s)
    decreases |s|
  {
    var y :| y in s;
    if s != {y} {
      LeastExists(s - {y});
      var m :| IsLeast(m, s - {y});
      LessTotal(m, y);
      if Less(y, m) {
        forall x | x in s
          ensures x == y || Less(y, x)
        {
          if x != y && x != m { LessTransitive(y, m, x); }
        }
        assert IsLeast(y, s);
      } else {
        assert IsLeast(m, s);
      }
    } else {
      assert IsLeast(y, s);
    }
  }

  lemma LeastUnique(m: string, n: string, s: set<string>)
    requires IsLeast(m, s) && IsLeast(n, s)
    ensures m == n
  {
    if m != n {
      assert Less(m, n) && Less(n, m);
      LessAsymmetric(m, n);
    }
  }

  ghost function Least(s: set<string>): (m: string)
    requires s != {}
    ensures IsLeast(m, s)
  {
    LeastExists(s);
    var m :| IsLeast(m, s); m
  }

  /** The keys of a map in the order a `std::map` iterates them. */
  ghost function SortedSeq(s: set<string>): (r: seq<string>)
    decreases |s|
  {
    if s == {} then [] else [Least(s)] + SortedSeq(s - {Least(s)})
  }

  /** `r` lists every element of `s` once, in strictly increasing order. */
  ghost predicate StrictlySorted(r: seq<string>)
  {
    forall i, j :: 0 <= i < j < |r| ==> Less(r[i], r[j])
  }

  lemma {:induction false} SortedSeqSpec(s: set<string>)
    ensures |SortedSeq(s)| == |s|
    ensures forall x :: x in SortedSeq(s) <==> x in s
    ensures StrictlySorted(SortedSeq(s))
    decreases |s|
  {
    if s != {} {
      var m := Least(s);
      SortedSeqSpec(s - {m});
      var r := SortedSeq(s);
      assert r == [m] + SortedSeq(s - {m});
      forall i, j | 0 <= i < j < |r|
        ensures Less(r[i], r[j])
      {
        if i == 0 {
          assert r[j] in SortedSeq(s - {m});
        } else {
          assert r[i] == SortedSeq(s - {m})[i - 1];
          assert r[j] == SortedSeq(s - {m})[j - 1];
        }
      }
    }
  }

  /** Distinct positions of a strictly sorted sequence hold distinct keys. */
  lemma StrictlySortedDistinct(r: seq<string>, i: nat, j: nat)
    requires StrictlySorted(r) && i < |r| && j < |r| && i != j
    ensures r[i] != r[j]
  {
    if i < j { LessIrreflexive(r[i]); } else { LessIrreflexive(r[j]); }
  }

  /** In a strictly sorted listing of a set's superset, the first position
      holding a member of the set holds its first key, and a listing with no
      member means the set is empty. */
  lemma FirstMemberIsLeast(keys: seq<string>, s: set<string>, i: nat)
    requires StrictlySorted(keys) && forall x :: x in s ==> x in keys
    requires i <= |keys| && forall j :: 0 <= j < i ==> keys[j] !in s
    requires i == |keys| || keys[i] in s
    ensures i == |keys| <==> s == {}
    ensures i < |keys| ==> Least(s) == keys[i]
  {
    if i < |keys| {
      forall x | x in s
        ensures x == keys[i] || Less(keys[i], x)
      {
        var j :| 0 <= j < |keys| && keys[j] == x;
      }
      LeastUnique(keys[i], Least(s), s);
    } else {
      assert forall x :: x in keys ==> x !in s;
    }
  }

  /** A linear scan for the first key of a non-empty set. */
  method LeastOf(s: set<string>) returns (m: string)
    requires s != {}
    ensures IsLeast(m, s)
  {
    m :| m in s;
    var todo := s - {m};
    while todo != {}
      invariant todo <= s && m in s && m !in todo
      invariant forall x :: x in s && x !in todo ==> x == m || Less(m, x)
      decreases |todo|
    {
      var y :| y in todo;
      LessTotal(m, y);
      if Less(y, m) {
        forall x | x in s && x !in todo
          ensures x == y || Less(y, x)
        {
          if x != m { LessTransitive(y, m, x); }
        }
        m := y;
      }
      todo := todo - {y};
    }
  }

  /** Iterating the keys of a `std::map<QString, ...>`: the keys in map order. */
  method SortedKeys(s: set<string>) returns (r: seq<string>)
    ensures r == SortedSeq(s)
    ensures |r| == |s| && forall x :: x in r <==> x in s
  {
    var rest := s;
    r := [];
    while rest != {}
      invariant r + SortedSeq(rest) == SortedSeq(s)
      decreases |rest|
    {
      var m := LeastOf(rest);
      LeastUnique(m, Least(rest), rest);
      r := r + [m];
      rest := rest - {m};
    }
    SortedSeqSpec(s);
  }

  /** The keys a walk over `keys` has passed after `i` steps. */
  ghost function Visited(keys: seq<string>, i: nat): set<string>
    requires i <= |keys|
  {
    set j | 0 <= j < i :: keys[j]
  }

  lemma VisitedStep(keys: seq<string>, i: nat)
    requires i < |keys|
    ensures Visited(keys, i + 1) == Visited(keys, i) + {keys[i]}
  {
  }

  lemma VisitedAll(keys: seq<string>, s: set<string>)
    requires forall x :: x in keys <==> x in s
    ensures Visited(keys, |keys|) == s
  {
    forall x | x in s
      ensures x in Visited(keys, |keys|)
    {
      var j :| 0 <= j < |keys| && keys[j] == x;
    }
  }
}
