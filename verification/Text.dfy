/** The string operations the Go code takes from its standard library, on Unicode strings. */
module Text {

  /** Go's unicode.IsSpace. */
  predicate IsSpace(c: char) {
    || '\t' <= c <= '\r'
    || c in {' ', '\U{0085}', '\U{00A0}', '\U{1680}', '\U{2028}', '\U{2029}', '\U{202F}', '\U{205F}', '\U{3000}'}
    || '\U{2000}' <= c <= '\U{200A}'
  }

  /** By code point: the control characters 9 to 13, the space, NEL, the no-break space and Unicode's other spaces. */
  lemma SpaceCodes(c: char)
    ensures IsSpace(c) <==> (c as int in {0x20, 0x85, 0xA0, 0x1680, 0x2028, 0x2029, 0x202F, 0x205F, 0x3000}
      || 9 <= c as int <= 13 || 0x2000 <= c as int <= 0x200A)
  {
  }

  function TrimLeft(s: string): string
  {
    if s != [] && IsSpace(s[0]) then TrimLeft(s[1..]) else s
  }

  function TrimRight(s: string): string
  {
    if s != [] && IsSpace(s[|s| - 1]) then TrimRight(s[..|s| - 1]) else s
  }

  /** strings.TrimSpace. */
  function TrimSpace(s: string): string
  {
    TrimRight(TrimLeft(s))
  }

  lemma {:induction false} TrimLeftSplits(s: string) returns (n: nat)
    ensures n <= |s| && TrimLeft(s) == s[n..] && forall i | 0 <= i < n :: IsSpace(s[i])
  {
    hide IsSpace;
    n := 0;
    if s != [] && IsSpace(s[0]) {
      var k := TrimLeftSplits(s[1..]);
      n := k + 1;
      assert forall i | 0 <= i < n :: IsSpace(s[i]) by {
        forall i | 0 <= i < n
          ensures IsSpace(s[i])
        {
          if i > 0 { assert s[1..][i - 1] == s[i]; }
        }
      }
    }
  }

  lemma {:induction false} TrimRightSplits(s: string)
    ensures TrimRight(s) <= s
    ensures forall i | |TrimRight(s)| <= i < |s| :: IsSpace(s[i])
  {
    hide IsSpace;
    if s != [] && IsSpace(s[|s| - 1]) {
      TrimRightSplits(s[..|s| - 1]);
    }
  }

  lemma {:induction false} RightTrimmed(s: string)
    ensures TrimRight(s) == [] || !IsSpace(TrimRight(s)[|TrimRight(s)| - 1])
  {
    hide IsSpace;
    if s != [] && IsSpace(s[|s| - 1]) { RightTrimmed(s[..|s| - 1]); }
  }

  lemma {:induction false} LeftTrimmed(s: string)
    ensures TrimLeft(s) == [] || !IsSpace(TrimLeft(s)[0])
  {
    hide IsSpace;
    if s != [] && IsSpace(s[0]) { LeftTrimmed(s[1..]); }
  }

  /**
   What is trimmed off is white space, and all of it: the string is a part of white space, the result, and another
   such part, and the result neither begins nor ends with white space.
   */
  lemma TrimSplits(s: string) returns (n: nat, m: nat)
    ensures n <= m <= |s| && TrimSpace(s) == s[n..m]
    ensures forall i | 0 <= i < n || m <= i < |s| :: IsSpace(s[i])
    ensures n < m ==> !IsSpace(s[n]) && !IsSpace(s[m - 1])
  {
    hide IsSpace, TrimLeft, TrimRight;
    n := TrimLeftSplits(s);
    var rest := TrimLeft(s);
    TrimRightSplits(rest);
    LeftTrimmed(s);
    RightTrimmed(rest);
    m := n + |TrimRight(rest)|;
    if n < m { assert rest[0] == s[n] && TrimRight(rest)[m - n - 1] == rest[m - n - 1] == s[m - 1]; }
    forall i | m <= i < |s|
      ensures IsSpace(s[i])
    {
      assert rest[i - n] == s[i];
    }
  }

  /** Nothing is left exactly of white space. */
  lemma BlankIff(s: string)
    ensures TrimSpace(s) == "" <==> forall c | c in s :: IsSpace(c)
  {
    hide IsSpace, TrimLeft, TrimRight;
    var n, m := TrimSplits(s);
    if TrimSpace(s) != "" {
      assert s[n..m][0] == s[n];
    }
  }

  lemma TrimShortens(s: string)
    ensures |TrimSpace(s)| <= |s|
    ensures |TrimSpace(s)| == |s| ==> TrimSpace(s) == s
  {
    hide IsSpace, TrimSpace;
    var n, m := TrimSplits(s);
  }

  /** strings.ReplaceAll(s, "/", "_"). */
  function ReplaceSlashes(s: string): string
  {
    if s == [] then [] else [if s[0] == '/' then '_' else s[0]] + ReplaceSlashes(s[1..])
  }

  function Underscored(c: char): char {
    if c == '/' then '_' else c
  }

  lemma {:induction false} ReplacedAt(s: string)
    ensures |ReplaceSlashes(s)| == |s|
    ensures forall i | 0 <= i < |s| :: ReplaceSlashes(s)[i] == Underscored(s[i])
  {
    if s != [] {
      ReplacedAt(s[1..]);
      forall i | 0 <= i < |s|
        ensures ReplaceSlashes(s)[i] == Underscored(s[i])
      {
        if i > 0 { assert s[1..][i - 1] == s[i]; }
      }
    }
  }

  function Digit(n: nat): (c: char)
    requires n < 10
  {
    "0123456789"[n]
  }

  /** Decimal notation of a natural number, as fmt's %d writes it. */
  function Decimal(n: nat): (s: string)
    ensures s != []
    ensures '-' !in s
  {
    if n < 10 then [Digit(n)] else Decimal(n / 10) + [Digit(n % 10)]
  }

  function Itoa(n: int): string {
    if n < 0 then "-" + Decimal(-n) else Decimal(n)
  }

  lemma {:induction false} DecimalInjective(m: nat, n: nat)
    requires Decimal(m) == Decimal(n)
    ensures m == n
  {
    var s, t := Decimal(m), Decimal(n);
    assert s[|s| - 1] == Digit(m % 10);
    assert t[|t| - 1] == Digit(n % 10);
    assert m % 10 == n % 10;
    if m >= 10 && n >= 10 {
      assert Decimal(m / 10) == s[..|s| - 1] == t[..|t| - 1] == Decimal(n / 10);
      DecimalInjective(m / 10, n / 10);
    }
  }

  lemma ItoaInjective(m: int, n: int)
    requires Itoa(m) == Itoa(n)
    ensures m == n
  {
    assert m < 0 ==> Itoa(m)[0] == '-' && Itoa(m)[1..] == Decimal(-m);
    assert n < 0 ==> Itoa(n)[0] == '-' && Itoa(n)[1..] == Decimal(-n);
    assert m >= 0 ==> Itoa(m)[0] in Decimal(m);
    assert n >= 0 ==> Itoa(n)[0] in Decimal(n);
    if m < 0 {
      DecimalInjective(-m, -n);
    } else {
      DecimalInjective(m, n);
    }
  }

  /** Two strings cut at their first occurrence of a separator. */
  lemma SplitFirst(a: string, b: string, c: string, d: string, sep: char)
    requires a + [sep] + b == c + [sep] + d
    requires sep !in a && sep !in c
    ensures a == c && b == d
  {
    var s := a + [sep] + b;
    assert s[|a|] == sep && s[|c|] == sep;
    assert forall i | 0 <= i < |a| :: s[i] == a[i] && s[i] != sep;
    assert forall i | 0 <= i < |c| :: s[i] == c[i] && s[i] != sep;
    assert |a| == |c|;
    assert a == s[..|a|] == s[..|c|] == c;
    assert b == s[|a| + 1..] == d;
  }

  /** Two strings cut at their last occurrence of a separator. */
  lemma SplitLast(a: string, b: string, c: string, d: string, sep: char)
    requires a + [sep] + b == c + [sep] + d
    requires sep !in b && sep !in d
    ensures a == c && b == d
  {
    var s := a + [sep] + b;
    assert s[|a|] == sep && s[|c|] == sep;
    assert forall i | |a| < i < |s| :: s[i] == b[i - |a| - 1] && s[i] != sep;
    assert forall i | |c| < i < |s| :: s[i] == d[i - |c| - 1] && s[i] != sep;
    assert |a| == |c|;
    assert a == s[..|a|] == s[..|c|] == c;
    assert b == s[|a| + 1..] == s[|c| + 1..] == d;
  }
}
