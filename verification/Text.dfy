/** The string operations the routing code builds on, with what the proofs need to know of them. */
module Text {
  import opened Prelude

  predicate IsFirst(s: string, c: char, i: int) {
    0 <= i < |s| && s[i] == c && forall k :: 0 <= k < i ==> s[k] != c
  }

  predicate IsLast(s: string, c: char, i: int) {
    0 <= i < |s| && s[i] == c && forall k :: i < k < |s| ==> s[k] != c
  }

  lemma {:induction false} FirstExists(s: string, c: char) returns (i: int)
    requires c in s
    ensures IsFirst(s, c, i)
  {
    if s[0] == c {
      i := 0;
    } else {
      var j := FirstExists(s[1..], c);
      i := j + 1;
      assert forall k :: 0 < k < i ==> s[k] == s[1..][k - 1];
    }
  }

  lemma {:induction false} LastExists(s: string, c: char) returns (i: int)
    requires c in s
    ensures IsLast(s, c, i)
  {
    if s[|s| - 1] == c {
      i := |s| - 1;
    } else {
      i := LastExists(s[..|s| - 1], c);
      assert forall k :: i < k < |s| - 1 ==> s[k] == s[..|s| - 1][k];
    }
  }

  lemma AnIndexExists(s: string, c: char)
    requires c in s
    ensures (exists i :: IsFirst(s, c, i)) && exists i :: IsLast(s, c, i)
  {
    var i := FirstExists(s, c);
    var j := LastExists(s, c);
  }

  /** Index of the first `c`, or -1. */
  function Index(s: string, c: char): (i: int)
    ensures if c in s then IsFirst(s, c, i) else i == -1
  {
    if c !in s then -1
    else
      AnIndexExists(s, c);
      var i :| IsFirst(s, c, i);
      i
  }

  /** Index of the last `c`, or -1. */
  function LastIndex(s: string, c: char): (i: int)
    ensures if c in s then IsLast(s, c, i) else i == -1
  {
    if c !in s then -1
    else
      AnIndexExists(s, c);
      var i :| IsLast(s, c, i);
      i
  }

  /** The last `c` is where the text after it has none. */
  lemma LastIndexAt(a: string, c: char, b: string)
    requires c !in b
    ensures LastIndex(a + [c] + b, c) == |a|
  {
    var s := a + [c] + b;
    assert IsLast(s, c, |a|) by {
      assert forall k :: |a| < k < |s| ==> s[k] == b[k - |a| - 1];
    }
  }

  lemma IndexAt(a: string, c: char, b: string)
    requires c !in a
    ensures Index(a + [c] + b, c) == |a|
  {
    var s := a + [c] + b;
    assert IsFirst(s, c, |a|) by {
      assert forall k :: 0 <= k < |a| ==> s[k] == a[k];
    }
  }

  // ----- Case and space -----

  function LowerChar(c: char): char {
    if 'A' <= c <= 'Z' then c - 'A' + 'a' else c
  }

  const CAPITALS := "ABCDEFGHIJKLMNOPQRSTUVWXYZ"

  /** Each capital becomes the small letter in its place, and no other character changes. */
  lemma LowerLetters(i: nat, c: char)
    requires i < 26
    ensures LowerChar(CAPITALS[i]) == "abcdefghijklmnopqrstuvwxyz"[i]
    ensures c !in CAPITALS ==> LowerChar(c) == c
  {
    if 'A' <= c <= 'Z' {
      CapitalAt(c as int - 'A' as int);
    }
  }

  lemma CapitalAt(i: nat)
    requires i < 26
    ensures CAPITALS[i] as int == 'A' as int + i
  {
  }

  lemma LowerHasNoCapitals(c: char)
    ensures LowerChar(c) !in CAPITALS
  {
  }

  /** `strings.ToLower` on ASCII letters. */
  function Lower(s: string): (r: string)
    ensures |r| == |s| && forall i :: 0 <= i < |s| ==> r[i] == LowerChar(s[i])
  {
    if s == [] then [] else [LowerChar(s[0])] + Lower(s[1..])
  }

  predicate IsSpace(c: char) {
    || c == ' ' || '\t' <= c <= '\r' || c == '\U{0085}' || c == '\U{00A0}'
    || c == '\U{1680}' || '\U{2000}' <= c <= '\U{200A}' || c == '\U{2028}' || c == '\U{2029}'
    || c == '\U{202F}' || c == '\U{205F}' || c == '\U{3000}'
  }

  /** No space at either end. */
  predicate Trimmed(s: string) { s != [] ==> !IsSpace(s[0]) && !IsSpace(s[|s| - 1]) }

  function TrimLeft(s: string): (r: string)
    ensures |r| <= |s| && r == s[|s| - |r|..]
    ensures r != [] ==> !IsSpace(r[0])
    ensures s != [] && !IsSpace(s[0]) ==> r == s
  {
    if s != [] && IsSpace(s[0]) then TrimLeft(s[1..]) else s
  }

  function TrimRight(s: string): (r: string)
    ensures |r| <= |s| && r == s[..|r|]
    ensures r != [] ==> !IsSpace(r[|r| - 1])
    ensures s != [] && !IsSpace(s[|s| - 1]) ==> r == s
  {
    if s != [] && IsSpace(s[|s| - 1]) then TrimRight(s[..|s| - 1]) else s
  }

  function TrimSpace(s: string): (r: string)
    ensures Trimmed(r) && (Trimmed(s) ==> r == s)
    ensures forall c :: c in r ==> c in s
  {
    TrimRight(TrimLeft(s))
  }

  lemma {:induction false} TrimLeftKeeps(s: string, c: char)
    requires c in s && !IsSpace(c)
    ensures c in TrimLeft(s)
  {
    if IsSpace(s[0]) {
      TrimLeftKeeps(s[1..], c);
    }
  }

  lemma {:induction false} TrimRightKeeps(s: string, c: char)
    requires c in s && !IsSpace(c)
    ensures c in TrimRight(s)
  {
    if IsSpace(s[|s| - 1]) {
      TrimRightKeeps(s[..|s| - 1], c);
    }
  }

  lemma LowerTwice(s: string)
    ensures Lower(Lower(s)) == Lower(s)
  {
  }

  lemma LowerKeepsSpace(c: char)
    ensures IsSpace(LowerChar(c)) <==> IsSpace(c)
  {
  }

  lemma LowerTrimmed(s: string)
    requires Trimmed(s)
    ensures Trimmed(Lower(s))
  {
    if s != [] {
      LowerKeepsSpace(s[0]);
      LowerKeepsSpace(s[|s| - 1]);
    }
  }

  /** Lower-casing brings in no character that is not a letter. */
  lemma LowerBringsNothing(s: string, c: char)
    requires c !in s && !('a' <= c <= 'z')
    ensures c !in Lower(s)
  {
  }

  // ----- Numbers -----

  predicate IsDigit(c: char) { '0' <= c <= '9' }

  function DigitValue(c: char): (d: nat)
    requires IsDigit(c)
    ensures d < 10
  {
    c as int - '0' as int
  }

  predicate AllDigits(s: string) { forall i :: 0 <= i < |s| ==> IsDigit(s[i]) }

  function DigitsValue(s: string): nat
    requires AllDigits(s)
  {
    if s == [] then 0 else 10 * DigitsValue(s[..|s| - 1]) + DigitValue(s[|s| - 1])
  }

  /** `strconv.Atoi`: an optional sign and at least one decimal digit. */
  function Atoi(s: string): Option<int> {
    var body := if s != [] && (s[0] == '+' || s[0] == '-') then s[1..] else s;
    if body == [] || !AllDigits(body) then None
    else
      var n: int := DigitsValue(body);
      Some(if s[0] == '-' then -n else n)
  }

  lemma NotADigit(s: string, c: char)
    requires c in s && !IsDigit(c) && c != '+' && c != '-'
    ensures Atoi(s).None?
  {
    var i :| 0 <= i < |s| && s[i] == c;
    if s[0] == '+' || s[0] == '-' {
      assert s[1..][i - 1] == c;
    }
  }

  lemma NotANumber(s: string, c: char)
    requires c in s && !IsSpace(c) && !IsDigit(c) && c != '+' && c != '-'
    ensures Atoi(TrimSpace(s)).None?
  {
    TrimLeftKeeps(s, c);
    TrimRightKeeps(TrimLeft(s), c);
    NotADigit(TrimSpace(s), c);
  }

  function DigitChar(d: nat): (c: char)
    requires d < 10
    ensures IsDigit(c) && DigitValue(c) == d
  {
    '0' + d as char
  }

  /** `strconv.Itoa` on naturals. */
  function Itoa(n: nat): (s: string)
    ensures s != [] && AllDigits(s) && DigitsValue(s) == n
  {
    if n < 10 then
      assert [DigitChar(n)][..0] == [];
      [DigitChar(n)]
    else
      var front, last := Itoa(n / 10), DigitChar(n % 10);
      assert (front + [last])[..|front|] == front;
      front + [last]
  }

  lemma AtoiDigits(s: string)
    requires s != [] && AllDigits(s)
    ensures Atoi(s) == Some(DigitsValue(s))
  {
    assert IsDigit(s[0]);
  }

  lemma DigitIsNoSpace(c: char)
    requires IsDigit(c)
    ensures !IsSpace(c)
  {
  }

  lemma TrimmedNumber(n: nat)
    ensures Atoi(TrimSpace(Itoa(n))) == Some(n)
  {
    var s := Itoa(n);
    DigitIsNoSpace(s[0]);
    DigitIsNoSpace(s[|s| - 1]);
    assert TrimSpace(s) == s;
    AtoiDigits(s);
  }

  function Zeros(n: nat): (z: string)
    ensures |z| == n && AllDigits(z)
  {
    if n == 0 then [] else Zeros(n - 1) + ['0']
  }

  lemma {:induction false} LeadingZeros(n: nat, s: string)
    requires AllDigits(s)
    ensures AllDigits(Zeros(n) + s) && DigitsValue(Zeros(n) + s) == DigitsValue(s)
    decreases |s|, n
  {
    var z := Zeros(n);
    if s != [] {
      LeadingZeros(n, s[..|s| - 1]);
      assert (z + s)[..|z + s| - 1] == z + s[..|s| - 1];
    } else if n > 0 {
      LeadingZeros(n - 1, []);
      assert z + s == z && z[..n - 1] == Zeros(n - 1) + [];
    }
  }

  // ----- Splitting -----

  /** `strings.Split` on one character. */
  function Split(s: string, c: char): (parts: seq<string>)
    ensures parts != []
    decreases |s|
  {
    var i := Index(s, c);
    if i < 0 then [s] else [s[..i]] + Split(s[i + 1..], c)
  }

  lemma {:induction false} SplitParts(s: string, c: char, k: nat)
    requires k < |Split(s, c)|
    ensures c !in Split(s, c)[k]
    decreases |s|
  {
    var i := Index(s, c);
    if 0 <= i {
      assert c !in s[..i];
      if 0 < k {
        SplitParts(s[i + 1..], c, k - 1);
      }
    }
  }

  function Join(parts: seq<string>, c: char): string {
    if |parts| == 0 then [] else if |parts| == 1 then parts[0] else parts[0] + [c] + Join(parts[1..], c)
  }

  lemma SplitStep(a: string, c: char, rest: string)
    requires c !in a
    ensures Split(a + [c] + rest, c) == [a] + Split(rest, c)
  {
    var s := a + [c] + rest;
    IndexAt(a, c, rest);
    assert s[..|a|] == a && s[|a| + 1..] == rest;
  }

  /** Splitting undoes joining, for parts without the separator. */
  lemma {:induction false} SplitJoin(parts: seq<string>, c: char)
    requires parts != [] && forall i :: 0 <= i < |parts| ==> c !in parts[i]
    ensures Split(Join(parts, c), c) == parts
  {
    if |parts| == 1 {
      assert c !in parts[0];
    } else {
      SplitJoin(parts[1..], c);
      SplitStep(parts[0], c, Join(parts[1..], c));
    }
  }

  /** A separator splits into what stands before it and what stands after it. */
  lemma {:induction false} SplitConcat(a: string, c: char, b: string)
    ensures Split(a + [c] + b, c) == Split(a, c) + Split(b, c)
    decreases |a|
  {
    var i := Index(a, c);
    if i < 0 {
      SplitStep(a, c, b);
    } else {
      var front, back := a[..i], a[i + 1..];
      assert a + [c] + b == front + [c] + (back + [c] + b);
      SplitStep(front, c, back + [c] + b);
      SplitConcat(back, c, b);
      assert [front] + (Split(back, c) + Split(b, c)) == [front] + Split(back, c) + Split(b, c);
    }
  }

  lemma {:induction false} JoinSplit(s: string, c: char)
    ensures Join(Split(s, c), c) == s
    decreases |s|
  {
    var i := Index(s, c);
    if 0 <= i {
      var rest := Split(s[i + 1..], c);
      JoinSplit(s[i + 1..], c);
      assert ([s[..i]] + rest)[1..] == rest;
      assert s == s[..i] + [c] + s[i + 1..];
      assert Join([s[..i]] + rest, c) == s[..i] + [c] + Join(rest, c);
    }
  }

  lemma {:induction false} JoinBringsNothing(parts: seq<string>, c: char, x: char)
    requires x != c && forall i :: 0 <= i < |parts| ==> x !in parts[i]
    ensures x !in Join(parts, c)
  {
    if |parts| > 1 {
      JoinBringsNothing(parts[1..], c, x);
    }
  }

  /** A separator at the end leaves an empty last part. */
  lemma {:induction false} SeparatorAtTheEnd(s: string, c: char)
    requires s != [] && s[|s| - 1] == c
    ensures Split(s, c)[|Split(s, c)| - 1] == []
    decreases |s|
  {
    var i := Index(s, c);
    if i < |s| - 1 {
      SeparatorAtTheEnd(s[i + 1..], c);
    }
  }
}
