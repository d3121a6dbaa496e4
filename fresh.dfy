/** Fresh-name allocation shared by every table that invents names of the form
    prefix + decimal counter: class ids "internal.cls<i>", expression constants
    "internal.expr<i>", procedure names "<method>.proc.<i>", temporaries "internal.tmp<i>"
    and the inliner's "m_<i>" / "l_<i>" members. Each source loop counts i up from 0 and
    takes the first candidate not already in use. */
module Fresh {
  /** Java's Integer.toString on a non-negative int: decimal digits, no leading zeros. */
  function NatToString(n: nat): (s: string)
    ensures |s| > 0 && forall k :: 0 <= k < |s| ==> '0' <= s[k] <= '9'
  {
    if n < 10 then [DigitChar(n)] else NatToString(n / 10) + [DigitChar(n % 10)]
  }

  function DigitChar(d: nat): (c: char)
    requires d < 10
    ensures '0' <= c <= '9' && c as int - '0' as int == d
  {
    (d + '0' as int) as char
  }

  /** Reads a string of decimal digits back as a number. */
  function ParseDigits(s: string): nat
    requires forall k :: 0 <= k < |s| ==> '0' <= s[k] <= '9'
  {
    if s == [] then 0 else ParseDigits(s[..|s| - 1]) * 10 + (s[|s| - 1] as int - '0' as int)
  }

  lemma {:induction false} ParseNatToString(n: nat)
    ensures ParseDigits(NatToString(n)) == n
  {
    if n >= 10 {
      var s := NatToString(n);
      assert s[..|s| - 1] == NatToString(n / 10);
      ParseNatToString(n / 10);
    }
  }

  lemma NatToStringInjective(i: nat, j: nat)
    ensures NatToString(i) == NatToString(j) <==> i == j
  {
    ParseNatToString(i);
    ParseNatToString(j);
  }

  /** The i-th candidate name for a prefix. */
  function Name(prefix: string, i: nat): string
  {
    prefix + NatToString(i)
  }

  lemma NameInjective(prefix: string, i: nat, j: nat)
    ensures Name(prefix, i) == Name(prefix, j) <==> i == j
  {
    if Name(prefix, i) == Name(prefix, j) {
      assert NatToString(i) == Name(prefix, i)[|prefix|..];
      assert NatToString(j) == Name(prefix, j)[|prefix|..];
      NatToStringInjective(i, j);
    }
  }

  /** The first n candidates. */
  function NamesBelow(prefix: string, n: nat): set<string>
  {
    if n == 0 then {} else NamesBelow(prefix, n - 1) + {Name(prefix, n - 1)}
  }

  lemma {:induction false} NamesBelowCard(prefix: string, n: nat)
    ensures |NamesBelow(prefix, n)| == n
    ensures forall j: nat :: j < n <==> Name(prefix, j) in NamesBelow(prefix, n)
  {
    if n > 0 {
      NamesBelowCard(prefix, n - 1);
      forall j: nat
        ensures j < n <==> Name(prefix, j) in NamesBelow(prefix, n)
      {
        NameInjective(prefix, j, n - 1);
      }
    }
  }

  /** If the first i candidates are all used, there are at least i used names. */
  lemma UsedBound(prefix: string, used: set<string>, i: nat)
    requires forall j: nat :: j < i ==> Name(prefix, j) in used
    ensures i <= |used|
  {
    NamesBelowCard(prefix, i);
    NamesBelowUsed(prefix, used, i);
    SubsetCard(NamesBelow(prefix, i), used);
  }

  lemma {:induction false} NamesBelowUsed(prefix: string, used: set<string>, i: nat)
    requires forall j: nat :: j < i ==> Name(prefix, j) in used
    ensures NamesBelow(prefix, i) <= used
  {
    if i > 0 {
      NamesBelowUsed(prefix, used, i - 1);
    }
  }

  lemma SubsetCard<T>(a: set<T>, b: set<T>)
    requires a <= b
    ensures |a| <= |b|
  {
    assert b == a + (b - a);
  }

  /** The index of the first candidate, from i on, that is not in use. */
  function FirstFreshFrom(prefix: string, used: set<string>, i: nat): (k: nat)
    requires forall j: nat :: j < i ==> Name(prefix, j) in used
    ensures i <= k && Name(prefix, k) !in used
    ensures forall j: nat :: j < k ==> Name(prefix, j) in used
    decreases |used| - i
  {
    UsedBound(prefix, used, i);
    if Name(prefix, i) !in used then i
    else
      UsedBound(prefix, used, i + 1);
      FirstFreshFrom(prefix, used, i + 1)
  }

  /** The index the source's counting loop stops at. */
  function FreshIndex(prefix: string, used: set<string>): nat
  {
    FirstFreshFrom(prefix, used, 0)
  }

  /** The name the source's counting loop returns. */
  function FreshName(prefix: string, used: set<string>): string
  {
    Name(prefix, FreshIndex(prefix, used))
  }

  /** The fresh name is unused, has the prefix, and is the smallest candidate: any
      unused candidate has an index at least as large. */
  lemma FreshNameSmallest(prefix: string, used: set<string>, j: nat)
    ensures FreshName(prefix, used) !in used
    ensures |prefix| <= |FreshName(prefix, used)| && FreshName(prefix, used)[..|prefix|] == prefix
    ensures Name(prefix, j) !in used ==> FreshIndex(prefix, used) <= j
  {
  }

  /** Recording the allocated name moves the next allocation strictly past it, so
      successive allocations from one table never repeat. */
  lemma FreshIndexAfterUse(prefix: string, used: set<string>)
    ensures FreshIndex(prefix, used + {FreshName(prefix, used)}) > FreshIndex(prefix, used)
  {
    var k := FreshIndex(prefix, used);
    var k' := FreshIndex(prefix, used + {FreshName(prefix, used)});
    if k' <= k {
      NameInjective(prefix, k', k);
    }
  }

  /** The counting loop itself: for (i = 0; ; i++) if (!used(prefix + i)) return. */
  method SmallestFresh(prefix: string, used: set<string>) returns (name: string, i: nat)
    ensures name == Name(prefix, i) && name !in used
    ensures forall j: nat :: j < i ==> Name(prefix, j) in used
    ensures i == FreshIndex(prefix, used) && name == FreshName(prefix, used)
  {
    i := 0;
    while Name(prefix, i) in used
      invariant forall j: nat :: j < i ==> Name(prefix, j) in used
      decreases |used| - i
    {
      UsedBound(prefix, used, i + 1);
      i := i + 1;
    }
    name := Name(prefix, i);
    FreshUnique(prefix, used, i);
  }

  /** Any index that is unused and preceded only by used candidates is the fresh index. */
  lemma FreshUnique(prefix: string, used: set<string>, i: nat)
    requires Name(prefix, i) !in used
    requires forall j: nat :: j < i ==> Name(prefix, j) in used
    ensures i == FreshIndex(prefix, used)
  {
  }
}
