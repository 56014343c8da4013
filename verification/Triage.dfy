/** Failure triage: delta debugging of a failing program down to the words it needs, and
    bisection of a commit range. The simulator is an oracle. */
module Triage {
  import opened Bits
  import opened Wrappers

  type Program = seq<Word>

  /** The check a program fails on, if it fails. */
  type Verdict = Program -> Option<string>

  /** What one minimisation asks its tools: the simulator and the golden pre-filter. */
  datatype Tools = Tools(words: Program, run: Verdict, halts: Program -> bool, signature: string)

  /** The program with every word outside `keep` turned into NOP. */
  function Build(words: Program, keep: set<nat>): (p: Program)
    ensures |p| == |words|
  {
    seq(|words|, i requires 0 <= i < |words| => if i in keep then words[i] else 0)
  }

  predicate Fails(t: Tools, keep: set<nat>) {
    var p := Build(t.words, keep);
    t.halts(p) && t.run(p) == Some(t.signature)
  }

  function Elements(items: seq<nat>): (r: set<nat>)
    ensures forall x :: x in r <==> x in items
  {
    set x | x in items
  }

  predicate Distinct(items: seq<nat>) {
    forall i, j :: 0 <= i < j < |items| ==> items[i] != items[j]
  }

  /** The indices of the words that are not NOP. */
  function NonNops(words: Program, n: nat): (items: seq<nat>)
    requires n <= |words|
    ensures Distinct(items) && forall i: nat :: i in items <==> i < n && words[i] != 0
  {
    if n == 0 then []
    else NonNops(words, n - 1) + (if words[n - 1] != 0 then [n - 1] else [])
  }

  lemma BuildAll(words: Program)
    ensures Build(words, Elements(NonNops(words, |words|))) == words
  {
  }

  function Least(a: nat, b: nat): nat {
    if a <= b then a else b
  }

  /** The items without the slice from `i` to `j`. */
  function Without(items: seq<nat>, i: nat, j: nat): (r: seq<nat>)
    requires i <= j <= |items|
    ensures |r| == |items| - (j - i)
  {
    items[..i] + items[j..]
  }

  lemma WithoutIsFilter(items: seq<nat>, i: nat, j: nat)
    requires i <= j <= |items| && Distinct(items)
    ensures Distinct(Without(items, i, j))
    ensures forall x :: x in Without(items, i, j) <==> x in items && x !in items[i..j]
  {
    var r := Without(items, i, j);
    forall k | i <= k < j ensures items[k] in items[i..j] {
      assert items[i..j][k - i] == items[k];
    }
    forall x | x in items && x !in items[i..j] ensures x in r {
      var k :| 0 <= k < |items| && items[k] == x;
      assert x == if k < i then r[k] else r[k - (j - i)];
    }
    forall x | x in r ensures x in items && x !in items[i..j] {
      var k :| 0 <= k < |r| && r[k] == x;
      var k' := if k < i then k else k + (j - i);
      assert items[k'] == x;
      forall m | 0 <= m < j - i ensures items[i..j][m] != x {
        assert items[i + m] != items[k'];
      }
    }
  }

  /** Try each chunk alone: the first that still fails. */
  method TrySubsets(t: Tools, items: seq<nat>, chunk: nat) returns (found: bool, s: seq<nat>)
    requires 1 <= chunk < |items| && Distinct(items)
    ensures found ==> Distinct(s) && 0 < |s| <= chunk && Elements(s) <= Elements(items) && Fails(t, Elements(s))
  {
    var i := 0;
    while i < |items|
      invariant 0 <= i
      decreases |items| - i
    {
      var j := Least(i + chunk, |items|);
      s := items[i..j];
      if Fails(t, Elements(s)) {
        return true, s;
      }
      i := i + chunk;
    }
    return false, [];
  }

  /** Try removing each chunk: the first whose complement still fails. If none does and
      the chunks are single items, no single item can go. */
  method TryComplements(t: Tools, items: seq<nat>, chunk: nat) returns (found: bool, comp: seq<nat>)
    requires 1 <= chunk < |items| && Distinct(items)
    ensures found ==>
              Distinct(comp) && |items| - chunk <= |comp| < |items| && Elements(comp) < Elements(items)
                && Fails(t, Elements(comp))
    ensures !found && chunk == 1 ==> OneMinimal(t, items)
  {
    var i := 0;
    while i < |items|
      invariant 0 <= i
      invariant chunk == 1 ==> i <= |items| && forall k :: 0 <= k < i ==> !StillFailsWithout(t, items, k)
      decreases |items| - i
    {
      var j := Least(i + chunk, |items|);
      comp := Without(items, i, j);
      WithoutIsFilter(items, i, j);
      if |comp| > 0 && Fails(t, Elements(comp)) {
        assert items[i] in items[i..j] && items[i] !in comp;
        return true, comp;
      }
      i := i + chunk;
    }
    return false, [];
  }

  predicate StillFailsWithout(t: Tools, items: seq<nat>, k: nat)
    requires k < |items|
  {
    Fails(t, Elements(Without(items, k, k + 1)))
  }

  /** No single item can be dropped. */
  predicate OneMinimal(t: Tools, items: seq<nat>) {
    forall k :: 0 <= k < |items| ==> !StillFailsWithout(t, items, k)
  }

  /** The ddmin loop. It ends; the program it leaves, with all other words NOPed, still
      fails on the same check; and if two or more words are left, NOPing any one of them
      no longer fails (or no longer passes the pre-filter). */
  method Minimize(t: Tools) returns (items: seq<nat>)
    requires t.run(t.words) == Some(t.signature)
    ensures Elements(items) <= Elements(NonNops(t.words, |t.words|)) && Distinct(items)
    ensures t.run(Build(t.words, Elements(items))) == Some(t.signature)
    ensures |items| >= 2 ==> OneMinimal(t, items)
  {
    items := NonNops(t.words, |t.words|);
    BuildAll(t.words);
    var n := 2;
    var minimal := false;
    while |items| >= 2 && !minimal
      invariant Distinct(items) && Elements(items) <= Elements(NonNops(t.words, |t.words|))
      invariant t.run(Build(t.words, Elements(items))) == Some(t.signature)
      invariant 2 <= n && (|items| >= 2 ==> n <= |items|)
      invariant minimal ==> OneMinimal(t, items)
      decreases !minimal, |items|, |items| - n
    {
      var chunk := if |items| / n > 1 then |items| / n else 1;
      ChunkBounds(|items|, n);
      var reduced, s := TrySubsets(t, items, chunk);
      if reduced {
        items, n := s, 2;
      } else {
        var comp;
        reduced, comp := TryComplements(t, items, chunk);
        if reduced {
          items, n := comp, if n - 1 > 2 then n - 1 else 2;
        } else if n >= |items| {
          minimal := true;
        } else {
          n := Least(|items|, n * 2);
        }
      }
    }
  }

  /** With at most as many chunks as items, a chunk is a proper part, its complement
      leaves room for one chunk fewer, and `n` items make chunks of one. */
  lemma ChunkBounds(size: nat, n: nat)
    requires 2 <= n <= size
    ensures var chunk := if size / n > 1 then size / n else 1;
            && 1 <= chunk < size && size - chunk >= n - 1 && (n == size ==> chunk == 1)
  {
    var q := size / n;
    Quotient(size, n, q, size % n);
    if n == size {
      DivModUnique(size, n, 1, 0);
    }
  }

  lemma Quotient(size: nat, n: nat, q: nat, r: nat)
    requires 2 <= n <= size && size == n * q + r && r < n
    ensures 1 <= q < size && size - q >= n - 1
  {
    assert q == 0 ==> n * q == 0;
    assert n * q == (n - 1) * q + q;
    TimesAtLeast(n - 1, q);
  }

  lemma TimesAtLeast(a: nat, q: nat)
    requires q >= 1
    ensures a * q >= a
  {
  }

  // ------------------------------------------------------------ bisection

  /** Commit -1 is the good one. */
  predicate FailsAt(fails: seq<bool>, i: int) {
    0 <= i < |fails| && fails[i]
  }

  /** The first failing commit found by halving: it fails and the one before it passes. */
  method Bisect(fails: seq<bool>) returns (first: nat)
    requires |fails| > 0 && fails[|fails| - 1]
    ensures first < |fails| && FailsAt(fails, first) && !FailsAt(fails, first - 1)
  {
    var lo, hi := -1, |fails| - 1;
    while hi - lo > 1
      invariant -1 <= lo < hi < |fails| && FailsAt(fails, hi) && !FailsAt(fails, lo)
    {
      var mid := (lo + hi) / 2;
      if fails[mid] {
        hi := mid;
      } else {
        lo := mid;
      }
    }
    first := hi;
  }
}
