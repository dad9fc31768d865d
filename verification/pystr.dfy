/**
 * The few pieces of Python string behaviour the modelled code relies on:
 * `sep.join(items)`, `s.startswith(p)` and slicing `s[:n]`.
 */
module PyStr {

  /** `sep.join(items)`: the items, in order, with `sep` between neighbours. */
  function Join(sep: string, items: seq<string>): string
  {
    if |items| == 0 then ""
    else if |items| == 1 then items[0]
    else Join(sep, items[..|items| - 1]) + sep + items[|items| - 1]
  }

  /** Total length of the items. */
  function TotalLength(items: seq<string>): nat
  {
    if |items| == 0 then 0 else TotalLength(items[..|items| - 1]) + |items[|items| - 1]|
  }

  /** A join holds every item and one separator between each pair of neighbours, nothing else. */
  lemma {:induction false} JoinLength(sep: string, items: seq<string>)
    ensures |items| == 0 ==> |Join(sep, items)| == 0
    ensures |items| > 0 ==> |Join(sep, items)| == TotalLength(items) + (|items| - 1) * |sep|
  {
    if |items| > 1 {
      var init := items[..|items| - 1];
      JoinLength(sep, init);
      var n := |items| - 1;
      assert |Join(sep, items)| == |Join(sep, init)| + |sep| + |items[n]|;
      assert (n - 1) * |sep| + |sep| == n * |sep|;
    }
  }

  /** Joining two non-empty lists is joining each and putting one separator between them. */
  lemma {:induction false} JoinAppend(sep: string, a: seq<string>, b: seq<string>)
    requires |a| > 0 && |b| > 0
    ensures Join(sep, a + b) == Join(sep, a) + sep + Join(sep, b)
    decreases |b|
  {
    if |b| == 1 {
      assert (a + b)[..|a + b| - 1] == a;
    } else {
      var b' := b[..|b| - 1];
      assert (a + b)[..|a + b| - 1] == a + b';
      JoinAppend(sep, a, b');
    }
  }

  /** The first item is a prefix of the join. */
  lemma {:induction false} JoinStartsWithFirst(sep: string, items: seq<string>)
    requires |items| > 0
    ensures |items[0]| <= |Join(sep, items)|
    ensures Join(sep, items)[..|items[0]|] == items[0]
  {
    if |items| > 1 {
      JoinAppend(sep, [items[0]], items[1..]);
      assert [items[0]] + items[1..] == items;
    }
  }

  /** `s.startswith(prefix)`. */
  predicate StartsWith(s: string, prefix: string)
  {
    |prefix| <= |s| && s[..|prefix|] == prefix
  }

  /** `s[:n]` for a non-negative `n`: at most the first `n` characters. */
  function Take(s: string, n: nat): (r: string)
    ensures |r| == if |s| <= n then |s| else n
    ensures StartsWith(s, r)
  {
    if |s| <= n then s else s[..n]
  }
}
