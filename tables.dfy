/** Tables are sequences of records in sheet order. A boolean mask `df[mask]`
    is `Filter`, `df[mask].iloc[0]` is the row at `FirstIndex`, and
    `IsSubseq` says that a result keeps the order of the table it came from. */
module Tables {

  datatype Option<T> = None | Some(value: T)

  /** `r` can be obtained from `s` by deleting elements, keeping the order. */
  ghost predicate IsSubseq<T>(r: seq<T>, s: seq<T>)
    decreases |s|
  {
    if r == [] then true
    else if s == [] then false
    else (r[|r| - 1] == s[|s| - 1] && IsSubseq(r[..|r| - 1], s[..|s| - 1]))
         || IsSubseq(r, s[..|s| - 1])
  }

  lemma {:induction false} SubseqTransitive<T>(a: seq<T>, b: seq<T>, c: seq<T>)
    requires IsSubseq(a, b) && IsSubseq(b, c)
    ensures IsSubseq(a, c)
    decreases |a| + |b| + |c|
  {
    if a != [] {
      var c' := c[..|c| - 1];
      if IsSubseq(b, c') {
        SubseqTransitive(a, b, c');
      } else {
        var b' := b[..|b| - 1];
        if a[|a| - 1] == b[|b| - 1] && IsSubseq(a[..|a| - 1], b') {
          SubseqTransitive(a[..|a| - 1], b', c');
        } else {
          SubseqTransitive(a, b', c');
        }
      }
    }
  }

  /** The rows of `s` that satisfy `p`, in table order. */
  function Filter<T(!new)>(s: seq<T>, p: T -> bool): (r: seq<T>)
    ensures forall k :: 0 <= k < |r| ==> p(r[k])
    ensures forall x :: multiset(r)[x] == if p(x) then multiset(s)[x] else 0
    ensures IsSubseq(r, s)
  {
    if s == [] then []
    else
      var last := s[|s| - 1];
      var init := Filter(s[..|s| - 1], p);
      assert s == s[..|s| - 1] + [last];
      assert multiset(s) == multiset(s[..|s| - 1]) + multiset{last};
      if p(last) then
        var r := init + [last];
        assert r[..|r| - 1] == init && r[|r| - 1] == s[|s| - 1];
        assert multiset(r) == multiset(init) + multiset{last};
        r
      else
        assert IsSubseq(init, s[..|s| - 1]);
        init
  }

  /** One step of `Filter`: the last row is kept exactly when it satisfies the mask. */
  lemma FilterLast<T(!new)>(s: seq<T>, p: T -> bool)
    requires s != []
    ensures Filter(s, p) == if p(s[|s| - 1]) then Filter(s[..|s| - 1], p) + [s[|s| - 1]] else Filter(s[..|s| - 1], p)
  {
  }

  lemma {:induction false} SubseqReflexive<T>(s: seq<T>)
    ensures IsSubseq(s, s)
    decreases |s|
  {
    if s != [] {
      SubseqReflexive(s[..|s| - 1]);
    }
  }

  /** An optional filter: `s` narrowed by `p` when `active`, left alone
      otherwise (`if arg: df = df[mask]`). */
  function Narrow<T(!new)>(s: seq<T>, active: bool, p: T -> bool): (r: seq<T>)
    ensures forall x :: multiset(r)[x] == if !active || p(x) then multiset(s)[x] else 0
    ensures IsSubseq(r, s)
  {
    if active then Filter(s, p)
    else
      SubseqReflexive(s);
      s
  }

  /** Index of the first row of `s` that satisfies `p`, if any. */
  function FirstIndex<T>(s: seq<T>, p: T -> bool): (r: Option<nat>)
    ensures r.Some? ==> r.value < |s| && p(s[r.value])
    ensures r.Some? ==> forall k :: 0 <= k < r.value ==> !p(s[k])
    ensures r.None? <==> forall k :: 0 <= k < |s| ==> !p(s[k])
  {
    if s == [] then None
    else if p(s[0]) then Some(0)
    else match FirstIndex(s[1..], p)
      case None => None
      case Some(i) => Some(i + 1)
  }
}
