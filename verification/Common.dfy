/** Small vocabulary shared by every module. */
module Common {
  datatype Option<+T> = None | Some(value: T)

  /** The elements of `s` that satisfy `keep`, in order. */
  function Filter<T(!new)>(s: seq<T>, keep: T -> bool): (r: seq<T>)
    ensures |r| <= |s|
    ensures forall x :: x in r <==> x in s && keep(x)
  {
    if s == [] then []
    else if keep(s[0]) then [s[0]] + Filter(s[1..], keep)
    else Filter(s[1..], keep)
  }

  lemma {:induction false} FilterConcat<T(!new)>(s: seq<T>, t: seq<T>, keep: T -> bool)
    ensures Filter(s + t, keep) == Filter(s, keep) + Filter(t, keep)
  {
    if s == [] {
      assert s + t == t;
    } else {
      FilterConcat(s[1..], t, keep);
      assert (s + t)[0] == s[0] && (s + t)[1..] == s[1..] + t;
      Assoc([s[0]], Filter(s[1..], keep), Filter(t, keep));
    }
  }

  lemma {:induction false} FilterNone<T(!new)>(s: seq<T>, keep: T -> bool)
    requires forall x :: x in s ==> !keep(x)
    ensures Filter(s, keep) == []
  {
    if s != [] { FilterNone(s[1..], keep); }
  }

  lemma {:induction false} FilterEvery<T(!new)>(s: seq<T>, keep: T -> bool)
    requires forall x :: x in s ==> keep(x)
    ensures Filter(s, keep) == s
  {
    if s != [] { FilterEvery(s[1..], keep); }
  }

  function Map<A, B>(s: seq<A>, f: A -> B): (r: seq<B>)
    ensures |r| == |s|
  {
    if s == [] then [] else [f(s[0])] + Map(s[1..], f)
  }

  /** `part(0)` to `part(n - 1)`, one after the other. */
  function Chain<T>(part: nat -> seq<T>, n: nat): seq<T> {
    if n == 0 then [] else Chain(part, n - 1) + part(n - 1)
  }

  function Repeat<S>(step: (S, nat) -> S, start: S, n: nat): S {
    if n == 0 then start else step(Repeat(step, start, n - 1), n - 1)
  }

  /** If each part has the effect of its step, all of them have the effect of all steps. */
  lemma {:induction false} ChainRepeats<T(!new), S>(effect: seq<T> -> S, part: nat -> seq<T>, step: (S, nat) -> S,
      before: seq<T>, n: nat)
    requires forall a: seq<T>, k: nat :: effect(a + part(k)) == step(effect(a), k)
    ensures Repeat(step, effect(before), n) == effect(before + Chain(part, n))
  {
    if n == 0 {
      assert before + [] == before;
    } else {
      ChainRepeats(effect, part, step, before, n - 1);
      Assoc(before, Chain(part, n - 1), part(n - 1));
    }
  }

  lemma SliceJoin<T>(s: seq<T>, i: nat, j: nat)
    requires i <= j <= |s|
    ensures s[..i] + s[i..j] == s[..j]
  {
  }

  /** The parts one after the other. */
  function Flat<T>(parts: seq<seq<T>>): seq<T> {
    if parts == [] then [] else Flat(parts[..|parts| - 1]) + parts[|parts| - 1]
  }

  lemma Assoc<T>(a: seq<T>, b: seq<T>, c: seq<T>)
    ensures a + b + c == a + (b + c)
  {
  }

  lemma FlatOne<T>(x: seq<T>)
    ensures Flat([x]) == x
  {
    assert [x][..0] == [];
    assert [] + x == x;
  }

  lemma FlatTwo<T>(x: seq<T>, y: seq<T>)
    ensures Flat([x, y]) == x + y
  {
    FlatOne(x);
    assert [x, y][..1] == [x];
  }

  lemma {:induction false} FlatConcat<T>(a: seq<seq<T>>, b: seq<seq<T>>)
    ensures Flat(a + b) == Flat(a) + Flat(b)
  {
    if b == [] {
      assert a + b == a;
      assert Flat(a) + [] == Flat(a);
    } else {
      var n := |b| - 1;
      FlatConcat(a, b[..n]);
      assert a + b == a + b[..n] + [b[n]];
      Assoc(Flat(a), Flat(b[..n]), b[n]);
    }
  }

  function Min(a: int, b: int): int { if a <= b then a else b }
  function Max(a: int, b: int): int { if a <= b then b else a }
}
