/** Small vocabulary shared by every module: options, bytes, concatenation and subsequences. */
module Common {

  datatype Option<+T> = None | Some(value: T) {
    function GetOr(default: T): T {
      if Some? then value else default
    }
  }

  type byte = b: int | 0 <= b < 256

  lemma AppendAppend<T>(a: seq<T>, b: seq<T>, c: seq<T>)
    ensures a + b + c == a + (b + c)
  {
  }

  /** The concatenation of a list of blocks. */
  function Flatten<T>(blocks: seq<seq<T>>): seq<T> {
    if blocks == [] then [] else blocks[0] + Flatten(blocks[1..])
  }

  lemma {:induction false} FlattenAppend<T>(a: seq<seq<T>>, b: seq<seq<T>>)
    ensures Flatten(a + b) == Flatten(a) + Flatten(b)
  {
    if a == [] {
      assert a + b == b;
    } else {
      assert (a + b)[1..] == a[1..] + b;
      FlattenAppend(a[1..], b);
    }
  }

  lemma FlattenSnoc<T>(a: seq<seq<T>>, x: seq<T>)
    ensures Flatten(a + [x]) == Flatten(a) + x
  {
    FlattenAppend(a, [x]);
    assert Flatten([x]) == x + Flatten([]);
  }

  lemma FlattenLast<T>(blocks: seq<seq<T>>, n: nat)
    requires n < |blocks|
    ensures Flatten(blocks[..n + 1]) == Flatten(blocks[..n]) + blocks[n]
  {
    assert blocks[..n + 1] == blocks[..n] + [blocks[n]];
    FlattenSnoc(blocks[..n], blocks[n]);
  }

  /** Replaces every item by a block, in order. */
  function FlatMap<A, B>(f: A -> seq<B>, items: seq<A>): seq<B> {
    if items == [] then [] else FlatMap(f, items[..|items| - 1]) + f(items[|items| - 1])
  }

  lemma FlatMapSnoc<A, B>(f: A -> seq<B>, items: seq<A>, x: A)
    ensures FlatMap(f, items + [x]) == FlatMap(f, items) + f(x)
  {
    assert (items + [x])[..|items|] == items;
  }

  lemma FlatMapOne<A, B>(f: A -> seq<B>, x: A)
    ensures FlatMap(f, [x]) == f(x)
  {
    FlatMapSnoc(f, [], x);
    assert [] + [x] == [x];
  }

  lemma {:induction false} FlatMapAppend<A, B>(f: A -> seq<B>, a: seq<A>, b: seq<A>)
    ensures FlatMap(f, a + b) == FlatMap(f, a) + FlatMap(f, b)
  {
    if b == [] {
      assert a + b == a;
    } else {
      var init, x := b[..|b| - 1], b[|b| - 1];
      assert b == init + [x];
      calc {
        FlatMap(f, a + b);
        { assert a + b == (a + init) + [x]; FlatMapSnoc(f, a + init, x); }
        FlatMap(f, a + init) + f(x);
        { FlatMapAppend(f, a, init); }
        FlatMap(f, a) + FlatMap(f, init) + f(x);
        FlatMap(f, a) + (FlatMap(f, init) + f(x));
        { FlatMapSnoc(f, init, x); }
        FlatMap(f, a) + FlatMap(f, b);
      }
    }
  }

  lemma FlatMapFlattenSnoc<A, B>(f: A -> seq<B>, blocks: seq<seq<A>>, x: seq<A>)
    ensures FlatMap(f, Flatten(blocks + [x])) == FlatMap(f, Flatten(blocks)) + FlatMap(f, x)
  {
    FlattenSnoc(blocks, x);
    FlatMapAppend(f, Flatten(blocks), x);
  }

  lemma FlatMapFlattenLast<A, B>(f: A -> seq<B>, blocks: seq<seq<A>>, n: nat)
    requires n < |blocks|
    ensures FlatMap(f, Flatten(blocks[..n + 1])) == FlatMap(f, Flatten(blocks[..n])) + FlatMap(f, blocks[n])
  {
    FlattenLast(blocks, n);
    FlatMapAppend(f, Flatten(blocks[..n]), blocks[n]);
  }

  lemma FlatMapFlattenLastTwo<A, B>(f: A -> seq<B>, blocks: seq<seq<A>>, n: nat)
    requires |blocks| == n + 2
    ensures FlatMap(f, Flatten(blocks))
         == FlatMap(f, Flatten(blocks[..n])) + FlatMap(f, blocks[n]) + FlatMap(f, blocks[n + 1])
  {
    FlatMapFlattenLast(f, blocks, n);
    FlatMapFlattenLast(f, blocks, n + 1);
    assert blocks[..n + 2] == blocks;
  }

  /** Reading block by block what the blocks were made of. */
  lemma {:induction false} FlatMapCompose<A, B, C>(f: A -> seq<B>, g: B -> seq<C>, h: A -> seq<C>, items: seq<A>)
    requires forall x :: FlatMap(g, f(x)) == h(x)
    ensures FlatMap(g, FlatMap(f, items)) == FlatMap(h, items)
  {
    if items == [] {
    } else {
      var init, x := items[..|items| - 1], items[|items| - 1];
      FlatMapCompose(f, g, h, init);
      FlatMapAppend(g, FlatMap(f, init), f(x));
    }
  }

  lemma {:induction false} FlatMapNothing<A, B>(f: A -> seq<B>, items: seq<A>)
    requires forall x :: f(x) == []
    ensures FlatMap(f, items) == []
  {
    if items == [] {
    } else {
      FlatMapNothing(f, items[..|items| - 1]);
    }
  }

  /** a can be obtained from b by deleting elements, keeping the order of the rest. */
  predicate Subsequence<T(==)>(a: seq<T>, b: seq<T>) {
    if a == [] then true
    else if b == [] then false
    else
      || (a[|a| - 1] == b[|b| - 1] && Subsequence(a[..|a| - 1], b[..|b| - 1]))
      || Subsequence(a, b[..|b| - 1])
  }

  lemma SubsequenceSkip<T>(a: seq<T>, b: seq<T>, x: T)
    requires Subsequence(a, b)
    ensures Subsequence(a, b + [x])
  {
    assert (b + [x])[..|b|] == b;
  }

  lemma SubsequenceKeep<T>(a: seq<T>, b: seq<T>, x: T)
    requires Subsequence(a, b)
    ensures Subsequence(a + [x], b + [x])
  {
    assert (b + [x])[..|b|] == b;
    assert (a + [x])[..|a|] == a;
  }

  lemma SubsequenceOfOne<T>(a: seq<T>, x: T)
    requires Subsequence(a, [x]) && a != []
    ensures a == [x]
  {
    var front := a[..|a| - 1];
    assert [x][..0] == [];
    assert !Subsequence(a, []);
    assert Subsequence(front, []);
    assert front == [] && a == front + [a[|a| - 1]];
  }

  lemma {:induction false} SubsequenceReflexive<T>(a: seq<T>)
    ensures Subsequence(a, a)
  {
    if a == [] {
    } else {
      SubsequenceReflexive(a[..|a| - 1]);
    }
  }

  /** Dropping the last element of the shorter list keeps it a subsequence. */
  lemma {:induction false} SubsequenceInit<T>(a: seq<T>, b: seq<T>)
    requires a != [] && Subsequence(a, b)
    ensures Subsequence(a[..|a| - 1], b)
  {
    if a[|a| - 1] == b[|b| - 1] && Subsequence(a[..|a| - 1], b[..|b| - 1]) {
      SubsequenceSkip(a[..|a| - 1], b[..|b| - 1], b[|b| - 1]);
      assert b[..|b| - 1] + [b[|b| - 1]] == b;
    } else {
      SubsequenceInit(a, b[..|b| - 1]);
      SubsequenceSkip(a[..|a| - 1], b[..|b| - 1], b[|b| - 1]);
      assert b[..|b| - 1] + [b[|b| - 1]] == b;
    }
  }

  /** Every element of a subsequence occurs in the longer list. */
  lemma {:induction false} SubsequenceMembers<T>(a: seq<T>, b: seq<T>)
    requires Subsequence(a, b)
    ensures forall x :: x in a ==> x in b
  {
    if a == [] {
    } else {
      if a[|a| - 1] == b[|b| - 1] && Subsequence(a[..|a| - 1], b[..|b| - 1]) {
        SubsequenceMembers(a[..|a| - 1], b[..|b| - 1]);
        assert a == a[..|a| - 1] + [a[|a| - 1]];
      } else {
        SubsequenceMembers(a, b[..|b| - 1]);
      }
    }
  }

  /** A prefix of a selection is a selection. */
  lemma {:induction false} SubsequencePrefix<T>(a: seq<T>, b: seq<T>, c: seq<T>)
    requires Subsequence(a + b, c)
    ensures Subsequence(a, c)
  {
    if b == [] {
      assert a + b == a;
    } else {
      SubsequenceInit(a + b, c);
      assert (a + b)[..|a + b| - 1] == a + b[..|b| - 1];
      SubsequencePrefix(a, b[..|b| - 1], c);
    }
  }

  /** A selection of a prefix is a selection of the whole. */
  lemma {:induction false} SubsequenceExtend<T>(a: seq<T>, b: seq<T>, c: seq<T>)
    requires Subsequence(a, b) && b <= c
    ensures Subsequence(a, c)
    decreases |c|
  {
    if b == c {
    } else {
      var init, x := c[..|c| - 1], c[|c| - 1];
      SubsequenceExtend(a, b, init);
      SubsequenceSkip(a, init, x);
      assert c == init + [x];
    }
  }

  lemma {:induction false} SubsequenceTransitive<T>(a: seq<T>, b: seq<T>, c: seq<T>)
    requires Subsequence(a, b) && Subsequence(b, c)
    ensures Subsequence(a, c)
    decreases |a| + |b| + |c|
  {
    if a == [] || b == [] || c == [] {
    } else {
      var b', c' := b[..|b| - 1], c[..|c| - 1];
      if Subsequence(b, c') {
        SubsequenceTransitive(a, b, c');
      } else if Subsequence(a, b') {
        SubsequenceTransitive(a, b', c');
      } else {
        SubsequenceTransitive(a[..|a| - 1], b', c');
      }
    }
  }

  /** A selection that does not contain x can also be made without x. */
  lemma {:induction false} SubsequenceWithout<T>(a: seq<T>, b: seq<T>, x: T, c: seq<T>)
    requires Subsequence(a, b + [x] + c) && x !in a
    ensures Subsequence(a, b + c)
    decreases |c|
  {
    if a == [] {
    } else if c == [] {
      assert b + [x] + c == b + [x] && b + c == b;
      assert (b + [x])[..|b|] == b;
    } else {
      var init, y := c[..|c| - 1], c[|c| - 1];
      assert (b + [x] + c)[..|b + [x] + c| - 1] == b + [x] + init;
      assert (b + c)[..|b + c| - 1] == b + init;
      if Subsequence(a, b + [x] + init) {
        SubsequenceWithout(a, b, x, init);
      } else {
        SubsequenceWithout(a[..|a| - 1], b, x, init);
      }
    }
  }

  /** A machine that consumes one item at a time: its state after a whole list of items. */
  function Fold<S, A>(step: (S, A) -> S, s: S, items: seq<A>): S {
    if items == [] then s
    else step(Fold(step, s, items[..|items| - 1]), items[|items| - 1])
  }

  lemma FoldSnoc<S, A>(step: (S, A) -> S, s: S, items: seq<A>, x: A)
    ensures Fold(step, s, items + [x]) == step(Fold(step, s, items), x)
  {
    assert (items + [x])[..|items|] == items;
  }

  /** What holds at the start and is kept by every item, of the state and the items so far, holds at the end. */
  lemma {:induction false} FoldKeeps<S, A>(step: (S, A) -> S, s: S, items: seq<A>, holds: (S, seq<A>) -> bool)
    requires holds(s, [])
    requires forall t: S, seen: seq<A>, x: A :: holds(t, seen) ==> holds(step(t, x), seen + [x])
    ensures holds(Fold(step, s, items), items)
  {
    if items == [] {
    } else {
      var init, x := items[..|items| - 1], items[|items| - 1];
      FoldKeeps(step, s, init, holds);
      assert items == init + [x];
    }
  }

  lemma FoldTwo<S, A>(step: (S, A) -> S, s: S, a: A, b: A)
    ensures Fold(step, s, [a]) == step(s, a)
    ensures Fold(step, s, [a, b]) == step(step(s, a), b)
  {
    assert [a, b] == [a] + [b] && [a] == [] + [a];
    FoldSnoc(step, s, [a], b);
    FoldSnoc(step, s, [], a);
  }

  /** Such a machine cannot tell how its input was cut into pieces. */
  lemma {:induction false} FoldAppend<S, A>(step: (S, A) -> S, s: S, a: seq<A>, b: seq<A>)
    ensures Fold(step, s, a + b) == Fold(step, Fold(step, s, a), b)
  {
    if b == [] {
      assert a + b == a;
    } else {
      var init, x := b[..|b| - 1], b[|b| - 1];
      assert a + b == (a + init) + [x];
      FoldSnoc(step, s, a + init, x);
      FoldAppend(step, s, a, init);
      assert b == init + [x];
    }
  }
}
