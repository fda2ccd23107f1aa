/** Order-preserving selections from a sequence: the vocabulary in which losing,
    reordering and duplicating messages are told apart. */
module Sequences {
  lemma Associate<T>(a: seq<T>, b: seq<T>, c: seq<T>)
    ensures (a + b) + c == a + (b + c)
  {}

  lemma Nothing<T>(a: seq<T>)
    ensures a + [] == a && [] + a == a
  {}

  lemma LastApart<T>(s: seq<T>)
    requires s != []
    ensures s == s[..|s| - 1] + [s[|s| - 1]]
  {}

  /** Replaces every element of `s` by the elements of `f` on it. */
  function FlatMap<A, B>(f: A -> seq<B>, s: seq<A>): seq<B> {
    if s == [] then [] else FlatMap(f, s[..|s| - 1]) + f(s[|s| - 1])
  }

  lemma {:induction false} FlatMapSnoc<A, B>(f: A -> seq<B>, s: seq<A>, x: A)
    ensures FlatMap(f, s + [x]) == FlatMap(f, s) + f(x)
  {
    assert (s + [x])[..|s|] == s;
  }

  lemma {:induction false} FlatMapConcat<A, B>(f: A -> seq<B>, s: seq<A>, t: seq<A>)
    ensures FlatMap(f, s + t) == FlatMap(f, s) + FlatMap(f, t)
    decreases |t|
  {
    if t == [] {
      assert s + t == s;
    } else {
      var t', x := t[..|t| - 1], t[|t| - 1];
      FlatMapConcat(f, s, t');
      assert s + t == (s + t') + [x];
      FlatMapSnoc(f, s + t', x);
      assert (FlatMap(f, s) + FlatMap(f, t')) + f(x) == FlatMap(f, s) + (FlatMap(f, t') + f(x));
    }
  }

  lemma {:induction false} FlatMapOne<A, B>(f: A -> seq<B>, x: A)
    ensures FlatMap(f, [x]) == f(x)
  {
    FlatMapSnoc(f, [], x);
    assert [] + [x] == [x];
  }

  lemma {:induction false} FlatMapSame<A, B>(f: A -> seq<B>, g: A -> seq<B>, s: seq<A>)
    requires forall x | x in s :: f(x) == g(x)
    ensures FlatMap(f, s) == FlatMap(g, s)
  {
    if s != [] {
      FlatMapSame(f, g, s[..|s| - 1]);
    }
  }

  lemma {:induction false} FlatMapPrefix<A, B>(f: A -> seq<B>, s: seq<A>, t: seq<A>)
    requires s <= t
    ensures FlatMap(f, s) <= FlatMap(f, t)
  {
    assert t == s + t[|s|..];
    FlatMapConcat(f, s, t[|s|..]);
  }

  /** What a projection shows came from some element. */
  lemma {:induction false} FlatMapSource<A, B>(f: A -> seq<B>, s: seq<A>, y: B) returns (x: A)
    requires y in FlatMap(f, s)
    ensures x in s && y in f(x)
  {
    var last := s[|s| - 1];
    if y in f(last) {
      x := last;
    } else {
      x := FlatMapSource(f, s[..|s| - 1], y);
    }
  }

  lemma {:induction false} FlatMapHas<A, B>(f: A -> seq<B>, s: seq<A>, x: A, y: B)
    requires x in s && y in f(x)
    ensures y in FlatMap(f, s)
  {
    if x != s[|s| - 1] {
      FlatMapHas(f, s[..|s| - 1], x, y);
    }
  }

  lemma {:induction false} FlatMapNone<A, B>(f: A -> seq<B>, s: seq<A>)
    requires forall x | x in s :: f(x) == []
    ensures FlatMap(f, s) == []
  {
    if s != [] {
      assert s[|s| - 1] in s;
      FlatMapNone(f, s[..|s| - 1]);
    }
  }

  /** `s` is `t` with some elements left out. */
  predicate SubSeq<T(==)>(s: seq<T>, t: seq<T>) {
    if s == [] then true
    else if t == [] then false
    else
      || (s[|s| - 1] == t[|t| - 1] && SubSeq(s[..|s| - 1], t[..|t| - 1]))
      || SubSeq(s, t[..|t| - 1])
  }

  /** `at` names, for each element of `s`, its own later and later place in `t`. */
  ghost predicate Embeds<T>(at: seq<nat>, s: seq<T>, t: seq<T>) {
    && |at| == |s|
    && (forall i | 0 <= i < |s| :: at[i] < |t| && t[at[i]] == s[i])
    && (forall i, j | 0 <= i < j < |at| :: at[i] < at[j])
  }

  lemma {:induction false} SubSeqEmbeds<T>(s: seq<T>, t: seq<T>) returns (at: seq<nat>)
    requires SubSeq(s, t)
    ensures Embeds(at, s, t)
    decreases |t|
  {
    if s == [] {
      at := [];
    } else if s[|s| - 1] == t[|t| - 1] && SubSeq(s[..|s| - 1], t[..|t| - 1]) {
      at := SubSeqEmbeds(s[..|s| - 1], t[..|t| - 1]);
      at := at + [|t| - 1];
    } else {
      at := SubSeqEmbeds(s, t[..|t| - 1]);
    }
  }

  lemma {:induction false} EmbedsSubSeq<T>(at: seq<nat>, s: seq<T>, t: seq<T>)
    requires Embeds(at, s, t)
    ensures SubSeq(s, t)
    decreases |t|
  {
    if s != [] {
      var n := |s| - 1;
      if at[n] == |t| - 1 {
        assert Embeds(at[..n], s[..n], t[..|t| - 1]);
        EmbedsSubSeq(at[..n], s[..n], t[..|t| - 1]);
      } else {
        assert forall i | 0 <= i < |s| :: at[i] <= at[n];
        EmbedsSubSeq(at, s, t[..|t| - 1]);
      }
    }
  }

  lemma {:induction false} SubSeqRefl<T>(s: seq<T>)
    ensures SubSeq(s, s)
  {
    if s != [] {
      SubSeqRefl(s[..|s| - 1]);
    }
  }

  lemma {:induction false} SubSeqTrans<T>(s: seq<T>, t: seq<T>, u: seq<T>)
    requires SubSeq(s, t) && SubSeq(t, u)
    ensures SubSeq(s, u)
  {
    var a := SubSeqEmbeds(s, t);
    var b := SubSeqEmbeds(t, u);
    var c := seq(|s|, i requires 0 <= i < |s| => b[a[i]]);
    EmbedsSubSeq(c, s, u);
  }

  lemma {:induction false} SubSeqConcat<T>(s: seq<T>, t: seq<T>, s': seq<T>, t': seq<T>)
    requires SubSeq(s, t) && SubSeq(s', t')
    ensures SubSeq(s + s', t + t')
    decreases |t'|
  {
    if t' == [] {
      assert s + s' == s && t + t' == t;
    } else {
      var n := |t'| - 1;
      assert (t + t')[..|t + t'| - 1] == t + t'[..n];
      if s' != [] && s'[|s'| - 1] == t'[n] && SubSeq(s'[..|s'| - 1], t'[..n]) {
        SubSeqConcat(s, t, s'[..|s'| - 1], t'[..n]);
        assert (s + s')[..|s + s'| - 1] == s + s'[..|s'| - 1];
      } else {
        SubSeqConcat(s, t, s', t'[..n]);
      }
    }
  }

  /** Leaving out a stretch in the middle. */
  lemma {:induction false} SubSeqCut<T>(s: seq<T>, cut: seq<T>, s': seq<T>, t: seq<T>)
    requires SubSeq(s + cut + s', t)
    ensures SubSeq(s + s', t)
  {
    SubSeqRefl(s);
    SubSeqRefl(s');
    SubSeqConcat(s, s, [], cut);
    assert s + [] == s;
    SubSeqConcat(s, s + cut, s', s');
    SubSeqTrans(s + s', s + cut + s', t);
  }

  lemma {:induction false} SubSeqCutTail<T>(s: seq<T>, cut: seq<T>, t: seq<T>)
    requires SubSeq(s + cut, t)
    ensures SubSeq(s, t)
  {
    SubSeqCut(s, cut, [], t) by {
      assert s + cut + [] == s + cut;
    }
    assert s + [] == s;
  }

  lemma {:induction false} SubSeqIn<T>(s: seq<T>, t: seq<T>, x: T)
    requires SubSeq(s, t) && x in s
    ensures x in t
  {
    var at := SubSeqEmbeds(s, t);
    var i :| 0 <= i < |s| && s[i] == x;
    assert t[at[i]] == x;
  }

  /** A projection of a selection is a selection of the projection. */
  lemma {:induction false} SubSeqFlatMap<A, B>(f: A -> seq<B>, s: seq<A>, t: seq<A>)
    requires SubSeq(s, t)
    ensures SubSeq(FlatMap(f, s), FlatMap(f, t))
    decreases |t|
  {
    if s != [] {
      var t' := t[..|t| - 1];
      var x := t[|t| - 1];
      if s[|s| - 1] == x && SubSeq(s[..|s| - 1], t') {
        SubSeqFlatMap(f, s[..|s| - 1], t');
        SubSeqRefl(f(x));
        SubSeqConcat(FlatMap(f, s[..|s| - 1]), FlatMap(f, t'), f(x), f(x));
      } else {
        SubSeqFlatMap(f, s, t');
        SubSeqConcat(FlatMap(f, s), FlatMap(f, t'), [], f(x));
        assert FlatMap(f, s) + [] == FlatMap(f, s);
      }
    }
  }

  lemma {:induction false} PrefixSubSeq<T>(s: seq<T>, t: seq<T>)
    requires s <= t
    ensures SubSeq(s, t)
  {
    SubSeqRefl(s);
    SubSeqConcat(s, s, [], t[|s|..]);
    assert s + [] == s && s + t[|s|..] == t;
  }
}
