/** In-order subsequences, the shape of every ordering result of this project. */
module Subsequences {

  /** `at` names, for every element of `part`, the place in `whole` it comes from. */
  ghost predicate Embeds<T>(part: seq<T>, whole: seq<T>, at: seq<nat>) {
    && |at| == |part|
    && (forall i :: 0 <= i < |at| ==> at[i] < |whole| && part[i] == whole[at[i]])
    && (forall i, j :: 0 <= i < j < |at| ==> at[i] < at[j])
  }

  /** `part` occurs in `whole` in the same order, no element used twice. */
  ghost predicate InOrder<T>(part: seq<T>, whole: seq<T>) {
    exists at :: Embeds(part, whole, at)
  }

  lemma Reflexive<T>(s: seq<T>)
    ensures InOrder(s, s)
  {
    assert Embeds(s, s, seq(|s|, i => i));
  }

  lemma EmptyInOrder<T>(whole: seq<T>)
    ensures InOrder([], whole)
  {
    assert Embeds([], whole, []);
  }

  /** Growing the whole keeps the order. */
  lemma Skip<T>(part: seq<T>, whole: seq<T>, more: seq<T>)
    requires InOrder(part, whole)
    ensures InOrder(part, whole + more)
  {
    var at :| Embeds(part, whole, at);
    assert Embeds(part, whole + more, at);
  }

  /** Growing both by the same element keeps the order. */
  lemma Keep<T>(part: seq<T>, whole: seq<T>, x: T)
    requires InOrder(part, whole)
    ensures InOrder(part + [x], whole + [x])
  {
    var at: seq<nat> :| Embeds(part, whole, at);
    var last: nat := |whole|;
    var more: seq<nat> := at + [last];
    assert Embeds(part + [x], whole + [x], more);
  }

  lemma Transitive<T>(a: seq<T>, b: seq<T>, c: seq<T>)
    requires InOrder(a, b) && InOrder(b, c)
    ensures InOrder(a, c)
  {
    var f :| Embeds(a, b, f);
    var g :| Embeds(b, c, g);
    var h := seq(|f|, i requires 0 <= i < |f| => g[f[i]]);
    assert Embeds(a, c, h);
  }

  lemma PrefixInOrder<T>(whole: seq<T>, n: nat)
    requires n <= |whole|
    ensures InOrder(whole[..n], whole)
  {
    Reflexive(whole[..n]);
    Skip(whole[..n], whole[..n], whole[n..]);
    assert whole[..n] + whole[n..] == whole;
  }
}
