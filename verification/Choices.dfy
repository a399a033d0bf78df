/** A slice that grows by appends under branches: the candidates in order, each taken or not. */
module Choices {
  datatype Choice<+T> = Choice(on: bool, item: T)

  function Chosen<T>(cs: seq<Choice<T>>): seq<T> {
    if cs == [] then []
    else
      var last := cs[|cs| - 1];
      Chosen(cs[..|cs| - 1]) + (if last.on then [last.item] else [])
  }

  lemma ChosenNext<T>(cs: seq<Choice<T>>, c: Choice<T>)
    ensures Chosen(cs + [c]) == Chosen(cs) + (if c.on then [c.item] else [])
  {
    assert (cs + [c])[..|cs|] == cs;
  }

  lemma ChosenOne<T>(c: Choice<T>)
    ensures Chosen([c]) == if c.on then [c.item] else []
  {
    ChosenNext([], c);
    assert [] + [c] == [c];
  }

  lemma {:induction false} ChosenConcat<T>(a: seq<Choice<T>>, b: seq<Choice<T>>)
    ensures Chosen(a + b) == Chosen(a) + Chosen(b)
  {
    if b == [] {
      assert a + b == a;
    } else {
      var front, last := b[..|b| - 1], b[|b| - 1];
      ChosenConcat(a, front);
      assert a + b == (a + front) + [last] && b == front + [last];
      ChosenNext(a + front, last);
      ChosenNext(front, last);
    }
  }

  /** Index `i` of the slice came from candidate `k`. */
  predicate Comes<T(==)>(cs: seq<Choice<T>>, k: nat, x: T) {
    k < |cs| && cs[k].on && cs[k].item == x
  }

  lemma {:induction false} ChosenFrom<T>(cs: seq<Choice<T>>, i: nat) returns (k: nat)
    requires i < |Chosen(cs)|
    ensures Comes(cs, k, Chosen(cs)[i])
  {
    var front := cs[..|cs| - 1];
    if i < |Chosen(front)| {
      k := ChosenFrom(front, i);
      assert front[k] == cs[k];
    } else {
      k := |cs| - 1;
    }
  }

  lemma {:induction false} ChosenHas<T>(cs: seq<Choice<T>>, k: nat) returns (i: nat)
    requires k < |cs| && cs[k].on
    ensures i < |Chosen(cs)| && Chosen(cs)[i] == cs[k].item
  {
    var front := cs[..|cs| - 1];
    if k < |front| {
      i := ChosenHas(front, k);
      assert front[k] == cs[k];
    } else {
      i := |Chosen(front)|;
    }
  }

  /** Only candidate `k` can have put `x` into the slice. */
  lemma OnlyCandidate<T>(cs: seq<Choice<T>>, k: nat, x: T)
    requires k < |cs| && forall i | 0 <= i < |cs| && i != k :: cs[i].item != x
    ensures x in Chosen(cs) <==> cs[k].on && cs[k].item == x
  {
    if i :| 0 <= i < |Chosen(cs)| && Chosen(cs)[i] == x {
      var j := ChosenFrom(cs, i);
    }
    if cs[k].on && cs[k].item == x {
      var i := ChosenHas(cs, k);
    }
  }

  /** The slice keeps the order of the candidates. */
  lemma {:induction false} ChosenOrder<T>(cs: seq<Choice<T>>, i: nat, j: nat) returns (k: nat, l: nat)
    requires i < j < |Chosen(cs)|
    ensures k < l && Comes(cs, k, Chosen(cs)[i]) && Comes(cs, l, Chosen(cs)[j])
  {
    var front := cs[..|cs| - 1];
    if j < |Chosen(front)| {
      k, l := ChosenOrder(front, i, j);
      assert front[k] == cs[k] && front[l] == cs[l];
    } else {
      k := ChosenFrom(front, i);
      l := |cs| - 1;
      assert front[k] == cs[k];
    }
  }

  lemma {:induction false} AllChosen<T>(cs: seq<Choice<T>>)
    requires forall i | 0 <= i < |cs| :: cs[i].on
    ensures |Chosen(cs)| == |cs| && forall i | 0 <= i < |cs| :: Chosen(cs)[i] == cs[i].item
  {
    if cs != [] {
      AllChosen(cs[..|cs| - 1]);
    }
  }

  // ---------------------------------------------------------------- short runs of branches

  function Opt<T>(on: bool, x: T): seq<T> {
    if on then [x] else []
  }

  lemma ChosenTwo<T>(a: Choice<T>, b: Choice<T>)
    ensures Chosen([a, b]) == Opt(a.on, a.item) + Opt(b.on, b.item)
  {
    ChosenOne(a);
    ChosenNext([a], b);
    assert [a] + [b] == [a, b];
  }

  lemma ChosenFour<T>(a: Choice<T>, b: Choice<T>, c: Choice<T>, d: Choice<T>)
    ensures Chosen([a, b, c, d]) == Opt(a.on, a.item) + Opt(b.on, b.item) + Opt(c.on, c.item) + Opt(d.on, d.item)
  {
    ChosenTwo(a, b);
    ChosenNext([a, b], c);
    assert [a, b] + [c] == [a, b, c];
    ChosenNext([a, b, c], d);
    assert [a, b, c] + [d] == [a, b, c, d];
  }
}
