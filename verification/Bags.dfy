/** Sums of multisets over a sequence: how the contents of many places add up. */
module Bags {

  /** The union, with multiplicities, of all bags of a sequence. */
  ghost function Total<T>(bags: seq<multiset<T>>): multiset<T> {
    if bags == [] then multiset{} else bags[0] + Total(bags[1..])
  }

  lemma {:induction false} TotalUpdate<T>(bags: seq<multiset<T>>, i: nat, bag: multiset<T>)
    requires i < |bags|
    ensures Total(bags[i := bag]) + bags[i] == Total(bags) + bag
  {
    if i == 0 {
      assert bags[0 := bag][1..] == bags[1..];
    } else {
      assert bags[i := bag][1..] == bags[1..][i - 1 := bag];
      TotalUpdate(bags[1..], i - 1, bag);
      calc {
        Total(bags[i := bag]) + bags[i];
        bags[0] + (Total(bags[1..][i - 1 := bag]) + bags[1..][i - 1]);
        bags[0] + (Total(bags[1..]) + bag);
        Total(bags) + bag;
      }
    }
  }

  lemma {:induction false} TotalAppend<T>(bags: seq<multiset<T>>, bag: multiset<T>)
    ensures Total(bags + [bag]) == Total(bags) + bag
  {
    if bags != [] {
      assert (bags + [bag])[1..] == bags[1..] + [bag];
      TotalAppend(bags[1..], bag);
    } else {
      assert Total([bag]) == bag;
    }
  }

  /** A bag is part of the total. */
  lemma {:induction false} TotalHasPart<T>(bags: seq<multiset<T>>, i: nat)
    requires i < |bags|
    ensures bags[i] <= Total(bags)
  {
    if i > 0 {
      TotalHasPart(bags[1..], i - 1);
    }
  }

  lemma Cancel<T>(x: multiset<T>, y: multiset<T>, bag: multiset<T>)
    requires x + bag == y + bag
    ensures x == y
  {
    assert x == x + bag - bag;
    assert y == y + bag - bag;
  }

  /** One bag gets `extra` on top. */
  lemma TotalGrow<T>(bags: seq<multiset<T>>, i: nat, extra: multiset<T>)
    requires i < |bags|
    ensures Total(bags[i := bags[i] + extra]) == Total(bags) + extra
  {
    TotalUpdate(bags, i, bags[i] + extra);
    assert Total(bags) + (bags[i] + extra) == Total(bags) + extra + bags[i];
    Cancel(Total(bags[i := bags[i] + extra]), Total(bags) + extra, bags[i]);
  }

  /** One bag loses `out` and keeps `rest`. */
  lemma TotalShrink<T>(bags: seq<multiset<T>>, i: nat, rest: multiset<T>, out: multiset<T>)
    requires i < |bags| && bags[i] == rest + out
    ensures Total(bags[i := rest]) + out == Total(bags)
  {
    TotalUpdate(bags, i, rest);
    assert Total(bags[i := rest]) + (rest + out) == Total(bags[i := rest]) + out + rest;
    Cancel(Total(bags[i := rest]) + out, Total(bags), rest);
  }

  /** What leaves one of three sums and enters another leaves the whole alone. */
  lemma Shift<T>(a': multiset<T>, a: multiset<T>, b: multiset<T>, c: multiset<T>, x: multiset<T>)
    requires a' + x == a
    ensures a' + (b + x) + c == a + b + c
    ensures a' + b + (c + x) == a + b + c
  {
  }

  /** If no bag is larger, neither is the total. */
  lemma {:induction false} TotalMonotone<T>(small: seq<multiset<T>>, big: seq<multiset<T>>)
    requires |small| == |big| && forall i :: 0 <= i < |small| ==> small[i] <= big[i]
    ensures Total(small) <= Total(big)
  {
    if small != [] {
      TotalMonotone(small[1..], big[1..]);
    }
  }
}
