/**
 * A JavaScript `Set<string>` (product ids): distinct elements kept in insertion order, which is the order
 * `Array.from(set)` returns them in.  Modelled as a sequence without duplicates.
 */
module JsSet {

  predicate NoDups(s: seq<string>) {
    forall i, j :: 0 <= i < j < |s| ==> s[i] != s[j]
  }

  function Elements(s: seq<string>): set<string> {
    set x | x in s
  }

  /** `set.add(x)`: appends x unless it is already there. */
  function Add(s: seq<string>, x: string): (r: seq<string>)
    ensures Elements(r) == Elements(s) + {x}
    ensures NoDups(s) ==> NoDups(r)
    ensures x in s ==> r == s
    ensures x !in s ==> r == s + [x]
  {
    if x in s then s else s + [x]
  }

  /** `set.delete(x)`: removes x and keeps the others in their order. */
  function Delete(s: seq<string>, x: string): (r: seq<string>)
    ensures Elements(r) == Elements(s) - {x}
    ensures NoDups(s) ==> NoDups(r)
    ensures x !in s ==> r == s
    ensures |r| <= |s|
  {
    if s == [] then []
    else
      var d := Delete(s[1..], x);
      ElementsCons(s[0], s[1..]);
      assert NoDups(s) ==> s[0] !in s[1..] && NoDups(s[1..]);
      if s[0] == x then d
      else
        ElementsCons(s[0], d);
        assert s[0] in d ==> s[0] in Elements(d);
        ConsNoDups(s[0], d);
        [s[0]] + d
  }

  lemma ElementsCons(y: string, s: seq<string>)
    ensures Elements([y] + s) == {y} + Elements(s)
  {
    assert forall z :: z in [y] + s <==> z == y || z in s;
  }

  lemma ConsNoDups(y: string, s: seq<string>)
    ensures y !in s && NoDups(s) ==> NoDups([y] + s)
  {
    if y !in s && NoDups(s) {
      forall i, j | 0 <= i < j < |s| + 1 ensures ([y] + s)[i] != ([y] + s)[j] {
        if i == 0 {
          assert ([y] + s)[j] == s[j - 1];
        }
      }
    }
  }

  /** Delete removes exactly x: what is left of a concatenation is what is left of each part. */
  lemma {:induction false} DeleteAppend(a: seq<string>, b: seq<string>, x: string)
    ensures Delete(a + b, x) == Delete(a, x) + Delete(b, x)
  {
    if a != [] {
      DeleteAppend(a[1..], b, x);
      assert (a + b)[0] == a[0] && (a + b)[1..] == a[1..] + b;
      if a[0] != x {
        var da, db := Delete(a[1..], x), Delete(b, x);
        assert [a[0]] + (da + db) == ([a[0]] + da) + db;
      }
    } else {
      assert a + b == b;
    }
  }

  /** The operation both wishlist views perform: delete when present, add otherwise. */
  function Toggle(s: seq<string>, x: string): (r: seq<string>)
    ensures NoDups(s) ==> NoDups(r)
    ensures x in r <==> x !in s
    ensures forall y :: y != x ==> (y in r <==> y in s)
  {
    var r := if x in s then Delete(s, x) else Add(s, x);
    assert x in s ==> Elements(r) == Elements(s) - {x};
    assert x !in s ==> Elements(r) == Elements(s) + {x};
    assert forall y :: y in r <==> y in Elements(r);
    r
  }

  /** Toggling the same element twice restores the set of elements. */
  lemma ToggleTwice(s: seq<string>, x: string)
    ensures Elements(Toggle(Toggle(s, x), x)) == Elements(s)
  {
    var t := Toggle(Toggle(s, x), x);
    forall y ensures y in Elements(t) <==> y in Elements(s) {
      assert y in Elements(t) <==> y in t;
    }
  }

  /** ... but not the order: an element toggled off and on again moves to the end. */
  lemma ToggleTwiceReorders()
    ensures Toggle(Toggle(["a", "b"], "a"), "a") == ["b", "a"]
  {
    assert Delete(["a", "b"], "a") == ["b"] by {
      assert ["a", "b"][1..] == ["b"];
      assert ["b"][1..] == [];
    }
  }

  /** `new Set(array)`: the first occurrence of each element, in array order. */
  function FromArray(a: seq<string>): (r: seq<string>)
    ensures NoDups(r)
    ensures Elements(r) == Elements(a)
    decreases |a|
  {
    if a == [] then []
    else
      var init := a[..|a| - 1];
      assert Elements(a) == Elements(init) + {a[|a| - 1]} by {
        assert a == init + [a[|a| - 1]];
        assert forall y :: y in a <==> y in init || y == a[|a| - 1];
      }
      Add(FromArray(init), a[|a| - 1])
  }

  /** An array that is already free of duplicates comes back unchanged, in the same order. */
  lemma {:induction false} FromArrayOfDistinct(a: seq<string>)
    requires NoDups(a)
    ensures FromArray(a) == a
    decreases |a|
  {
    if a != [] {
      var init := a[..|a| - 1];
      assert NoDups(init);
      FromArrayOfDistinct(init);
      assert a[|a| - 1] !in init by {
        forall k | 0 <= k < |init| ensures init[k] != a[|a| - 1] {
          assert init[k] == a[k];
        }
      }
      assert init + [a[|a| - 1]] == a;
    }
  }
}
