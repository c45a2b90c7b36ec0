/** A JavaScript `Set` of listeners: no duplicates, iterated by `forEach` in
    insertion order. It is modelled as a duplicate-free sequence. */
module JsSet {

  ghost predicate Distinct<T>(s: seq<T>)
  {
    forall i, j :: 0 <= i < j < |s| ==> s[i] != s[j]
  }

  /** `set.add(x)`: appends `x` unless it is already a member. */
  function Add<T(==)>(s: seq<T>, x: T): (r: seq<T>)
    ensures x in r
    ensures forall y :: y in r ==> y in s || y == x
    ensures forall y :: y in s ==> y in r
    ensures |s| <= |r| && r[..|s|] == s
    ensures Distinct(s) ==> Distinct(r)
  {
    if x in s then s else s + [x]
  }

  /** `set.delete(x)`: drops `x`, keeping every other member in its order. */
  function Delete<T(==)>(s: seq<T>, x: T): (r: seq<T>)
    ensures x !in r
    ensures forall y :: y in r ==> y in s
    ensures forall y :: y in s && y != x ==> y in r
    ensures Distinct(s) ==> Distinct(r)
    ensures |r| <= |s|
    decreases |s|
  {
    if s == [] then []
    else if s[0] == x then Delete(s[1..], x)
    else
      var rest := Delete(s[1..], x);
      assert Distinct(s) ==> Distinct(s[1..]) && s[0] !in rest;
      [s[0]] + rest
  }

  /** Deleting a non-member leaves the set as it was. */
  lemma {:induction false} DeleteAbsent<T>(s: seq<T>, x: T)
    requires x !in s
    ensures Delete(s, x) == s
    decreases |s|
  {
    if s != [] {
      DeleteAbsent(s[1..], x);
    }
  }

  /** Deleting the member at index `i` removes exactly that position: the
      other members stay, in their order. */
  lemma {:induction false} DeleteAt<T>(s: seq<T>, i: nat)
    requires Distinct(s) && i < |s|
    ensures Delete(s, s[i]) == s[..i] + s[i + 1..]
    decreases |s|
  {
    if i == 0 {
      assert s[0] !in s[1..];
      DeleteAbsent(s[1..], s[0]);
    } else {
      assert Distinct(s[1..]);
      DeleteAt(s[1..], i - 1);
      assert s[1..][i - 1] == s[i];
      assert s[1..][..i - 1] + s[1..][i..] == s[1..i] + s[i + 1..];
      assert s[..i] + s[i + 1..] == [s[0]] + (s[1..i] + s[i + 1..]);
    }
  }

  /** Subscribing a new callback and then running its cleanup restores the
      listener set exactly. */
  lemma {:induction false} DeleteAfterAdd<T>(s: seq<T>, x: T)
    requires x !in s
    ensures Delete(Add(s, x), x) == s
  {
    DeleteAppended(s, x);
  }

  lemma {:induction false} DeleteAppended<T>(s: seq<T>, x: T)
    requires x !in s
    ensures Delete(s + [x], x) == s
    decreases |s|
  {
    if s == [] {
      assert Delete([x], x) == Delete([x][1..], x);
    } else {
      assert (s + [x])[1..] == s[1..] + [x];
      DeleteAppended(s[1..], x);
    }
  }
}
