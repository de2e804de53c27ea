/** The cart's product table: a PHP array keyed by article number. It keeps
    insertion order; assigning to an existing key keeps that entry's position,
    assigning to a new key appends, and unsetting a key closes the gap. */
module ProductTable {
  import opened Outcomes
  import opened Products

  /** No two entries share an article number. */
  predicate Keyed(t: seq<Product>)
  {
    forall i, j :: 0 <= i < j < |t| ==> t[i].articleNumber != t[j].articleNumber
  }

  type Table = t: seq<Product> | Keyed(t)

  /** The article numbers present in the table. */
  function Keys(t: seq<Product>): set<string>
  {
    set i | 0 <= i < |t| :: t[i].articleNumber
  }

  /** The position of the entry with article number `a`, if any. */
  function Find(t: seq<Product>, a: string): (r: Option<nat>)
    ensures r.Some? ==> r.value < |t| && t[r.value].articleNumber == a
    ensures r.None? ==> forall i :: 0 <= i < |t| ==> t[i].articleNumber != a
  {
    if |t| == 0 then None
    else if t[0].articleNumber == a then Some(0)
    else match Find(t[1..], a)
      case Some(i) => Some(i + 1)
      case None => None
  }

  /** The entry stored under `a`, or none (the `?? null` lookup). */
  function GetProduct(t: Table, a: string): (r: Option<Product>)
    ensures r.Some? <==> a in Keys(t)
    ensures forall i :: 0 <= i < |t| && t[i].articleNumber == a ==> r == Some(t[i])
  {
    match Find(t, a)
    case Some(i) => Some(t[i])
    case None => None
  }

  /** `$t[$p->getArticleNumber()] = $p`: replace the entry with that key in
      place, or append a new entry at the end. */
  function Assign(t: Table, p: Product): (r: Table)
    ensures Keys(r) == Keys(t) + {p.articleNumber}
    ensures GetProduct(r, p.articleNumber) == Some(p)
    ensures forall b :: b != p.articleNumber ==> GetProduct(r, b) == GetProduct(t, b)
    ensures p.articleNumber !in Keys(t) ==> r == t + [p]
    ensures forall i :: 0 <= i < |t| && t[i].articleNumber == p.articleNumber ==> r == t[i := p]
  {
    match Find(t, p.articleNumber)
    case Some(i) =>
      var r := t[i := p];
      assert Keys(r) == Keys(t) by {
        forall b | b in Keys(t) ensures b in Keys(r) {
          var j :| 0 <= j < |t| && t[j].articleNumber == b;
          assert r[j].articleNumber == b;
        }
      }
      r
    case None =>
      var r := t + [p];
      assert Keys(r) == Keys(t) + {p.articleNumber} by {
        assert r[|t|].articleNumber == p.articleNumber;
        forall b | b in Keys(t) ensures b in Keys(r) {
          var j :| 0 <= j < |t| && t[j].articleNumber == b;
          assert r[j].articleNumber == b;
        }
      }
      r
  }

  /** `unset($t[$a])`: drop the entry with that key, if any, keeping the order
      of the others. */
  function Unset(t: Table, a: string): (r: Table)
    ensures Keys(r) == Keys(t) - {a}
    ensures GetProduct(r, a) == None
    ensures forall b :: b != a ==> GetProduct(r, b) == GetProduct(t, b)
    ensures a !in Keys(t) ==> r == t
    ensures forall i :: 0 <= i < |t| && t[i].articleNumber == a ==> r == t[..i] + t[i + 1..]
  {
    match Find(t, a)
    case Some(i) =>
      var r := t[..i] + t[i + 1..];
      assert forall j :: 0 <= j < i ==> r[j] == t[j];
      assert forall j :: i <= j < |r| ==> r[j] == t[j + 1];
      assert Keys(r) == Keys(t) - {a} by {
        forall b | b in Keys(t) - {a} ensures b in Keys(r) {
          var j :| 0 <= j < |t| && t[j].articleNumber == b;
          if j < i { assert r[j].articleNumber == b; } else { assert r[j - 1].articleNumber == b; }
        }
      }
      r
    case None =>
      t
  }

  /** What one entry contributes to the total: price × quantity. */
  function Line(p: Product): (r: real)
    ensures r >= 0.0
  {
    p.price * p.quantity as real
  }

  /** The sum of price × quantity over the entries (array_sum of array_map). */
  function Subtotal(t: seq<Product>): (r: real)
    ensures r >= 0.0
    ensures |t| == 1 ==> r == Line(t[0])
  {
    if |t| == 0 then 0.0 else Line(t[0]) + Subtotal(t[1..])
  }

  lemma {:induction false} SubtotalAppend(s: seq<Product>, t: seq<Product>)
    ensures Subtotal(s + t) == Subtotal(s) + Subtotal(t)
  {
    if |s| > 0 {
      assert (s + t)[1..] == s[1..] + t;
      SubtotalAppend(s[1..], t);
    } else {
      assert s + t == t;
    }
  }

  /** Removing the entry at position i takes exactly its line off the sum. */
  lemma {:induction false} SubtotalRemoveAt(t: seq<Product>, i: nat)
    requires i < |t|
    ensures Subtotal(t) == Subtotal(t[..i] + t[i + 1..]) + Line(t[i])
  {
    var u := t[..i] + t[i + 1..];
    if i == 0 {
      assert u == t[1..];
    } else {
      var rest := t[1..];
      SubtotalRemoveAt(rest, i - 1);
      assert u[0] == t[0];
      assert u[1..] == rest[..i - 1] + rest[i..];
    }
  }

  /** Replacing the entry at position i swaps its line for the new one. */
  lemma SubtotalReplaceAt(t: seq<Product>, i: nat, p: Product)
    requires i < |t|
    ensures Subtotal(t[i := p]) == Subtotal(t) - Line(t[i]) + Line(p)
  {
    var u := t[i := p];
    SubtotalRemoveAt(t, i);
    SubtotalRemoveAt(u, i);
    assert u[..i] + u[i + 1..] == t[..i] + t[i + 1..];
  }

  /** Dropping position i from a sequence drops one occurrence of t[i]. */
  lemma MultisetRemoveAt(t: seq<Product>, i: nat)
    requires i < |t|
    ensures multiset(t[..i] + t[i + 1..]) == multiset(t) - multiset{t[i]}
  {
    assert t == t[..i] + [t[i]] + t[i + 1..];
    assert multiset(t) == multiset(t[..i]) + multiset{t[i]} + multiset(t[i + 1..]);
  }

  /** Taking the first entry of s off both sides keeps two permutations equal. */
  lemma MultisetRemoveMatching(s: seq<Product>, t: seq<Product>, i: nat)
    requires multiset(s) == multiset(t) && |s| > 0 && i < |t| && t[i] == s[0]
    ensures multiset(s[1..]) == multiset(t[..i] + t[i + 1..])
  {
    calc {
      multiset(s[1..]);
      { assert s[..0] + s[1..] == s[1..]; MultisetRemoveAt(s, 0); }
      multiset(s) - multiset{s[0]};
      multiset(t) - multiset{t[i]};
      { MultisetRemoveAt(t, i); }
      multiset(t[..i] + t[i + 1..]);
    }
  }

  /** The total does not depend on the order of the entries: tables holding
      the same entries have the same subtotal. */
  lemma {:induction false} SubtotalPermutation(s: seq<Product>, t: seq<Product>)
    requires multiset(s) == multiset(t)
    ensures Subtotal(s) == Subtotal(t)
  {
    if |s| == 0 {
      assert |t| == |multiset(t)| == 0;
    } else {
      assert s[0] in multiset(t);
      var i :| 0 <= i < |t| && t[i] == s[0];
      MultisetRemoveMatching(s, t, i);
      SubtotalPermutation(s[1..], t[..i] + t[i + 1..]);
      SubtotalRemoveAt(t, i);
    }
  }

  /** Assigning an entry changes the subtotal by the new line minus the line
      it replaces. */
  lemma SubtotalAssign(t: Table, p: Product)
    ensures GetProduct(t, p.articleNumber).None? ==>
      Subtotal(Assign(t, p)) == Subtotal(t) + Line(p)
    ensures GetProduct(t, p.articleNumber).Some? ==>
      Subtotal(Assign(t, p)) == Subtotal(t) - Line(GetProduct(t, p.articleNumber).value) + Line(p)
  {
    match Find(t, p.articleNumber)
    case Some(i) =>
      SubtotalReplaceAt(t, i, p);
    case None =>
      SubtotalAppend(t, [p]);
  }

  /** Unsetting an entry takes its line off the subtotal. */
  lemma SubtotalUnset(t: Table, a: string)
    ensures GetProduct(t, a).None? ==> Subtotal(Unset(t, a)) == Subtotal(t)
    ensures GetProduct(t, a).Some? ==>
      Subtotal(Unset(t, a)) == Subtotal(t) - Line(GetProduct(t, a).value)
  {
    match Find(t, a)
    case Some(i) =>
      SubtotalRemoveAt(t, i);
    case None =>
  }
}
