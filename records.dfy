/**
 * The ledger's records and the list operations the component applies to
 * them: the `reduce` that sums amounts, the `filter` that deletes by id and
 * the `map` that lowers one advance's remaining amount.
 */
module Records {

  datatype Option<T> = None | Some(value: T)

  /** A fixed expense, an annual expense, a pending advance, a
      reimbursement or an exceptional payment. Expenses call the text
      `name`, the other three `label`; the `icon` of a fixed expense is
      presentation only. */
  datatype Record = Record(id: int, name: string, amount: real)

  /** The `type` of a history entry. */
  datatype LogType = Payment | Reimb

  datatype HistoryEntry = HistoryEntry(id: int, name: string, amount: real, logType: LogType, date: string)

  /** `xs.reduce((acc, c) => acc + c.amount, 0)`: a fold from the left. */
  function Sum(xs: seq<Record>): (r: real)
    ensures |xs| == 1 ==> r == xs[0].amount
  {
    if xs == [] then 0.0 else Sum(xs[..|xs| - 1]) + xs[|xs| - 1].amount
  }

  lemma {:induction false} SumNonNegative(xs: seq<Record>)
    requires forall i :: 0 <= i < |xs| ==> xs[i].amount >= 0.0
    ensures Sum(xs) >= 0.0
  {
    if xs != [] {
      SumNonNegative(xs[..|xs| - 1]);
    }
  }

  lemma {:induction false} SumAppend(a: seq<Record>, b: seq<Record>)
    ensures Sum(a + b) == Sum(a) + Sum(b)
  {
    if b == [] {
      assert a + b == a;
    } else {
      assert (a + b)[..|a + b| - 1] == a + b[..|b| - 1];
      SumAppend(a, b[..|b| - 1]);
    }
  }

  lemma SumCons(x: Record, xs: seq<Record>)
    ensures Sum([x] + xs) == x.amount + Sum(xs)
  {
    SumAppend([x], xs);
    assert [x][..0] == [];
  }

  /** The order of the records does not matter to their sum. */
  lemma {:induction false} SumPermutation(a: seq<Record>, b: seq<Record>)
    requires multiset(a) == multiset(b)
    ensures Sum(a) == Sum(b)
    decreases |a|
  {
    if a == [] {
      assert |b| == |multiset(b)| == 0;
    } else {
      var x := a[0];
      assert x in multiset(b);
      var j :| 0 <= j < |b| && b[j] == x;
      var rest := b[..j] + b[j + 1..];
      assert b == b[..j] + [x] + b[j + 1..];
      assert a == [x] + a[1..];
      assert multiset(b) == multiset(b[..j]) + multiset{x} + multiset(b[j + 1..]);
      assert multiset(a) == multiset{x} + multiset(a[1..]);
      assert multiset(rest) == multiset(b[..j]) + multiset(b[j + 1..]);
      assert multiset(a[1..]) == multiset(a) - multiset{x};
      assert multiset(rest) == multiset(b) - multiset{x};
      SumPermutation(a[1..], rest);
      SumCons(x, a[1..]);
      SumAppend(b[..j] + [x], b[j + 1..]);
      SumAppend(b[..j], [x]);
      SumAppend(b[..j], b[j + 1..]);
      assert Sum([x]) == x.amount by { assert [x][..0] == []; }
    }
  }

  /** How many records carry `id`. */
  function CountId(xs: seq<Record>, id: int): (r: nat)
    ensures r <= |xs|
    ensures r == 0 <==> forall i :: 0 <= i < |xs| ==> xs[i].id != id
  {
    if xs == [] then 0 else (if xs[0].id == id then 1 else 0) + CountId(xs[1..], id)
  }

  /** `xs.filter(x => x.id !== id)`. */
  function RemoveId(xs: seq<Record>, id: int): (r: seq<Record>)
    ensures forall x :: x in r <==> x in xs && x.id != id
    ensures |r| == |xs| - CountId(xs, id)
  {
    if xs == [] then []
    else (if xs[0].id == id then [] else [xs[0]]) + RemoveId(xs[1..], id)
  }

  /** Filtering keeps the relative order: it goes through a concatenation. */
  lemma {:induction false} RemoveIdAppend(a: seq<Record>, b: seq<Record>, id: int)
    ensures RemoveId(a + b, id) == RemoveId(a, id) + RemoveId(b, id)
  {
    if a != [] {
      assert (a + b)[1..] == a[1..] + b;
      RemoveIdAppend(a[1..], b, id);
    } else {
      assert a + b == b;
    }
  }

  /** Filtering out an id no record carries changes nothing. */
  lemma {:induction false} RemoveIdAbsent(xs: seq<Record>, id: int)
    requires forall i :: 0 <= i < |xs| ==> xs[i].id != id
    ensures RemoveId(xs, id) == xs
  {
    if xs != [] {
      RemoveIdAbsent(xs[1..], id);
    }
  }

  /** Every record that carries `d.id` is `d` itself: the advance shown in
      the repayment dialog is the current one. */
  predicate IsCurrent(xs: seq<Record>, d: Record)
  {
    forall i :: 0 <= i < |xs| && xs[i].id == d.id ==> xs[i] == d
  }

  /** Ids are pairwise distinct. */
  predicate UniqueIds(xs: seq<Record>)
  {
    forall i, j :: 0 <= i < j < |xs| ==> xs[i].id != xs[j].id
  }

  /** With distinct ids, a record of the list is the only one with its id. */
  lemma {:induction false} UniqueCount(xs: seq<Record>, d: Record)
    requires UniqueIds(xs) && d in xs
    ensures IsCurrent(xs, d) && CountId(xs, d.id) == 1
  {
    if xs[0] == d {
      assert forall i :: 0 <= i < |xs[1..]| ==> xs[1..][i].id != d.id by {
        forall i | 0 <= i < |xs[1..]| ensures xs[1..][i].id != d.id {
          assert xs[1..][i] == xs[i + 1];
        }
      }
    } else {
      UniqueCount(xs[1..], d);
    }
  }

  /** Removing the one record `d` that carries its id lowers the sum by
      its amount. */
  lemma {:induction false} SumRemoveId(xs: seq<Record>, d: Record)
    requires IsCurrent(xs, d) && CountId(xs, d.id) == 1
    ensures Sum(RemoveId(xs, d.id)) == Sum(xs) - d.amount
  {
    assert xs == [xs[0]] + xs[1..];
    SumCons(xs[0], xs[1..]);
    if xs[0].id == d.id {
      assert CountId(xs[1..], d.id) == 0;
      RemoveIdAbsent(xs[1..], d.id);
      assert RemoveId(xs, d.id) == RemoveId(xs[1..], d.id);
    } else {
      assert IsCurrent(xs[1..], d) by {
        forall i | 0 <= i < |xs[1..]| && xs[1..][i].id == d.id ensures xs[1..][i] == d {
          assert xs[1..][i] == xs[i + 1];
        }
      }
      SumRemoveId(xs[1..], d);
      assert RemoveId(xs, d.id) == [xs[0]] + RemoveId(xs[1..], d.id);
      SumCons(xs[0], RemoveId(xs[1..], d.id));
    }
  }

  /** `xs.map(x => x.id === id ? { ...x, amount: x.amount - v } : x)`. */
  function Decrement(xs: seq<Record>, id: int, v: real): (r: seq<Record>)
    ensures |r| == |xs|
    ensures forall i :: 0 <= i < |xs| ==>
      r[i].id == xs[i].id && r[i].name == xs[i].name &&
      r[i].amount == (if xs[i].id == id then xs[i].amount - v else xs[i].amount)
  {
    if xs == [] then []
    else [if xs[0].id == id then xs[0].(amount := xs[0].amount - v) else xs[0]] + Decrement(xs[1..], id, v)
  }

  /** A map that matches no record changes nothing. */
  lemma {:induction false} DecrementAbsent(xs: seq<Record>, id: int, v: real)
    requires CountId(xs, id) == 0
    ensures Decrement(xs, id, v) == xs
  {
    if xs != [] {
      DecrementAbsent(xs[1..], id, v);
    }
  }

  /** Lowering the one record that carries `id` by `v` lowers the sum by `v`. */
  lemma {:induction false} SumDecrement(xs: seq<Record>, id: int, v: real)
    requires CountId(xs, id) == 1
    ensures Sum(Decrement(xs, id, v)) == Sum(xs) - v
  {
    assert xs == [xs[0]] + xs[1..];
    var r := Decrement(xs, id, v);
    assert r == [r[0]] + Decrement(xs[1..], id, v);
    SumCons(xs[0], xs[1..]);
    SumCons(r[0], Decrement(xs[1..], id, v));
    if xs[0].id == id {
      DecrementAbsent(xs[1..], id, v);
    } else {
      SumDecrement(xs[1..], id, v);
    }
  }
}
