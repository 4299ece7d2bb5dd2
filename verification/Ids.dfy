/** Ids in ascending order, character by character. */
module Ids {
  import opened Sequences

  predicate Below(a: string, b: string) {
    b != "" && (a == "" || a[0] < b[0] || (a[0] == b[0] && Below(a[1..], b[1..])))
  }

  ghost predicate Ascending(ids: seq<string>) {
    forall i, j :: 0 <= i < j < |ids| ==> Below(ids[i], ids[j])
  }

  lemma {:induction false} BelowIsStrict(a: string, b: string)
    ensures !(Below(a, b) && Below(b, a))
    ensures a == b || Below(a, b) || Below(b, a)
    ensures !Below(a, a)
  {
    if a != "" {
      if b != "" {
        BelowIsStrict(a[1..], b[1..]);
        assert a[0] == b[0] && a[1..] == b[1..] ==> a == b by {
          assert a == [a[0]] + a[1..] && b == [b[0]] + b[1..];
        }
      } else {
        BelowIsStrict(a[1..], a[1..]);
      }
    }
  }

  lemma {:induction false} BelowIsTransitive(a: string, b: string, c: string)
    requires Below(a, b) && Below(b, c)
    ensures Below(a, c)
  {
    if a != "" && a[0] == b[0] == c[0] {
      BelowIsTransitive(a[1..], b[1..], c[1..]);
    }
  }

  ghost predicate IsLeast(ids: set<string>, least: string) {
    least in ids && forall id :: id in ids ==> id == least || Below(least, id)
  }

  lemma {:induction false} LeastExists(ids: set<string>)
    requires ids != {}
    ensures exists least :: IsLeast(ids, least)
    decreases |ids|
  {
    var id :| id in ids;
    var rest := ids - {id};
    if rest == {} {
      assert ids == {id};
      assert IsLeast(ids, id);
    } else {
      LeastExists(rest);
      var least :| IsLeast(rest, least);
      BelowIsStrict(id, least);
      if Below(least, id) {
        assert IsLeast(ids, least);
      } else {
        forall other | other in ids ensures other == id || Below(id, other) {
          if other in rest && other != least {
            BelowIsTransitive(id, least, other);
          }
        }
        assert IsLeast(ids, id);
      }
    }
  }

  lemma AscendingIsDistinct(ids: seq<string>)
    requires Ascending(ids)
    ensures Distinct(ids)
  {
    forall i, j | 0 <= i < j < |ids| ensures ids[i] != ids[j] {
      BelowIsStrict(ids[i], ids[i]);
    }
  }

  /** The ids of a set, in ascending order. */
  method SortedIds(ids: set<string>) returns (sorted: seq<string>)
    ensures Ascending(sorted) && Elems(sorted) == ids
  {
    sorted := [];
    var rest := ids;
    while rest != {}
      invariant Ascending(sorted) && Elems(sorted) + rest == ids
      invariant AllBelow(sorted, rest)
      decreases |rest|
    {
      var least := Least(rest);
      TakeLeast(sorted, rest, least);
      sorted := sorted + [least];
      rest := rest - {least};
    }
  }

  ghost predicate AllBelow(sorted: seq<string>, rest: set<string>) {
    forall id, other :: id in sorted && other in rest ==> Below(id, other)
  }

  lemma TakeLeast(sorted: seq<string>, rest: set<string>, least: string)
    requires Ascending(sorted) && AllBelow(sorted, rest) && IsLeast(rest, least)
    ensures Ascending(sorted + [least]) && AllBelow(sorted + [least], rest - {least})
    ensures Elems(sorted + [least]) == Elems(sorted) + {least}
  {
    Snoc(sorted, least);
    forall i | 0 <= i < |sorted| ensures Below(sorted[i], least) {
      assert sorted[i] in sorted;
    }
  }

  method Least(ids: set<string>) returns (least: string)
    requires ids != {}
    ensures IsLeast(ids, least)
  {
    LeastExists(ids);
    least :| least in ids && forall id :: id in ids ==> id == least || Below(least, id);
  }
}
