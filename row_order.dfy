/**
 * The row order of a ward-level frame: rows sorted by city, then ward, then
 * date; the identifiers compare as strings (code point by code point) and the
 * date as a day number.
 */
module RowOrder {

  /** One row of a ward-level frame: its group and date keys and its numeric columns. */
  datatype Row = Row(cityId: string, wardId: string, dailyDate: int, columns: map<string, real>)

  /** Lexicographic order on strings: a proper prefix comes first. */
  predicate StrLe(a: string, b: string)
    decreases |a|
  {
    if |a| == 0 then true
    else if |b| == 0 then false
    else if a[0] != b[0] then a[0] < b[0]
    else StrLe(a[1..], b[1..])
  }

  lemma {:induction false} StrLeReflexive(a: string)
    ensures StrLe(a, a)
    decreases |a|
  {
    if |a| > 0 {
      StrLeReflexive(a[1..]);
    }
  }

  lemma {:induction false} StrLeTotal(a: string, b: string)
    ensures StrLe(a, b) || StrLe(b, a)
    decreases |a|
  {
    if |a| > 0 && |b| > 0 && a[0] == b[0] {
      StrLeTotal(a[1..], b[1..]);
    }
  }

  lemma {:induction false} StrLeAntisymmetric(a: string, b: string)
    requires StrLe(a, b) && StrLe(b, a)
    ensures a == b
    decreases |a|
  {
    if |a| > 0 {
      StrLeAntisymmetric(a[1..], b[1..]);
      assert a == [a[0]] + a[1..] && b == [b[0]] + b[1..];
    }
  }

  lemma {:induction false} StrLeTransitive(a: string, b: string, c: string)
    requires StrLe(a, b) && StrLe(b, c)
    ensures StrLe(a, c)
    decreases |a|
  {
    if |a| > 0 && a[0] == b[0] && b[0] == c[0] {
      StrLeTransitive(a[1..], b[1..], c[1..]);
    }
  }

  /** The sort key order (city_id, ward_id, daily_date). */
  predicate KeyLe(x: Row, y: Row)
  {
    if x.cityId != y.cityId then StrLe(x.cityId, y.cityId)
    else if x.wardId != y.wardId then StrLe(x.wardId, y.wardId)
    else x.dailyDate <= y.dailyDate
  }

  lemma KeyLeTotal(x: Row, y: Row)
    ensures KeyLe(x, y) || KeyLe(y, x)
  {
    StrLeTotal(x.cityId, y.cityId);
    StrLeTotal(x.wardId, y.wardId);
  }

  lemma KeyLeTransitive(x: Row, y: Row, z: Row)
    requires KeyLe(x, y) && KeyLe(y, z)
    ensures KeyLe(x, z)
  {
    if x.cityId != y.cityId && y.cityId != z.cityId {
      StrLeTransitive(x.cityId, y.cityId, z.cityId);
      if x.cityId == z.cityId {
        StrLeAntisymmetric(x.cityId, y.cityId);
      }
    } else if x.cityId == y.cityId && y.cityId == z.cityId
      && x.wardId != y.wardId && y.wardId != z.wardId
    {
      StrLeTransitive(x.wardId, y.wardId, z.wardId);
      if x.wardId == z.wardId {
        StrLeAntisymmetric(x.wardId, y.wardId);
      }
    }
  }

  predicate Sorted(s: seq<Row>)
  {
    forall i, j :: 0 <= i < j < |s| ==> KeyLe(s[i], s[j])
  }

  /** Puts r in front of the first row of s that does not sort before it. */
  function Insert(r: Row, s: seq<Row>): (t: seq<Row>)
    ensures |t| == |s| + 1
    ensures multiset(t) == multiset(s) + multiset{r}
  {
    if |s| == 0 then [r]
    else if KeyLe(r, s[0]) then [r] + s
    else
      assert s == [s[0]] + s[1..];
      [s[0]] + Insert(r, s[1..])
  }

  lemma {:induction false} InsertSorted(r: Row, s: seq<Row>)
    requires Sorted(s)
    ensures Sorted(Insert(r, s))
    decreases |s|
  {
    if |s| > 0 {
      if KeyLe(r, s[0]) {
        var t := Insert(r, s);
        forall i, j | 0 <= i < j < |t|
          ensures KeyLe(t[i], t[j])
        {
          if i == 0 && j > 1 {
            KeyLeTransitive(r, s[0], s[j - 1]);
          }
        }
      } else {
        KeyLeTotal(r, s[0]);
        InsertSorted(r, s[1..]);
        HeadBeforeInsert(r, s);
        ConsSorted(s[0], Insert(r, s[1..]));
      }
    }
  }

  /** When r sorts after s[0], s[0] sorts before every row of Insert(r, s[1..]). */
  lemma HeadBeforeInsert(r: Row, s: seq<Row>)
    requires Sorted(s) && |s| > 0 && KeyLe(s[0], r)
    ensures forall j :: 0 <= j < |Insert(r, s[1..])| ==> KeyLe(s[0], Insert(r, s[1..])[j])
  {
    var rest := Insert(r, s[1..]);
    forall j | 0 <= j < |rest|
      ensures KeyLe(s[0], rest[j])
    {
      assert rest[j] in multiset(rest);
      if rest[j] != r {
        assert rest[j] in multiset(s[1..]);
        var k :| 0 <= k < |s[1..]| && s[1..][k] == rest[j];
        assert s[k + 1] == rest[j];
      }
    }
  }

  /** A row in front of a sorted sequence whose rows it precedes gives a sorted sequence. */
  lemma ConsSorted(x: Row, rest: seq<Row>)
    requires Sorted(rest)
    requires forall j :: 0 <= j < |rest| ==> KeyLe(x, rest[j])
    ensures Sorted([x] + rest)
  {
    var t := [x] + rest;
    forall i, j | 0 <= i < j < |t|
      ensures KeyLe(t[i], t[j])
    {
      if i == 0 {
        assert t[j] == rest[j - 1];
      } else {
        assert t[i] == rest[i - 1] && t[j] == rest[j - 1];
      }
    }
  }

  /** df.sort_values(["city_id", "ward_id", "daily_date"]): an insertion sort that keeps ties in input order. */
  function SortRows(s: seq<Row>): (t: seq<Row>)
    ensures |t| == |s|
    ensures multiset(t) == multiset(s)
  {
    if |s| == 0 then []
    else
      assert s == [s[0]] + s[1..];
      Insert(s[0], SortRows(s[1..]))
  }

  lemma {:induction false} SortRowsSorted(s: seq<Row>)
    ensures Sorted(SortRows(s))
    decreases |s|
  {
    if |s| > 0 {
      SortRowsSorted(s[1..]);
      InsertSorted(s[0], SortRows(s[1..]));
    }
  }

  /** Sorting a sorted frame changes nothing. */
  lemma {:induction false} SortRowsOfSorted(s: seq<Row>)
    requires Sorted(s)
    ensures SortRows(s) == s
    decreases |s|
  {
    if |s| > 0 {
      assert Sorted(s[1..]) by {
        forall i, j | 0 <= i < j < |s[1..]|
          ensures KeyLe(s[1..][i], s[1..][j])
        {
          assert s[1..][i] == s[i + 1] && s[1..][j] == s[j + 1];
        }
      }
      SortRowsOfSorted(s[1..]);
      if |s| > 1 {
        assert KeyLe(s[0], s[1]);
      }
      assert s == [s[0]] + s[1..];
    }
  }
}
