/**
 Meal and workout records, and the operations the calorie tracker applies to
 its lists of them: the calorie sum (as the `reduce` the tracker runs), the
 lookup of a record by id (`findIndex`) and the removal of one position
 (`splice(index, 1)`).
 */
module Records {

  /** One meal or one workout. The id is an opaque string chosen by the caller. */
  datatype Record = Record(id: string, name: string, calories: int)

  /** Reference definition: the calories of all records in `s`. */
  function Sum(s: seq<Record>): int
  {
    if s == [] then 0 else s[0].calories + Sum(s[1..])
  }

  /** The sum as the tracker computes it: a left fold that starts from `acc`. */
  function Reduce(acc: int, s: seq<Record>): int
    decreases s
  {
    if s == [] then acc else Reduce(acc + s[0].calories, s[1..])
  }

  /** The left fold adds exactly the reference sum to its starting value. */
  lemma {:induction false} ReduceIsSum(acc: int, s: seq<Record>)
    ensures Reduce(acc, s) == acc + Sum(s)
    decreases s
  {
    if s != [] {
      ReduceIsSum(acc + s[0].calories, s[1..]);
    }
  }

  /** The sum distributes over concatenation. */
  lemma {:induction false} SumConcat(a: seq<Record>, b: seq<Record>)
    ensures Sum(a + b) == Sum(a) + Sum(b)
  {
    if a == [] {
      assert a + b == b;
    } else {
      assert (a + b)[1..] == a[1..] + b;
      SumConcat(a[1..], b);
    }
  }

  /** True when no record of `s` carries `id`. */
  predicate Absent(s: seq<Record>, id: string)
  {
    forall j :: 0 <= j < |s| ==> s[j].id != id
  }

  /**
   The position of the first record of `s` whose id is `id`, or -1 when there
   is none.
   */
  function FindIndex(s: seq<Record>, id: string): (k: int)
    ensures -1 <= k < |s|
    ensures k == -1 <==> Absent(s, id)
    ensures 0 <= k ==> s[k].id == id
    ensures forall j :: 0 <= j < k ==> s[j].id != id
  {
    if s == [] then -1
    else if s[0].id == id then 0
    else
      var k := FindIndex(s[1..], id);
      if k == -1 then -1 else k + 1
  }

  /** `s` with position `i` taken out; the other records keep their order. */
  function RemoveAt(s: seq<Record>, i: nat): (r: seq<Record>)
    requires i < |s|
    ensures |r| == |s| - 1
    ensures forall j :: 0 <= j < i ==> r[j] == s[j]
    ensures forall j :: i <= j < |r| ==> r[j] == s[j + 1]
    ensures multiset(r) + multiset{s[i]} == multiset(s)
  {
    assert s == s[..i] + [s[i]] + s[i + 1..];
    s[..i] + s[i + 1..]
  }

  /** Taking a record out lowers the sum by exactly that record's calories. */
  lemma {:induction false} SumRemoveAt(s: seq<Record>, i: nat)
    requires i < |s|
    ensures Sum(s) == Sum(RemoveAt(s, i)) + s[i].calories
  {
    var front, back := s[..i], s[i + 1..];
    assert s == front + ([s[i]] + back);
    assert ([s[i]] + back)[1..] == back;
    SumConcat(front, [s[i]] + back);
    SumConcat(front, back);
  }

  /**
   Appending a record whose id is new and then removing the first record with
   that id gives back the list and its sum.
   */
  lemma AppendThenRemove(s: seq<Record>, r: Record)
    requires Absent(s, r.id)
    ensures FindIndex(s + [r], r.id) == |s|
    ensures RemoveAt(s + [r], |s|) == s
    ensures Sum(RemoveAt(s + [r], |s|)) == Sum(s)
  {
    assert forall j :: 0 <= j < |s| ==> (s + [r])[j] == s[j];
    assert (s + [r])[..|s|] == s;
  }

  /** No two records of `s` share an id. */
  predicate UniqueIds(s: seq<Record>)
  {
    forall i, j :: 0 <= i < j < |s| ==> s[i].id != s[j].id
  }

  /**
   When ids are unique, removing the first match leaves no record with that
   id, and ids stay unique.
   */
  lemma RemoveAtUnique(s: seq<Record>, id: string)
    requires UniqueIds(s)
    requires FindIndex(s, id) != -1
    ensures Absent(RemoveAt(s, FindIndex(s, id)), id)
    ensures UniqueIds(RemoveAt(s, FindIndex(s, id)))
  {
    var k := FindIndex(s, id);
    var r := RemoveAt(s, k);
    forall j | 0 <= j < |r|
      ensures r[j].id != id
    {
      if j < k {
        assert r[j] == s[j];
      } else {
        assert r[j] == s[j + 1];
      }
    }
    forall i, j | 0 <= i < j < |r|
      ensures r[i].id != r[j].id
    {
      var i' := if i < k then i else i + 1;
      var j' := if j < k then j else j + 1;
      assert r[i] == s[i'] && r[j] == s[j'];
    }
  }

  /** Appending a record with a new id keeps ids unique. */
  lemma AppendUnique(s: seq<Record>, r: Record)
    requires UniqueIds(s) && Absent(s, r.id)
    ensures UniqueIds(s + [r])
  {
  }
}
