/**
 * The list operations the employee controllers perform on `List<Employee>` through
 * LINQ and `List<T>`: `FirstOrDefault(e => e.Id == id)`, `Max(e => e.Id) + 1`,
 * `Remove` of the element found, and index-wise replacement. They are stated here
 * over the sequence of ids (and, for removal, over any sequence) so that the four
 * controllers share one definition.
 */
module IdList {
  import opened Text

  const Int32Min: int := -0x8000_0000
  const Int32Max: int := 0x7fff_ffff

  predicate IsInt32(x: int) {
    Int32Min <= x <= Int32Max
  }

  predicate AllInt32(ids: seq<int>) {
    forall i :: 0 <= i < |ids| ==> IsInt32(ids[i])
  }

  predicate Distinct(ids: seq<int>) {
    forall i, j :: 0 <= i < j < |ids| ==> ids[i] != ids[j]
  }

  /** The ids of a list of records, read through `key` (the record's `Id` property). */
  function IdsOf<T>(s: seq<T>, key: T -> int): (ids: seq<int>)
    ensures |ids| == |s|
    ensures forall i :: 0 <= i < |s| ==> ids[i] == key(s[i])
  {
    seq(|s|, i requires 0 <= i < |s| => key(s[i]))
  }

  /** Appending a record appends its id. */
  lemma IdsOfAppend<T>(s: seq<T>, x: T, key: T -> int)
    ensures IdsOf(s + [x], key) == IdsOf(s, key) + [key(x)]
  {
  }

  /** Removing the k-th record removes the k-th id. */
  lemma IdsOfRemoveAt<T>(s: seq<T>, k: nat, key: T -> int)
    requires k < |s|
    ensures IdsOf(RemoveAt(s, k), key) == RemoveAt(IdsOf(s, key), k)
  {
  }

  /** Replacing a record by one with the same id leaves the ids as they were. */
  lemma IdsOfReplace<T>(s: seq<T>, k: nat, x: T, key: T -> int)
    requires k < |s| && key(x) == key(s[k])
    ensures IdsOf(s[k := x], key) == IdsOf(s, key)
  {
  }

  /** Position of the first entry equal to `id`; `None` when there is none (FirstOrDefault gives null). */
  function FirstIndexOf(ids: seq<int>, id: int): (r: Option<nat>)
    ensures r.None? <==> id !in ids
    ensures r.Some? ==> r.value < |ids| && ids[r.value] == id && id !in ids[..r.value]
    decreases |ids|
  {
    if ids == [] then None
    else if ids[0] == id then Some(0)
    else
      match FirstIndexOf(ids[1..], id)
      case None => None
      case Some(k) =>
        assert ids[1..][..k] == ids[1..k + 1];
        Some(k + 1)
  }

  /** `FirstOrDefault(x => key(x) == id)`, as the position of the record found; `None` for null. */
  function FindBy<T>(s: seq<T>, key: T -> int, id: int): (k: Option<nat>)
    ensures k.None? <==> forall i :: 0 <= i < |s| ==> key(s[i]) != id
    ensures k.Some? ==> k.value < |s| && key(s[k.value]) == id
    ensures k.Some? ==> forall i :: 0 <= i < k.value ==> key(s[i]) != id
  {
    var ids := IdsOf(s, key);
    var k := FirstIndexOf(ids, id);
    assert k.Some? ==> forall i :: 0 <= i < k.value ==> ids[..k.value][i] == ids[i];
    k
  }

  /** The largest id (Enumerable.Max); the caller must supply a non-empty list. */
  function MaxId(ids: seq<int>): (m: int)
    requires |ids| > 0
    ensures m in ids
    ensures forall i :: 0 <= i < |ids| ==> ids[i] <= m
    decreases |ids|
  {
    if |ids| == 1 then ids[0]
    else
      var m := MaxId(ids[1..]);
      assert forall i :: 1 <= i < |ids| ==> ids[i] == ids[1..][i - 1];
      if ids[0] >= m then ids[0] else m
  }

  /** Two's-complement 32-bit truncation, as unchecked C# `int` arithmetic does. */
  function Wrap32(x: int): (w: int)
    ensures IsInt32(w)
    ensures IsInt32(x) ==> w == x
  {
    (x - Int32Min) % 0x1_0000_0000 + Int32Min
  }

  /** `Max(e => e.Id) + 1` evaluated in unchecked `int` arithmetic. */
  function NextId(ids: seq<int>): (n: int)
    requires |ids| > 0 && AllInt32(ids)
    ensures IsInt32(n)
    ensures MaxId(ids) < Int32Max ==> n == MaxId(ids) + 1 && n !in ids
    ensures MaxId(ids) == Int32Max ==> n == Int32Min
  {
    Wrap32(MaxId(ids) + 1)
  }

  /** The sequence without its k-th element; later elements move down one place. */
  function RemoveAt<T>(s: seq<T>, k: nat): (r: seq<T>)
    requires k < |s|
    ensures |r| == |s| - 1
    ensures forall j :: 0 <= j < k ==> r[j] == s[j]
    ensures forall j :: k <= j < |r| ==> r[j] == s[j + 1]
    ensures multiset(r) + multiset{s[k]} == multiset(s)
  {
    assert s == s[..k] + [s[k]] + s[k + 1..];
    s[..k] + s[k + 1..]
  }

  /** Appending the next id keeps the ids distinct as long as the maximum has not reached Int32.MaxValue. */
  lemma AppendNextIdKeepsDistinct(ids: seq<int>)
    requires |ids| > 0 && AllInt32(ids) && Distinct(ids)
    requires MaxId(ids) < Int32Max
    ensures Distinct(ids + [NextId(ids)])
    ensures AllInt32(ids + [NextId(ids)])
    ensures forall i :: 0 <= i < |ids| ==> ids[i] < NextId(ids)
  {
  }

  /** Removing an entry never makes two remaining ids equal. */
  lemma RemoveAtKeepsDistinct(ids: seq<int>, k: nat)
    requires k < |ids| && Distinct(ids)
    ensures Distinct(RemoveAt(ids, k))
    ensures AllInt32(ids) ==> AllInt32(RemoveAt(ids, k))
  {
    var r := RemoveAt(ids, k);
    forall i, j | 0 <= i < j < |r| ensures r[i] != r[j] {
      var i' := if i < k then i else i + 1;
      var j' := if j < k then j else j + 1;
      assert r[i] == ids[i'] && r[j] == ids[j'] && i' < j';
    }
  }

  /**
   * Once some id equals Int32.MaxValue, `Max + 1` wraps to Int32.MinValue; if that id
   * is also present, the list [Int32.MinValue, Int32.MaxValue] gains a second Int32.MinValue.
   */
  lemma WrapAroundRepeatsAnId()
    ensures var ids := [Int32Min, Int32Max];
      Distinct(ids) && AllInt32(ids) && !Distinct(ids + [NextId(ids)])
  {
    var ids := [Int32Min, Int32Max];
    assert MaxId(ids) == Int32Max;
    assert (ids + [NextId(ids)])[0] == (ids + [NextId(ids)])[2];
  }
}
