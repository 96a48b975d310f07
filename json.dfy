/**
 * The part of nlohmann::json the client relies on: the value shapes, member
 * lookup (`contains`, `operator[]` with a key), and the array-like view used
 * by range-for, `size()` and `empty()`.
 */
module Json {
  import opened Wrappers

  /** A C++ `double`, kept as its IEEE-754 bit pattern: the client only copies amounts and prices. */
  datatype Double = Double(bits: bv64)

  /**
   * A JSON value. An object is a member list; the values nlohmann holds keep
   * their members sorted by key with no key twice (its `std::map`), which is
   * what `Canonical` states.
   */
  datatype Json =
    | Null
    | Bool(b: bool)
    | Int(i: int)
    | Float(d: Double)
    | Str(s: string)
    | Arr(items: seq<Json>)
    | Obj(members: seq<(string, Json)>)

  /** The value stored under `key` in a member list, if any. */
  function Lookup(members: seq<(string, Json)>, key: string): (r: Option<Json>)
    ensures r.Some? <==> exists i :: 0 <= i < |members| && members[i].0 == key
    ensures r.Some? ==> exists i :: 0 <= i < |members| && members[i] == (key, r.value)
  {
    if |members| == 0 then None
    else if members[0].0 == key then Some(members[0].1)
    else
      var r := Lookup(members[1..], key);
      assert forall i :: 0 < i < |members| ==> members[i] == members[1..][i - 1];
      r
  }

  /** No key occurs twice: the shape of every object nlohmann holds. */
  predicate DistinctKeys(members: seq<(string, Json)>)
  {
    forall i, j :: 0 <= i < j < |members| ==> members[i].0 != members[j].0
  }

  /** In a member list with distinct keys, each key finds its own value. */
  lemma {:induction false} LookupDistinct(members: seq<(string, Json)>)
    requires DistinctKeys(members)
    ensures forall i :: 0 <= i < |members| ==> Lookup(members, members[i].0) == Some(members[i].1)
  {
    if |members| > 0 {
      LookupDistinct(members[1..]);
      forall i | 0 < i < |members| ensures Lookup(members, members[i].0) == Some(members[i].1) {
        assert members[i] == members[1..][i - 1];
      }
    }
  }

  /** `j[key]` where `j.contains(key)`; None when `j` is not an object or lacks the key. */
  function Get(j: Json, key: string): Option<Json>
  {
    if j.Obj? then Lookup(j.members, key) else None
  }

  /** `j.contains(key)`: false for every value that is not an object. */
  predicate Contains(j: Json, key: string)
  {
    Get(j, key).Some?
  }

  /** The keys of an object; no keys for any other value. */
  function Keys(j: Json): set<string>
  {
    if j.Obj? then MemberKeys(j.members) else {}
  }

  function MemberKeys(members: seq<(string, Json)>): (keys: set<string>)
    ensures forall k :: k in keys <==> Lookup(members, k).Some?
  {
    if |members| == 0 then {} else {members[0].0} + MemberKeys(members[1..])
  }

  /**
   * The values a range-for visits: nothing for null, the elements of an
   * array, the member values of an object, and the value itself for a
   * string, number or boolean.
   */
  function Elements(j: Json): (r: seq<Json>)
    ensures |r| == Size(j)
  {
    match j
    case Null => []
    case Arr(items) => items
    case Obj(members) => seq(|members|, i requires 0 <= i < |members| => members[i].1)
    case _ => [j]
  }

  /** `j.size()`: 0 for null, 1 for a string, number or boolean. */
  function Size(j: Json): nat
  {
    match j
    case Null => 0
    case Arr(items) => |items|
    case Obj(members) => |members|
    case _ => 1
  }

  /** `j.empty()`: true for null and for an empty array or object only. */
  predicate IsEmpty(j: Json)
  {
    Size(j) == 0
  }

  /** `a < b` for `std::string`: lexicographic by character code. */
  predicate Before(a: string, b: string)
  {
    if a == [] then b != []
    else if b == [] then false
    else if a[0] != b[0] then a[0] < b[0]
    else Before(a[1..], b[1..])
  }

  /** Strings that agree up to position k and differ there are ordered by that character. */
  lemma {:induction false} BeforeAt(a: string, b: string, k: nat)
    requires k < |a| && k < |b| && a[..k] == b[..k] && a[k] < b[k]
    ensures Before(a, b)
  {
    if k > 0 {
      assert a[0] == a[..k][0] == b[..k][0] == b[0];
      assert a[1..][..k - 1] == a[..k][1..] == b[..k][1..] == b[1..][..k - 1];
      BeforeAt(a[1..], b[1..], k - 1);
    }
  }

  lemma {:induction false} BeforeIrreflexive(a: string)
    ensures !Before(a, a)
  {
    if a != [] {
      BeforeIrreflexive(a[1..]);
    }
  }

  lemma {:induction false} BeforeTransitive(a: string, b: string, c: string)
    requires Before(a, b) && Before(b, c)
    ensures Before(a, c)
  {
    if a != [] && b != [] && c != [] && a[0] == b[0] && b[0] == c[0] {
      BeforeTransitive(a[1..], b[1..], c[1..]);
    }
  }

  /** Each key comes strictly after the one before it, as in the library's ordered map. */
  predicate SortedKeys(members: seq<(string, Json)>)
  {
    forall i :: 0 < i < |members| ==> Before(members[i - 1].0, members[i].0)
  }

  /** A value as nlohmann holds it: every object, at any depth, sorted by key. */
  predicate Canonical(j: Json)
    decreases j
  {
    match j
    case Arr(items) => forall i :: 0 <= i < |items| ==> Canonical(items[i])
    case Obj(members) => SortedKeys(members) && forall i :: 0 <= i < |members| ==> Canonical(members[i].1)
    case _ => true
  }

  /** An object of sorted keys whose values are scalars is canonical. */
  lemma CanonicalFlat(j: Json)
    requires j.Obj? && SortedKeys(j.members)
    requires forall i :: 0 <= i < |j.members| ==> !j.members[i].1.Arr? && !j.members[i].1.Obj?
    ensures Canonical(j)
  {
  }

  /** Sorted keys are distinct keys. */
  lemma SortedDistinct(members: seq<(string, Json)>)
    requires SortedKeys(members)
    ensures DistinctKeys(members)
  {
    forall i, j | 0 <= i < j < |members| ensures members[i].0 != members[j].0 {
      SortedFromTo(members, i, j);
      if members[i].0 == members[j].0 {
        BeforeIrreflexive(members[i].0);
      }
    }
  }

  lemma {:induction false} SortedFromTo(members: seq<(string, Json)>, i: nat, j: nat)
    requires SortedKeys(members) && i < j < |members|
    ensures Before(members[i].0, members[j].0)
    decreases j - i
  {
    if i + 1 < j {
      SortedFromTo(members, i + 1, j);
      BeforeTransitive(members[i].0, members[i + 1].0, members[j].0);
    }
  }

  /** In a canonical object every key finds its own value. */
  lemma CanonicalLookup(j: Json)
    requires Canonical(j) && j.Obj?
    ensures forall i :: 0 <= i < |j.members| ==> Get(j, j.members[i].0) == Some(j.members[i].1)
  {
    SortedDistinct(j.members);
    LookupDistinct(j.members);
  }
}
