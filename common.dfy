/** Vocabulary shared by the back end and the screens: optional values,
    document identifiers, timestamps, HTTP-style replies and filtering. */
module Common {

  datatype Option<+T> = None | Some(value: T)

  /** A MongoDB ObjectId, abstracted as a natural number. */
  type Id = nat

  /** Milliseconds in one day. */
  const MsPerDay: int := 86400000

  /** The UTC calendar day of a timestamp given in milliseconds.  It stands
      for `$dateToString('%Y-%m-%d')` and for the first ten characters of a
      timestamp's ISO-8601 text; for four-digit years the text order of
      'YYYY-MM-DD' is the numeric order of the day. */
  function Day(t: int): int
  {
    t / MsPerDay
  }

  /** JavaScript truthiness of a value that may be `undefined`: `undefined`
      and the empty string are falsy. */
  predicate Truthy(s: Option<string>)
  {
    s.Some? && s.value != ""
  }

  /** A reply of an Express route: status code and the `message` field. */
  datatype Response = Response(status: int, message: string)

  datatype SortDir = Asc | Desc

  /** The signed-in user as the screens keep it (`userInfo`): identity and
      the three role flags. */
  datatype UserInfo = UserInfo(id: Id, name: string, isAdmin: bool, isSupplier: bool, isInspector: bool)

  /** Keeps the elements satisfying `p`, in their original order. */
  function Filter<T>(p: T -> bool, s: seq<T>): (r: seq<T>)
    ensures |r| <= |s|
    ensures forall i :: 0 <= i < |r| ==> r[i] in s && p(r[i])
    ensures forall i :: 0 <= i < |s| && p(s[i]) ==> s[i] in r
    ensures multiset(r) <= multiset(s)
  {
    if s == [] then []
    else
      assert s == [s[0]] + s[1..];
      (if p(s[0]) then [s[0]] else []) + Filter(p, s[1..])
  }

  /** Filtering a sequence whose elements all pass changes nothing. */
  lemma {:induction false} FilterKeepsAll<T>(p: T -> bool, s: seq<T>)
    requires forall i :: 0 <= i < |s| ==> p(s[i])
    ensures Filter(p, s) == s
  {
    if s != [] {
      FilterKeepsAll(p, s[1..]);
    }
  }

  /** Filtering a sequence none of whose elements passes leaves nothing. */
  lemma {:induction false} FilterDropsAll<T>(p: T -> bool, s: seq<T>)
    requires forall i :: 0 <= i < |s| ==> !p(s[i])
    ensures Filter(p, s) == []
  {
    if s != [] {
      FilterDropsAll(p, s[1..]);
    }
  }

  /** Filtering distributes over concatenation, so the kept elements keep
      their relative order. */
  lemma {:induction false} FilterAppend<T>(p: T -> bool, a: seq<T>, b: seq<T>)
    ensures Filter(p, a + b) == Filter(p, a) + Filter(p, b)
  {
    if a == [] {
      assert a + b == b;
    } else {
      assert (a + b)[1..] == a[1..] + b;
      FilterAppend(p, a[1..], b);
    }
  }
}
