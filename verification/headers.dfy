/** HTTP header lists as the Worker runtime's `Headers` objects hold them:
    names compare case-insensitively (they are stored ASCII-lower-cased),
    and `set` replaces whatever value the name had before. */
module HttpHeaders {
  import opened Wrappers

  predicate IsUpper(c: char) {
    'A' <= c <= 'Z'
  }

  /** ASCII lower-casing of one character; every other character is kept. */
  function LowerChar(c: char): (d: char)
    ensures IsUpper(c) ==> d as int == c as int + 32
    ensures !IsUpper(c) ==> d == c
    ensures !IsUpper(d)
  {
    if IsUpper(c) then (c as int + 32) as char else c
  }

  /** A name in the form a header list stores it: no upper-case ASCII letter. */
  predicate IsLowerName(s: string) {
    forall i | 0 <= i < |s| :: !IsUpper(s[i])
  }

  /** The stored form of a header name. */
  function Lower(s: string): (r: string)
    ensures |r| == |s|
    ensures forall i | 0 <= i < |s| :: r[i] == LowerChar(s[i])
    ensures IsLowerName(r)
  {
    seq(|s|, i requires 0 <= i < |s| => LowerChar(s[i]))
  }

  /** Lower-casing twice is lower-casing once. */
  lemma LowerIdempotent(s: string)
    ensures Lower(Lower(s)) == Lower(s)
  {
  }

  /** A name already stored lower-case is its own stored form. */
  lemma LowerFixesLowerName(s: string)
    requires IsLowerName(s)
    ensures Lower(s) == s
  {
  }

  /** A header list: stored names to values. */
  type HeaderMap = m: map<string, string> | forall name | name in m :: IsLowerName(name)
    witness map[]

  /** `headers.get(name)`: the value under `name`, in any letter case, or none. */
  function GetHeader(h: HeaderMap, name: string): (r: Option<string>)
    ensures r.None? <==> Lower(name) !in h
    ensures r.Some? ==> r.value == h[Lower(name)]
  {
    if Lower(name) in h then Some(h[Lower(name)]) else None
  }

  /** `headers.set(name, value)`: the one value under `name` becomes `value`;
      no other name is touched and nothing is appended. */
  function SetHeader(h: HeaderMap, name: string, value: string): (r: HeaderMap)
    ensures GetHeader(r, name) == Some(value)
    ensures forall other | Lower(other) != Lower(name) :: GetHeader(r, other) == GetHeader(h, other)
    ensures r.Keys == h.Keys + {Lower(name)}
  {
    h[Lower(name) := value]
  }

  /** Two spellings of one name read the same value. */
  lemma GetHeaderCaseInsensitive(h: HeaderMap, a: string, b: string)
    requires Lower(a) == Lower(b)
    ensures GetHeader(h, a) == GetHeader(h, b)
  {
  }

  /** Setting the same header twice gives what setting it once gives. */
  lemma SetHeaderIdempotent(h: HeaderMap, name: string, value: string)
    ensures SetHeader(SetHeader(h, name, value), name, value) == SetHeader(h, name, value)
  {
  }

  /** Of two sets of one name (in any letter case), the later one wins outright. */
  lemma SetHeaderLastWins(h: HeaderMap, a: string, b: string, v: string, w: string)
    requires Lower(a) == Lower(b)
    ensures SetHeader(SetHeader(h, a, v), b, w) == SetHeader(h, b, w)
  {
  }

  /** A header list built from a record `{ name: value, ... }`: fields are
      entered in order, so a later field of the same name replaces an earlier one. */
  function FromRecord(fields: seq<(string, string)>): (r: HeaderMap)
    ensures fields != [] ==> GetHeader(r, fields[|fields| - 1].0) == Some(fields[|fields| - 1].1)
  {
    if fields == [] then map[]
    else
      var last := fields[|fields| - 1];
      SetHeader(FromRecord(fields[..|fields| - 1]), last.0, last.1)
  }

  /** The stored names of a record's header list are exactly its fields' names. */
  lemma {:induction false} FromRecordKeys(fields: seq<(string, string)>)
    ensures FromRecord(fields).Keys == set i | 0 <= i < |fields| :: Lower(fields[i].0)
  {
    if fields != [] {
      var init := fields[..|fields| - 1];
      FromRecordKeys(init);
      assert forall i | 0 <= i < |init| :: init[i] == fields[i];
    }
  }

  /** Fields whose names differ in more than letter case. */
  predicate DistinctNames(fields: seq<(string, string)>) {
    forall i, j | 0 <= i < j < |fields| :: Lower(fields[i].0) != Lower(fields[j].0)
  }

  /** When no two fields share a name, each field's value is what its name reads. */
  lemma {:induction false} FromRecordValues(fields: seq<(string, string)>)
    requires DistinctNames(fields)
    ensures forall i | 0 <= i < |fields| :: GetHeader(FromRecord(fields), fields[i].0) == Some(fields[i].1)
  {
    if fields != [] {
      var n := |fields| - 1;
      var init := fields[..n];
      assert forall i | 0 <= i < |init| :: init[i] == fields[i];
      FromRecordValues(init);
      forall i | 0 <= i < n
        ensures GetHeader(FromRecord(fields), fields[i].0) == Some(fields[i].1)
      {
        assert Lower(fields[i].0) != Lower(fields[n].0);
      }
    }
  }

  /** A four-field record gives its four entries, entered in order. */
  lemma FromRecordFour(a: (string, string), b: (string, string), c: (string, string), d: (string, string))
    ensures FromRecord([a, b, c, d]) == map[Lower(a.0) := a.1, Lower(b.0) := b.1, Lower(c.0) := c.1, Lower(d.0) := d.1]
  {
    assert [a, b, c, d][..3] == [a, b, c];
    assert [a, b, c][..2] == [a, b];
    assert [a, b][..1] == [a];
    assert [a][..0] == [];
    assert FromRecord([a]) == map[Lower(a.0) := a.1];
    assert FromRecord([a, b]) == map[Lower(a.0) := a.1, Lower(b.0) := b.1];
    assert FromRecord([a, b, c]) == map[Lower(a.0) := a.1, Lower(b.0) := b.1, Lower(c.0) := c.1];
  }

  /** A mutable `Headers` object, as `request.headers` and `response.headers`. */
  class Headers {
    var entries: HeaderMap

    /** `new Headers(init)`: a fresh copy, so later changes do not reach `init`'s owner. */
    constructor (init: HeaderMap)
      ensures entries == init
    {
      entries := init;
    }

    /** `headers.set(name, value)`, in place. */
    method Set(name: string, value: string)
      modifies this
      ensures entries == SetHeader(old(entries), name, value)
    {
      entries := entries[Lower(name) := value];
    }
  }
}
