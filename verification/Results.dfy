/**
  Result sets: an ordered dictionary from identifiers to results, and filters that use
  the identifier as an index when they can and scan otherwise.
 */
module Results {
  import opened Wrappers

  /** A value to compare with; lists and dictionaries are not hashable. */
  datatype Val = Missing | Text(text: string) | Other(tag: nat) | Unhashable(tag: nat)
  /** A result: its identifier and its other attributes. */
  datatype Record = Record(id: string, attributes: map<string, Val>)

  /** A dictionary in insertion order. */
  type Content = seq<(string, Record)>
  type Params = map<string, Val>
  /** The test behind a filter key other than `id`: a plain, nested or operator lookup. */
  type Lookup = (Record, string, Val) -> bool

  // ------------------------------------------------------------ the dictionary

  function Put(c: Content, id: string, r: Record): Content {
    if c == [] then [(id, r)]
    else if c[0].0 == id then [(id, r)] + c[1..]
    else [c[0]] + Put(c[1..], id, r)
  }
  function Remove(c: Content, id: string): Content {
    if c == [] then []
    else if c[0].0 == id then c[1..]
    else [c[0]] + Remove(c[1..], id)
  }
  function Find(c: Content, id: string): Option<Record> {
    if c == [] then None else if c[0].0 == id then Some(c[0].1) else Find(c[1..], id)
  }

  /** Every result is stored under its own identifier, once. */
  ghost predicate Indexed(c: Content) {
    && (forall i :: 0 <= i < |c| ==> c[i].0 == c[i].1.id)
    && (forall i, j :: 0 <= i < j < |c| ==> c[i].0 != c[j].0)
  }

  ghost predicate HasKey(c: Content, id: string) { exists i :: 0 <= i < |c| && c[i].0 == id }

  lemma IndexedParts(c: Content)
    requires c != []
    ensures Indexed(c) <==> c[0].0 == c[0].1.id && Indexed(c[1..]) && !HasKey(c[1..], c[0].0)
  {
    if Indexed(c[1..]) && !HasKey(c[1..], c[0].0) && c[0].0 == c[0].1.id {
      forall i, j | 0 <= i < j < |c| ensures c[i].0 != c[j].0 {
        assert c[j] == c[1..][j - 1];
        if i > 0 { assert c[i] == c[1..][i - 1]; }
      }
      forall i | 0 <= i < |c| ensures c[i].0 == c[i].1.id {
        if i > 0 { assert c[i] == c[1..][i - 1]; }
      }
    }
  }

  lemma {:induction false} PutIndexed(c: Content, r: Record)
    requires Indexed(c)
    ensures Indexed(Put(c, r.id, r))
    ensures forall id :: HasKey(Put(c, r.id, r), id) <==> HasKey(c, id) || id == r.id
  {
    if c != [] {
      IndexedParts(c);
      var d := Put(c, r.id, r);
      if c[0].0 == r.id {
        assert d[1..] == c[1..];
      } else {
        PutIndexed(c[1..], r);
        assert d[1..] == Put(c[1..], r.id, r);
      }
      IndexedParts(d);
      forall id ensures HasKey(d, id) <==> HasKey(c, id) || id == r.id { KeyParts(c, id); KeyParts(d, id); }
    } else {
      assert Put(c, r.id, r)[0].0 == r.id;
    }
  }

  lemma KeyParts(c: Content, id: string)
    requires c != []
    ensures HasKey(c, id) <==> c[0].0 == id || HasKey(c[1..], id)
  {
    if HasKey(c[1..], id) {
      var i :| 0 <= i < |c[1..]| && c[1..][i].0 == id;
      assert c[i + 1].0 == id;
    }
    if HasKey(c, id) && c[0].0 != id {
      var i :| 0 <= i < |c| && c[i].0 == id;
      assert c[1..][i - 1].0 == id;
    }
  }

  lemma {:induction false} RemoveIndexed(c: Content, id: string)
    requires Indexed(c)
    ensures Indexed(Remove(c, id)) && !HasKey(Remove(c, id), id)
    ensures forall k :: HasKey(Remove(c, id), k) <==> HasKey(c, k) && k != id
  {
    if c != [] {
      IndexedParts(c);
      forall k ensures HasKey(c, k) <==> c[0].0 == k || HasKey(c[1..], k) { KeyParts(c, k); }
      if c[0].0 != id {
        RemoveIndexed(c[1..], id);
        var d := Remove(c, id);
        assert d[1..] == Remove(c[1..], id);
        IndexedParts(d);
        forall k ensures HasKey(d, k) <==> d[0].0 == k || HasKey(d[1..], k) { KeyParts(d, k); }
      }
    }
  }

  lemma {:induction false} PutNew(c: Content, id: string, r: Record)
    requires !HasKey(c, id)
    ensures Put(c, id, r) == c + [(id, r)]
  {
    if c != [] {
      KeyParts(c, id);
      PutNew(c[1..], id, r);
    }
  }

  /** A lookup after an assignment or a removal. */
  lemma {:induction false} FindAfter(c: Content, id: string, r: Record, k: string)
    requires Indexed(c)
    ensures Find(Put(c, id, r), k) == if k == id then Some(r) else Find(c, k)
    ensures Find(Remove(c, id), k) == if k == id then None else Find(c, k)
  {
    if c != [] {
      IndexedParts(c);
      FindAfter(c[1..], id, r, k);
      FindAt(c[1..], id);
    }
  }

  // ------------------------------------------------------------ filters

  ghost predicate MatchesKey(look: Lookup, r: Record, key: string, value: Val) {
    if key == "id" then value == Text(r.id) else look(r, key, value)
  }
  ghost predicate Matches(look: Lookup, r: Record, params: Params) {
    forall k :: k in params ==> MatchesKey(look, r, k, params[k])
  }

  /** The entries that match, in order. */
  ghost function Select(look: Lookup, c: Content, params: Params): Content {
    if c == [] then []
    else
      var n := |c| - 1;
      Select(look, c[..n], params) + if Matches(look, c[n].1, params) then [c[n]] else []
  }

  lemma {:induction false} SelectIndexed(look: Lookup, c: Content, params: Params)
    requires Indexed(c)
    ensures Indexed(Select(look, c, params))
    ensures forall e :: e in Select(look, c, params) <==> e in c && Matches(look, e.1, params)
  {
    if c != [] {
      var n := |c| - 1;
      SelectIndexed(look, c[..n], params);
      assert forall e :: e in c <==> e in c[..n] || e == c[n];
      var s := Select(look, c[..n], params);
      forall i | 0 <= i < |s| ensures s[i].0 != c[n].0 {
        assert s[i] in s;
        var j :| 0 <= j < n && c[..n][j] == s[i];
      }
    }
  }

  lemma MatchesBoth(look: Lookup, r: Record, f: Params, g: Params)
    requires f.Keys !! g.Keys
    ensures Matches(look, r, f + g) <==> Matches(look, r, f) && Matches(look, r, g)
  {
    if Matches(look, r, f + g) {
      forall k | k in f ensures MatchesKey(look, r, k, f[k]) { assert k in f + g && (f + g)[k] == f[k]; }
      forall k | k in g ensures MatchesKey(look, r, k, g[k]) { assert k in f + g && (f + g)[k] == g[k]; }
    }
  }

  lemma SelectSnoc(look: Lookup, c: Content, e: (string, Record), params: Params)
    ensures Select(look, c + [e], params) == Select(look, c, params) + if Matches(look, e.1, params) then [e] else []
  {
    assert (c + [e])[..|c + [e]| - 1] == c;
  }

  /** Filtering twice is filtering by both, for filters on different keys. */
  lemma {:induction false} FilterComposes(look: Lookup, c: Content, f: Params, g: Params)
    requires f.Keys !! g.Keys
    ensures Select(look, Select(look, c, f), g) == Select(look, c, f + g)
  {
    if c != [] {
      var n := |c| - 1;
      FilterComposes(look, c[..n], f, g);
      MatchesBoth(look, c[n].1, f, g);
      SelectSnoc(look, Select(look, c[..n], f), c[n], g);
      assert Select(look, c[..n], f) + [] == Select(look, c[..n], f);
    }
  }

  lemma {:induction false} FindAt(c: Content, id: string)
    requires Indexed(c)
    ensures Find(c, id).Some? <==> HasKey(c, id)
    ensures Find(c, id).Some? ==> Find(c, id).value.id == id && (id, Find(c, id).value) in c
  {
    if c != [] {
      IndexedParts(c);
      KeyParts(c, id);
      FindAt(c[1..], id);
    }
  }

  lemma MatchesId(look: Lookup, r: Record, pk: string)
    ensures Matches(look, r, map["id" := Text(pk)]) <==> r.id == pk
  {
    var params := map["id" := Text(pk)];
    assert "id" in params && params["id"] == Text(pk);
    if r.id == pk {
      forall k | k in params ensures MatchesKey(look, r, k, params[k]) { assert k == "id"; }
    }
  }

  /** The index agrees with the scan. */
  lemma {:induction false} IndexAgrees(look: Lookup, c: Content, pk: string)
    requires Indexed(c)
    ensures Select(look, c, map["id" := Text(pk)]) ==
      match Find(c, pk) case Some(r) => [(pk, r)] case None => []
  {
    var params := map["id" := Text(pk)];
    SelectIndexed(look, c, params);
    var s := Select(look, c, params);
    FindAt(c, pk);
    forall e ensures e in s <==> e in c && e.0 == pk {
      if e in c {
        var i :| 0 <= i < |c| && c[i] == e;
        MatchesId(look, e.1, pk);
      }
    }
    AtMostOne(s, pk);
    if Find(c, pk).Some? {
      assert (pk, Find(c, pk).value) in s;
    } else {
      assert forall e :: e in c ==> HasKey(c, e.0);
      assert forall e :: e !in s;
      NoMembers(s);
    }
  }

  lemma FirstIn(s: Content)
    requires s != []
    ensures s[0] in s
  {
  }

  lemma NoMembers(s: Content)
    requires forall e :: e !in s
    ensures s == []
  {
    if s != [] { FirstIn(s); }
  }

  lemma TwoDiffer(s: Content)
    requires Indexed(s) && |s| > 1
    ensures s[0] in s && s[1] in s && s[0].0 != s[1].0
  {
  }

  lemma AtMostOne(s: Content, pk: string)
    requires Indexed(s) && forall e :: e in s ==> e.0 == pk
    ensures |s| <= 1
  {
    if |s| > 1 { TwoDiffer(s); }
  }

  // ------------------------------------------------------------ result sets

  datatype FilterError = NotHashable
  datatype GetError = NotFound | MultipleValues | BadFilter

  /** A filter by identifier alone takes the fast path. */
  predicate ByIdentifier(params: Params) { |params| == 1 && "id" in params }

  class ResultSet {
    var content: Content

    constructor (results: seq<Record>)
      ensures content == FromList(results) && Indexed(content)
    {
      FromListIndexed(results);
      content := [];
      new;
      var i := 0;
      while i < |results|
        invariant 0 <= i <= |results| && content == FromList(results[..i])
      {
        assert results[..i + 1][..i] == results[..i];
        content := Put(content, results[i].id, results[i]);
        i := i + 1;
      }
      assert results[..i] == results;
    }

    method Add(r: Record)
      requires Indexed(content)
      modifies this
      ensures content == Put(old(content), r.id, r) && Indexed(content)
    {
      PutIndexed(content, r);
      content := Put(content, r.id, r);
    }

    /** Merges another set; both may be the same object. */
    method AddAll(other: ResultSet)
      requires Indexed(content) && Indexed(other.content)
      modifies this
      ensures content == Merged(old(content), old(other.content)) && Indexed(content)
    {
      var entries := other.content;
      ghost var before := content;
      var i := 0;
      while i < |entries|
        invariant 0 <= i <= |entries| && content == Merged(before, entries[..i]) && Indexed(content)
      {
        assert entries[..i + 1][..i] == entries[..i];
        PutIndexed(content, entries[i].1);
        content := Put(content, entries[i].0, entries[i].1);
        i := i + 1;
      }
      assert entries[..i] == entries;
    }

    method Discard(r: Record)
      requires Indexed(content)
      modifies this
      ensures content == Remove(old(content), r.id) && Indexed(content) && !HasKey(content, r.id)
    {
      RemoveIndexed(content, r.id);
      content := Remove(content, r.id);
    }

    /**
      Removes the results of another set. A non-empty set that is removed from itself
      changes under the iteration, which fails after the first removal.
     */
    method DiscardAll(other: ResultSet) returns (ok: bool)
      requires Indexed(content)
      modifies this
      ensures ok <==> other != this || old(content) == []
      ensures ok ==> content == Without(old(content), old(other.content)) && Indexed(content)
      ensures !ok ==> content == old(content)[1..] && Indexed(content)
    {
      ghost var before := content;
      var size, i := |other.content|, 0;
      while true
        invariant 0 <= i <= size == |old(other.content)|
        invariant other == this && i > 0 ==> i == 1 && content == before[1..] && Indexed(content)
        invariant other != this || i == 0 ==> other.content == old(other.content)
        invariant other != this || i == 0 ==> content == Without(before, other.content[..i]) && Indexed(content)
        decreases size - i
      {
        if |other.content| != size { return false; }
        if i == size {
          assert other.content[..i] == other.content;
          return true;
        }
        assert other.content[..i + 1][..i] == other.content[..i];
        RemoveIndexed(content, other.content[i].1.id);
        content := Remove(content, other.content[i].1.id);
        i := i + 1;
      }
    }

    method Clear()
      modifies this
      ensures content == [] && Indexed(content)
    {
      content := [];
    }

    method Copy() returns (c: ResultSet)
      ensures fresh(c) && c.content == content
    {
      c := new ResultSet([]);
      c.content := content;
    }

    /**
      `filter`: one path looks an identifier up, the other scans; both select the same
      entries, except that only the lookup fails on a value that cannot be hashed.
     */
    method Filter(look: Lookup, params: Params) returns (r: Result<ResultSet, FilterError>)
      requires Indexed(content)
      ensures r.Err? <==> ByIdentifier(params) && params["id"].Unhashable?
      ensures r.Ok? ==> fresh(r.value) && r.value.content == Select(look, content, params) && Indexed(r.value.content)
    {
      SelectIndexed(look, content, params);
      if |params| == 1 && "id" in params {
        OnlyKey(params, "id");
        if params["id"].Unhashable? { return Err(NotHashable); }
        var found := if params["id"].Text? then Find(content, params["id"].text) else None;
        if params["id"].Text? {
          IndexAgrees(look, content, params["id"].text);
          FindAt(content, params["id"].text);
        } else {
          NoSuchId(look, content, params);
        }
        var one := new ResultSet(if found.Some? then [found.value] else []);
        OneRecord(found);
        return Ok(one);
      }
      var matching := Scan(look, params);
      var many := new ResultSet(matching);
      ListOfEntries(Select(look, content, params));
      return Ok(many);
    }

    method Scan(look: Lookup, params: Params) returns (matching: seq<Record>)
      ensures matching == Records(Select(look, content, params))
    {
      matching := [];
      var i := 0;
      while i < |content|
        invariant 0 <= i <= |content| && matching == Records(Select(look, content[..i], params))
      {
        assert content[..i + 1] == content[..i] + [content[i]];
        SelectSnoc(look, content[..i], content[i], params);
        var ok := MatchesFilters(look, content[i].1, params);
        if ok { matching := matching + [content[i].1]; }
        i := i + 1;
      }
      assert content[..i] == content;
    }

    method Get(look: Lookup, params: Params) returns (r: Result<Record, GetError>)
      requires Indexed(content)
      ensures var s := Select(look, content, params);
        r == if ByIdentifier(params) && params["id"].Unhashable? then Err(BadFilter)
             else if |s| == 0 then Err(NotFound) else if |s| > 1 then Err(MultipleValues) else Ok(s[0].1)
    {
      var found := Filter(look, params);
      if found.Err? { return Err(BadFilter); }
      if |found.value.content| == 0 { return Err(NotFound); }
      if |found.value.content| > 1 { return Err(MultipleValues); }
      return Ok(found.value.content[0].1);
    }
  }

  /** `_matches_filters`: stops at the first filter that fails. */
  method MatchesFilters(look: Lookup, r: Record, params: Params) returns (ok: bool)
    ensures ok == Matches(look, r, params)
  {
    var left := params.Keys;
    while left != {}
      invariant left <= params.Keys
      invariant forall k :: k in params && k !in left ==> MatchesKey(look, r, k, params[k])
      decreases left
    {
      var k :| k in left;
      var holds := if k == "id" then params[k] == Text(r.id) else look(r, k, params[k]);
      if !holds { return false; }
      left := left - {k};
    }
    return true;
  }

  function FromList(rs: seq<Record>): Content {
    if rs == [] then [] else Put(FromList(rs[..|rs| - 1]), rs[|rs| - 1].id, rs[|rs| - 1])
  }
  function Merged(c: Content, d: Content): Content {
    if d == [] then c else Put(Merged(c, d[..|d| - 1]), d[|d| - 1].0, d[|d| - 1].1)
  }
  function Without(c: Content, d: Content): Content {
    if d == [] then c else Remove(Without(c, d[..|d| - 1]), d[|d| - 1].1.id)
  }
  function Records(c: Content): (r: seq<Record>)
    ensures |r| == |c| && forall i :: 0 <= i < |c| ==> r[i] == c[i].1
  {
    seq(|c|, i requires 0 <= i < |c| => c[i].1)
  }

  /** A set made from any list is indexed. */
  lemma {:induction false} FromListIndexed(rs: seq<Record>)
    ensures Indexed(FromList(rs))
  {
    if rs != [] {
      FromListIndexed(rs[..|rs| - 1]);
      PutIndexed(FromList(rs[..|rs| - 1]), rs[|rs| - 1]);
    }
  }

  /** A set made from the entries of an indexed one has the same entries in the same order. */
  lemma {:induction false} ListOfEntries(c: Content)
    requires Indexed(c)
    ensures FromList(Records(c)) == c
  {
    if c != [] {
      var n := |c| - 1;
      var rs := Records(c);
      assert rs[..n] == Records(c[..n]) && rs[n] == c[n].1;
      ListOfEntries(c[..n]);
      PutNew(c[..n], rs[n].id, rs[n]);
      assert c[n] == (rs[n].id, rs[n]) && c == c[..n] + [c[n]];
    }
  }

  lemma OneRecord(found: Option<Record>)
    ensures FromList(if found.Some? then [found.value] else [])
         == if found.Some? then [(found.value.id, found.value)] else []
  {
    if found.Some? { assert FromList([found.value][..0]) == []; }
  }

  lemma OnlyKey(params: Params, k: string)
    requires |params| == 1 && k in params
    ensures params == map[k := params[k]]
  {
    assert |params.Keys| == 1 && |params.Keys - {k}| == |params.Keys| - 1;
    assert params.Keys - {k} == {};
    assert forall j :: j in params.Keys ==> j in params.Keys - {k} || j == k;
  }

  lemma {:induction false} NoSuchId(look: Lookup, c: Content, params: Params)
    requires "id" in params && !params["id"].Text?
    ensures Select(look, c, params) == []
  {
    if c != [] {
      NoSuchId(look, c[..|c| - 1], params);
      assert !MatchesKey(look, c[|c| - 1].1, "id", params["id"]);
    }
  }
}
