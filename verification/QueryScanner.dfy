/** getHeaderParams: the scan of a request URL for `?key=value` and `&key=value`, and its inverse. */
module QueryScanner {
  import opened Frames

  const OPENERS := {'?', '&'}
  const KEY_STOPS := {'=', '#'}
  const VALUE_STOPS := {'&', '#'}

  // ----- The pattern, said without scanning

  /** Where a match begins, where its = is, and where it ends. */
  datatype Match = Match(from: nat, eq: nat, end: nat)

  predicate FreeOf(s: string, from: nat, to: nat, stops: set<char>)
    requires to <= |s|
  {
    forall k | from <= k < to :: s[k] !in stops
  }

  /** [?&]([^=#]+)=([^&#]*) with the last group as long as it goes. */
  predicate IsMatch(s: string, m: Match) {
    && m.from + 1 < m.eq < m.end <= |s|
    && (s[m.from] == '?' || s[m.from] == '&') && s[m.eq] == '='
    && (forall k | m.from < k < m.eq :: s[k] != '=' && s[k] != '#')
    && (forall k | m.eq < k < m.end :: s[k] != '&' && s[k] != '#')
    && (m.end < |s| ==> s[m.end] == '&' || s[m.end] == '#')
  }

  function Key(s: string, m: Match): string
    requires IsMatch(s, m)
  {
    s[m.from + 1..m.eq]
  }

  function Value(s: string, m: Match): string
    requires IsMatch(s, m)
  {
    s[m.eq + 1..m.end]
  }

  // ----- The scanner

  /** The first of `stops` from `at` on, or the end. */
  function Span(s: string, at: nat, stops: set<char>): (n: nat)
    requires at <= |s|
    ensures at <= n <= |s| && FreeOf(s, at, n, stops) && (n < |s| ==> s[n] in stops)
    decreases |s| - at
  {
    if at == |s| || s[at] in stops then at else Span(s, at + 1, stops)
  }

  /** A match that begins at `at`: the key runs to the first = or #, which must be a =.  There is no other. */
  function MatchAt(s: string, at: nat): (r: Option<Match>)
    requires at < |s|
    ensures forall m | IsMatch(s, m) && m.from == at :: r == Some(m)
    ensures r.Some? ==> IsMatch(s, r.value) && r.value.from == at
  {
    if s[at] !in OPENERS then None
    else
      var eq := Span(s, at + 1, KEY_STOPS);
      if eq == at + 1 || eq == |s| || s[eq] != '=' then None else Some(Match(at, eq, Span(s, eq + 1, VALUE_STOPS)))
  }

  /** regex.exec with lastIndex `at`: the leftmost match from there on. */
  function Exec(s: string, at: nat): (r: Option<Match>)
    requires at <= |s|
    ensures r.Some? ==> IsMatch(s, r.value) && at <= r.value.from
    ensures forall m | IsMatch(s, m) && at <= m.from ::
        r.Some? && r.value.from <= m.from && (m.from == r.value.from ==> m == r.value)
    decreases |s| - at
  {
    if at == |s| then None
    else
      var here := MatchAt(s, at);
      if here.Some? then here else Exec(s, at + 1)
  }

  /** All matches from left to right, each entered into the table over what was there. */
  function Collect(s: string, at: nat, params: map<string, string>): map<string, string>
    requires at <= |s|
    decreases |s| - at
  {
    var m := Exec(s, at);
    if m == None then params else Collect(s, m.value.end, params[Key(s, m.value) := Value(s, m.value)])
  }

  method GetHeaderParams(url: string) returns (params: map<string, string>)
    ensures params == Collect(url, 0, map[])
  {
    params := map[];
    var lastIndex := 0;
    var found := Exec(url, lastIndex);
    while found.Some?
      invariant lastIndex <= |url| && found == Exec(url, lastIndex)
      invariant Collect(url, lastIndex, params) == Collect(url, 0, map[])
      decreases |url| - lastIndex
    {
      params := params[Key(url, found.value) := Value(url, found.value)];
      lastIndex := found.value.end;
      found := Exec(url, lastIndex);
    }
  }

  // ----- Printing and scanning back

  datatype Pair = Pair(key: string, value: string)

  predicate Free(s: string, stops: set<char>) { FreeOf(s, 0, |s|, stops) }

  predicate Printable(p: Pair) { p.key != "" && Free(p.key, KEY_STOPS) && Free(p.value, VALUE_STOPS) }

  function Item(opener: char, p: Pair): string { [opener] + p.key + "=" + p.value }

  /** `&k=v` for every pair. */
  function Items(ps: seq<Pair>): string { if ps == [] then "" else Item('&', ps[0]) + Items(ps[1..]) }

  /** `?k1=v1&k2=v2...` */
  function Printed(ps: seq<Pair>): string { if ps == [] then "" else Item('?', ps[0]) + Items(ps[1..]) }

  /** The table of a list, later pairs over earlier ones. */
  function Table(ps: seq<Pair>, params: map<string, string>): map<string, string> {
    if ps == [] then params else Table(ps[1..], params[ps[0].key := ps[0].value])
  }

  /** The place of a printed pair. */
  function ItemAt(before: string, opener: char, p: Pair): Match {
    Match(|before|, |before| + 1 + |p.key|, |before + Item(opener, p)|)
  }

  lemma ItemSlices(before: string, opener: char, p: Pair, rest: string)
    ensures var s, m := before + Item(opener, p) + rest, ItemAt(before, opener, p);
      && m.from < m.eq < m.end <= |s| && s[m.from] == opener && s[m.eq] == '='
      && s[m.from + 1..m.eq] == p.key && s[m.eq + 1..m.end] == p.value && s[m.end..] == rest
  {
  }

  lemma FreeSlice(s: string, from: nat, to: nat, stops: set<char>)
    requires from <= to <= |s| && Free(s[from..to], stops)
    ensures FreeOf(s, from, to, stops)
  {
    forall k | from <= k < to ensures s[k] !in stops { assert s[k] == s[from..to][k - from]; }
  }

  lemma ItemMatches(before: string, opener: char, p: Pair, rest: string)
    requires opener in OPENERS && Printable(p) && (rest == "" || rest[0] == '&')
    ensures var s, m := before + Item(opener, p) + rest, ItemAt(before, opener, p);
      IsMatch(s, m) && Key(s, m) == p.key && Value(s, m) == p.value
  {
    var s, m := before + Item(opener, p) + rest, ItemAt(before, opener, p);
    ItemSlices(before, opener, p, rest);
    FreeSlice(s, m.from + 1, m.eq, KEY_STOPS);
    FreeSlice(s, m.eq + 1, m.end, VALUE_STOPS);
    assert m.end < |s| ==> s[m.end] == s[m.end..][0];
  }

  /** A match where the search begins is what it finds. */
  lemma MatchIsFound(s: string, m: Match, params: map<string, string>)
    requires IsMatch(s, m)
    ensures Collect(s, m.from, params) == Collect(s, m.end, params[Key(s, m) := Value(s, m)])
  {
    assert Exec(s, m.from) == Some(m);
  }

  /** One printed pair is read back, and the next search begins after it. */
  lemma ItemIsRead(before: string, opener: char, p: Pair, rest: string, params: map<string, string>)
    requires opener in OPENERS && Printable(p) && (rest == "" || rest[0] == '&')
    ensures var s, at := before + Item(opener, p) + rest, |before + Item(opener, p)|;
      at <= |s| && Collect(s, |before|, params) == Collect(s, at, params[p.key := p.value])
  {
    ItemMatches(before, opener, p, rest);
    MatchIsFound(before + Item(opener, p) + rest, ItemAt(before, opener, p), params);
  }

  lemma ItemsSplit(before: string, ps: seq<Pair>)
    requires ps != []
    ensures before + Items(ps) == before + Item('&', ps[0]) + Items(ps[1..])
    ensures Items(ps)[0] == '&'
  {
  }

  lemma {:induction false} ItemsAreRead(before: string, ps: seq<Pair>, params: map<string, string>)
    requires forall p | p in ps :: Printable(p)
    ensures Collect(before + Items(ps), |before|, params) == Table(ps, params)
    decreases |ps|
  {
    if ps == [] {
      assert before + Items(ps) == before;
    } else {
      ItemsSplit(before, ps);
      if ps[1..] != [] { ItemsSplit(before, ps[1..]); }
      ItemIsRead(before, '&', ps[0], Items(ps[1..]), params);
      ItemsAreRead(before + Item('&', ps[0]), ps[1..], params[ps[0].key := ps[0].value]);
    }
  }

  /** A path before the question mark is passed over. */
  lemma PathIsSkipped(path: string, s: string, params: map<string, string>)
    requires Free(path, OPENERS)
    ensures Collect(path + s, 0, params) == Collect(path + s, |path|, params)
  {
    var r := Exec(path + s, 0);
    assert r == Exec(path + s, |path|);
  }

  lemma QueryIsRead(path: string, ps: seq<Pair>, params: map<string, string>)
    requires forall p | p in ps :: Printable(p)
    ensures Collect(path + Printed(ps), |path|, params) == Table(ps, params)
  {
    if ps == [] {
      assert path + Printed(ps) == path;
    } else {
      var item, rest, next := Item('?', ps[0]), Items(ps[1..]), params[ps[0].key := ps[0].value];
      assert path + Printed(ps) == path + item + rest;
      ItemIsRead(path, '?', ps[0], rest, params);
      ItemsAreRead(path + item, ps[1..], next);
    }
  }

  lemma PrintedIsRead(path: string, ps: seq<Pair>)
    requires Free(path, OPENERS) && forall p | p in ps :: Printable(p)
    ensures Collect(path + Printed(ps), 0, map[]) == Table(ps, map[])
  {
    PathIsSkipped(path, Printed(ps), map[]);
    QueryIsRead(path, ps, map[]);
  }

  /** The `i`th pair is the last one of its key. */
  predicate IsLast(ps: seq<Pair>, i: nat)
    requires i < |ps|
  {
    forall j | i < j < |ps| :: ps[j].key != ps[i].key
  }

  lemma {:induction false} TableHolds(ps: seq<Pair>, params: map<string, string>)
    ensures forall i | 0 <= i < |ps| && IsLast(ps, i) ::
              ps[i].key in Table(ps, params) && Table(ps, params)[ps[i].key] == ps[i].value
    ensures forall k | k in params && (forall p | p in ps :: p.key != k) ::
              k in Table(ps, params) && Table(ps, params)[k] == params[k]
    ensures forall k | k in Table(ps, params) :: k in params || exists p :: p in ps && p.key == k
    decreases |ps|
  {
    if ps != [] {
      var next := params[ps[0].key := ps[0].value];
      TableHolds(ps[1..], next);
      assert forall p | p in ps :: p == ps[0] || p in ps[1..];
      forall i | 0 <= i < |ps| && IsLast(ps, i)
        ensures ps[i].key in Table(ps, params) && Table(ps, params)[ps[i].key] == ps[i].value
      {
        LastOfRest(ps, i);
      }
    }
  }

  lemma LastOfRest(ps: seq<Pair>, i: nat)
    requires i < |ps| && IsLast(ps, i)
    ensures i > 0 ==> IsLast(ps[1..], i - 1)
    ensures i == 0 ==> forall p | p in ps[1..] :: p.key != ps[0].key
  {
    if i > 0 {
      forall j | i - 1 < j < |ps[1..]| ensures ps[1..][j].key != ps[1..][i - 1].key { assert ps[1..][j] == ps[j + 1]; }
    } else {
      forall p | p in ps[1..] ensures p.key != ps[0].key {
        var j :| 0 <= j < |ps[1..]| && ps[1..][j] == p;
        assert ps[j + 1] == p;
      }
    }
  }

  /** Scanning inverts printing: for a path without ? and &, and pairs with non-empty keys free of = and # and
      values free of & and #, exactly the printed pairs come back, the last one where a key is repeated. */
  lemma ScanInvertsPrint(path: string, ps: seq<Pair>)
    requires Free(path, OPENERS)
    requires forall p | p in ps :: Printable(p)
    ensures var params := Collect(path + Printed(ps), 0, map[]);
      && (forall i | 0 <= i < |ps| && IsLast(ps, i) :: ps[i].key in params && params[ps[i].key] == ps[i].value)
      && (forall k | k in params :: exists p :: p in ps && p.key == k)
  {
    PrintedIsRead(path, ps);
    TableHolds(ps, map[]);
  }
}
