/** Shared vocabulary of the club-hub client: nullable values, roles, backend
    replies treated as inputs, the "array or object" shape of joined rows, and
    the small sequence algorithms several screens rely on (splitting and
    joining on a separator, keeping the first occurrence per key, sorting by a
    numeric key). */
module Common {

  /** A value that may be null or undefined. */
  datatype Option<T> = None | Some(value: T) {
    function GetOr(default: T): T {
      if Some? then value else default
    }
  }

  /** The `UserRole` enumeration of the application. */
  datatype Role = SuperAdmin | ClubAdmin | CenterAdmin | Coach | Parent | Player

  /** A redirect issued through `<Navigate>` or `navigate(...)`. */
  datatype Redirect = Redirect(to: string, replace: bool)

  /** Coaches and super admins manage events: they create and edit events
      and mark attendance. */
  predicate ManagesEvents(role: Option<Role>) {
    role == Some(Coach) || role == Some(SuperAdmin)
  }

  /** The reply of one backend query: rows (data present, no error), no data
      (data null, no error), or an error. */
  datatype Reply<T> = Rows(data: T) | NoData | Failed(message: string) {
    predicate IsError() { Failed? }

    /** `data ?? default`: an error reply carries no data either. */
    function DataOr(default: T): T {
      if Rows? then data else default
    }

    function Data(): Option<T> {
      if Rows? then Some(data) else None
    }
  }

  /** What a screen shows: a spinner, an error, an empty state, or its
      content. */
  datatype View = Spinner | ErrorView(message: string) | EmptyView | Content

  /** A local calendar date; months run from 1 to 12. */
  datatype CalendarDate = CalendarDate(year: int, month: int, day: int)

  /** Calendar order: by year, then month, then day. */
  predicate DateLe(a: CalendarDate, b: CalendarDate) {
    a.year < b.year || (a.year == b.year && (a.month < b.month || (a.month == b.month && a.day <= b.day)))
  }

  /** The reply of an insert, update, delete or RPC that returns no rows. */
  datatype Ack = Done | Rejected(message: string)

  /** A joined relation as the backend returns it: null, a single object, or
      an array of objects. */
  datatype Joined<T> = JNull | JOne(item: T) | JMany(items: seq<T>)

  /** `Array.isArray(x) ? x[0] : x` (and `x.length > 0 ? x[0] : null`):
      the first element of an array, the object itself, or nothing. */
  function FirstOf<T>(j: Joined<T>): Option<T> {
    match j
    case JNull => None
    case JOne(x) => Some(x)
    case JMany(xs) => if |xs| > 0 then Some(xs[0]) else None
  }

  /** `Array.isArray(x) ? x : x ? [x] : []`: the joined rows as a list. */
  function AsList<T>(j: Joined<T>): seq<T> {
    match j
    case JNull => []
    case JOne(x) => [x]
    case JMany(xs) => xs
  }

  /** `.flat().filter(Boolean)` over a list of joined values: arrays are
      spliced in, single objects kept, nulls dropped. */
  function Flatten<T>(js: seq<Joined<T>>): (r: seq<T>)
    ensures |js| == 0 ==> r == []
    decreases |js|
  {
    if |js| == 0 then [] else Flatten(js[..|js| - 1]) + AsList(js[|js| - 1])
  }

  /** Every element of the flattened list comes from one joined value, and
      every element of every joined value is in the flattened list. */
  lemma {:induction false} FlattenMembers<T>(js: seq<Joined<T>>, x: T)
    ensures x in Flatten(js) <==> exists k :: 0 <= k < |js| && x in AsList(js[k])
    decreases |js|
  {
    if |js| > 0 {
      var init := js[..|js| - 1];
      FlattenMembers(init, x);
      if x in Flatten(js) {
        if x !in AsList(js[|js| - 1]) {
          var k :| 0 <= k < |init| && x in AsList(init[k]);
          assert js[k] == init[k];
        }
      } else {
        forall k | 0 <= k < |js| ensures x !in AsList(js[k]) {
          if k < |init| { assert js[k] == init[k]; }
        }
      }
    }
  }

  /** JavaScript truthiness of a string. */
  predicate Truthy(s: string) { s != "" }

  /** JavaScript truthiness of a nullable string. */
  predicate Present(o: Option<string>) { o.Some? && o.value != "" }

  /** `text || null`: an empty text is stored as null. */
  function OrNull(text: string): (o: Option<string>)
    ensures o.None? <==> text == ""
    ensures o.Some? ==> o.value == text
  {
    if text == "" then None else Some(text)
  }

  /** Reading a stored value back as a text undoes `OrNull`, and what it
      stores is present exactly when the text is not empty. */
  lemma OrNullRoundTrip(text: string)
    ensures OrNull(text).GetOr("") == text
    ensures Present(OrNull(text)) <==> text != ""
  {
  }

  // ---------------------------------------------------------------------
  // Splitting and joining on a separator (String.split / Array.join)
  // ---------------------------------------------------------------------

  /** `s.split(sep)` for a one-character separator. */
  function Split(s: string, sep: char): (parts: seq<string>)
    ensures |parts| >= 1
    decreases |s|
  {
    if s == [] then [""]
    else
      var rest := Split(s[1..], sep);
      if s[0] == sep then [""] + rest else [[s[0]] + rest[0]] + rest[1..]
  }

  /** `parts.join(sep)` for a one-character separator. */
  function Join(parts: seq<string>, sep: char): string
    decreases |parts|
  {
    if |parts| == 0 then ""
    else if |parts| == 1 then parts[0]
    else parts[0] + [sep] + Join(parts[1..], sep)
  }

  /** Joining the pieces of a split gives back the original string. */
  lemma {:induction false} JoinSplit(s: string, sep: char)
    ensures Join(Split(s, sep), sep) == s
    decreases |s|
  {
    if s != [] {
      var rest := Split(s[1..], sep);
      JoinSplit(s[1..], sep);
      if s[0] == sep {
        assert ([""] + rest)[1..] == rest;
      } else {
        var parts := [[s[0]] + rest[0]] + rest[1..];
        assert parts[1..] == rest[1..];
        if |rest| > 1 {
          assert Join(rest, sep) == rest[0] + [sep] + Join(rest[1..], sep);
        }
        assert Join(parts, sep) == [s[0]] + Join(rest, sep);
        assert s == [s[0]] + s[1..];
      }
    }
  }

  /** A string without the separator splits into itself alone, and a string
      with it splits into at least two pieces. */
  lemma {:induction false} SplitCount(s: string, sep: char)
    ensures sep !in s <==> Split(s, sep) == [s]
    ensures sep in s <==> |Split(s, sep)| >= 2
    decreases |s|
  {
    if s != [] {
      SplitCount(s[1..], sep);
      assert s == [s[0]] + s[1..];
      assert sep in s <==> s[0] == sep || sep in s[1..];
    }
  }

  /** A text without the separator is one piece. */
  lemma SplitWhole(s: string, sep: char)
    requires sep !in s
    ensures Split(s, sep) == [s]
  {
    SplitCount(s, sep);
  }

  /** No piece of a split contains the separator. */
  lemma {:induction false} SplitPiecesHaveNoSeparator(s: string, sep: char)
    ensures forall k :: 0 <= k < |Split(s, sep)| ==> sep !in Split(s, sep)[k]
    decreases |s|
  {
    if s != [] {
      SplitPiecesHaveNoSeparator(s[1..], sep);
      var rest := Split(s[1..], sep);
      if s[0] != sep {
        var parts := [[s[0]] + rest[0]] + rest[1..];
        forall k | 0 <= k < |parts| ensures sep !in parts[k] {
          if k > 0 { assert parts[k] == rest[k]; }
        }
      } else {
        var parts := [""] + rest;
        forall k | 0 <= k < |parts| ensures sep !in parts[k] {
          if k > 0 { assert parts[k] == rest[k - 1]; }
        }
      }
    }
  }

  lemma {:induction false} SplitAfterPiece(p: string, t: string, sep: char)
    requires sep !in p
    ensures Split(p + [sep] + t, sep) == [p] + Split(t, sep)
    decreases |p|
  {
    var s := p + [sep] + t;
    if p == [] {
      assert s[0] == sep && s[1..] == t;
    } else {
      assert s[0] == p[0] && s[1..] == p[1..] + [sep] + t;
      SplitAfterPiece(p[1..], t, sep);
      assert [p[0]] + p[1..] == p;
    }
  }

  /** Splitting a join gives back the pieces, provided no piece contains the
      separator (the round trip the other way). */
  lemma {:induction false} SplitJoin(parts: seq<string>, sep: char)
    requires |parts| >= 1
    requires forall k :: 0 <= k < |parts| ==> sep !in parts[k]
    ensures Split(Join(parts, sep), sep) == parts
    decreases |parts|
  {
    if |parts| == 1 {
      SplitCount(parts[0], sep);
      assert parts == [parts[0]];
    } else {
      SplitJoin(parts[1..], sep);
      SplitAfterPiece(parts[0], Join(parts[1..], sep), sep);
      assert parts == [parts[0]] + parts[1..];
    }
  }

  // ---------------------------------------------------------------------
  // Keeping the first occurrence per key (Set + push, Map insertion order)
  // ---------------------------------------------------------------------

  /** The key of every element, in order. */
  function KeysOf<T>(xs: seq<T>, key: T -> string): (ks: seq<string>)
    ensures |ks| == |xs|
    ensures forall i :: 0 <= i < |xs| ==> ks[i] == key(xs[i])
  {
    seq(|xs|, i requires 0 <= i < |xs| => key(xs[i]))
  }

  /** The elements whose key has not been seen before, in order: the first
      element of every key. Defined by extending a prefix by one element, as
      a loop over the rows does. */
  function DedupBy<T>(xs: seq<T>, key: T -> string): seq<T>
    decreases |xs|
  {
    if |xs| == 0 then []
    else
      var init := xs[..|xs| - 1];
      var d := DedupBy(init, key);
      if key(xs[|xs| - 1]) in KeysOf(init, key) then d else d + [xs[|xs| - 1]]
  }

  /** The position of the first occurrence of `k`. */
  function IndexOf(ks: seq<string>, k: string): (i: nat)
    requires k in ks
    ensures i < |ks| && ks[i] == k
    ensures forall j :: 0 <= j < i ==> ks[j] != k
    decreases |ks|
  {
    if ks[0] == k then 0 else 1 + IndexOf(ks[1..], k)
  }

  lemma {:induction false} IndexOfPrefix(ks: seq<string>, x: string, k: string)
    requires k in ks
    ensures IndexOf(ks + [x], k) == IndexOf(ks, k)
  {
    var i := IndexOf(ks, k);
    var j := IndexOf(ks + [x], k);
    assert (ks + [x])[i] == k;
    assert forall m :: 0 <= m < |ks| ==> (ks + [x])[m] == ks[m];
  }

  /** The first element of `xs` whose key is `k`. */
  function FirstWith<T>(xs: seq<T>, key: T -> string, k: string): (x: T)
    requires k in KeysOf(xs, key)
    ensures key(x) == k
  {
    xs[IndexOf(KeysOf(xs, key), k)]
  }

  /** Distinct keys, in a sequence. */
  ghost predicate DistinctKeys<T>(xs: seq<T>, key: T -> string) {
    forall i, j :: 0 <= i < j < |xs| ==> key(xs[i]) != key(xs[j])
  }

  lemma KeysOfSnoc<T>(xs: seq<T>, x: T, key: T -> string)
    ensures KeysOf(xs + [x], key) == KeysOf(xs, key) + [key(x)]
  {
  }

  /** Extending the input by one element extends the result by it exactly
      when its key is new. */
  lemma DedupBySnoc<T>(xs: seq<T>, x: T, key: T -> string)
    ensures DedupBy(xs + [x], key) == if key(x) in KeysOf(xs, key) then DedupBy(xs, key) else DedupBy(xs, key) + [x]
    ensures KeysOf(xs + [x], key) == KeysOf(xs, key) + [key(x)]
  {
    assert (xs + [x])[..|xs|] == xs;
  }

  /** The deduplicated list has distinct keys and exactly the keys of the
      input. */
  lemma {:induction false} DedupByKeys<T>(xs: seq<T>, key: T -> string)
    ensures DistinctKeys(DedupBy(xs, key), key)
    ensures forall k :: k in KeysOf(DedupBy(xs, key), key) <==> k in KeysOf(xs, key)
    decreases |xs|
  {
    if |xs| > 0 {
      var init := xs[..|xs| - 1];
      var x := xs[|xs| - 1];
      DedupByKeys(init, key);
      assert xs == init + [x];
      KeysOfSnoc(init, x, key);
      var d := DedupBy(init, key);
      if key(x) !in KeysOf(init, key) {
        KeysOfSnoc(d, x, key);
        assert key(x) !in KeysOf(d, key);
      }
    }
  }

  /** Every kept element is the first element of the input with its key. */
  lemma {:induction false} DedupByKeepsFirst<T>(xs: seq<T>, key: T -> string, i: nat)
    requires i < |DedupBy(xs, key)|
    ensures key(DedupBy(xs, key)[i]) in KeysOf(xs, key)
    ensures DedupBy(xs, key)[i] == FirstWith(xs, key, key(DedupBy(xs, key)[i]))
    decreases |xs|
  {
    var init := xs[..|xs| - 1];
    var x := xs[|xs| - 1];
    var d := DedupBy(init, key);
    assert xs == init + [x];
    KeysOfSnoc(init, x, key);
    if i < |d| {
      DedupByKeepsFirst(init, key, i);
      IndexOfPrefix(KeysOf(init, key), key(x), key(d[i]));
    } else {
      var ks := KeysOf(xs, key);
      assert key(x) !in KeysOf(init, key);
      var j := IndexOf(ks, key(x));
      assert forall m :: 0 <= m < |init| ==> ks[m] == KeysOf(init, key)[m];
    }
  }

  /** Kept elements appear in the order of their keys' first occurrences. */
  lemma {:induction false} DedupByOrder<T>(xs: seq<T>, key: T -> string, i: nat, j: nat)
    requires i < j < |DedupBy(xs, key)|
    ensures key(DedupBy(xs, key)[i]) in KeysOf(xs, key)
    ensures key(DedupBy(xs, key)[j]) in KeysOf(xs, key)
    ensures IndexOf(KeysOf(xs, key), key(DedupBy(xs, key)[i]))
          < IndexOf(KeysOf(xs, key), key(DedupBy(xs, key)[j]))
    decreases |xs|
  {
    var init := xs[..|xs| - 1];
    var x := xs[|xs| - 1];
    var d := DedupBy(init, key);
    var ks := KeysOf(xs, key);
    assert xs == init + [x];
    KeysOfSnoc(init, x, key);
    DedupByKeepsFirst(xs, key, i);
    DedupByKeepsFirst(xs, key, j);
    if j < |d| {
      DedupByOrder(init, key, i, j);
      IndexOfPrefix(KeysOf(init, key), key(x), key(d[i]));
      IndexOfPrefix(KeysOf(init, key), key(x), key(d[j]));
    } else {
      DedupByKeepsFirst(init, key, i);
      IndexOfPrefix(KeysOf(init, key), key(x), key(d[i]));
      assert key(x) !in KeysOf(init, key);
      var jx := IndexOf(ks, key(x));
      assert forall m :: 0 <= m < |init| ==> ks[m] == KeysOf(init, key)[m];
    }
  }

  /** The set of the strings of a sequence. */
  function ToSet(ks: seq<string>): set<string> {
    set k | k in ks
  }

  lemma {:induction false} DistinctCard(ks: seq<string>)
    requires forall i, j :: 0 <= i < j < |ks| ==> ks[i] != ks[j]
    ensures |ToSet(ks)| == |ks|
    decreases |ks|
  {
    if |ks| > 0 {
      var init := ks[..|ks| - 1];
      DistinctCard(init);
      assert ks == init + [ks[|ks| - 1]];
      assert ToSet(ks) == ToSet(init) + {ks[|ks| - 1]};
      assert ks[|ks| - 1] !in ToSet(init);
    }
  }

  function Id(s: string): string { s }

  /** The size of `new Set(ids)` is the number of ids that survive
      first-occurrence deduplication. */
  lemma DistinctCount(ids: seq<string>)
    ensures |DedupBy(ids, Id)| == |ToSet(ids)|
    ensures |ToSet(ids)| <= |ids|
  {
    var d := DedupBy(ids, Id);
    DedupByKeys(ids, Id);
    assert KeysOf(ids, Id) == ids;
    assert KeysOf(d, Id) == d;
    DistinctCard(d);
    assert ToSet(d) == ToSet(ids);
    DedupLength(ids, Id);
  }

  lemma {:induction false} DedupLength<T>(xs: seq<T>, key: T -> string)
    ensures |DedupBy(xs, key)| <= |xs|
    decreases |xs|
  {
    if |xs| > 0 { DedupLength(xs[..|xs| - 1], key); }
  }

  // ---------------------------------------------------------------------
  // Stable sorting by a numeric key (Array.prototype.sort with a - b)
  // ---------------------------------------------------------------------

  /** Ascending by key. */
  ghost predicate SortedBy<T>(xs: seq<T>, key: T -> int) {
    forall i, j :: 0 <= i < j < |xs| ==> key(xs[i]) <= key(xs[j])
  }

  /** Insert `x` after every element whose key is at most its own. */
  function InsertByKey<T>(xs: seq<T>, x: T, key: T -> int): seq<T>
    decreases |xs|
  {
    if |xs| == 0 then [x]
    else if key(x) < key(xs[|xs| - 1]) then InsertByKey(xs[..|xs| - 1], x, key) + [xs[|xs| - 1]]
    else xs + [x]
  }

  /** A stable insertion sort, ascending by key. */
  function SortByKey<T>(xs: seq<T>, key: T -> int): seq<T>
    decreases |xs|
  {
    if |xs| == 0 then [] else InsertByKey(SortByKey(xs[..|xs| - 1], key), xs[|xs| - 1], key)
  }

  lemma {:induction false} InsertByKeyContents<T>(xs: seq<T>, x: T, key: T -> int)
    ensures multiset(InsertByKey(xs, x, key)) == multiset(xs) + multiset{x}
    ensures |InsertByKey(xs, x, key)| == |xs| + 1
    decreases |xs|
  {
    if |xs| > 0 {
      var init := xs[..|xs| - 1];
      assert xs == init + [xs[|xs| - 1]];
      InsertByKeyContents(init, x, key);
    }
  }

  lemma {:induction false} InsertByKeySorted<T>(xs: seq<T>, x: T, key: T -> int)
    requires SortedBy(xs, key)
    ensures SortedBy(InsertByKey(xs, x, key), key)
    decreases |xs|
  {
    if |xs| > 0 {
      var init := xs[..|xs| - 1];
      var last := xs[|xs| - 1];
      if key(x) < key(last) {
        InsertByKeySorted(init, x, key);
        InsertByKeyContents(init, x, key);
        var r := InsertByKey(init, x, key);
        forall i | 0 <= i < |r| ensures key(r[i]) <= key(last) {
          assert r[i] in multiset(r);
          if r[i] != x {
            assert r[i] in multiset(init);
            var k :| 0 <= k < |init| && init[k] == r[i];
            assert init[k] == xs[k];
          }
        }
      }
    }
  }

  /** The sort returns a permutation of its input, ascending by key. */
  lemma SortByKeyProps<T>(xs: seq<T>, key: T -> int)
    ensures SortedBy(SortByKey(xs, key), key)
    ensures multiset(SortByKey(xs, key)) == multiset(xs)
    ensures |SortByKey(xs, key)| == |xs|
  {
    SortByKeySorted(xs, key);
    SortByKeyPermutes(xs, key);
  }

  lemma {:induction false} SortByKeySorted<T>(xs: seq<T>, key: T -> int)
    ensures SortedBy(SortByKey(xs, key), key)
    decreases |xs|
  {
    if |xs| > 0 {
      var init := xs[..|xs| - 1];
      SortByKeySorted(init, key);
      InsertByKeySorted(SortByKey(init, key), xs[|xs| - 1], key);
    }
  }

  lemma {:induction false} SortByKeyPermutes<T>(xs: seq<T>, key: T -> int)
    ensures multiset(SortByKey(xs, key)) == multiset(xs)
    ensures |SortByKey(xs, key)| == |xs|
    decreases |xs|
  {
    if |xs| > 0 {
      var init := xs[..|xs| - 1];
      var last := xs[|xs| - 1];
      SortByKeyPermutes(init, key);
      InsertByKeyContents(SortByKey(init, key), last, key);
      assert xs == init + [last];
      assert multiset(xs) == multiset(init) + multiset{last};
    }
  }

  /** A list already in order is left as it is. */
  lemma {:induction false} SortByKeySortedInput<T>(xs: seq<T>, key: T -> int)
    requires SortedBy(xs, key)
    ensures SortByKey(xs, key) == xs
    decreases |xs|
  {
    if |xs| > 0 {
      var init := xs[..|xs| - 1];
      assert SortedBy(init, key);
      SortByKeySortedInput(init, key);
      assert xs == init + [xs[|xs| - 1]];
    }
  }

  /** `limit ? xs.slice(0, limit) : xs` for an integer limit: zero keeps
      everything, a positive limit keeps at most that many, a negative one
      drops that many from the end. */
  function SliceLimit<T>(xs: seq<T>, limit: Option<int>): (r: seq<T>)
    ensures limit.None? || limit == Some(0) ==> r == xs
    ensures limit.Some? && limit.value > 0 ==> r == xs[..if limit.value < |xs| then limit.value else |xs|]
    ensures limit.Some? && limit.value < 0 ==>
              r == xs[..if |xs| + limit.value > 0 then |xs| + limit.value else 0]
  {
    if limit.None? || limit.value == 0 then xs
    else if limit.value > 0 then xs[..if limit.value < |xs| then limit.value else |xs|]
    else xs[..if |xs| + limit.value > 0 then |xs| + limit.value else 0]
  }
}
