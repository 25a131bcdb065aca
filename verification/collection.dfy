/**
  The in-memory collection: the associations the component lists, and the
  stable newest-first ordering `list.sort((a, b) => b.timestamp - a.timestamp)`
  puts them in.
 */
module Collection {

  /** One reloaded brand association (the `BrandAssociation` interface). */
  datatype Association = Association(
    id: string,
    platform: string,
    brand: string,
    score: int,
    encryptedData: string,
    timestamp: int)

  /** Newest first: timestamps never increase along the sequence. */
  ghost predicate NewestFirst(xs: seq<Association>)
  {
    forall i, j | 0 <= i < j < |xs| :: xs[i].timestamp >= xs[j].timestamp
  }

  /** The associations stamped `t`, in the order they appear in `xs`. */
  function StampedAt(xs: seq<Association>, t: int): seq<Association>
  {
    if |xs| == 0 then [] else (if xs[0].timestamp == t then [xs[0]] else []) + StampedAt(xs[1..], t)
  }

  /** Inserts `x` in front of the first element that is not newer than it. */
  function Insert(x: Association, xs: seq<Association>): (r: seq<Association>)
    requires NewestFirst(xs)
    ensures NewestFirst(r)
    ensures multiset(r) == multiset(xs) + multiset{x}
    // the result is headed by `x` or by the old head
    ensures r[0] == x || (|xs| > 0 && r[0] == xs[0])
  {
    if |xs| == 0 || xs[0].timestamp <= x.timestamp then
      ConsNewestFirst(x, xs);
      [x] + xs
    else
      var rest := Insert(x, xs[1..]);
      assert xs == [xs[0]] + xs[1..];
      assert rest[0].timestamp <= xs[0].timestamp;
      ConsNewestFirst(xs[0], rest);
      [xs[0]] + rest
  }

  /** A head at least as new as everything behind it keeps a newest-first sequence newest first. */
  lemma ConsNewestFirst(h: Association, xs: seq<Association>)
    requires NewestFirst(xs)
    requires |xs| == 0 || xs[0].timestamp <= h.timestamp
    ensures NewestFirst([h] + xs)
  {
  }

  /** `Array.prototype.sort` with the newest-first comparator. */
  function SortNewestFirst(xs: seq<Association>): (r: seq<Association>)
    ensures NewestFirst(r)
    ensures multiset(r) == multiset(xs)
  {
    if |xs| == 0 then []
    else
      assert xs == [xs[0]] + xs[1..];
      Insert(xs[0], SortNewestFirst(xs[1..]))
  }

  /** Inserting `x` adds it in front of every element stamped like it. */
  lemma {:induction false} InsertKeepsTies(x: Association, xs: seq<Association>, t: int)
    requires NewestFirst(xs)
    ensures StampedAt(Insert(x, xs), t) == (if x.timestamp == t then [x] else []) + StampedAt(xs, t)
  {
    if |xs| == 0 || xs[0].timestamp <= x.timestamp {
      assert Insert(x, xs) == [x] + xs;
      StampedAtCons(x, xs, t);
    } else {
      InsertKeepsTies(x, xs[1..], t);
      assert Insert(x, xs) == [xs[0]] + Insert(x, xs[1..]);
      assert xs == [xs[0]] + xs[1..];
      TieBehindNewerHead(xs[0], x, Insert(x, xs[1..]), xs[1..], t);
    }
  }

  /**
    Putting a strictly newer head in front of both sides keeps `x`'s tie in
    front: the head and `x` cannot both be stamped `t`.
   */
  lemma TieBehindNewerHead(h: Association, x: Association, rest: seq<Association>, tail: seq<Association>, t: int)
    requires h.timestamp > x.timestamp
    requires StampedAt(rest, t) == (if x.timestamp == t then [x] else []) + StampedAt(tail, t)
    ensures StampedAt([h] + rest, t) == (if x.timestamp == t then [x] else []) + StampedAt([h] + tail, t)
  {
    StampedAtCons(h, rest, t);
    StampedAtCons(h, tail, t);
  }

  lemma StampedAtCons(y: Association, ys: seq<Association>, t: int)
    ensures StampedAt([y] + ys, t) == (if y.timestamp == t then [y] else []) + StampedAt(ys, t)
  {
    assert ([y] + ys)[1..] == ys;
  }

  /** The sort is stable: associations with equal timestamps keep their relative order. */
  lemma {:induction false} SortIsStable(xs: seq<Association>, t: int)
    ensures StampedAt(SortNewestFirst(xs), t) == StampedAt(xs, t)
  {
    if |xs| > 0 {
      SortIsStable(xs[1..], t);
      InsertKeepsTies(xs[0], SortNewestFirst(xs[1..]), t);
    }
  }

  /** Sequences with the same multiset have the same members. */
  lemma SameMembers(a: seq<Association>, b: seq<Association>)
    requires multiset(a) == multiset(b)
    ensures forall x :: x in a <==> x in b
  {
    forall x
      ensures x in a <==> x in b
    {
      assert x in a <==> x in multiset(a);
      assert x in b <==> x in multiset(b);
    }
  }
}
