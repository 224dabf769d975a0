/** The newest-first ordering of the list page: the comparator
    `(a, b) => date(b) - date(a)` handed to the stable `Array.prototype.sort`,
    modelled as a stable insertion sort on sequences. */
module PostOrder {
  import opened Posts

  /** The comparator: negative when `a` is newer, so `a` goes first. */
  function Compare(a: Post, b: Post): int
  {
    b.date - a.date
  }

  /** Every post is ordered at or before each later one under `Compare`:
      dates never increase along the sequence. */
  predicate NewestFirst(s: seq<Post>)
  {
    forall i, j :: 0 <= i < j < |s| ==> Compare(s[i], s[j]) <= 0
  }

  /** The posts of `s` dated `d`, in their order in `s`. A sort is stable
      exactly when it leaves this subsequence unchanged for every date. */
  function DatedOn(s: seq<Post>, d: int): seq<Post>
  {
    if |s| == 0 then []
    else (if s[0].date == d then [s[0]] else []) + DatedOn(s[1..], d)
  }

  /** Puts `p` in front of the first post not newer than it, so `p` precedes
      the posts of its own date that follow it in the input. */
  function Insert(p: Post, s: seq<Post>): seq<Post>
  {
    if |s| == 0 then [p]
    else if s[0].date <= p.date then [p] + s
    else [s[0]] + Insert(p, s[1..])
  }

  lemma {:induction false} InsertPermutes(p: Post, s: seq<Post>)
    ensures multiset(Insert(p, s)) == multiset(s) + multiset{p}
  {
    if |s| == 0 {
    } else if s[0].date <= p.date {
    } else {
      InsertPermutes(p, s[1..]);
      assert s == [s[0]] + s[1..];
    }
  }

  lemma {:induction false} InsertKeepsOrder(p: Post, s: seq<Post>)
    requires NewestFirst(s)
    ensures NewestFirst(Insert(p, s))
  {
    if |s| == 0 {
    } else if s[0].date <= p.date {
    } else {
      var rest := Insert(p, s[1..]);
      InsertKeepsOrder(p, s[1..]);
      InsertPermutes(p, s[1..]);
      var r := [s[0]] + rest;
      forall j | 0 < j < |r| ensures r[j].date <= r[0].date {
        assert r[j] in multiset(rest);
        if r[j] != p {
          assert r[j] in s[1..];
        }
      }
    }
  }

  lemma {:induction false} DatedOnCons(x: Post, s: seq<Post>, d: int)
    ensures DatedOn([x] + s, d) == (if x.date == d then [x] else []) + DatedOn(s, d)
  {
    assert ([x] + s)[1..] == s;
  }

  /** One step of `InsertDatedOn`: `p` goes past a newer post, which is of
      another date than `p`. */
  lemma {:induction false} InsertDatedOnPast(p: Post, s: seq<Post>, d: int)
    requires |s| > 0 && s[0].date > p.date
    requires DatedOn(Insert(p, s[1..]), d) == (if p.date == d then [p] else []) + DatedOn(s[1..], d)
    ensures DatedOn(Insert(p, s), d) == (if p.date == d then [p] else []) + DatedOn(s, d)
  {
    DatedOnCons(s[0], Insert(p, s[1..]), d);
    DatedOnCons(s[0], s[1..], d);
    assert [s[0]] + s[1..] == s;
  }

  lemma {:induction false} InsertDatedOn(p: Post, s: seq<Post>, d: int)
    ensures DatedOn(Insert(p, s), d) == (if p.date == d then [p] else []) + DatedOn(s, d)
  {
    if |s| == 0 {
      DatedOnCons(p, [], d);
    } else if s[0].date <= p.date {
      DatedOnCons(p, s, d);
    } else {
      InsertDatedOn(p, s[1..], d);
      InsertDatedOnPast(p, s, d);
    }
  }

  /** Sorts newest first, keeping posts of equal date in input order. */
  function SortNewestFirst(s: seq<Post>): seq<Post>
  {
    if |s| == 0 then [] else Insert(s[0], SortNewestFirst(s[1..]))
  }

  /** The sort is a permutation of its input, newest first, and stable. */
  lemma {:induction false} SortNewestFirstCorrect(s: seq<Post>)
    ensures multiset(SortNewestFirst(s)) == multiset(s)
    ensures NewestFirst(SortNewestFirst(s))
    ensures forall d :: DatedOn(SortNewestFirst(s), d) == DatedOn(s, d)
  {
    if |s| == 0 {
    } else {
      var rest := SortNewestFirst(s[1..]);
      SortNewestFirstCorrect(s[1..]);
      InsertPermutes(s[0], rest);
      InsertKeepsOrder(s[0], rest);
      assert s == [s[0]] + s[1..];
      forall d ensures DatedOn(SortNewestFirst(s), d) == DatedOn(s, d) {
        InsertDatedOn(s[0], rest, d);
      }
    }
  }

  lemma {:induction false} DatedOnHead(s: seq<Post>)
    requires |s| > 0
    ensures |DatedOn(s, s[0].date)| > 0
  {
  }

  lemma {:induction false} DatedOnWitness(s: seq<Post>, d: int)
    requires |DatedOn(s, d)| > 0
    ensures exists k :: 0 <= k < |s| && s[k].date == d
  {
    if s[0].date != d {
      DatedOnWitness(s[1..], d);
      var k :| 0 <= k < |s[1..]| && s[1..][k].date == d;
      assert s[k + 1].date == d;
    }
  }

  /** Two non-empty newest-first arrangements that agree on the order
      within every date start with the same post. */
  lemma {:induction false} StableOrderHead(a: seq<Post>, b: seq<Post>)
    requires |a| > 0 && |b| > 0
    requires NewestFirst(a) && NewestFirst(b)
    requires forall d :: DatedOn(a, d) == DatedOn(b, d)
    ensures a[0] == b[0]
  {
    var x, y := a[0].date, b[0].date;
    DatedOnHead(a);
    DatedOnHead(b);
    DatedOnWitness(a, y);
    DatedOnWitness(b, x);
    var j :| 0 <= j < |a| && a[j].date == y;
    var k :| 0 <= k < |b| && b[k].date == x;
    assert j == 0 || Compare(a[0], a[j]) <= 0;
    assert k == 0 || Compare(b[0], b[k]) <= 0;
    assert x == y;
    assert DatedOn(a, x)[0] == a[0] && DatedOn(b, x)[0] == b[0];
  }

  /** Removing the same first post from both sides keeps per-date agreement. */
  lemma {:induction false} DatedOnTails(a: seq<Post>, b: seq<Post>)
    requires |a| > 0 && |b| > 0 && a[0] == b[0]
    requires forall d :: DatedOn(a, d) == DatedOn(b, d)
    ensures forall d :: DatedOn(a[1..], d) == DatedOn(b[1..], d)
  {
    forall d ensures DatedOn(a[1..], d) == DatedOn(b[1..], d) {
      var head := if a[0].date == d then [a[0]] else [];
      assert DatedOn(a, d) == head + DatedOn(a[1..], d);
      assert DatedOn(b, d) == head + DatedOn(b[1..], d);
      assert DatedOn(a[1..], d) == DatedOn(a, d)[|head|..];
      assert DatedOn(b[1..], d) == DatedOn(b, d)[|head|..];
    }
  }

  /** Two newest-first arrangements that agree on the order within every
      date are the same sequence. */
  lemma {:induction false} StableOrderUnique(a: seq<Post>, b: seq<Post>)
    requires NewestFirst(a) && NewestFirst(b)
    requires forall d :: DatedOn(a, d) == DatedOn(b, d)
    ensures a == b
  {
    if |a| == 0 && |b| == 0 {
    } else if |a| == 0 {
      DatedOnHead(b);
      assert false;
    } else if |b| == 0 {
      DatedOnHead(a);
      assert false;
    } else {
      StableOrderHead(a, b);
      DatedOnTails(a, b);
      assert NewestFirst(a[1..]) && NewestFirst(b[1..]);
      StableOrderUnique(a[1..], b[1..]);
      assert a == [a[0]] + a[1..];
      assert b == [b[0]] + b[1..];
    }
  }

  /** `SortNewestFirst` is the only newest-first arrangement of `s` that
      keeps equal-dated posts in input order: what any stable sort with
      this comparator returns. */
  lemma {:induction false} SortIsTheStableOrder(s: seq<Post>, r: seq<Post>)
    requires NewestFirst(r)
    requires forall d :: DatedOn(r, d) == DatedOn(s, d)
    ensures r == SortNewestFirst(s)
  {
    SortNewestFirstCorrect(s);
    StableOrderUnique(r, SortNewestFirst(s));
  }
}
