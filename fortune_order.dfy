/** The `Fortune` row and the order `getFortune` sorts by: `String.compareTo` on
    the message, with the stable sort of the JDK's list sort and a comparator on
    the message. */
module FortuneOrder {

  /** One row of `Fortune(id INTEGER PRIMARY KEY, message TEXT)`. */
  datatype Fortune = Fortune(id: int, message: string)

  /** `a.compareTo(b) <= 0`: the first differing character decides, and a proper
      prefix comes before the longer string. */
  predicate MessageLe(a: string, b: string): (le: bool)
    ensures a <= b ==> le
    ensures b < a ==> !le
    decreases |a|
  {
    |a| == 0 || (|b| > 0 && (a[0] < b[0] || (a[0] == b[0] && MessageLe(a[1..], b[1..]))))
  }

  /** The first position where two messages differ decides their order. */
  lemma {:induction false} MessageLeFirstDifference(a: string, b: string, k: nat)
    requires k < |a| && k < |b| && a[..k] == b[..k] && a[k] != b[k]
    ensures MessageLe(a, b) <==> a[k] < b[k]
    decreases k
  {
    if k > 0 {
      assert a[0] == a[..k][0] && b[0] == b[..k][0];
      assert a[1..][..k - 1] == a[..k][1..] && b[1..][..k - 1] == b[..k][1..];
      assert a[1..][k - 1] == a[k] && b[1..][k - 1] == b[k];
      MessageLeFirstDifference(a[1..], b[1..], k - 1);
    }
  }

  lemma {:induction false} MessageLeTotal(a: string, b: string)
    ensures MessageLe(a, b) || MessageLe(b, a)
    decreases |a|
  {
    if |a| > 0 && |b| > 0 && a[0] == b[0] {
      MessageLeTotal(a[1..], b[1..]);
    }
  }

  lemma {:induction false} MessageLeTransitive(a: string, b: string, c: string)
    requires MessageLe(a, b) && MessageLe(b, c)
    ensures MessageLe(a, c)
    decreases |a|
  {
    if |a| > 0 && a[0] == b[0] && b[0] == c[0] {
      MessageLeTransitive(a[1..], b[1..], c[1..]);
    }
  }

  lemma {:induction false} MessageLeAntisymmetric(a: string, b: string)
    requires MessageLe(a, b) && MessageLe(b, a)
    ensures a == b
    decreases |a|
  {
    if |a| > 0 {
      MessageLeAntisymmetric(a[1..], b[1..]);
      assert a == [a[0]] + a[1..];
      assert b == [b[0]] + b[1..];
    }
  }

  /** Every pair of entries is in ascending message order. */
  ghost predicate SortedByMessage(s: seq<Fortune>)
  {
    forall i, j :: 0 <= i < j < |s| ==> MessageLe(s[i].message, s[j].message)
  }

  /** The entries of `s` whose message is `m`, in their order in `s`. */
  function WithMessage(s: seq<Fortune>, m: string): (r: seq<Fortune>)
    ensures |r| <= |s|
  {
    if s == [] then [] else Tie(s[0], m) + WithMessage(s[1..], m)
  }

  /** `[x]` when `x` carries message `m`, otherwise nothing. */
  function Tie(x: Fortune, m: string): seq<Fortune>
  {
    if x.message == m then [x] else []
  }

  lemma WithMessageCons(x: Fortune, r: seq<Fortune>, m: string)
    ensures WithMessage([x] + r, m) == Tie(x, m) + WithMessage(r, m)
  {
    assert ([x] + r)[1..] == r;
  }

  /** Places `x` after every entry of `r` whose message is not greater than its own. */
  function Insert(x: Fortune, r: seq<Fortune>): (t: seq<Fortune>)
    ensures multiset(t) == multiset(r) + multiset{x}
    ensures |t| == |r| + 1
  {
    if r == [] || !MessageLe(r[0].message, x.message) then [x] + r
    else
      assert r == [r[0]] + r[1..];
      [r[0]] + Insert(x, r[1..])
  }

  /** A stable sort of `s` by message: the reference for what `List.sort` returns. */
  function SortByMessage(s: seq<Fortune>): (t: seq<Fortune>)
    ensures multiset(t) == multiset(s)
    ensures |t| == |s|
  {
    if s == [] then []
    else
      assert s == s[..|s| - 1] + [s[|s| - 1]];
      Insert(s[|s| - 1], SortByMessage(s[..|s| - 1]))
  }

  lemma {:induction false} InsertSorted(x: Fortune, r: seq<Fortune>)
    requires SortedByMessage(r)
    ensures SortedByMessage(Insert(x, r))
  {
    if r == [] {
    } else if !MessageLe(r[0].message, x.message) {
      assert Insert(x, r) == [x] + r;
      InsertAtHeadSorted(x, r);
    } else {
      assert Insert(x, r) == [r[0]] + Insert(x, r[1..]);
      SortedTail(r);
      InsertSorted(x, r[1..]);
      InsertPastHeadSorted(x, r);
    }
  }

  /** `x` goes in front of a sorted `r` whose head is above it: the result is sorted. */
  lemma {:induction false} InsertAtHeadSorted(x: Fortune, r: seq<Fortune>)
    requires r != [] && SortedByMessage(r)
    requires !MessageLe(r[0].message, x.message)
    ensures SortedByMessage([x] + r)
  {
    MessageLeTotal(r[0].message, x.message);
    forall j | 0 <= j < |r|
      ensures MessageLe(x.message, r[j].message)
    {
      if j > 0 {
        MessageLeTransitive(x.message, r[0].message, r[j].message);
      }
    }
    var t := [x] + r;
    assert forall j :: 0 < j < |t| ==> t[j] == r[j - 1];
  }

  /** The head of a sorted `r` that is not above `x` stays in front of `x` inserted
      into the tail, and the result is sorted. */
  lemma {:induction false} InsertPastHeadSorted(x: Fortune, r: seq<Fortune>)
    requires r != [] && SortedByMessage(r)
    requires MessageLe(r[0].message, x.message)
    requires SortedByMessage(Insert(x, r[1..]))
    ensures SortedByMessage([r[0]] + Insert(x, r[1..]))
  {
    var r' := r[1..];
    var u := Insert(x, r');
    forall j | 0 <= j < |u|
      ensures MessageLe(r[0].message, u[j].message)
    {
      assert u[j] in multiset(u);
      if u[j] != x {
        assert u[j] in multiset(r');
        var k :| 0 <= k < |r'| && r'[k] == u[j];
        assert r[k + 1] == u[j];
      }
    }
    var t := [r[0]] + u;
    forall i, j | 0 <= i < j < |t|
      ensures MessageLe(t[i].message, t[j].message)
    {
      assert t[j] == u[j - 1];
      if i > 0 {
        assert t[i] == u[i - 1];
      }
    }
  }

  lemma {:induction false} SortByMessageSorted(s: seq<Fortune>)
    ensures SortedByMessage(SortByMessage(s))
    decreases |s|
  {
    if s != [] {
      SortByMessageSorted(s[..|s| - 1]);
      InsertSorted(s[|s| - 1], SortByMessage(s[..|s| - 1]));
    }
  }

  lemma {:induction false} WithMessageAppend(a: seq<Fortune>, b: seq<Fortune>, m: string)
    ensures WithMessage(a + b, m) == WithMessage(a, m) + WithMessage(b, m)
  {
    if a != [] {
      assert (a + b)[1..] == a[1..] + b;
      WithMessageAppend(a[1..], b, m);
    } else {
      assert a + b == b;
    }
  }

  lemma {:induction false} WithMessageNone(s: seq<Fortune>, m: string)
    requires forall j :: 0 <= j < |s| ==> s[j].message != m
    ensures WithMessage(s, m) == []
  {
    if s != [] {
      WithMessageNone(s[1..], m);
    }
  }

  /** The entries of `r` all carry messages above that of `x`, so none ties with it. */
  lemma NoTieBelowHead(x: Fortune, r: seq<Fortune>)
    requires r != [] && SortedByMessage(r)
    requires !MessageLe(r[0].message, x.message)
    ensures WithMessage(r, x.message) == []
  {
    forall j | 0 <= j < |r|
      ensures r[j].message != x.message
    {
      if j == 0 {
        MessageLeTotal(r[0].message, r[0].message);
      }
    }
    WithMessageNone(r, x.message);
  }

  /** Inserted in front of `r`, `x` follows every entry of `r` that ties with it: there is none. */
  lemma InsertAtHeadKeepsTies(x: Fortune, r: seq<Fortune>, m: string)
    requires r != [] && SortedByMessage(r)
    requires !MessageLe(r[0].message, x.message)
    ensures WithMessage([x] + r, m) == WithMessage(r, m) + Tie(x, m)
  {
    WithMessageCons(x, r, m);
    if x.message == m {
      NoTieBelowHead(x, r);
      assert WithMessage(r, m) == [];
    } else {
      assert Tie(x, m) == [];
    }
  }

  /** Putting the same entry in front of two sequences keeps a relation between
      their entries of message `m`. */
  lemma ConsKeepsTies(h: Fortune, u: seq<Fortune>, rest: seq<Fortune>, x: Fortune, m: string)
    requires WithMessage(u, m) == WithMessage(rest, m) + Tie(x, m)
    ensures WithMessage([h] + u, m) == WithMessage([h] + rest, m) + Tie(x, m)
  {
    WithMessageCons(h, u, m);
    WithMessageCons(h, rest, m);
  }

  lemma {:induction false} InsertKeepsTies(x: Fortune, r: seq<Fortune>, m: string)
    requires SortedByMessage(r)
    ensures WithMessage(Insert(x, r), m) == WithMessage(r, m) + Tie(x, m)
  {
    if r == [] {
      assert Insert(x, r) == [x] + [];
      WithMessageCons(x, [], m);
    } else if !MessageLe(r[0].message, x.message) {
      assert Insert(x, r) == [x] + r;
      InsertAtHeadKeepsTies(x, r, m);
    } else {
      assert Insert(x, r) == [r[0]] + Insert(x, r[1..]);
      SortedTail(r);
      InsertKeepsTies(x, r[1..], m);
      ConsKeepsTies(r[0], Insert(x, r[1..]), r[1..], x, m);
      assert [r[0]] + r[1..] == r;
    }
  }

  /** Stability: for every message, the entries carrying it keep their input order. */
  lemma {:induction false} SortByMessageStable(s: seq<Fortune>, m: string)
    ensures WithMessage(SortByMessage(s), m) == WithMessage(s, m)
    decreases |s|
  {
    if s != [] {
      var init, last := s[..|s| - 1], s[|s| - 1];
      assert init + [last] == s;
      calc {
        WithMessage(SortByMessage(s), m);
        WithMessage(Insert(last, SortByMessage(init)), m);
        { InsertIntoSortedKeepsTies(init, last, m); }
        WithMessage(SortByMessage(init), m) + Tie(last, m);
        { SortByMessageStable(init, m); }
        WithMessage(init, m) + Tie(last, m);
        { AppendKeepsTies(init, last, m); }
        WithMessage(init + [last], m);
      }
    }
  }

  lemma InsertIntoSortedKeepsTies(init: seq<Fortune>, last: Fortune, m: string)
    ensures WithMessage(Insert(last, SortByMessage(init)), m) == WithMessage(SortByMessage(init), m) + Tie(last, m)
  {
    SortByMessageSorted(init);
    InsertKeepsTies(last, SortByMessage(init), m);
  }

  lemma AppendKeepsTies(init: seq<Fortune>, last: Fortune, m: string)
    ensures WithMessage(init + [last], m) == WithMessage(init, m) + Tie(last, m)
  {
    WithMessageAppend(init, [last], m);
    WithMessageCons(last, [], m);
    assert [last] + [] == [last];
  }

  lemma {:induction false} WithMessageFirst(s: seq<Fortune>)
    requires s != []
    ensures WithMessage(s, s[0].message) != [] && WithMessage(s, s[0].message)[0] == s[0]
  {
  }

  /** A message that occurs in `s` is never below the message of `s[0]` when `s` is sorted. */
  lemma {:induction false} HeadIsLeast(s: seq<Fortune>, m: string)
    requires s != [] && SortedByMessage(s)
    requires WithMessage(s, m) != []
    ensures MessageLe(s[0].message, m)
  {
    if forall j :: 0 <= j < |s| ==> s[j].message != m {
      WithMessageNone(s, m);
    }
    var j :| 0 <= j < |s| && s[j].message == m;
    if j == 0 {
      MessageLeTotal(m, m);
    }
  }

  lemma {:induction false} SortedTail(s: seq<Fortune>)
    requires s != [] && SortedByMessage(s)
    ensures SortedByMessage(s[1..])
  {
    forall i, j | 0 <= i < j < |s| - 1
      ensures MessageLe(s[1..][i].message, s[1..][j].message)
    {
      assert s[1..][i] == s[i + 1] && s[1..][j] == s[j + 1];
    }
  }

  /** Two sorted sequences that agree, message by message, on the entries carrying
      each message are the same sequence: a stable sort has exactly one result. */
  lemma {:induction false} StableSortUnique(t1: seq<Fortune>, t2: seq<Fortune>)
    requires SortedByMessage(t1) && SortedByMessage(t2)
    requires forall m :: WithMessage(t1, m) == WithMessage(t2, m)
    ensures t1 == t2
    decreases |t1|
  {
    if t1 == [] {
      if t2 != [] {
        WithMessageFirst(t2);
        assert false;
      }
    } else if t2 == [] {
      WithMessageFirst(t1);
      assert false;
    } else {
      var a, b := t1[0], t2[0];
      WithMessageFirst(t1);
      WithMessageFirst(t2);
      assert WithMessage(t1, a.message) == WithMessage(t2, a.message);
      assert WithMessage(t1, b.message) == WithMessage(t2, b.message);
      HeadIsLeast(t2, a.message);
      HeadIsLeast(t1, b.message);
      MessageLeAntisymmetric(a.message, b.message);
      assert a == b;
      assert t1 == [a] + t1[1..];
      assert t2 == [b] + t2[1..];
      forall m
        ensures WithMessage(t1[1..], m) == WithMessage(t2[1..], m)
      {
        WithMessageCons(a, t1[1..], m);
        WithMessageCons(b, t2[1..], m);
        var p := Tie(a, m);
        assert WithMessage(t1, m) == WithMessage(t2, m);
        assert WithMessage(t1[1..], m) == (p + WithMessage(t1[1..], m))[|p|..];
        assert WithMessage(t2[1..], m) == (p + WithMessage(t2[1..], m))[|p|..];
      }
      SortedTail(t1);
      SortedTail(t2);
      StableSortUnique(t1[1..], t2[1..]);
      assert t1 == [a] + t1[1..];
      assert t2 == [b] + t2[1..];
    }
  }

  /** `SortByMessage(s)` is the only sequence that is sorted by message and keeps,
      for every message, the input order of its entries: whatever stable sort the
      runtime uses, its result is `SortByMessage(s)`. */
  lemma SortByMessageIsTheStableSort(s: seq<Fortune>, t: seq<Fortune>)
    requires SortedByMessage(t)
    requires forall m :: WithMessage(t, m) == WithMessage(s, m)
    ensures t == SortByMessage(s)
  {
    SortByMessageSorted(s);
    forall m
      ensures WithMessage(t, m) == WithMessage(SortByMessage(s), m)
    {
      SortByMessageStable(s, m);
    }
    StableSortUnique(t, SortByMessage(s));
  }
}
