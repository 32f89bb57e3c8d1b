/**
 The sliding window of the anomaly platform: a Redis sorted set that each insertion trims to the last
 `window` members, against sorting everything and taking the last ones.
 */
module SlidingWindows {
  import opened Options

  datatype Entry = Entry(score: real, member: string)

  // ---- Redis's order: by score, then by the bytes of the member ----

  predicate LexBefore(a: string, b: string) {
    if b == [] then false
    else if a == [] then true
    else a[0] < b[0] || (a[0] == b[0] && LexBefore(a[1..], b[1..]))
  }

  predicate Before(a: Entry, b: Entry) {
    a.score < b.score || (a.score == b.score && LexBefore(a.member, b.member))
  }

  lemma {:induction false} LexTransitive(a: string, b: string, c: string)
    requires LexBefore(a, b) && LexBefore(b, c)
    ensures LexBefore(a, c)
  {
    if a != [] && a[0] == b[0] == c[0] { LexTransitive(a[1..], b[1..], c[1..]); }
  }

  lemma {:induction false} LexTotal(a: string, b: string)
    ensures (a == b && !LexBefore(a, b) && !LexBefore(b, a)) || (a != b && LexBefore(a, b) != LexBefore(b, a))
  {
    if a != [] && b != [] && a[0] == b[0] {
      LexTotal(a[1..], b[1..]);
      assert a == [a[0]] + a[1..] && b == [b[0]] + b[1..];
    }
  }

  lemma BeforeTransitive(a: Entry, b: Entry, c: Entry)
    requires Before(a, b) && Before(b, c)
    ensures Before(a, c)
  {
    if a.score == b.score == c.score { LexTransitive(a.member, b.member, c.member); }
  }

  lemma BeforeTotal(a: Entry, b: Entry)
    ensures (a == b && !Before(a, b)) || (a != b && Before(a, b) != Before(b, a))
  {
    LexTotal(a.member, b.member);
  }

  // ---- Sorted sets ----

  ghost predicate IsSorted(s: seq<Entry>) {
    forall i, j | 0 <= i < j < |s| :: Before(s[i], s[j])
  }

  /** ZADD of a new member. */
  function Insert(s: seq<Entry>, e: Entry): (t: seq<Entry>)
    ensures |t| == |s| + 1
  {
    if s == [] || Before(e, s[0]) then [e] + s else [s[0]] + Insert(s[1..], e)
  }

  lemma {:induction false} InsertHolds(s: seq<Entry>, e: Entry)
    ensures multiset(Insert(s, e)) == multiset(s) + multiset{e}
  {
    if s != [] {
      assert s == [s[0]] + s[1..];
      if !Before(e, s[0]) { InsertHolds(s[1..], e); }
    }
  }

  lemma SortedCons(x: Entry, s: seq<Entry>)
    requires IsSorted(s) && forall y | y in s :: Before(x, y)
    ensures IsSorted([x] + s)
  {
    hide Before;
    var t := [x] + s;
    forall i, j | 0 <= i < j < |t| ensures Before(t[i], t[j]) {
      assert t[j] == s[j - 1] && t[j] in s;
    }
  }

  lemma {:induction false} InsertSorts(s: seq<Entry>, e: Entry)
    requires IsSorted(s) && e !in s
    ensures IsSorted(Insert(s, e))
  {
    hide Before;
    if s == [] {
    } else if Before(e, s[0]) {
      forall y | y in s ensures Before(e, y) {
        if y != s[0] { BeforeTransitive(e, s[0], y); }
      }
      SortedCons(e, s);
    } else {
      var rest := s[1..];
      InsertSorts(rest, e);
      InsertHolds(rest, e);
      BeforeTotal(e, s[0]);
      forall y | y in Insert(rest, e) ensures Before(s[0], y) {
        assert y in multiset(Insert(rest, e));
      }
      SortedCons(s[0], Insert(rest, e));
    }
  }

  /** The whole history, sorted. */
  function SortedHistory(h: seq<Entry>): (s: seq<Entry>)
    ensures |s| == |h|
  {
    if h == [] then [] else Insert(SortedHistory(h[..|h| - 1]), h[|h| - 1])
  }

  /** Each entry has a member of its own, as the uuid in it makes sure. */
  ghost predicate Distinct(h: seq<Entry>) {
    forall i, j | 0 <= i < j < |h| :: h[i] != h[j]
  }

  lemma {:induction false} SortedHistoryIsSorted(h: seq<Entry>)
    requires Distinct(h)
    ensures IsSorted(SortedHistory(h)) && multiset(SortedHistory(h)) == multiset(h)
  {
    if h != [] {
      var init, e := h[..|h| - 1], h[|h| - 1];
      SortedHistoryIsSorted(init);
      assert h == init + [e];
      assert e !in SortedHistory(init) by {
        assert e !in init;
        assert e !in multiset(SortedHistory(init));
      }
      InsertSorts(SortedHistory(init), e);
      InsertHolds(SortedHistory(init), e);
    }
  }

  lemma SortedHead(s: seq<Entry>, x: Entry)
    requires IsSorted(s) && x in s
    ensures x == s[0] || Before(s[0], x)
  {
  }

  lemma SameHead(s: seq<Entry>, t: seq<Entry>)
    requires IsSorted(s) && IsSorted(t) && multiset(s) == multiset(t) && s != [] && t != []
    ensures s[0] == t[0]
  {
    assert s[0] in multiset(t) && t[0] in multiset(s);
    hide Before, IsSorted;
    SortedHead(s, t[0]);
    SortedHead(t, s[0]);
    BeforeTotal(s[0], t[0]);
  }

  lemma SortedTail(s: seq<Entry>)
    requires IsSorted(s) && s != []
    ensures IsSorted(s[1..]) && multiset(s[1..]) == multiset(s) - multiset{s[0]}
  {
    hide Before;
    assert s == [s[0]] + s[1..];
  }

  /** There is only one way to sort. */
  lemma {:induction false} SortedUnique(s: seq<Entry>, t: seq<Entry>)
    requires IsSorted(s) && IsSorted(t) && multiset(s) == multiset(t)
    ensures s == t
  {
    hide Before, IsSorted;
    assert |multiset(s)| == |multiset(t)|;
    if s != [] {
      SameHead(s, t);
      SortedTail(s);
      SortedTail(t);
      SortedUnique(s[1..], t[1..]);
      assert s == [s[0]] + s[1..] && t == [t[0]] + t[1..];
    }
  }

  // ---- Trimming ----

  function LastN(s: seq<Entry>, n: nat): seq<Entry> {
    if |s| <= n then s else s[|s| - n..]
  }

  /** ZREMRANGEBYRANK key 0 (n - window - 1), if the counted n exceeds the window. Ranks past the end are not there. */
  function Trim(s: seq<Entry>, n: nat, window: nat): seq<Entry> {
    if n <= window then s
    else if n - window >= |s| then []
    else s[n - window..]
  }

  /** add_to_sliding_window with nothing in between its three commands. */
  function Added(s: seq<Entry>, e: Entry, window: nat): seq<Entry> {
    Trim(Insert(s, e), |s| + 1, window)
  }

  lemma AddedIsLast(s: seq<Entry>, e: Entry, window: nat)
    ensures Added(s, e, window) == LastN(Insert(s, e), window)
  {
  }

  lemma InsertAfterDrop(s: seq<Entry>, e: Entry, window: nat)
    requires IsSorted(s) && |s| > window
    ensures LastN(Insert(s[1..], e), window) == LastN(Insert(s, e), window)
  {
    hide Before;
    if Before(e, s[0]) {
      if |s| > 1 { BeforeTransitive(e, s[0], s[1]); }
      assert Insert(s[1..], e) == [e] + s[1..];
      assert LastN([e] + s[1..], window) == LastN([e] + s, window);
    } else {
      assert Insert(s, e) == [s[0]] + Insert(s[1..], e);
    }
  }

  /** What was trimmed away can never come back into the window. */
  lemma {:induction false} TrimThenInsert(s: seq<Entry>, e: Entry, window: nat)
    requires IsSorted(s)
    ensures LastN(Insert(LastN(s, window), e), window) == LastN(Insert(s, e), window)
    decreases |s|
  {
    if |s| > window {
      assert LastN(s[1..], window) == LastN(s, window);
      TrimThenInsert(s[1..], e, window);
      InsertAfterDrop(s, e, window);
    }
  }

  /** The set after a history of insertions, each trimmed in turn. */
  function Window(h: seq<Entry>, window: nat): seq<Entry> {
    if h == [] then [] else Added(Window(h[..|h| - 1], window), h[|h| - 1], window)
  }

  /** Trimming at each insertion, with late and tied timestamps, agrees with sorting everything and taking the last. */
  lemma {:induction false} WindowIsLastOfSorted(h: seq<Entry>, window: nat)
    requires Distinct(h)
    ensures Window(h, window) == LastN(SortedHistory(h), window)
  {
    if h != [] {
      var init, e := h[..|h| - 1], h[|h| - 1];
      WindowIsLastOfSorted(init, window);
      SortedHistoryIsSorted(init);
      AddedIsLast(Window(init, window), e, window);
      TrimThenInsert(SortedHistory(init), e, window);
    }
  }

  /** So the order of arrival does not matter. */
  lemma ArrivalOrderIsIrrelevant(h: seq<Entry>, h': seq<Entry>, window: nat)
    requires Distinct(h) && Distinct(h') && multiset(h) == multiset(h')
    ensures Window(h, window) == Window(h', window)
  {
    WindowIsLastOfSorted(h, window);
    WindowIsLastOfSorted(h', window);
    SortedHistoryIsSorted(h);
    SortedHistoryIsSorted(h');
    SortedUnique(SortedHistory(h), SortedHistory(h'));
  }

  // ---- The window, in terms of timestamps and bytes ----

  /** The two texts agree up to position n, where `a` ends or has the smaller byte. */
  ghost predicate DiffersFirst(a: string, b: string, n: nat) {
    && n <= |a| && n < |b| && a[..n] == b[..n]
    && (n < |a| ==> a[n] < b[n])
  }

  lemma HeadsAgree(a: string, b: string, n: nat)
    requires DiffersFirst(a, b, n)
    ensures n > 0 ==> a[0] == b[0]
  {
    if n > 0 { assert a[..n][0] == a[0] && b[..n][0] == b[0]; }
  }

  /** The order of members with one score, by the first position where they differ. */
  lemma {:induction false} LexMeans(a: string, b: string)
    ensures LexBefore(a, b) <==> exists n :: DiffersFirst(a, b, n)
  {
    if a != [] && b != [] && a[0] == b[0] {
      LexMeans(a[1..], b[1..]);
      if n: nat :| DiffersFirst(a[1..], b[1..], n) {
        assert a[..n + 1] == [a[0]] + a[1..][..n] && b[..n + 1] == [b[0]] + b[1..][..n];
        assert DiffersFirst(a, b, n + 1);
      }
      if n: nat :| DiffersFirst(a, b, n) {
        assert n > 0;
        assert a[1..][..n - 1] == a[..n][1..] && b[1..][..n - 1] == b[..n][1..];
        assert DiffersFirst(a[1..], b[1..], n - 1);
      }
    } else if b != [] && (a == [] || a[0] < b[0]) {
      assert DiffersFirst(a, b, 0);
    } else if n: nat :| DiffersFirst(a, b, n) {
      HeadsAgree(a, b, n);
    }
  }

  /** `x` is no later than `y`: an earlier timestamp, or the same and the first different byte smaller. */
  ghost predicate NoLater(x: Entry, y: Entry) {
    x.score <= y.score && (x.score == y.score ==> exists n :: DiffersFirst(x.member, y.member, n))
  }

  lemma BeforeIsNoLater(x: Entry, y: Entry)
    requires Before(x, y)
    ensures NoLater(x, y)
  {
    LexMeans(x.member, y.member);
  }

  /**
   `s` is the window of `h`: as many of its members as fit, earliest first, and none of the others is later
   than any of them.
   */
  ghost predicate IsWindow(s: seq<Entry>, h: seq<Entry>, window: nat) {
    && |s| == (if |h| < window then |h| else window)
    && (forall x | x in s :: x in h)
    && (forall i, j | 0 <= i < j < |s| :: NoLater(s[i], s[j]))
    && (forall x, y | x in h && x !in s && y in s :: NoLater(x, y))
  }

  lemma SortedAt(all: seq<Entry>, i: nat, j: nat)
    requires IsSorted(all) && i < j < |all|
    ensures NoLater(all[i], all[j])
  {
    hide Before, NoLater;
    BeforeIsNoLater(all[i], all[j]);
  }

  lemma LastAreOrdered(all: seq<Entry>, window: nat, i: nat, j: nat)
    requires IsSorted(all) && i < j < |LastN(all, window)|
    ensures NoLater(LastN(all, window)[i], LastN(all, window)[j])
  {
    var cut := |all| - |LastN(all, window)|;
    SortedAt(all, cut + i, cut + j);
  }

  lemma OthersAreNoLater(all: seq<Entry>, window: nat, x: Entry, y: Entry)
    requires IsSorted(all) && x in all && x !in LastN(all, window) && y in LastN(all, window)
    ensures NoLater(x, y)
  {
    hide IsSorted, NoLater;
    var s := LastN(all, window);
    var cut := |all| - |s|;
    var i :| 0 <= i < |all| && all[i] == x;
    var j :| 0 <= j < |s| && s[j] == y;
    assert forall k | cut <= k < |all| :: all[k] == s[k - cut];
    assert all[cut + j] == y;
    SortedAt(all, i, cut + j);
  }

  lemma HistoryMembers(h: seq<Entry>)
    requires Distinct(h)
    ensures forall x :: x in SortedHistory(h) <==> x in h
  {
    SortedHistoryIsSorted(h);
    hide SortedHistory, Distinct;
    forall x ensures x in SortedHistory(h) <==> x in h {
      assert x in multiset(SortedHistory(h)) <==> x in multiset(h);
    }
  }

  lemma LastIsWindow(h: seq<Entry>, window: nat)
    requires Distinct(h)
    ensures IsWindow(LastN(SortedHistory(h), window), h, window)
  {
    SortedHistoryIsSorted(h);
    HistoryMembers(h);
    hide Before, NoLater, SortedHistory, Distinct, IsSorted;
    var all := SortedHistory(h);
    var s := LastN(all, window);
    assert forall x | x in s :: x in all;
    hide LastN;
    forall i, j | 0 <= i < j < |s| ensures NoLater(s[i], s[j]) { LastAreOrdered(all, window, i, j); }
    forall x, y | x in h && x !in s && y in s ensures NoLater(x, y) { OthersAreNoLater(all, window, x, y); }
    LastLength(all, window);
  }

  lemma LastLength(s: seq<Entry>, n: nat)
    ensures |LastN(s, n)| == if |s| < n then |s| else n
  {
  }

  // ---- The client, one call at a time ----

  /** ZRANGE, with Redis's reading of negative ranks and of ranks past the end. */
  function ZRange(s: seq<Entry>, start: int, stop: int): seq<Entry> {
    var lo := if start >= 0 then start else if |s| + start < 0 then 0 else |s| + start;
    var hi := if stop >= |s| then |s| - 1 else if stop >= 0 then stop else |s| + stop;
    if lo > hi then [] else s[lo..hi + 1]
  }

  /** The values in members that decode; the others are passed over. */
  function Values(s: seq<Entry>, decode: string -> Option<real>): seq<real> {
    if s == [] then []
    else
      var init, v := Values(s[..|s| - 1], decode), decode(s[|s| - 1].member);
      if v.Some? then init + [v.value] else init
  }

  /** A member that decodes yields its value, one that does not yields nothing, and neither affects the others. */
  lemma {:induction false} ValuesAreSeparate(s: seq<Entry>, t: seq<Entry>, decode: string -> Option<real>)
    ensures Values(s + t, decode) == Values(s, decode) + Values(t, decode)
    ensures |s| == 1 && decode(s[0].member).Some? ==> Values(s, decode) == [decode(s[0].member).value]
    ensures |s| == 1 && decode(s[0].member).None? ==> Values(s, decode) == []
    decreases |t|
  {
    if t == [] {
      assert s + t == s;
    } else {
      var init, last := t[..|t| - 1], t[|t| - 1];
      assert (s + t)[..|s + t| - 1] == s + init && (s + t)[|s + t| - 1] == last;
      ValuesAreSeparate(s, init, decode);
    }
    if |s| == 1 { assert s[..0] == []; }
  }

  lemma {:induction false} DecodableValues(s: seq<Entry>, decode: string -> Option<real>)
    requires forall e | e in s :: decode(e.member).Some?
    ensures |Values(s, decode)| == |s|
    ensures forall i | 0 <= i < |s| :: Some(Values(s, decode)[i]) == decode(s[i].member)
  {
    if s != [] { DecodableValues(s[..|s| - 1], decode); }
  }

  lemma LengthAfterInsert(s: seq<Entry>, e: Entry)
    ensures |Insert(s, e)| == |s| + 1
  {
  }

  /** A window that is the last of the sorted history is so again after the next call. */
  lemma NextWindow(h: seq<Entry>, e: Entry, window: nat)
    requires Distinct(h) && e !in h
    ensures Distinct(h + [e])
    ensures Added(LastN(SortedHistory(h), window), e, window) == LastN(SortedHistory(h + [e]), window)
  {
    SortedHistoryIsSorted(h);
    assert (h + [e])[..|h|] == h;
    hide Insert, LastN, SortedHistory;
    AddedIsLast(LastN(SortedHistory(h), window), e, window);
    TrimThenInsert(SortedHistory(h), e, window);
    SortedSoFar(h, e);
  }

  lemma SortedSoFar(h: seq<Entry>, e: Entry)
    ensures SortedHistory(h + [e]) == Insert(SortedHistory(h), e)
  {
    assert (h + [e])[..|h|] == h;
  }

  class RedisClient {
    var zset: seq<Entry>               // the key of one source and metric
    const window: nat
    ghost var history: seq<Entry>      // everything ever added

    ghost predicate Valid()
      reads this
    {
      Distinct(history) && zset == LastN(SortedHistory(history), window)
    }

    constructor (window: nat)
      ensures Valid() && history == [] && this.window == window
    {
      zset, history, this.window := [], [], window;
    }

    method ZAdd(e: Entry)
      modifies this`zset
      ensures zset == Insert(old(zset), e)
    {
      zset := Insert(zset, e);
    }

    method ZCard() returns (n: nat)
      ensures n == |zset|
    {
      n := |zset|;
    }

    /** ZREMRANGEBYRANK key 0 stop. */
    method ZRemUpToRank(stop: nat)
      modifies this`zset
      ensures zset == if stop + 1 >= |old(zset)| then [] else old(zset)[stop + 1..]
    {
      zset := if stop + 1 >= |zset| then [] else zset[stop + 1..];
    }

    /** `member` is the JSON text of the value, the timestamp and a fresh uuid. */
    method AddToSlidingWindow(timestamp: real, member: string)
      requires Valid() && Entry(timestamp, member) !in history
      modifies this
      ensures Valid() && history == old(history) + [Entry(timestamp, member)]
      ensures IsWindow(zset, history, window)
    {
      hide SortedHistory, LastN, Insert, Distinct, IsWindow;
      var e := Entry(timestamp, member);
      LengthAfterInsert(zset, e);
      ZAdd(e);
      var n := ZCard();
      if n > window { ZRemUpToRank(n - window - 1); }
      NextWindow(history, e, window);
      history := history + [e];
      LastIsWindow(history, window);
    }

    /** The values of the latest members of the whole history, oldest first. */
    method GetSlidingWindow(decode: string -> Option<real>) returns (out: seq<real>)
      requires Valid()
      ensures out == Values(LastN(SortedHistory(history), window), decode)
      ensures out == Values(zset, decode) && IsWindow(zset, history, window)
    {
      LastIsWindow(history, window);
      hide IsWindow;
      var raw := ZRange(zset, -(window as int), -1);
      assert raw == zset;
      out := [];
      var i := 0;
      while i < |raw|
        invariant 0 <= i <= |raw| && out == Values(raw[..i], decode)
      {
        var v := decode(raw[i].member);
        assert raw[..i + 1][..i] == raw[..i];
        if v.Some? { out := out + [v.value]; }
        i := i + 1;
      }
      assert raw[..i] == raw;
    }
  }

  // ---- Many clients, their commands interleaved ----

  datatype Client = Idle | HasAdded | HasCounted(n: nat)

  datatype State = State(zset: seq<Entry>, clients: map<nat, Client>)

  datatype Event = Zadd(k: nat, e: Entry) | Zcard(k: nat) | Ztrim(k: nat)

  function At(s: State, k: nat): Client {
    if k in s.clients then s.clients[k] else Idle
  }

  predicate Enabled(s: State, e: Event) {
    match e
    case Zadd(k, _) => At(s, k).Idle?
    case Zcard(k) => At(s, k).HasAdded?
    case Ztrim(k) => At(s, k).HasCounted?
  }

  function Apply(s: State, e: Event, window: nat): State
    requires Enabled(s, e)
  {
    match e
    case Zadd(k, x) => State(Insert(s.zset, x), s.clients[k := HasAdded])
    case Zcard(k) => s.(clients := s.clients[k := HasCounted(|s.zset|)])
    case Ztrim(k) => State(Trim(s.zset, At(s, k).n, window), s.clients[k := Idle])
  }

  ghost predicate Trace(es: seq<Event>, ss: seq<State>, window: nat) {
    && |ss| == |es| + 1 && ss[0] == State([], map[])
    && forall i | 0 <= i < |es| :: Enabled(ss[i], es[i]) && ss[i + 1] == Apply(ss[i], es[i], window)
  }

  ghost predicate Quiescent(s: State) {
    forall k :: At(s, k).Idle?
  }

  /** `k` has yet to count, or has counted every member there is: it will see to the excess. */
  ghost predicate WillTrim(s: State, k: nat) {
    At(s, k).HasAdded? || (At(s, k).HasCounted? && At(s, k).n >= |s.zset|)
  }

  lemma StepKeepsWillTrim(s: State, e: Event, window: nat, k: nat)
    requires Enabled(s, e) && WillTrim(s, k)
    ensures var s' := Apply(s, e, window); |s'.zset| > window ==> exists j :: WillTrim(s', j)
  {
    var s' := Apply(s, e, window);
    if |s'.zset| > window {
      if e.Zadd? || e.Zcard? {
        assert WillTrim(s', e.k);
      } else {
        assert WillTrim(s', k);
      }
    }
  }

  lemma {:induction false} ExcessWillBeTrimmed(es: seq<Event>, ss: seq<State>, window: nat, i: nat)
    requires Trace(es, ss, window) && i < |ss| && |ss[i].zset| > window
    ensures exists k :: WillTrim(ss[i], k)
  {
    if i > 0 {
      var s, e := ss[i - 1], es[i - 1];
      assert ss[i - 1 + 1] == Apply(s, e, window);
      if |s.zset| > window {
        ExcessWillBeTrimmed(es, ss, window, i - 1);
        var k :| WillTrim(s, k);
        StepKeepsWillTrim(s, e, window, k);
      } else {
        assert WillTrim(ss[i], e.k);
      }
    }
  }

  /** Once every call has returned, the set holds at most `window` members. */
  lemma QuiescentFits(es: seq<Event>, ss: seq<State>, window: nat, i: nat)
    requires Trace(es, ss, window) && i < |ss| && Quiescent(ss[i])
    ensures |ss[i].zset| <= window
  {
    if |ss[i].zset| > window {
      ExcessWillBeTrimmed(es, ss, window, i);
    }
  }

  // ---- Which runs keep the window ----

  /** What the first i commands added, in order. */
  ghost function AddedBy(es: seq<Event>, i: nat): seq<Entry>
    requires i <= |es|
  {
    if i == 0 then []
    else AddedBy(es, i - 1) + if es[i - 1].Zadd? then [es[i - 1].e] else []
  }

  /** The set still ends with the last members of all that was added. */
  ghost predicate Intact(es: seq<Event>, ss: seq<State>, window: nat, i: nat)
    requires i < |ss| && i <= |es|
  {
    LastN(ss[i].zset, window) == LastN(SortedHistory(AddedBy(es, i)), window)
  }

  /** A trim counts no more members than there are, or trims nothing. */
  predicate Covered(s: State, e: Event, window: nat) {
    e.Ztrim? && At(s, e.k).HasCounted? ==> At(s, e.k).n <= |s.zset| || At(s, e.k).n <= window
  }

  ghost predicate AllCovered(es: seq<Event>, ss: seq<State>, window: nat, i: nat)
    requires i <= |es| <= |ss|
  {
    forall j | 0 <= j < i :: Covered(ss[j], es[j], window)
  }

  lemma TrimIsExact(s: seq<Entry>, n: nat, window: nat)
    requires n <= |s| || n <= window
    ensures LastN(Trim(s, n, window), window) == LastN(s, window)
  {
  }

  /** A count that exceeds the set and the window costs the window a member, if it has one. */
  lemma OverTrimLoses(s: seq<Entry>, n: nat, window: nat)
    requires window > 0 && s != [] && n > |s| && n > window
    ensures LastN(Trim(s, n, window), window) != LastN(s, window)
  {
    assert |Trim(s, n, window)| < |LastN(s, window)|;
  }

  lemma TrimHolds(s: seq<Entry>, n: nat, window: nat)
    ensures IsSorted(s) ==> IsSorted(Trim(s, n, window))
    ensures forall x | x in Trim(s, n, window) :: x in s
  {
  }

  lemma InsertMembers(s: seq<Entry>, e: Entry)
    ensures forall x :: x in Insert(s, e) <==> x in s || x == e
  {
    InsertHolds(s, e);
    assert forall x :: x in multiset(Insert(s, e)) <==> x in multiset(s) || x == e;
  }

  lemma PrefixIsDistinct(h: seq<Entry>, e: Entry)
    requires Distinct(h + [e])
    ensures Distinct(h) && e !in h
  {
    var longer := h + [e];
    forall i, j | 0 <= i < j < |h| ensures h[i] != h[j] { assert longer[i] != longer[j]; }
    forall i | 0 <= i < |h| ensures h[i] != e { assert longer[i] != longer[|h|]; }
  }

  /** The set is sorted and holds only what was added, each once. */
  ghost predicate Orderly(s: State, h: seq<Entry>) {
    IsSorted(s.zset) && Distinct(h) && forall x | x in s.zset :: x in h
  }

  lemma AddKeepsOrder(s: State, h: seq<Entry>, e: Entry)
    requires Orderly(s, h) && Distinct(h + [e])
    ensures IsSorted(Insert(s.zset, e)) && forall x | x in Insert(s.zset, e) :: x in h + [e]
  {
    PrefixIsDistinct(h, e);
    InsertSorts(s.zset, e);
    InsertMembers(s.zset, e);
  }

  lemma {:induction false} DistinctSoFar(es: seq<Event>, i: nat, j: nat)
    requires i <= j <= |es| && Distinct(AddedBy(es, j))
    ensures Distinct(AddedBy(es, i))
    decreases j
  {
    if i < j {
      if es[j - 1].Zadd? {
        PrefixIsDistinct(AddedBy(es, j - 1), es[j - 1].e);
      } else {
        assert AddedBy(es, j) == AddedBy(es, j - 1);
      }
      DistinctSoFar(es, i, j - 1);
    }
  }

  lemma {:induction false} RunIsOrderly(es: seq<Event>, ss: seq<State>, window: nat, i: nat)
    requires Trace(es, ss, window) && i < |ss| && Distinct(AddedBy(es, |es|))
    ensures Orderly(ss[i], AddedBy(es, i))
  {
    DistinctSoFar(es, i, |es|);
    if i > 0 {
      RunIsOrderly(es, ss, window, i - 1);
      var s, e := ss[i - 1], es[i - 1];
      assert ss[i - 1 + 1] == Apply(s, e, window);
      hide Trace, IsSorted, Distinct;
      if e.Zadd? {
        AddKeepsOrder(s, AddedBy(es, i - 1), e.e);
      } else if e.Ztrim? {
        TrimHolds(s.zset, At(s, e.k).n, window);
      }
    }
  }

  /** Adding keeps an intact window intact. */
  lemma AddStaysIntact(s: seq<Entry>, h: seq<Entry>, e: Entry, window: nat)
    requires IsSorted(s) && Distinct(h) && LastN(s, window) == LastN(SortedHistory(h), window)
    ensures LastN(Insert(s, e), window) == LastN(SortedHistory(h + [e]), window)
  {
    SortedHistoryIsSorted(h);
    hide IsSorted, Insert, LastN;
    TrimThenInsert(s, e, window);
    TrimThenInsert(SortedHistory(h), e, window);
    assert (h + [e])[..|h|] == h;
  }

  lemma StepStaysIntact(es: seq<Event>, ss: seq<State>, window: nat, i: nat)
    requires Trace(es, ss, window) && i < |es| && Distinct(AddedBy(es, |es|))
    requires Intact(es, ss, window, i) && Covered(ss[i], es[i], window)
    ensures Intact(es, ss, window, i + 1)
  {
    RunIsOrderly(es, ss, window, i);
    var s, e := ss[i], es[i];
    assert Enabled(s, e) && ss[i + 1] == Apply(s, e, window);
    hide Trace, IsSorted, Distinct, SortedHistory, LastN, Insert, Trim;
    if e.Zadd? {
      AddStaysIntact(s.zset, AddedBy(es, i), e.e, window);
    } else if e.Ztrim? {
      assert AddedBy(es, i + 1) == AddedBy(es, i);
      TrimIsExact(s.zset, At(s, e.k).n, window);
    } else {
      assert AddedBy(es, i + 1) == AddedBy(es, i);
    }
  }

  lemma {:induction false} CoveredRunsStayIntact(es: seq<Event>, ss: seq<State>, window: nat, i: nat)
    requires Trace(es, ss, window) && i <= |es| && Distinct(AddedBy(es, |es|)) && AllCovered(es, ss, window, i)
    ensures Intact(es, ss, window, i)
  {
    if i > 0 {
      hide Trace, Distinct, Intact, Covered;
      CoveredRunsStayIntact(es, ss, window, i - 1);
      StepStaysIntact(es, ss, window, i - 1);
    } else {
      assert ss[0].zset == [] == AddedBy(es, 0);
    }
  }

  /** A client that is about to trim has added something. */
  lemma {:induction false} CountersHaveAdded(es: seq<Event>, ss: seq<State>, window: nat, i: nat, k: nat)
    requires Trace(es, ss, window) && i <= |es| && !At(ss[i], k).Idle?
    ensures AddedBy(es, i) != []
  {
    if i > 0 {
      assert Enabled(ss[i - 1], es[i - 1]) && ss[i - 1 + 1] == Apply(ss[i - 1], es[i - 1], window);
      if !es[i - 1].Zadd? { CountersHaveAdded(es, ss, window, i - 1, k); }
    }
  }

  lemma UncoveredLoses(es: seq<Event>, ss: seq<State>, window: nat, i: nat)
    requires Trace(es, ss, window) && i < |es| && window > 0 && Intact(es, ss, window, i) &&
        !Covered(ss[i], es[i], window)
    ensures !Intact(es, ss, window, i + 1)
  {
    var s, e := ss[i], es[i];
    assert ss[i + 1] == Apply(s, e, window);
    CountersHaveAdded(es, ss, window, i, e.k);
    assert AddedBy(es, i + 1) == AddedBy(es, i);
    assert LastN(SortedHistory(AddedBy(es, i)), window) != [];
    OverTrimLoses(s.zset, At(s, e.k).n, window);
  }

  /**
   Which interleavings lose nothing: the window is intact in every state up to the i-th if and only if no
   trim before it had counted more members than were there, unless they were within the window.
   */
  lemma {:induction false} IntactIffCovered(es: seq<Event>, ss: seq<State>, window: nat, i: nat)
    requires Trace(es, ss, window) && i <= |es| && window > 0 && Distinct(AddedBy(es, |es|))
    ensures (forall j | 0 <= j <= i :: Intact(es, ss, window, j)) <==> AllCovered(es, ss, window, i)
  {
    hide Trace, Distinct, Intact, Covered;
    TraceLength(es, ss, window);
    if AllCovered(es, ss, window, i) {
      forall j | 0 <= j <= i ensures Intact(es, ss, window, j) { CoveredRunsStayIntact(es, ss, window, j); }
    } else {
      var j :| 0 <= j < i && !Covered(ss[j], es[j], window);
      if Intact(es, ss, window, j) { UncoveredLoses(es, ss, window, j); }
    }
  }

  lemma TraceLength(es: seq<Event>, ss: seq<State>, window: nat)
    requires Trace(es, ss, window)
    ensures |ss| == |es| + 1
  {
  }

  /** In a covered run a quiescent set is the window of everything added. */
  lemma QuiescentIsWindow(es: seq<Event>, ss: seq<State>, window: nat, i: nat)
    requires Trace(es, ss, window) && i <= |es| && Distinct(AddedBy(es, |es|)) && AllCovered(es, ss, window, i)
    requires Quiescent(ss[i])
    ensures ss[i].zset == LastN(SortedHistory(AddedBy(es, i)), window)
  {
    CoveredRunsStayIntact(es, ss, window, i);
    QuiescentFits(es, ss, window, i);
  }

  // ---- A discipline that covers every trim ----

  /**
   Between a client's ZCARD and its ZREMRANGEBYRANK no other client trims. (Others may add and count.)
   */
  ghost predicate TrimsDoNotCross(es: seq<Event>) {
    forall j, l, i | 0 <= j < l < i < |es| && es[j].Zcard? && es[i] == Ztrim(es[j].k) && es[l].Ztrim? ::
      exists m :: j < m < i && es[m].k == es[j].k
  }

  /** A count is what ZCARD returned, and its client has sent nothing since. */
  lemma {:induction false} CountedAt(es: seq<Event>, ss: seq<State>, window: nat, i: nat, k: nat) returns (j: nat)
    requires Trace(es, ss, window) && i <= |es| && At(ss[i], k).HasCounted?
    ensures j < i && es[j] == Zcard(k) && At(ss[i], k).n == |ss[j].zset|
    ensures forall m | j < m < i :: es[m].k != k
  {
    assert Enabled(ss[i - 1], es[i - 1]) && ss[i - 1 + 1] == Apply(ss[i - 1], es[i - 1], window);
    if es[i - 1].k == k {
      j := i - 1;
    } else {
      j := CountedAt(es, ss, window, i - 1, k);
    }
  }

  lemma {:induction false} UntrimmedGrows(es: seq<Event>, ss: seq<State>, window: nat, j: nat, i: nat)
    requires Trace(es, ss, window) && j <= i <= |es| && forall l | j <= l < i :: !es[l].Ztrim?
    ensures |ss[j].zset| <= |ss[i].zset|
    decreases i
  {
    if j < i {
      UntrimmedGrows(es, ss, window, j, i - 1);
      assert ss[i - 1 + 1] == Apply(ss[i - 1], es[i - 1], window);
    }
  }

  lemma UncrossedIsCovered(es: seq<Event>, ss: seq<State>, window: nat, i: nat)
    requires Trace(es, ss, window) && i < |es| && TrimsDoNotCross(es)
    ensures Covered(ss[i], es[i], window)
  {
    if es[i].Ztrim? && At(ss[i], es[i].k).HasCounted? {
      var j := CountedAt(es, ss, window, i, es[i].k);
      hide Trace;
      assert es[j].k == es[i].k && es[i] == Ztrim(es[j].k);
      assert forall l | j <= l < i :: !es[l].Ztrim?;
      UntrimmedGrows(es, ss, window, j, i);
    }
  }

  /**
   If no trim falls between another client's count and its trim, then whatever else interleaves, a
   quiescent set is exactly the last `window` members of everything added.
   */
  lemma UncrossedRunsKeepTheWindow(es: seq<Event>, ss: seq<State>, window: nat, i: nat)
    requires Trace(es, ss, window) && i <= |es| && Distinct(AddedBy(es, |es|)) && TrimsDoNotCross(es)
    requires Quiescent(ss[i])
    ensures ss[i].zset == LastN(SortedHistory(AddedBy(es, i)), window)
  {
    forall j | 0 <= j < i ensures Covered(ss[j], es[j], window) { UncrossedIsCovered(es, ss, window, j); }
    QuiescentIsWindow(es, ss, window, i);
  }

  /** Stale counts over-trim: two clients can empty a window of one. */
  lemma StaleCountsEmptyTheWindow(a: Entry, b: Entry)
    requires Before(a, b)
    ensures var es := [Zadd(0, a), Zadd(1, b), Zcard(0), Zcard(1), Ztrim(0), Ztrim(1)];
            exists ss: seq<State> :: |ss| == 7 && Trace(es, ss, 1) && Quiescent(ss[6]) && ss[6].zset == []
  {
    BeforeTotal(a, b);
    var es := [Zadd(0, a), Zadd(1, b), Zcard(0), Zcard(1), Ztrim(0), Ztrim(1)];
    var s0 := State([], map[]);
    var s1 := Apply(s0, es[0], 1);
    var s2 := Apply(s1, es[1], 1);
    var s3 := Apply(s2, es[2], 1);
    var s4 := Apply(s3, es[3], 1);
    var s5 := Apply(s4, es[4], 1);
    var s6 := Apply(s5, es[5], 1);
    assert Trace(es, [s0, s1, s2, s3, s4, s5, s6], 1);
  }
}
