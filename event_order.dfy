/**
 * The list operations the engine's schedule performs: Python's stable
 * `list.sort(key=lambda x: x.time)` and `list.reverse()`, and the two
 * orderings they produce.
 */
module EventOrder {
  import opened Events

  /** Times never decrease from head to tail. */
  ghost predicate Ascending(s: seq<Event>)
  {
    forall i, j :: 0 <= i < j < |s| ==> s[i].time <= s[j].time
  }

  /** Times never increase from head to tail, so the tail holds a minimum. */
  ghost predicate NonIncreasing(s: seq<Event>)
  {
    forall i, j :: 0 <= i < j < |s| ==> s[i].time >= s[j].time
  }

  /**
   * Inserts `x` in front of the first event of `s` whose time is not smaller.
   * Because `x` precedes every event of `s` in the input, this keeps ties in
   * input order, as a stable sort must.
   */
  function InsertByTime(x: Event, s: seq<Event>): (r: seq<Event>)
    ensures multiset(r) == multiset{x} + multiset(s)
  {
    if s == [] || x.time <= s[0].time then
      [x] + s
    else
      assert s == [s[0]] + s[1..];
      [s[0]] + InsertByTime(x, s[1..])
  }

  lemma {:induction false} InsertByTimeAscending(x: Event, s: seq<Event>)
    requires Ascending(s)
    ensures Ascending(InsertByTime(x, s))
  {
    if s != [] && x.time > s[0].time {
      var rest := InsertByTime(x, s[1..]);
      InsertByTimeAscending(x, s[1..]);
      forall k | 0 <= k < |rest| ensures s[0].time <= rest[k].time {
        InsertedFrom(x, s[1..], k);
        if rest[k] != x {
          var m :| 0 <= m < |s[1..]| && s[1..][m] == rest[k];
          assert s[m + 1] == rest[k];
        }
      }
      assert InsertByTime(x, s) == [s[0]] + rest;
    }
  }

  /** Each event of an insertion result is the inserted one or comes from the list. */
  lemma InsertedFrom(x: Event, s: seq<Event>, k: nat)
    requires k < |InsertByTime(x, s)|
    ensures InsertByTime(x, s)[k] == x || InsertByTime(x, s)[k] in multiset(s)
  {
    assert InsertByTime(x, s)[k] in multiset(InsertByTime(x, s));
  }

  /** Python's stable sort by time, as an insertion sort. */
  function SortByTime(s: seq<Event>): (r: seq<Event>)
    ensures multiset(r) == multiset(s)
    ensures Ascending(r)
  {
    if s == [] then [] else
      assert s == [s[0]] + s[1..];
      InsertByTimeAscending(s[0], SortByTime(s[1..]));
      InsertByTime(s[0], SortByTime(s[1..]))
  }

  /** The list in the opposite order: its last event first. */
  function Reverse(s: seq<Event>): (r: seq<Event>)
    ensures |r| == |s|
    ensures forall i :: 0 <= i < |s| ==> r[i] == s[|s| - 1 - i]
  {
    if s == [] then [] else [s[|s| - 1]] + Reverse(s[..|s| - 1])
  }

  lemma ReversePermutes(s: seq<Event>)
    ensures multiset(Reverse(s)) == multiset(s)
  {
    if s != [] {
      assert s == s[..|s| - 1] + [s[|s| - 1]];
      ReversePermutes(s[..|s| - 1]);
    }
  }

  /** A list is ascending exactly when its reverse is non-increasing. */
  lemma ReverseAscending(s: seq<Event>)
    ensures Ascending(s) <==> NonIncreasing(Reverse(s))
  {
    var r := Reverse(s);
    var n := |s|;
    if Ascending(s) {
      forall i, j | 0 <= i < j < n ensures r[i].time >= r[j].time {
        assert r[i] == s[n - 1 - i] && r[j] == s[n - 1 - j];
      }
    }
    if NonIncreasing(r) {
      forall i, j | 0 <= i < j < n ensures s[i].time <= s[j].time {
        assert r[n - 1 - i] == s[i] && r[n - 1 - j] == s[j];
      }
    }
  }

  /** A list kept in non-increasing time order comes out of its tail in ascending time. */
  lemma NonIncreasingReversed(s: seq<Event>)
    requires NonIncreasing(s)
    ensures Ascending(Reverse(s))
  {
    var r := Reverse(s);
    var n := |s|;
    forall i, j | 0 <= i < j < n ensures r[i].time <= r[j].time {
      assert r[i] == s[n - 1 - i] && r[j] == s[n - 1 - j];
    }
  }

  /** The last event of a non-increasing list has the smallest time; so `pop()` yields a minimum. */
  lemma LastIsMinimum(s: seq<Event>, x: Event)
    requires NonIncreasing(s) && s != []
    requires x in s
    ensures s[|s| - 1].time <= x.time
  {
    var i :| 0 <= i < |s| && s[i] == x;
    if i < |s| - 1 {
      assert s[i].time >= s[|s| - 1].time;
    }
  }
}
