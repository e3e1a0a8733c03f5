/**
 * The event record shared by every engine variant: an identifier naming the
 * kind of event, the time it occurs at, and optional keyword attributes that
 * are fixed when the event is built.
 */
module Events {

  /** An immutable event; the destructors are the record's read-only accessors. */
  datatype Event = Event(identifier: string, time: real, kwargs: map<string, string>)

  /** Identifier of the terminal event the engine schedules on stop. */
  const END_EVENT: string := "End"

  /** An event built without keyword arguments, as `Event(identifier, time)`. */
  function Plain(identifier: string, time: real): (e: Event)
    ensures e.identifier == identifier && e.time == time && e.kwargs == map[]
  {
    Event(identifier, time, map[])
  }

  /** The terminal event appended by stop. */
  function EndEvent(finishTime: real): Event
  {
    Plain(END_EVENT, finishTime)
  }

  /** Number of events in `s` whose identifier is `kind`. */
  function CountKind(s: seq<Event>, kind: string): nat
  {
    if s == [] then 0
    else (if s[0].identifier == kind then 1 else 0) + CountKind(s[1..], kind)
  }

  lemma {:induction false} CountKindAppend(a: seq<Event>, b: seq<Event>, kind: string)
    ensures CountKind(a + b, kind) == CountKind(a, kind) + CountKind(b, kind)
  {
    if a == [] {
      assert a + b == b;
    } else {
      assert (a + b)[1..] == a[1..] + b;
      CountKindAppend(a[1..], b, kind);
    }
  }

  /** Taking out the event at position `j` removes one copy of it and one from its kind's count. */
  lemma RemoveAt(t: seq<Event>, j: nat, kind: string)
    requires j < |t|
    ensures multiset(t[..j] + t[j + 1..]) == multiset(t) - multiset{t[j]}
    ensures CountKind(t, kind)
         == CountKind(t[..j] + t[j + 1..], kind) + (if t[j].identifier == kind then 1 else 0)
  {
    var x := t[j];
    RemoveAtPermutes(t, j);
    assert t == t[..j] + ([x] + t[j + 1..]);
    CountKindAppend(t[..j], [x] + t[j + 1..], kind);
    CountKindAppend([x], t[j + 1..], kind);
    CountKindAppend(t[..j], t[j + 1..], kind);
    assert CountKind([x], kind) == if x.identifier == kind then 1 else 0;
  }

  /** Taking out the event at position `j` removes one copy of it. */
  lemma RemoveAtPermutes(t: seq<Event>, j: nat)
    requires j < |t|
    ensures multiset(t[..j] + t[j + 1..]) == multiset(t) - multiset{t[j]}
  {
    var x := t[j];
    assert t == t[..j] + ([x] + t[j + 1..]);
    calc {
      multiset(t);
      multiset(t[..j]) + multiset([x] + t[j + 1..]);
      multiset(t[..j]) + multiset{x} + multiset(t[j + 1..]);
    }
  }

  /** Rearranging events does not change how many of each kind there are. */
  lemma {:induction false} CountKindPermutation(s: seq<Event>, t: seq<Event>, kind: string)
    requires multiset(s) == multiset(t)
    ensures CountKind(s, kind) == CountKind(t, kind)
    decreases |s|
  {
    if s == [] {
      assert |t| == |multiset(t)| == 0;
    } else {
      var j := MatchHead(s, t);
      RemoveAt(t, j, kind);
      CountKindPermutation(s[1..], t[..j] + t[j + 1..], kind);
    }
  }

  /** The head of `s` sits somewhere in a rearrangement `t`; without it the two still hold the same events. */
  lemma MatchHead(s: seq<Event>, t: seq<Event>) returns (j: nat)
    requires s != [] && multiset(s) == multiset(t)
    ensures j < |t| && t[j] == s[0]
    ensures multiset(s[1..]) == multiset(t[..j] + t[j + 1..])
  {
    var x := s[0];
    assert x in multiset(t);
    j :| 0 <= j < |t| && t[j] == x;
    RemoveAtPermutes(t, j);
    assert s == [x] + s[1..];
    assert multiset(s) == multiset{x} + multiset(s[1..]);
  }

  /** Removing the last event lowers the count of its kind by one and leaves the others alone. */
  lemma CountKindDropLast(s: seq<Event>, kind: string)
    requires s != []
    ensures CountKind(s, kind)
         == CountKind(s[..|s| - 1], kind) + (if s[|s| - 1].identifier == kind then 1 else 0)
  {
    var n := |s|;
    assert s == s[..n - 1] + [s[n - 1]];
    CountKindAppend(s[..n - 1], [s[n - 1]], kind);
    assert CountKind([s[n - 1]], kind) == if s[n - 1].identifier == kind then 1 else 0;
  }
}
