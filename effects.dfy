/** The observable effects of the lifecycle operations, in the order they
    happen: which method was called on which object, and which completion
    callbacks ran. Log output is not an effect here; operations return their
    log lines instead. */
module Effects {
  import opened JsValues

  /** The lifecycle methods whose invocation is observable. */
  datatype Op =
    | Connect | Disconnect | Halt | Start
    | StartConnections | StartDevices | StartApi | Work
    /** `emit(event)`. */
    | Emit(event: string)
    /** A command invoked by name with positional parameters. */
    | Invoke(command: string, params: seq<Value>)

  datatype Event =
    /** `receiver.op(...)` was invoked. */
    | Call(receiver: object, op: Op)
    /** The completion callback handed to `owner` ran with these arguments. */
    | Callback(owner: object, args: seq<Value>)

  /** The record of effects, shared by every object that takes part in a run. */
  class Journal {
    var events: seq<Event>

    constructor ()
      ensures events == []
    {
      events := [];
    }

    method Record(e: Event)
      modifies this
      ensures events == old(events) + [e]
    {
      events := events + [e];
    }
  }

  /** The effects of visiting every element of `xs` in order, `f(x)` for each. */
  function FlatMap<T>(xs: seq<T>, f: T -> seq<Event>): seq<Event>
    decreases |xs|
  {
    if xs == [] then [] else FlatMap(xs[..|xs| - 1], f) + f(xs[|xs| - 1])
  }

  lemma FlatMapSnoc<T>(xs: seq<T>, x: T, f: T -> seq<Event>)
    ensures FlatMap(xs + [x], f) == FlatMap(xs, f) + f(x)
  {
    assert (xs + [x])[..|xs|] == xs;
  }

  /** Visiting one more element of `xs` appends that element's effects. */
  lemma FlatMapStep<T>(xs: seq<T>, i: nat, f: T -> seq<Event>)
    requires i < |xs|
    ensures FlatMap(xs[..i + 1], f) == FlatMap(xs[..i], f) + f(xs[i])
  {
    assert xs[..i + 1][..i] == xs[..i];
  }

  /** An event no visit produces is absent from the whole visit. */
  lemma {:induction false} FlatMapAbsent<T>(xs: seq<T>, f: T -> seq<Event>, e: Event)
    requires forall y :: y in xs ==> e !in f(y)
    ensures e !in FlatMap(xs, f)
    decreases |xs|
  {
    if xs != [] {
      var init := xs[..|xs| - 1];
      assert forall y :: y in init ==> y in xs;
      FlatMapAbsent(init, f, e);
    }
  }

  /** When the elements are distinct and only the visit of `x` produces `e`,
      and it does so once, the whole visit produces `e` exactly once. */
  lemma {:induction false} FlatMapOnce<T>(xs: seq<T>, f: T -> seq<Event>, x: T, e: Event)
    requires Distinct(xs) && x in xs
    requires multiset(f(x))[e] == 1
    requires forall y :: y in xs && y != x ==> e !in f(y)
    ensures multiset(FlatMap(xs, f))[e] == 1
    decreases |xs|
  {
    var init, last := xs[..|xs| - 1], xs[|xs| - 1];
    assert xs == init + [last];
    assert FlatMap(xs, f) == FlatMap(init, f) + f(last);
    if last == x {
      assert x !in init;
      assert forall y :: y in init ==> y in xs && y != x;
      FlatMapAbsent(init, f, e);
    } else {
      assert Distinct(init);
      assert x in init;
      assert forall y :: y in init && y != x ==> y in xs;
      FlatMapOnce(init, f, x, e);
      assert e !in f(last);
    }
  }

  /** In `a + b`, an event absent from `b` comes before an event absent from `a`. */
  lemma SplitOrder(a: seq<Event>, b: seq<Event>, i: nat, k: nat)
    requires i < |a + b| && k < |a + b|
    requires (a + b)[i] !in b && (a + b)[k] !in a
    ensures i < |a| <= k
  {
  }

  /** Visiting `a` and then `b` is visiting `a + b`. */
  lemma {:induction false} FlatMapAppend<T>(a: seq<T>, b: seq<T>, f: T -> seq<Event>)
    ensures FlatMap(a + b, f) == FlatMap(a, f) + FlatMap(b, f)
    decreases |b|
  {
    if b != [] {
      var init, last := b[..|b| - 1], b[|b| - 1];
      assert b == init + [last];
      assert a + b == (a + init) + [last];
      FlatMapSnoc(a + init, last, f);
      FlatMapAppend(a, init, f);
      FlatMapSnoc(init, last, f);
      AppendAssoc(FlatMap(a, f), FlatMap(init, f), f(last));
    } else {
      assert a + b == a;
    }
  }

  /** When only the visit at position `i` produces `e`, and it does so once,
      the whole visit produces `e` exactly once. */
  lemma {:induction false} FlatMapOnceAt<T>(xs: seq<T>, f: T -> seq<Event>, i: nat, e: Event)
    requires i < |xs| && multiset(f(xs[i]))[e] == 1
    requires forall k :: 0 <= k < |xs| && k != i ==> e !in f(xs[k])
    ensures multiset(FlatMap(xs, f))[e] == 1
    decreases |xs|
  {
    var n := |xs| - 1;
    var init := xs[..n];
    assert FlatMap(xs, f) == FlatMap(init, f) + f(xs[n]);
    if i == n {
      forall y | y in init ensures e !in f(y) {
        var k :| 0 <= k < n && init[k] == y;
        assert xs[k] == y;
      }
      FlatMapAbsent(init, f, e);
    } else {
      assert forall k :: 0 <= k < n ==> init[k] == xs[k];
      FlatMapOnceAt(init, f, i, e);
    }
  }

  /** When `e1` is produced only by visits before position `j` and `e2` only
      by visits from `j` on, every `e1` in the whole visit comes before every `e2`. */
  lemma FlatMapOrder<T>(xs: seq<T>, f: T -> seq<Event>, j: nat, e1: Event, e2: Event, p: nat, q: nat)
    requires j <= |xs|
    requires forall k :: j <= k < |xs| ==> e1 !in f(xs[k])
    requires forall k :: 0 <= k < j ==> e2 !in f(xs[k])
    requires p < |FlatMap(xs, f)| && FlatMap(xs, f)[p] == e1
    requires q < |FlatMap(xs, f)| && FlatMap(xs, f)[q] == e2
    ensures p < q
  {
    var a, b := xs[..j], xs[j..];
    assert xs == a + b;
    FlatMapAppend(a, b, f);
    forall y | y in b ensures e1 !in f(y) {
      var k :| 0 <= k < |b| && b[k] == y;
      assert xs[j + k] == y;
    }
    FlatMapAbsent(b, f, e1);
    forall y | y in a ensures e2 !in f(y) {
      var k :| 0 <= k < |a| && a[k] == y;
      assert xs[k] == y;
    }
    FlatMapAbsent(a, f, e2);
    SplitOrder(FlatMap(a, f), FlatMap(b, f), p, q);
  }

  /** One run's effects, each run flattened as it is: the element map of `Concat`. */
  function RunEvents(t: seq<Event>): seq<Event> {
    t
  }

  /** The effects of several runs, one after the other. */
  function Concat(ts: seq<seq<Event>>): seq<Event> {
    FlatMap(ts, RunEvents)
  }

  lemma AppendAssoc(a: seq<Event>, b: seq<Event>, c: seq<Event>)
    ensures a + b + c == a + (b + c)
  {
  }
}
