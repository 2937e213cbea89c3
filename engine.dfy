/**
  The bookkeeping engine of `WithMachine.setup` and `launch`
  (ContentView4.swift), instantiated for `ItemStore`. The reactive pipeline
  becomes a sequential machine: the caller decides when a command is
  submitted and which in-flight lookup resolves next, with what outcome.
 */
module Engine {
  import opened Items
  import opened ItemStore

  /** An entry of `currentSideEffects`: a dispatch id and the side effect it tracks. */
  datatype Pending = Pending(id: nat, effect: SideEffect)

  /** The dispatch ids of the in-flight entries, in order. */
  function PendingIds(p: seq<Pending>): (r: seq<nat>)
    ensures |r| == |p| && forall k :: 0 <= k < |p| ==> r[k] == p[k].id
  {
    seq(|p|, k requires 0 <= k < |p| => p[k].id)
  }

  /** No two in-flight entries share a dispatch id. */
  predicate DistinctIds(p: seq<Pending>)
  {
    forall i, j :: 0 <= i < j < |p| ==> p[i].id != p[j].id
  }

  /** The entries a batch of side effects gets when dispatched from id `start` on. */
  function Entries(start: nat, effects: seq<SideEffect>): (r: seq<Pending>)
    ensures |r| == |effects|
    ensures forall k :: 0 <= k < |effects| ==> r[k] == Pending(start + k, effects[k])
    ensures DistinctIds(r) && forall k :: 0 <= k < |r| ==> start <= r[k].id < start + |effects|
  {
    seq(|effects|, k requires 0 <= k < |effects| => Pending(start + k, effects[k]))
  }

  /** `currentSideEffects.value.filter { $0.0 != id }`. */
  function Drop(p: seq<Pending>, id: nat): (r: seq<Pending>)
    ensures |r| <= |p|
    ensures forall e :: e in r <==> e in p && e.id != id
  {
    if |p| == 0 then []
    else if p[0].id == id then Drop(p[1..], id)
    else [p[0]] + Drop(p[1..], id)
  }

  /** The filter keeps the in-flight order: it distributes over concatenation. */
  lemma {:induction false} DropAppend(a: seq<Pending>, b: seq<Pending>, id: nat)
    ensures Drop(a + b, id) == Drop(a, id) + Drop(b, id)
  {
    if |a| == 0 {
      assert a + b == b;
    } else {
      assert (a + b)[0] == a[0];
      assert (a + b)[1..] == a[1..] + b;
      DropAppend(a[1..], b, id);
    }
  }

  /** Dropping an id shared by no entry keeps the list as it is. */
  lemma {:induction false} DropAbsent(p: seq<Pending>, id: nat)
    requires id !in PendingIds(p)
    ensures Drop(p, id) == p
  {
    if |p| > 0 {
      assert PendingIds(p)[0] == p[0].id;
      assert forall k :: 0 <= k < |p| - 1 ==> PendingIds(p[1..])[k] == PendingIds(p)[k + 1];
      DropAbsent(p[1..], id);
    }
  }

  /** With distinct ids, dropping one that is present removes exactly one entry. */
  lemma {:induction false} DropPresent(p: seq<Pending>, id: nat)
    requires DistinctIds(p)
    requires id in PendingIds(p)
    ensures |Drop(p, id)| == |p| - 1
    ensures DistinctIds(Drop(p, id))
  {
    if p[0].id == id {
      assert forall k :: 0 <= k < |p| - 1 ==> PendingIds(p[1..])[k] == PendingIds(p)[k + 1] != id;
      DropAbsent(p[1..], id);
    } else {
      var k :| 0 <= k < |p| && PendingIds(p)[k] == id;
      assert PendingIds(p[1..])[k - 1] == id;
      DropPresent(p[1..], id);
      var rest := Drop(p[1..], id);
      forall j | 0 <= j < |rest| ensures p[0].id != rest[j].id {
        assert rest[j] in p[1..];
      }
    }
  }

  /** The side effect tracked under dispatch id `id`, if it is in flight. */
  function Lookup(p: seq<Pending>, id: nat): (r: Option<SideEffect>)
    ensures r.None? <==> id !in PendingIds(p)
    ensures r.Some? ==> Pending(id, r.value) in p
  {
    if |p| == 0 then None
    else if p[0].id == id then Some(p[0].effect)
    else
      assert forall k :: 0 <= k < |p| - 1 ==> PendingIds(p[1..])[k] == PendingIds(p)[k + 1];
      Lookup(p[1..], id)
  }

  /**
    The engine. `state` is the running value of the `scan` over direct and
    fed-back actions; `inFlight` is `currentSideEffects`; `errors` is the
    error log; `nextId` stands for the fresh UUID drawn per dispatch.
   */
  class Machine {
    var state: seq<Item>
    var inFlight: seq<Pending>
    var errors: seq<string>
    var nextId: nat

    /** The initial state and every action the `scan` has received, in order. */
    ghost var initial: seq<Item>
    ghost var received: seq<Option<Action>>
    /** How many dispatched side effects have resolved, successfully or not. */
    ghost var resolved: nat

    ghost predicate Valid()
      reads this
    {
      && state == Fold(initial, received)
      && DistinctIds(inFlight)
      && (forall k :: 0 <= k < |inFlight| ==> inFlight[k].id < nextId)
      && |inFlight| + resolved == nextId
    }

    /** `setup(initialValue:bag:)`: nothing in flight, no errors yet. */
    constructor (initialValue: seq<Item>)
      ensures Valid()
      ensures state == initialValue && inFlight == [] && errors == [] && nextId == 0
      ensures initial == initialValue && received == [] && resolved == 0
    {
      state := initialValue;
      inFlight := [];
      errors := [];
      nextId := 0;
      initial := initialValue;
      received := [];
      resolved := 0;
    }

    /** The published triple `(state, currentSideEffects.count, errors)`. */
    method Published() returns (items: seq<Item>, loading: nat, log: seq<string>)
      requires Valid()
      ensures items == state && log == errors
      ensures loading == |inFlight| && loading == nextId - resolved
      ensures Ids(items) == Ids(Fold(initial, Direct(received)))
    {
      IdsIgnoreFeedback(initial, initial, received);
      items, loading, log := state, |inFlight|, errors;
    }

    /** One step of `merge(with: action).scan(initialValue, reducer)`. */
    method Apply(action: Option<Action>)
      requires Valid()
      modifies this
      ensures Valid()
      ensures state == Reducer(old(state), action) && received == old(received) + [action]
      ensures inFlight == old(inFlight) && errors == old(errors) && nextId == old(nextId)
      ensures initial == old(initial) && resolved == old(resolved)
    {
      FoldAppend(initial, received, [action]);
      state := Reducer(state, action);
      received := received + [action];
    }

    /** `.map { (UUID(), $0) }` and the append to `currentSideEffects`. */
    method Dispatch(effect: SideEffect)
      requires Valid()
      modifies this
      ensures Valid()
      ensures inFlight == old(inFlight) + [Pending(old(nextId), effect)] && nextId == old(nextId) + 1
      ensures state == old(state) && errors == old(errors)
      ensures initial == old(initial) && received == old(received) && resolved == old(resolved)
    {
      inFlight := inFlight + [Pending(nextId, effect)];
      nextId := nextId + 1;
    }

    /** `launch(_:then:)`: apply the action, then dispatch every side effect in order. */
    method Launch(action: Option<Action>, effects: seq<SideEffect>)
      requires Valid()
      modifies this
      ensures Valid()
      ensures state == Reducer(old(state), action) && received == old(received) + [action]
      ensures inFlight == old(inFlight) + Entries(old(nextId), effects)
      ensures nextId == old(nextId) + |effects| && errors == old(errors)
      ensures initial == old(initial) && resolved == old(resolved)
    {
      Apply(action);
      for k := 0 to |effects|
        invariant Valid()
        invariant state == Reducer(old(state), action) && received == old(received) + [action]
        invariant inFlight == old(inFlight) + Entries(old(nextId), effects[..k])
        invariant nextId == old(nextId) + k && errors == old(errors)
        invariant initial == old(initial) && resolved == old(resolved)
      {
        assert Entries(old(nextId), effects[..k + 1]) == Entries(old(nextId), effects[..k]) + [Pending(old(nextId) + k, effects[k])];
        Dispatch(effects[k]);
      }
      assert effects[..|effects|] == effects;
    }

    /** `send(_:)`: launch what the command table gives for `input`. */
    method Submit(input: Input)
      requires Valid()
      modifies this
      ensures Valid()
      ensures state == Reducer(old(state), Send(input).action)
      ensures received == old(received) + [Send(input).action]
      ensures inFlight == old(inFlight) + Entries(old(nextId), Send(input).effects)
      ensures nextId == old(nextId) + |Send(input).effects| && errors == old(errors)
      ensures initial == old(initial) && resolved == old(resolved)
    {
      var l := Send(input);
      Launch(l.action, l.effects);
    }

    /**
      The end of one side effect's resolution: on failure the error is
      logged; on success and failure alike the entry leaves the in-flight
      list; the feedback (an action, or nothing) goes through the reducer.
     */
    method Resolve(id: nat, fetched: Result<int>)
      requires Valid()
      requires id in PendingIds(inFlight)
      modifies this
      ensures Valid()
      ensures var result := ResolveSideEffect(old(Lookup(inFlight, id)).value, fetched);
        && errors == (if result.Failure? then old(errors) + [result.error] else old(errors))
        && state == Reducer(old(state), Feedback(result))
        && received == old(received) + [Feedback(result)]
      ensures inFlight == Drop(old(inFlight), id) && |inFlight| == |old(inFlight)| - 1
      ensures fetched.Failure? ==> state == old(state) && |errors| == |old(errors)| + 1
      ensures fetched.Success? ==> errors == old(errors)
      ensures nextId == old(nextId) && initial == old(initial) && resolved == old(resolved) + 1
    {
      var effect := Lookup(inFlight, id).value;
      var result := ResolveSideEffect(effect, fetched);
      if result.Failure? {
        errors := errors + [result.error];
      }
      DropPresent(inFlight, id);
      inFlight := Drop(inFlight, id);
      resolved := resolved + 1;
      Apply(Feedback(result));
    }
  }

  /**
    `add(x)`: both lookups are in flight; once both succeed the item carries
    its score and its date and nothing is in flight any more.
   */
  method AddThenBothResolve(x: Item, score: int, date: Date)
  {
    var m := new Machine([]);
    m.Submit(Add(x));
    assert m.inFlight == [Pending(0, FetchScore(x)), Pending(1, FetchDate(x))];
    assert PendingIds(m.inFlight)[0] == 0;
    m.Resolve(0, Success(score));
    assert m.inFlight[0] == Pending(1, FetchDate(x));
    assert PendingIds(m.inFlight)[0] == 1;
    m.Resolve(1, Success(date));
    assert |m.inFlight| == 0 && m.errors == [];
    assert m.state[0].id == x.id;
    assert FirstIndex([x], x.id) == Some(0);
    assert |m.state| == 1 && m.state[0] == x.(score := Some(score), date := Some(date));
  }

  /**
    `initialize([a, b])` then `delete(a)`; a's score lookup then succeeds.
    The stray feedback is absorbed: the state is `[b]`.
   */
  method DeleteThenStrayScore(a: Item, b: Item, score: int)
    requires a.id != b.id
  {
    var m := new Machine([]);
    m.Submit(Initialize([a, b]));
    assert m.inFlight[0] == Pending(0, FetchScore(a));
    assert PendingIds(m.inFlight)[0] == 0;
    m.Submit(Delete(a));
    assert m.state == [b];
    assert m.inFlight[0] == Pending(0, FetchScore(a));
    assert PendingIds(m.inFlight)[0] == 0;
    m.Resolve(0, Success(score));
    assert Ids(m.state)[0] == b.id;
    assert m.state == [b];
    assert |m.inFlight| == 3;
  }

  /**
    A failed score lookup for `y`: one more error, the state unchanged, one
    entry fewer in flight.
   */
  method FailedScoreLookup(y: Item, message: string)
  {
    var m := new Machine([]);
    m.Submit(Add(y));
    assert PendingIds(m.inFlight)[0] == 0;
    m.Resolve(0, Failure(message));
    assert m.errors == [message];
    assert m.state == [y];
    assert |m.inFlight| == 1;
  }
}
