/**
  The pure part of `ItemStore` (ContentView4.swift): its commands, actions
  and side effects, the reducer, the command table of `send`, and the
  mapping of a finished lookup to its feedback action.
 */
module ItemStore {
  import opened Items

  /** Commands issued by the caller. */
  datatype Input = Add(item: Item) | Delete(item: Item) | Refresh(item: Item) | Initialize(items: seq<Item>)

  /** State transitions consumed by the reducer. */
  datatype Action =
    | Append(item: Item)
    | Remove(item: Item)
    | SetAll(items: seq<Item>)
    | UpdateScore(id: ItemId, score: int)
    | UpdateDate(id: ItemId, date: Date)

  /** Requests for asynchronous lookups about one item. */
  datatype SideEffect = FetchScore(item: Item) | FetchDate(item: Item)

  /** What an asynchronous computation delivered: a value or an error description. */
  datatype Result<+T> = Success(value: T) | Failure(error: string)

  /** What `launch` receives: an optional immediate action and the side effects to dispatch. */
  datatype Launch = Launch(action: Option<Action>, effects: seq<SideEffect>)

  /** True of the actions a resolved side effect feeds back (and of no action at all). */
  predicate IsFeedback(a: Option<Action>)
  {
    a.None? || a.value.UpdateScore? || a.value.UpdateDate?
  }

  /** `filter { $0.id != id }` over the state. */
  function Without(s: seq<Item>, id: ItemId): (r: seq<Item>)
    ensures |r| <= |s|
    ensures forall x :: x in r <==> x in s && x.id != id
    ensures (forall k :: 0 <= k < |s| ==> s[k].id != id) ==> r == s
  {
    if |s| == 0 then []
    else if s[0].id == id then Without(s[1..], id)
    else [s[0]] + Without(s[1..], id)
  }

  /** The filter keeps the original order: it distributes over concatenation. */
  lemma {:induction false} WithoutAppend(a: seq<Item>, b: seq<Item>, id: ItemId)
    ensures Without(a + b, id) == Without(a, id) + Without(b, id)
  {
    if |a| == 0 {
      assert a + b == b;
    } else {
      assert (a + b)[0] == a[0];
      assert (a + b)[1..] == a[1..] + b;
      WithoutAppend(a[1..], b, id);
    }
  }

  /** With unique ids, removing an id that is present shortens the list by exactly one. */
  lemma {:induction false} WithoutPresentUnique(s: seq<Item>, id: ItemId)
    requires forall i, j :: 0 <= i < j < |s| ==> s[i].id != s[j].id
    requires exists k :: 0 <= k < |s| && s[k].id == id
    ensures |Without(s, id)| == |s| - 1
  {
    if s[0].id == id {
      assert forall k :: 0 <= k < |s[1..]| ==> s[1..][k].id != id by {
        forall k | 0 <= k < |s[1..]| ensures s[1..][k].id != id {
          assert s[1..][k] == s[k + 1];
        }
      }
    } else {
      var k :| 0 <= k < |s| && s[k].id == id;
      assert s[1..][k - 1].id == id;
      WithoutPresentUnique(s[1..], id);
    }
  }

  /** `reducer(currentState:action:)`. */
  function Reducer(state: seq<Item>, action: Option<Action>): (r: seq<Item>)
    ensures action.None? ==> r == state
    ensures action.Some? && action.value.Append? ==>
      |r| == |state| + 1 && r[..|state|] == state && r[|state|] == action.value.item
    ensures action.Some? && action.value.Remove? ==>
      (forall x :: x in r <==> x in state && x.id != action.value.item.id) && |r| <= |state|
    ensures action.Some? && action.value.Remove? ==> r == Without(state, action.value.item.id)
    ensures action.Some? && action.value.SetAll? ==> r == action.value.items
    ensures IsFeedback(action) ==> Ids(r) == Ids(state)
    ensures action.Some? && action.value.UpdateScore? ==>
      forall k :: 0 <= k < |state| ==> r[k].date == state[k].date
    ensures action.Some? && action.value.UpdateDate? ==>
      forall k :: 0 <= k < |state| ==> r[k].score == state[k].score
    ensures IsFeedback(action) && action.Some? && action.value.id !in Ids(state) ==> r == state
  {
    match action
    case None => state
    case Some(Append(item)) => state + [item]
    case Some(Remove(item)) => Without(state, item.id)
    case Some(SetAll(items)) => items
    case Some(UpdateDate(id, date)) => UpdateItem(state, id, None, Some(Some(date)))
    case Some(UpdateScore(id, score)) => UpdateItem(state, id, Some(Some(score)), None)
  }

  /** A feedback action for a present id sets that field of the first item carrying it. */
  lemma FeedbackSetsFirstMatch(state: seq<Item>, a: Action)
    requires a.UpdateScore? || a.UpdateDate?
    requires a.id in Ids(state)
    ensures FirstIndex(state, a.id).Some?
    ensures var i := FirstIndex(state, a.id).value;
      var r := Reducer(state, Some(a));
      && (a.UpdateScore? ==> r[i] == state[i].(score := Some(a.score)))
      && (a.UpdateDate? ==> r[i] == state[i].(date := Some(a.date)))
      && forall k :: 0 <= k < |state| && k != i ==> r[k] == state[k]
  {
    var k :| 0 <= k < |state| && state[k].id == a.id;
  }

  /**
    Feedback actions of different kinds, or of the same kind for different
    ids, commute: the order in which lookups complete does not matter.
   */
  lemma FeedbackCommutes(state: seq<Item>, x: Action, y: Action)
    requires x.UpdateScore? || x.UpdateDate?
    requires y.UpdateScore? || y.UpdateDate?
    requires x.UpdateScore? == y.UpdateScore? ==> x.id != y.id
    ensures Reducer(Reducer(state, Some(x)), Some(y)) == Reducer(Reducer(state, Some(y)), Some(x))
  {
    var sx := Reducer(state, Some(x));
    var sy := Reducer(state, Some(y));
    FirstIndexOfSameIds(state, sx, y.id);
    FirstIndexOfSameIds(state, sy, x.id);
    var l := Reducer(sx, Some(y));
    var r := Reducer(sy, Some(x));
    assert |l| == |r|;
    forall k | 0 <= k < |l| ensures l[k] == r[k] {
    }
  }

  /**
    `scan(initialValue, reducer)`: the state after a series of actions. A
    `set` replaces whatever came before it.
   */
  function Fold(state: seq<Item>, actions: seq<Option<Action>>): (r: seq<Item>)
    ensures |actions| == 0 ==> r == state
    ensures |actions| > 0 && actions[|actions| - 1].Some? && actions[|actions| - 1].value.SetAll? ==>
      r == actions[|actions| - 1].value.items
    decreases |actions|
  {
    if |actions| == 0 then state
    else
      assert |actions| > 1 ==> actions[1..][|actions[1..]| - 1] == actions[|actions| - 1];
      Fold(Reducer(state, actions[0]), actions[1..])
  }

  /** Each value the fold reaches is the reducer applied to the previous one and the latest action. */
  lemma {:induction false} FoldLast(state: seq<Item>, actions: seq<Option<Action>>)
    requires |actions| > 0
    ensures Fold(state, actions) == Reducer(Fold(state, actions[..|actions| - 1]), actions[|actions| - 1])
    decreases |actions|
  {
    if |actions| > 1 {
      assert actions[..|actions| - 1][1..] == actions[1..][..|actions[1..]| - 1];
      assert actions[..|actions| - 1][0] == actions[0];
      FoldLast(Reducer(state, actions[0]), actions[1..]);
    }
  }

  /** Folding a concatenation folds the first part, then the second. */
  lemma {:induction false} FoldAppend(state: seq<Item>, a: seq<Option<Action>>, b: seq<Option<Action>>)
    ensures Fold(state, a + b) == Fold(Fold(state, a), b)
    decreases |a|
  {
    if |a| == 0 {
      assert a + b == b;
    } else {
      assert (a + b)[0] == a[0];
      assert (a + b)[1..] == a[1..] + b;
      FoldAppend(Reducer(state, a[0]), a[1..], b);
    }
  }

  /**
    However many feedback actions arrive, in whatever order, the ids in the
    state (and their order) stay the same.
   */
  lemma {:induction false} FeedbackKeepsIds(state: seq<Item>, actions: seq<Option<Action>>)
    requires forall k :: 0 <= k < |actions| ==> IsFeedback(actions[k])
    ensures Ids(Fold(state, actions)) == Ids(state)
    decreases |actions|
  {
    if |actions| > 0 {
      assert IsFeedback(actions[0]);
      assert forall k :: 0 <= k < |actions[1..]| ==> IsFeedback(actions[1..][k]) by {
        forall k | 0 <= k < |actions[1..]| ensures IsFeedback(actions[1..][k]) {
          assert actions[1..][k] == actions[k + 1];
        }
      }
      FeedbackKeepsIds(Reducer(state, actions[0]), actions[1..]);
    }
  }

  /** The commands' own actions in a history: what is left once the fed-back entries are dropped. */
  function Direct(actions: seq<Option<Action>>): (r: seq<Option<Action>>)
    ensures |r| <= |actions|
    ensures forall a :: a in r <==> a in actions && !IsFeedback(a)
  {
    if |actions| == 0 then []
    else (if IsFeedback(actions[0]) then [] else [actions[0]]) + Direct(actions[1..])
  }

  /** Dropping the feedback keeps the commands' actions in their own order: it distributes over concatenation. */
  lemma {:induction false} DirectAppend(a: seq<Option<Action>>, b: seq<Option<Action>>)
    ensures Direct(a + b) == Direct(a) + Direct(b)
  {
    if |a| == 0 {
      assert a + b == b;
    } else {
      assert (a + b)[0] == a[0];
      assert (a + b)[1..] == a[1..] + b;
      DirectAppend(a[1..], b);
    }
  }

  /** The ids of a list built from its first item and the rest. */
  lemma IdsCons(x: Item, s: seq<Item>)
    ensures Ids([x] + s) == [x.id] + Ids(s)
  {
    assert forall k :: 0 < k < |s| + 1 ==> ([x] + s)[k] == s[k - 1];
  }

  /** Removing an id from two lists with the same ids gives lists with the same ids. */
  lemma {:induction false} WithoutIds(s: seq<Item>, t: seq<Item>, id: ItemId)
    requires Ids(s) == Ids(t)
    ensures Ids(Without(s, id)) == Ids(Without(t, id))
  {
    if |s| > 0 {
      assert s == [s[0]] + s[1..] && t == [t[0]] + t[1..];
      IdsCons(s[0], s[1..]);
      IdsCons(t[0], t[1..]);
      assert s[0].id == t[0].id && Ids(s[1..]) == Ids(t[1..]);
      WithoutIds(s[1..], t[1..], id);
      if s[0].id != id {
        IdsCons(s[0], Without(s[1..], id));
        IdsCons(t[0], Without(t[1..], id));
      }
    }
  }

  /** The ids after one reducer step depend only on the ids before it. */
  lemma StepIds(s: seq<Item>, t: seq<Item>, a: Option<Action>)
    requires Ids(s) == Ids(t)
    ensures Ids(Reducer(s, a)) == Ids(Reducer(t, a))
  {
    match a
    case None =>
    case Some(Append(item)) =>
      assert Ids(s + [item]) == Ids(s) + [item.id];
      assert Ids(t + [item]) == Ids(t) + [item.id];
    case Some(Remove(item)) => WithoutIds(s, t, item.id);
    case Some(SetAll(_)) =>
    case Some(UpdateScore(_, _)) =>
    case Some(UpdateDate(_, _)) =>
  }

  /**
    Feedback can arrive at any point between commands, stray or not: the ids
    in the state are those the commands' own actions alone produce.
   */
  lemma {:induction false} IdsIgnoreFeedback(s: seq<Item>, t: seq<Item>, actions: seq<Option<Action>>)
    requires Ids(s) == Ids(t)
    ensures Ids(Fold(s, actions)) == Ids(Fold(t, Direct(actions)))
    decreases |actions|
  {
    if |actions| > 0 {
      var a := actions[0];
      var rest := Direct(actions[1..]);
      if IsFeedback(a) {
        assert Direct(actions) == rest;
        IdsIgnoreFeedback(Reducer(s, a), t, actions[1..]);
      } else {
        assert Direct(actions) == [a] + rest;
        assert ([a] + rest)[0] == a && ([a] + rest)[1..] == rest;
        StepIds(s, t, a);
        IdsIgnoreFeedback(Reducer(s, a), Reducer(t, a), actions[1..]);
      }
    }
  }

  /** `array.flatMap { [.fetchScore($0), .fetchDate($0)] }`. */
  function FetchesFor(items: seq<Item>): (r: seq<SideEffect>)
    ensures |r| == 2 * |items|
    ensures forall k :: 0 <= k < |items| ==> r[2 * k] == FetchScore(items[k]) && r[2 * k + 1] == FetchDate(items[k])
  {
    if |items| == 0 then []
    else
      var rest := FetchesFor(items[1..]);
      assert forall k :: 1 <= k < |items| ==> items[k] == items[1..][k - 1];
      [FetchScore(items[0]), FetchDate(items[0])] + rest
  }

  /** Every side effect of `FetchesFor(items)` is about one of `items`. */
  lemma {:induction false} FetchesForTargets(items: seq<Item>, e: SideEffect)
    requires e in FetchesFor(items)
    ensures e.item in items
  {
    var r := FetchesFor(items);
    var j :| 0 <= j < |r| && r[j] == e;
    var k := j / 2;
    assert j == 2 * k || j == 2 * k + 1;
    assert r[2 * k] == FetchScore(items[k]) && r[2 * k + 1] == FetchDate(items[k]);
  }

  /** The command table of `send(_:)`. */
  function Send(input: Input): (l: Launch)
    ensures input.Add? ==>
      l.action == Some(Append(input.item)) && l.effects == [FetchScore(input.item), FetchDate(input.item)]
    ensures input.Delete? ==> l.action == Some(Remove(input.item)) && l.effects == []
    ensures input.Refresh? ==> l.action.None? && l.effects == [FetchScore(input.item), FetchDate(input.item)]
    ensures input.Initialize? ==>
      && l.action == Some(SetAll(input.items))
      && |l.effects| == 2 * |input.items|
      && forall k :: 0 <= k < |input.items| ==>
           l.effects[2 * k] == FetchScore(input.items[k]) && l.effects[2 * k + 1] == FetchDate(input.items[k])
  {
    match input
    case Add(item) => Launch(Some(Append(item)), [FetchScore(item), FetchDate(item)])
    case Delete(item) => Launch(Some(Remove(item)), [])
    case Refresh(item) => Launch(None, [FetchScore(item), FetchDate(item)])
    case Initialize(items) => Launch(Some(SetAll(items)), FetchesFor(items))
  }

  /**
    After `add` or `initialize`, every lookup the command dispatches is about an
    item the immediate action has just put in the state.
   */
  lemma SendTargetsNewState(state: seq<Item>, input: Input, e: SideEffect)
    requires input.Add? || input.Initialize?
    requires e in Send(input).effects
    ensures e.item in Reducer(state, Send(input).action)
  {
    if input.Initialize? {
      FetchesForTargets(input.items, e);
    } else {
      var r := Reducer(state, Send(input).action);
      assert r[|state|] == input.item;
    }
  }

  /**
    `resolveSideEffect(_:)`, given what the provider delivered: a score
    lookup yields `updateScore` and a date lookup `updateDate`, both for the
    id of the item the effect was issued for; a failure passes through.
   */
  function ResolveSideEffect(effect: SideEffect, fetched: Result<int>): (r: Result<Action>)
    ensures r.Success? <==> fetched.Success?
    ensures r.Failure? ==> r.error == fetched.error
    ensures r.Success? ==> (r.value.UpdateScore? || r.value.UpdateDate?) && r.value.id == effect.item.id
    ensures r.Success? ==> (r.value.UpdateScore? <==> effect.FetchScore?)
    ensures r.Success? && effect.FetchScore? ==> r.value.score == fetched.value
    ensures r.Success? && effect.FetchDate? ==> r.value.date == fetched.value
  {
    match fetched
    case Failure(e) => Failure(e)
    case Success(v) =>
      match effect
      case FetchScore(item) => Success(UpdateScore(item.id, v))
      case FetchDate(item) => Success(UpdateDate(item.id, v))
  }

  /** `.map { $0 }` / `.catch { Just(nil) }`: the optional action a resolution feeds back. */
  function Feedback(r: Result<Action>): (a: Option<Action>)
    ensures a.Some? <==> r.Success?
    ensures a.Some? ==> a.value == r.value
  {
    match r
    case Success(action) => Some(action)
    case Failure(_) => None
  }

  /** What a resolution feeds back is always a feedback action, about the effect's item. */
  lemma ResolutionIsFeedback(effect: SideEffect, fetched: Result<int>)
    ensures IsFeedback(Feedback(ResolveSideEffect(effect, fetched)))
    ensures Feedback(ResolveSideEffect(effect, fetched)).Some? ==>
      Feedback(ResolveSideEffect(effect, fetched)).value.id == effect.item.id
  {
  }
}
