/**
  The item record and the list helper `updateItem` of ArchiTemplate's
  ContentView4.swift.
 */
module Items {

  /** Swift's `Optional`. */
  datatype Option<+T> = None | Some(value: T)

  /** A Foundation `Date`, kept opaque: a whole number of seconds. */
  type Date = int

  /** An item's identifier; the source draws a fresh UUID when an item is created. */
  type ItemId = nat

  /** An item: an immutable id, a name, and two fields filled in by lookups. */
  datatype Item = Item(id: ItemId, name: string, score: Option<int>, date: Option<Date>)

  /** The ids of a list of items, in list order. */
  function Ids(s: seq<Item>): (r: seq<ItemId>)
    ensures |r| == |s| && forall k :: 0 <= k < |s| ==> r[k] == s[k].id
  {
    seq(|s|, k requires 0 <= k < |s| => s[k].id)
  }

  /** `firstIndex(where: { $0.id == id })`: the first position holding `id`, if any. */
  function FirstIndex(s: seq<Item>, id: ItemId): (r: Option<nat>)
    ensures r.None? <==> forall k :: 0 <= k < |s| ==> s[k].id != id
    ensures r.None? <==> id !in Ids(s)
    ensures r.Some? ==> r.value < |s| && s[r.value].id == id
    ensures r.Some? ==> forall k :: 0 <= k < r.value ==> s[k].id != id
  {
    if |s| == 0 then None
    else if s[0].id == id then assert Ids(s)[0] == id; Some(0)
    else match FirstIndex(s[1..], id)
      case None => None
      case Some(i) => Some(i + 1)
  }

  /**
    `updateItem(id:score:date:)`: overwrite the score and/or the date of the
    first item carrying `id`. An outer `None` leaves that field alone; an
    outer `Some(v)` stores `v` (which may itself be `None`).
   */
  function UpdateItem(s: seq<Item>, id: ItemId, score: Option<Option<int>>, date: Option<Option<Date>>): (r: seq<Item>)
    ensures |r| == |s|
    ensures FirstIndex(s, id).None? ==> r == s
    ensures forall k :: 0 <= k < |s| ==> r[k].id == s[k].id && r[k].name == s[k].name
    ensures forall k :: 0 <= k < |s| && FirstIndex(s, id) != Some(k) ==> r[k] == s[k]
    ensures FirstIndex(s, id).Some? ==>
      var i := FirstIndex(s, id).value;
      && (score.Some? ==> r[i].score == score.value)
      && (score.None? ==> r[i].score == s[i].score)
      && (date.Some? ==> r[i].date == date.value)
      && (date.None? ==> r[i].date == s[i].date)
  {
    match FirstIndex(s, id)
    case None => s
    case Some(index) =>
      var withScore := if score.Some? then s[index].(score := score.value) else s[index];
      var withDate := if date.Some? then withScore.(date := date.value) else withScore;
      s[index := withDate]
  }

  /** Two lists with the same ids at every index find the same first index. */
  lemma {:induction false} FirstIndexOfSameIds(s: seq<Item>, t: seq<Item>, id: ItemId)
    requires |s| == |t|
    requires forall k :: 0 <= k < |s| ==> s[k].id == t[k].id
    ensures FirstIndex(s, id) == FirstIndex(t, id)
  {
    if |s| > 0 && s[0].id != id {
      FirstIndexOfSameIds(s[1..], t[1..], id);
    }
  }

  /** Applying the same update twice is the same as applying it once. */
  lemma UpdateItemIdempotent(s: seq<Item>, id: ItemId, score: Option<Option<int>>, date: Option<Option<Date>>)
    ensures UpdateItem(UpdateItem(s, id, score, date), id, score, date) == UpdateItem(s, id, score, date)
  {
    var once := UpdateItem(s, id, score, date);
    FirstIndexOfSameIds(s, once, id);
  }
}
