/** The filter in `get_pickup_dates`: from the items the collections API returns,
    keep those of type "collection" and reduce each to its timestamp, a printed
    date, the Dutch fraction name and the fraction colour. */
module Schedule {
  import opened Text
  import opened Dates

  datatype Fraction = Fraction(nameNl: string, color: string)

  /** One parsed element of the response's `items` list. */
  datatype Item = Item(itemType: string, timestamp: string, fraction: Fraction)

  /** The hash pushed onto `pickup_events_simple`. */
  datatype Pickup = Pickup(timestamp: string, formattedTimestamp: string, fraction: string, color: string)

  predicate IsCollection(item: Item)
  {
    item.itemType == "collection"
  }

  /** The pickup built for one item; `None` where `Date.parse` raises on its timestamp. */
  function PickupOf(item: Item): (r: Option<Pickup>)
    ensures r.Some? <==> ParseIsoDate(item.timestamp).Some?
    ensures r.Some? ==> && r.value.timestamp == item.timestamp
                        && r.value.formattedTimestamp == FormatLabel(ParseIsoDate(item.timestamp).value)
                        && r.value.fraction == item.fraction.nameNl
                        && r.value.color == item.fraction.color
  {
    match ParseIsoDate(item.timestamp)
    case Some(d) => Some(Pickup(item.timestamp, FormatLabel(d), item.fraction.nameNl, item.fraction.color))
    case None => None
  }

  /** The pickups of the collection items, in order; `None` when building one raises,
      which ends the request. */
  function Normalize(items: seq<Item>): Option<seq<Pickup>>
  {
    if items == [] then Some([])
    else
      var last := items[|items| - 1];
      match Normalize(items[..|items| - 1])
      case None => None
      case Some(ps) =>
        if !IsCollection(last) then Some(ps)
        else match PickupOf(last)
          case None => None
          case Some(p) => Some(ps + [p])
  }

  /** The indices of the collection items, ascending. */
  function CollectionIndices(items: seq<Item>): (idx: seq<nat>)
    ensures |idx| <= |items|
    ensures forall j :: 0 <= j < |idx| ==> idx[j] < |items| && IsCollection(items[idx[j]])
    ensures forall j, j' :: 0 <= j < j' < |idx| ==> idx[j] < idx[j']
    ensures forall i :: 0 <= i < |items| && IsCollection(items[i]) ==> i in idx
  {
    if items == [] then []
    else
      var n := |items| - 1;
      var front := CollectionIndices(items[..n]);
      assert forall i :: 0 <= i < n ==> items[..n][i] == items[i];
      front + if IsCollection(items[n]) then [n] else []
  }

  /** The loop of `get_pickup_dates`: walk the items in order and push a pickup for
      each collection item. */
  method CollectPickups(items: seq<Item>) returns (r: Option<seq<Pickup>>)
    ensures r == Normalize(items)
  {
    var pickups: seq<Pickup> := [];
    var i := 0;
    while i < |items|
      invariant 0 <= i <= |items|
      invariant Normalize(items[..i]) == Some(pickups)
    {
      var item := items[i];
      assert items[..i + 1][..i] == items[..i];
      if item.itemType == "collection" {
        var date := ParseIsoDate(item.timestamp);
        if date.None? {
          NormalizeFailureSticks(items, i + 1);
          return None;
        }
        var pickup := Pickup(item.timestamp, FormatLabel(date.value), item.fraction.nameNl, item.fraction.color);
        pickups := pickups + [pickup];
      }
      i := i + 1;
    }
    assert items[..i] == items;
    return Some(pickups);
  }

  /** Once building a pickup has raised, no later item undoes it. */
  lemma {:induction false} NormalizeFailureSticks(items: seq<Item>, n: nat)
    requires n <= |items| && Normalize(items[..n]).None?
    ensures Normalize(items).None?
    decreases |items| - n
  {
    if n < |items| {
      assert items[..n + 1][..n] == items[..n];
      NormalizeFailureSticks(items, n + 1);
    } else {
      assert items[..n] == items;
    }
  }

  /** The filter fails exactly when some collection item's timestamp does not parse. */
  lemma {:induction false} NormalizeFails(items: seq<Item>)
    ensures Normalize(items).None? <==>
              exists i :: 0 <= i < |items| && IsCollection(items[i]) && ParseIsoDate(items[i].timestamp).None?
  {
    if items != [] {
      var n := |items| - 1;
      NormalizeFails(items[..n]);
      assert forall i :: 0 <= i < n ==> items[..n][i] == items[i];
    }
  }

  /** The output holds one pickup per collection item, in the items' order, each
      copying its item's timestamp, Dutch fraction name and colour. */
  lemma {:induction false} NormalizeKeepsCollections(items: seq<Item>)
    requires Normalize(items).Some?
    ensures var out, idx := Normalize(items).value, CollectionIndices(items);
            && |out| == |idx| <= |items|
            && forall j :: 0 <= j < |out| ==>
                 && PickupOf(items[idx[j]]) == Some(out[j])
                 && out[j].timestamp == items[idx[j]].timestamp
                 && out[j].fraction == items[idx[j]].fraction.nameNl
                 && out[j].color == items[idx[j]].fraction.color
  {
    if items != [] {
      var n := |items| - 1;
      var prefix := items[..n];
      NormalizeKeepsCollections(prefix);
      var front, frontOut := CollectionIndices(prefix), Normalize(prefix).value;
      var out, idx := Normalize(items).value, CollectionIndices(items);
      if IsCollection(items[n]) {
        assert out == frontOut + [PickupOf(items[n]).value];
        assert idx == front + [n];
      } else {
        assert out == frontOut;
        assert idx == front;
      }
      forall j | 0 <= j < |frontOut|
        ensures idx[j] == front[j] && out[j] == frontOut[j] && items[idx[j]] == prefix[front[j]]
      {
      }
    }
  }

  /** Every pickup the filter produces carries a timestamp `Date.parse` accepts. */
  lemma {:induction false} NormalizedTimestampsParse(items: seq<Item>)
    requires Normalize(items).Some?
    ensures forall p :: p in Normalize(items).value ==> ParseIsoDate(p.timestamp).Some?
  {
    if items != [] {
      NormalizedTimestampsParse(items[..|items| - 1]);
    }
  }

  /** One collection item and one other item give exactly one pickup. */
  lemma OneCollectionOneOther(c: Item, other: Item)
    requires IsCollection(c) && !IsCollection(other) && ParseIsoDate(c.timestamp).Some?
    ensures Normalize([c, other]) == Some([PickupOf(c).value])
  {
    var p := PickupOf(c).value;
    assert [c][..0] == [];
    assert Normalize([c][..0]) == Some([]);
    assert [] + [p] == [p];
    assert Normalize([c]) == Some([p]);
    assert [c, other][..1] == [c];
  }
}
