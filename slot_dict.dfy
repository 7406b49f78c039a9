// System.Collections.Generic.Dictionary<K, V> as the application observes it:
// entries live in slots that are enumerated in slot order; Remove frees a
// slot and pushes it on a free list, and the next Add of a new key reuses the
// most recently freed slot before appending a new one; Clear empties both.
// JSONObject (its m_Dict) and the sales cart (_productsInCart) are such
// dictionaries, and both enumerate them to produce output.
module SlotDict {
  import opened Wrappers

  datatype Dict<K, V> = Dict(slots: seq<Option<(K, V)>>, free: seq<nat>)

  function Empty<K, V>(): Dict<K, V>
  {
    Dict([], [])
  }

  /** Keys are unique, and the free list names every empty slot exactly once. */
  predicate Valid<K(==), V>(d: Dict<K, V>)
  {
    (forall i, j :: 0 <= i < j < |d.slots| && d.slots[i].Some? && d.slots[j].Some?
       ==> d.slots[i].value.0 != d.slots[j].value.0)
    && (forall n :: 0 <= n < |d.free| ==> d.free[n] < |d.slots| && d.slots[d.free[n]].None?)
    && (forall i :: 0 <= i < |d.slots| && d.slots[i].None? ==> i in d.free)
    && (forall a, b :: 0 <= a < b < |d.free| ==> d.free[a] != d.free[b])
  }

  // ---------------------------------------------------------------------
  // Enumeration

  function EntryOf<K, V>(x: Option<(K, V)>): seq<(K, V)>
  {
    match x
    case Some(e) => [e]
    case None => []
  }

  /** The key/value pairs in enumeration (slot) order. */
  function ItemsOf<K, V>(slots: seq<Option<(K, V)>>): seq<(K, V)>
  {
    if slots == [] then [] else EntryOf(slots[0]) + ItemsOf(slots[1..])
  }

  function Items<K, V>(d: Dict<K, V>): seq<(K, V)>
  {
    ItemsOf(d.slots)
  }

  function Count<K, V>(d: Dict<K, V>): nat
  {
    |Items(d)|
  }

  /** Some entry of items has key k. */
  predicate KeyIn<K(==), V>(items: seq<(K, V)>, k: K)
  {
    items != [] && (items[0].0 == k || KeyIn(items[1..], k))
  }

  /** The items with key k left out, the others in their order. */
  function Without<K(==), V>(items: seq<(K, V)>, k: K): seq<(K, V)>
  {
    if items == [] then []
    else if items[0].0 == k then Without(items[1..], k)
    else [items[0]] + Without(items[1..], k)
  }

  /** The items with the value of key k replaced by v, positions kept. */
  function ReplaceValue<K(==), V>(items: seq<(K, V)>, k: K, v: V): seq<(K, V)>
  {
    if items == [] then []
    else [if items[0].0 == k then (k, v) else items[0]] + ReplaceValue(items[1..], k, v)
  }

  /** Add-or-replace on an enumeration: replace in place when the key is
      present, otherwise append. */
  function AddMember<K(==), V>(items: seq<(K, V)>, k: K, v: V): seq<(K, V)>
  {
    if KeyIn(items, k) then ReplaceValue(items, k, v) else items + [(k, v)]
  }

  // ---------------------------------------------------------------------
  // Lookup

  function SlotOf<K(==), V>(slots: seq<Option<(K, V)>>, k: K): (r: Option<nat>)
    ensures r.Some? ==> r.value < |slots| && slots[r.value].Some? && slots[r.value].value.0 == k
    ensures r.None? ==> forall i :: 0 <= i < |slots| && slots[i].Some? ==> slots[i].value.0 != k
  {
    if slots == [] then None
    else if slots[|slots| - 1].Some? && slots[|slots| - 1].value.0 == k then Some(|slots| - 1)
    else SlotOf(slots[..|slots| - 1], k)
  }

  predicate HasKey<K(==), V>(d: Dict<K, V>, k: K)
  {
    SlotOf(d.slots, k).Some?
  }

  /** Dictionary.TryGetValue. */
  function Get<K(==), V>(d: Dict<K, V>, k: K): Option<V>
  {
    match SlotOf(d.slots, k)
    case Some(i) => Some(d.slots[i].value.1)
    case None => None
  }

  // ---------------------------------------------------------------------
  // Updates

  /** The indexer's setter (and Add of a key not present): an existing key
      keeps its slot; a new key takes the most recently freed slot, or a new
      slot at the end when none is free. */
  function Put<K(==), V>(d: Dict<K, V>, k: K, v: V): (r: Dict<K, V>)
    requires Valid(d)
    ensures Valid(r)
  {
    match SlotOf(d.slots, k)
    case Some(i) =>
      ValidReplace(d, i, k, v);
      Dict(d.slots[i := Some((k, v))], d.free)
    case None =>
      if |d.free| > 0 then
        ValidFill(d, k, v);
        Dict(d.slots[d.free[|d.free| - 1] := Some((k, v))], d.free[..|d.free| - 1])
      else
        ValidAppend(d, k, v);
        Dict(d.slots + [Some((k, v))], d.free)
  }

  /** Dictionary.Remove(key): frees the key's slot; absent keys are ignored. */
  function Remove<K(==), V>(d: Dict<K, V>, k: K): (r: Dict<K, V>)
    requires Valid(d)
    ensures Valid(r)
  {
    match SlotOf(d.slots, k)
    case Some(i) =>
      ValidFree(d, i);
      Dict(d.slots[i := None], d.free + [i])
    case None => d
  }

  lemma ValidReplace<K, V>(d: Dict<K, V>, i: nat, k: K, v: V)
    requires Valid(d) && i < |d.slots| && d.slots[i].Some? && d.slots[i].value.0 == k
    ensures Valid(Dict(d.slots[i := Some((k, v))], d.free))
  {
  }

  lemma ValidFill<K, V>(d: Dict<K, V>, k: K, v: V)
    requires Valid(d) && |d.free| > 0 && NoKey(d.slots, k)
    ensures Valid(Dict(d.slots[d.free[|d.free| - 1] := Some((k, v))], d.free[..|d.free| - 1]))
  {
    var i := d.free[|d.free| - 1];
    var r := Dict(d.slots[i := Some((k, v))], d.free[..|d.free| - 1]);
    assert forall n :: 0 <= n < |r.free| ==> r.free[n] == d.free[n] && d.free[n] != i;
    forall o | 0 <= o < |r.slots| && r.slots[o].None?
      ensures o in r.free
    {
      assert o in d.free && o != i;
      var n :| 0 <= n < |d.free| && d.free[n] == o;
      assert r.free[n] == o;
    }
  }

  lemma ValidAppend<K, V>(d: Dict<K, V>, k: K, v: V)
    requires Valid(d) && NoKey(d.slots, k)
    ensures Valid(Dict(d.slots + [Some((k, v))], d.free))
  {
    var r := Dict(d.slots + [Some((k, v))], d.free);
    assert forall o :: 0 <= o < |d.slots| ==> r.slots[o] == d.slots[o];
  }

  lemma ValidFree<K, V>(d: Dict<K, V>, i: nat)
    requires Valid(d) && i < |d.slots| && d.slots[i].Some?
    ensures Valid(Dict(d.slots[i := None], d.free + [i]))
  {
    assert i !in d.free;
  }

  // ---------------------------------------------------------------------
  // How enumeration sees the updates

  lemma {:induction false} ItemsOfConcat<K, V>(a: seq<Option<(K, V)>>, b: seq<Option<(K, V)>>)
    ensures ItemsOf(a + b) == ItemsOf(a) + ItemsOf(b)
  {
    if a == [] {
      assert a + b == b;
    } else {
      assert (a + b)[1..] == a[1..] + b;
      ItemsOfConcat(a[1..], b);
    }
  }

  lemma ItemsOfSingle<K, V>(x: Option<(K, V)>)
    ensures ItemsOf([x]) == EntryOf(x)
  {
    assert [x][1..] == [];
  }

  lemma ItemsOfCons<K, V>(x: Option<(K, V)>, b: seq<Option<(K, V)>>)
    ensures ItemsOf([x] + b) == EntryOf(x) + ItemsOf(b)
  {
    assert ([x] + b)[1..] == b;
  }

  lemma SplitAt<T>(s: seq<T>, i: nat)
    requires i < |s|
    ensures s == s[..i] + ([s[i]] + s[i + 1..])
  {
  }

  lemma ItemsOfAround<K, V>(s: seq<Option<(K, V)>>, i: nat)
    requires i < |s|
    ensures ItemsOf(s) == ItemsOf(s[..i]) + EntryOf(s[i]) + ItemsOf(s[i + 1..])
  {
    var a, b := s[..i], s[i + 1..];
    SplitAt(s, i);
    ItemsOfConcat(a, [s[i]] + b);
    ItemsOfCons(s[i], b);
  }

  lemma ItemsOfSplit<K, V>(s: seq<Option<(K, V)>>, i: nat, x: Option<(K, V)>)
    requires i < |s|
    ensures ItemsOf(s) == ItemsOf(s[..i]) + EntryOf(s[i]) + ItemsOf(s[i + 1..])
    ensures ItemsOf(s[i := x]) == ItemsOf(s[..i]) + EntryOf(x) + ItemsOf(s[i + 1..])
  {
    ItemsOfAround(s, i);
    var t := s[i := x];
    ItemsOfAround(t, i);
    assert t[..i] == s[..i] && t[i + 1..] == s[i + 1..];
  }

  /** No slot of s holds key k. */
  predicate NoKey<K(==), V>(s: seq<Option<(K, V)>>, k: K)
  {
    forall i :: 0 <= i < |s| && s[i].Some? ==> s[i].value.0 != k
  }

  lemma {:induction false} KeyNotInItems<K, V>(s: seq<Option<(K, V)>>, k: K)
    requires NoKey(s, k)
    ensures !KeyIn(ItemsOf(s), k)
  {
    if s != [] {
      assert NoKey(s[1..], k) by {
        forall i | 0 <= i < |s[1..]| && s[1..][i].Some?
          ensures s[1..][i].value.0 != k
        {
          assert s[1..][i] == s[i + 1];
        }
      }
      KeyNotInItems(s[1..], k);
      KeyInConcat(EntryOf(s[0]), ItemsOf(s[1..]), k);
    }
  }

  lemma {:induction false} KeyInConcat<K, V>(a: seq<(K, V)>, b: seq<(K, V)>, k: K)
    ensures KeyIn(a + b, k) <==> KeyIn(a, k) || KeyIn(b, k)
  {
    if a == [] {
      assert a + b == b;
    } else {
      assert (a + b)[1..] == a[1..] + b;
      KeyInConcat(a[1..], b, k);
    }
  }

  lemma {:induction false} WithoutAbsent<K, V>(items: seq<(K, V)>, k: K)
    requires !KeyIn(items, k)
    ensures Without(items, k) == items
  {
    if items != [] {
      WithoutAbsent(items[1..], k);
    }
  }

  lemma {:induction false} ReplaceAbsent<K, V>(items: seq<(K, V)>, k: K, v: V)
    requires !KeyIn(items, k)
    ensures ReplaceValue(items, k, v) == items
  {
    if items != [] {
      ReplaceAbsent(items[1..], k, v);
    }
  }

  lemma {:induction false} WithoutConcat<K, V>(a: seq<(K, V)>, b: seq<(K, V)>, k: K)
    ensures Without(a + b, k) == Without(a, k) + Without(b, k)
  {
    if a == [] {
      assert a + b == b;
    } else {
      assert (a + b)[1..] == a[1..] + b;
      WithoutConcat(a[1..], b, k);
    }
  }

  lemma {:induction false} ReplaceConcat<K, V>(a: seq<(K, V)>, b: seq<(K, V)>, k: K, v: V)
    ensures ReplaceValue(a + b, k, v) == ReplaceValue(a, k, v) + ReplaceValue(b, k, v)
  {
    if a == [] {
      assert a + b == b;
    } else {
      assert (a + b)[1..] == a[1..] + b;
      ReplaceConcat(a[1..], b, k, v);
    }
  }

  /** Replacing key k where it occurs once, between entries of other keys. */
  lemma ReplaceAround<K, V>(pre: seq<(K, V)>, e: (K, V), post: seq<(K, V)>, k: K, v: V)
    requires e.0 == k && !KeyIn(pre, k) && !KeyIn(post, k)
    ensures ReplaceValue(pre + [e] + post, k, v) == pre + [(k, v)] + post
  {
    ReplaceConcat(pre + [e], post, k, v);
    ReplaceConcat(pre, [e], k, v);
    ReplaceAbsent(pre, k, v);
    ReplaceAbsent(post, k, v);
    assert ReplaceValue([e], k, v) == [(k, v)] + ReplaceValue([], k, v);
  }

  /** Dropping key k where it occurs once, between entries of other keys. */
  lemma WithoutAround<K, V>(pre: seq<(K, V)>, e: (K, V), post: seq<(K, V)>, k: K)
    requires e.0 == k && !KeyIn(pre, k) && !KeyIn(post, k)
    ensures Without(pre + [e] + post, k) == pre + post
  {
    WithoutConcat(pre + [e], post, k);
    WithoutConcat(pre, [e], k);
    WithoutAbsent(pre, k);
    WithoutAbsent(post, k);
    assert Without([e], k) == Without([e][1..], k) == [];
    assert pre + [] + post == pre + post;
  }

  /** Splits the slots of a valid dictionary around slot i, which holds k. */
  lemma AroundSlot<K, V>(d: Dict<K, V>, i: nat, k: K)
    requires Valid(d) && i < |d.slots| && d.slots[i].Some? && d.slots[i].value.0 == k
    ensures NoKey(d.slots[..i], k) && NoKey(d.slots[i + 1..], k)
  {
    var post := d.slots[i + 1..];
    forall j | 0 <= j < |post| && post[j].Some?
      ensures post[j].value.0 != k
    {
      assert post[j] == d.slots[i + 1 + j];
    }
  }

  /** In a valid dictionary the slot found for a key is the one holding it. */
  lemma SlotOfUnique<K, V>(d: Dict<K, V>, j: nat, k: K)
    requires Valid(d) && j < |d.slots| && d.slots[j].Some? && d.slots[j].value.0 == k
    ensures SlotOf(d.slots, k) == Some(j)
  {
    var r := SlotOf(d.slots, k);
    assert r.Some?;
  }

  lemma HasKeyItems<K, V>(d: Dict<K, V>, k: K)
    ensures HasKey(d, k) <==> KeyIn(Items(d), k)
  {
    match SlotOf(d.slots, k)
    case None =>
      KeyNotInItems(d.slots, k);
    case Some(i) =>
      ItemsOfSplit(d.slots, i, d.slots[i]);
      var pre, post := ItemsOf(d.slots[..i]), ItemsOf(d.slots[i + 1..]);
      KeyInConcat(pre + [d.slots[i].value], post, k);
      KeyInConcat(pre, [d.slots[i].value], k);
  }

  /** Overwriting the one slot that holds k replaces k's value in place. */
  lemma ReplaceInSlot<K, V>(s: seq<Option<(K, V)>>, i: nat, k: K, v: V)
    requires i < |s| && s[i].Some? && s[i].value.0 == k
    requires NoKey(s[..i], k) && NoKey(s[i + 1..], k)
    ensures ItemsOf(s[i := Some((k, v))]) == ReplaceValue(ItemsOf(s), k, v)
  {
    ItemsOfSplit(s, i, Some((k, v)));
    KeyNotInItems(s[..i], k);
    KeyNotInItems(s[i + 1..], k);
    ReplaceAround(ItemsOf(s[..i]), s[i].value, ItemsOf(s[i + 1..]), k, v);
  }

  /** Emptying the one slot that holds k drops k's entry. */
  lemma ClearSlot<K, V>(s: seq<Option<(K, V)>>, i: nat, k: K)
    requires i < |s| && s[i].Some? && s[i].value.0 == k
    requires NoKey(s[..i], k) && NoKey(s[i + 1..], k)
    ensures ItemsOf(s[i := None]) == Without(ItemsOf(s), k)
  {
    var pre, post := ItemsOf(s[..i]), ItemsOf(s[i + 1..]);
    ItemsOfSplit(s, i, None);
    assert ItemsOf(s) == pre + [s[i].value] + post;
    assert ItemsOf(s[i := None]) == pre + post;
    KeyNotInItems(s[..i], k);
    KeyNotInItems(s[i + 1..], k);
    WithoutAround(pre, s[i].value, post, k);
  }

  lemma {:induction false} ReplaceLength<K, V>(items: seq<(K, V)>, k: K, v: V)
    ensures |ReplaceValue(items, k, v)| == |items|
  {
    if items != [] {
      ReplaceLength(items[1..], k, v);
    }
  }

  /** Put on a present key: same positions, same count, new value. */
  lemma PutExisting<K, V>(d: Dict<K, V>, k: K, v: V)
    requires Valid(d) && HasKey(d, k)
    ensures Items(Put(d, k, v)) == ReplaceValue(Items(d), k, v)
    ensures Count(Put(d, k, v)) == Count(d)
  {
    var i := SlotOf(d.slots, k).value;
    assert Put(d, k, v).slots == d.slots[i := Some((k, v))];
    AroundSlot(d, i, k);
    ReplaceInSlot(d.slots, i, k, v);
    ReplaceLength(Items(d), k, v);
  }

  lemma NoKeyParts<K, V>(s: seq<Option<(K, V)>>, i: nat, k: K)
    requires NoKey(s, k) && i <= |s|
    ensures NoKey(s[..i], k) && NoKey(s[i..], k)
  {
    var post := s[i..];
    forall j | 0 <= j < |post| && post[j].Some?
      ensures post[j].value.0 != k
    {
      assert post[j] == s[i + j];
    }
  }

  /** Storing a new key in an empty slot adds exactly that entry. */
  lemma FillEmptySlot<K, V>(s: seq<Option<(K, V)>>, i: nat, k: K, v: V)
    requires i < |s| && s[i].None? && NoKey(s, k)
    ensures Without(ItemsOf(s[i := Some((k, v))]), k) == ItemsOf(s)
    ensures (k, v) in ItemsOf(s[i := Some((k, v))])
    ensures |ItemsOf(s[i := Some((k, v))])| == |ItemsOf(s)| + 1
  {
    ItemsOfSplit(s, i, Some((k, v)));
    NoKeyParts(s, i, k);
    NoKeyParts(s, i + 1, k);
    KeyNotInItems(s[..i], k);
    KeyNotInItems(s[i + 1..], k);
    WithoutAround(ItemsOf(s[..i]), (k, v), ItemsOf(s[i + 1..]), k);
  }

  lemma PutIntoFree<K, V>(d: Dict<K, V>, k: K, v: V)
    requires Valid(d) && !HasKey(d, k) && |d.free| > 0
    ensures Without(Items(Put(d, k, v)), k) == Items(d)
    ensures (k, v) in Items(Put(d, k, v))
    ensures Count(Put(d, k, v)) == Count(d) + 1
  {
    var i := d.free[|d.free| - 1];
    assert Put(d, k, v).slots == d.slots[i := Some((k, v))];
    FillEmptySlot(d.slots, i, k, v);
  }

  lemma PutAppend<K, V>(d: Dict<K, V>, k: K, v: V)
    requires Valid(d) && !HasKey(d, k) && d.free == []
    ensures Items(Put(d, k, v)) == Items(d) + [(k, v)]
  {
    assert Put(d, k, v).slots == d.slots + [Some((k, v))];
    ItemsOfConcat(d.slots, [Some((k, v))]);
    assert ItemsOf([Some((k, v))]) == [(k, v)] by {
      assert [Some((k, v))][..0] == [];
    }
  }

  /** Put on a new key: the key joins once and every other entry keeps its
      relative order; with no freed slot it is appended at the end. */
  lemma PutNew<K, V>(d: Dict<K, V>, k: K, v: V)
    requires Valid(d) && !HasKey(d, k)
    ensures Without(Items(Put(d, k, v)), k) == Items(d)
    ensures (k, v) in Items(Put(d, k, v))
    ensures Count(Put(d, k, v)) == Count(d) + 1
    ensures d.free == [] ==> Items(Put(d, k, v)) == Items(d) + [(k, v)]
  {
    if |d.free| > 0 {
      PutIntoFree(d, k, v);
    } else {
      PutAppend(d, k, v);
      KeyNotInItems(d.slots, k);
      WithoutConcat(Items(d), [(k, v)], k);
      WithoutAbsent(Items(d), k);
    }
  }

  /** On a dictionary that never had a removal, Put is add-or-replace on the
      enumeration. */
  lemma PutNoRemovals<K, V>(d: Dict<K, V>, k: K, v: V)
    requires Valid(d) && d.free == []
    ensures Items(Put(d, k, v)) == AddMember(Items(d), k, v)
    ensures Put(d, k, v).free == []
  {
    HasKeyItems(d, k);
    if HasKey(d, k) {
      PutExisting(d, k, v);
    } else {
      PutNew(d, k, v);
    }
  }

  /** Remove takes out exactly the entry of k. */
  lemma RemoveItems<K, V>(d: Dict<K, V>, k: K)
    requires Valid(d)
    ensures Items(Remove(d, k)) == Without(Items(d), k)
  {
    match SlotOf(d.slots, k)
    case None =>
      KeyNotInItems(d.slots, k);
      WithoutAbsent(Items(d), k);
    case Some(i) =>
      assert Remove(d, k).slots == d.slots[i := None];
      AroundSlot(d, i, k);
      ClearSlot(d.slots, i, k);
  }

  /** The slot Put writes k into. */
  function PutSlot<K(==), V>(d: Dict<K, V>, k: K): nat
  {
    match SlotOf(d.slots, k)
    case Some(i) => i
    case None => if |d.free| > 0 then d.free[|d.free| - 1] else |d.slots|
  }

  lemma PutShape<K, V>(d: Dict<K, V>, k: K, v: V)
    requires Valid(d)
    ensures var j := PutSlot(d, k);
      var r := Put(d, k, v);
      j < |r.slots| && r.slots[j] == Some((k, v)) && |d.slots| <= |r.slots|
      && forall o :: 0 <= o < |d.slots| && o != j ==> r.slots[o] == d.slots[o]
  {
  }

  lemma GetPutSame<K, V>(d: Dict<K, V>, k: K, v: V)
    requires Valid(d)
    ensures Get(Put(d, k, v), k) == Some(v)
  {
    PutShape(d, k, v);
    SlotOfUnique(Put(d, k, v), PutSlot(d, k), k);
  }

  lemma GetPutOther<K, V>(d: Dict<K, V>, k: K, v: V, other: K)
    requires Valid(d) && other != k
    ensures Get(Put(d, k, v), other) == Get(d, other)
  {
    var r, j := Put(d, k, v), PutSlot(d, k);
    PutShape(d, k, v);
    match SlotOf(d.slots, other)
    case Some(o) =>
      assert o != j;
      SlotOfUnique(r, o, other);
    case None =>
      forall o | 0 <= o < |r.slots| && r.slots[o].Some?
        ensures r.slots[o].value.0 != other
      {
        if o != j {
          assert r.slots[o] == d.slots[o];
        }
      }
  }

  lemma GetRemove<K, V>(d: Dict<K, V>, k: K, other: K)
    requires Valid(d)
    ensures Get(Remove(d, k), k) == None
    ensures other != k ==> Get(Remove(d, k), other) == Get(d, other)
  {
    var r := Remove(d, k);
    if other != k {
      match SlotOf(d.slots, other)
      case Some(j) =>
        assert r.slots[j] == d.slots[j];
        SlotOfUnique(r, j, other);
      case None =>
        assert NoKey(r.slots, other);
    }
  }

  // ---------------------------------------------------------------------
  // Distinct keys in the enumeration

  /** No key occurs twice among the items. */
  predicate UniqueKeys<K(==), V>(items: seq<(K, V)>)
  {
    items == [] || (!KeyIn(items[1..], items[0].0) && UniqueKeys(items[1..]))
  }

  predicate SlotsUnique<K(==), V>(s: seq<Option<(K, V)>>)
  {
    forall i, j :: 0 <= i < j < |s| && s[i].Some? && s[j].Some? ==> s[i].value.0 != s[j].value.0
  }

  lemma {:induction false} ItemsOfUnique<K, V>(s: seq<Option<(K, V)>>)
    requires SlotsUnique(s)
    ensures UniqueKeys(ItemsOf(s))
  {
    if s != [] {
      var rest := s[1..];
      assert SlotsUnique(rest) by {
        forall i, j | 0 <= i < j < |rest| && rest[i].Some? && rest[j].Some?
          ensures rest[i].value.0 != rest[j].value.0
        {
          assert rest[i] == s[i + 1] && rest[j] == s[j + 1];
        }
      }
      ItemsOfUnique(rest);
      if s[0].Some? {
        var k := s[0].value.0;
        assert NoKey(rest, k) by {
          forall i | 0 <= i < |rest| && rest[i].Some?
            ensures rest[i].value.0 != k
          {
            assert rest[i] == s[i + 1];
          }
        }
        KeyNotInItems(rest, k);
        assert ItemsOf(s) == [s[0].value] + ItemsOf(rest);
        assert ItemsOf(s)[1..] == ItemsOf(rest);
      } else {
        assert ItemsOf(s) == ItemsOf(rest);
      }
    }
  }

  /** The enumeration of a valid dictionary lists every key once. */
  lemma ItemsUnique<K, V>(d: Dict<K, V>)
    requires Valid(d)
    ensures UniqueKeys(Items(d))
  {
    ItemsOfUnique(d.slots);
  }

  /** Removing the key of entry p of an enumeration with distinct keys
      removes exactly that entry. */
  lemma {:induction false} WithoutAt<K, V>(items: seq<(K, V)>, p: nat)
    requires UniqueKeys(items) && p < |items|
    ensures Without(items, items[p].0) == items[..p] + items[p + 1..]
  {
    var rest := items[1..];
    if p == 0 {
      WithoutAbsent(rest, items[0].0);
    } else {
      assert rest[p - 1] == items[p];
      WithoutAt(rest, p - 1);
      assert items[p].0 != items[0].0 by {
        KeyInAt(rest, p - 1);
      }
      assert items[..p] + items[p + 1..] == [items[0]] + (rest[..p - 1] + rest[p..]);
    }
  }

  /** An entry's key is in the enumeration. */
  lemma {:induction false} KeyInAt<K, V>(items: seq<(K, V)>, p: nat)
    requires p < |items|
    ensures KeyIn(items, items[p].0)
  {
    if p > 0 {
      assert items[1..][p - 1] == items[p];
      KeyInAt(items[1..], p - 1);
    }
  }

  // ---------------------------------------------------------------------
  // Lookup against the enumeration

  /** Every enumerated entry sits in some slot. */
  lemma {:induction false} InItemsOf<K, V>(s: seq<Option<(K, V)>>, e: (K, V))
    requires e in ItemsOf(s)
    ensures exists i :: 0 <= i < |s| && s[i] == Some(e)
  {
    if e in EntryOf(s[0]) {
      assert s[0] == Some(e);
    } else {
      InItemsOf(s[1..], e);
      var i :| 0 <= i < |s[1..]| && s[1..][i] == Some(e);
      assert s[i + 1] == Some(e);
    }
  }

  /** TryGetValue finds exactly the entries the enumeration lists. */
  lemma GetItems<K, V>(d: Dict<K, V>, k: K, v: V)
    requires Valid(d)
    ensures Get(d, k) == Some(v) <==> (k, v) in Items(d)
  {
    if Get(d, k) == Some(v) {
      ItemsOfAround(d.slots, SlotOf(d.slots, k).value);
    }
    if (k, v) in Items(d) {
      InItemsOf(d.slots, (k, v));
      var i :| 0 <= i < |d.slots| && d.slots[i] == Some((k, v));
      SlotOfUnique(d, i, k);
    }
  }

  lemma GetItemsAll<K, V>(d: Dict<K, V>)
    requires Valid(d)
    ensures forall k, v :: Get(d, k) == Some(v) <==> (k, v) in Items(d)
  {
    forall k, v
      ensures Get(d, k) == Some(v) <==> (k, v) in Items(d)
    {
      GetItems(d, k, v);
    }
  }

  /** The entries after Put: the new pair, and the old entries of other keys. */
  lemma PutEntry<K, V>(d: Dict<K, V>, k: K, v: V, e: (K, V))
    requires Valid(d)
    ensures e in Items(Put(d, k, v)) <==> e == (k, v) || (e in Items(d) && e.0 != k)
  {
    var r := Put(d, k, v);
    GetItems(d, e.0, e.1);
    GetItems(r, e.0, e.1);
    GetPutSame(d, k, v);
    if e.0 != k {
      GetPutOther(d, k, v, e.0);
    }
  }

  /** The entries after Remove: the old entries of other keys. */
  lemma RemoveEntry<K, V>(d: Dict<K, V>, k: K, e: (K, V))
    requires Valid(d)
    ensures e in Items(Remove(d, k)) <==> e in Items(d) && e.0 != k
  {
    GetItems(d, e.0, e.1);
    GetItems(Remove(d, k), e.0, e.1);
    GetRemove(d, k, e.0);
  }

  // ---------------------------------------------------------------------
  // The dictionary as a lookup table

  /** Key to value of the occupied slots, as ContainsKey and the indexer
      see them (a later slot wins, as in SlotOf). */
  function SlotsMap<K(==), V>(s: seq<Option<(K, V)>>): map<K, V>
  {
    if s == [] then map[]
    else match s[|s| - 1]
      case None => SlotsMap(s[..|s| - 1])
      case Some(e) => SlotsMap(s[..|s| - 1])[e.0 := e.1]
  }

  function ToMap<K(==), V>(d: Dict<K, V>): map<K, V>
  {
    SlotsMap(d.slots)
  }

  lemma {:induction false} SlotsMapSlotOf<K, V>(s: seq<Option<(K, V)>>, k: K)
    ensures k in SlotsMap(s) <==> SlotOf(s, k).Some?
    ensures k in SlotsMap(s) ==> SlotsMap(s)[k] == s[SlotOf(s, k).value].value.1
  {
    if s != [] {
      SlotsMapSlotOf(s[..|s| - 1], k);
    }
  }

  /** TryGetValue agrees with the table. */
  lemma GetToMap<K, V>(d: Dict<K, V>, k: K)
    ensures Get(d, k) == if k in ToMap(d) then Some(ToMap(d)[k]) else None
  {
    SlotsMapSlotOf(d.slots, k);
  }

  /** Every enumerated pair is in the table, and every table entry is
      enumerated. */
  lemma ItemsInMap<K, V>(d: Dict<K, V>)
    requires Valid(d)
    ensures forall e :: e in Items(d) ==> e.0 in ToMap(d) && ToMap(d)[e.0] == e.1
    ensures forall k :: k in ToMap(d) ==> (k, ToMap(d)[k]) in Items(d)
  {
    forall e | e in Items(d)
      ensures e.0 in ToMap(d) && ToMap(d)[e.0] == e.1
    {
      GetItems(d, e.0, e.1);
      GetToMap(d, e.0);
    }
    forall k | k in ToMap(d)
      ensures (k, ToMap(d)[k]) in Items(d)
    {
      GetItems(d, k, ToMap(d)[k]);
      GetToMap(d, k);
    }
  }

  /** The table after Put, key by key. */
  lemma ToMapPutAt<K, V>(d: Dict<K, V>, k: K, v: V, x: K)
    requires Valid(d)
    ensures x in ToMap(Put(d, k, v)) <==> x in ToMap(d) || x == k
    ensures x in ToMap(Put(d, k, v)) ==> ToMap(Put(d, k, v))[x] == if x == k then v else ToMap(d)[x]
  {
    GetToMap(d, x);
    GetToMap(Put(d, k, v), x);
    if x == k {
      GetPutSame(d, k, v);
    } else {
      GetPutOther(d, k, v, x);
    }
  }

  /** The table after Remove, key by key. */
  lemma ToMapRemoveAt<K, V>(d: Dict<K, V>, k: K, x: K)
    requires Valid(d)
    ensures x in ToMap(Remove(d, k)) <==> x in ToMap(d) && x != k
    ensures x in ToMap(Remove(d, k)) ==> ToMap(Remove(d, k))[x] == ToMap(d)[x]
  {
    GetToMap(d, x);
    GetToMap(Remove(d, k), x);
    GetRemove(d, k, x);
  }

  /** Removing an absent key changes nothing. */
  lemma RemoveAbsent<K, V>(d: Dict<K, V>, k: K)
    requires Valid(d) && k !in ToMap(d)
    ensures Remove(d, k) == d
  {
    SlotsMapSlotOf(d.slots, k);
  }
}
