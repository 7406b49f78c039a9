// The two SimpleJSON containers that are updated in place: JSONObject, whose
// members live in a .NET Dictionary (m_Dict), and JSONArray, whose items
// live in a List (m_List). The children are held as Json values; the
// reference identity the C# code compares in Remove(node) is read as value
// equality.
module JsonNode {
  import opened Wrappers
  import opened Json
  import SlotDict

  const NoSuchNode: string := "Unable to remove non-existing node!"

  /** The dictionary's entries as object members, in enumeration order. */
  function MembersOf(items: seq<(string, Json)>): (ms: seq<Member>)
    ensures |ms| == |items|
  {
    if items == [] then [] else [Member(items[0].0, items[0].1)] + MembersOf(items[1..])
  }

  lemma {:induction false} MembersOfAt(items: seq<(string, Json)>, p: nat)
    requires p < |items|
    ensures MembersOf(items)[p] == Member(items[p].0, items[p].1)
  {
    if p > 0 {
      assert items[1..][p - 1] == items[p];
      MembersOfAt(items[1..], p - 1);
    }
  }

  lemma {:induction false} MembersOfConcat(a: seq<(string, Json)>, b: seq<(string, Json)>)
    ensures MembersOf(a + b) == MembersOf(a) + MembersOf(b)
  {
    if a != [] {
      assert (a + b)[1..] == a[1..] + b;
      MembersOfConcat(a[1..], b);
    } else {
      assert a + b == b;
    }
  }

  /** A key is among the members exactly when the dictionary has it. */
  lemma {:induction false} KeysOfMembers(items: seq<(string, Json)>, k: string)
    ensures k in Keys(MembersOf(items)) <==> SlotDict.KeyIn(items, k)
  {
    if items != [] {
      KeysOfMembers(items[1..], k);
      var ms := MembersOf(items);
      assert Keys(ms) == [items[0].0] + Keys(MembersOf(items[1..]));
    }
  }

  /** Replacing the value of a present key in an enumeration with distinct
      keys is the value model's SetMember. */
  lemma {:induction false} ReplaceIsSetMember(items: seq<(string, Json)>, k: string, v: Json)
    requires SlotDict.UniqueKeys(items) && SlotDict.KeyIn(items, k)
    ensures MembersOf(SlotDict.ReplaceValue(items, k, v)) == SetMember(MembersOf(items), k, v)
  {
    var rest := items[1..];
    if items[0].0 == k {
      SlotDict.ReplaceAbsent(rest, k, v);
      assert SlotDict.ReplaceValue(items, k, v) == [(k, v)] + rest;
      assert MembersOf(items)[1..] == MembersOf(rest);
    } else {
      ReplaceIsSetMember(rest, k, v);
      assert SlotDict.ReplaceValue(items, k, v) == [items[0]] + SlotDict.ReplaceValue(rest, k, v);
      assert MembersOf(items)[1..] == MembersOf(rest);
    }
  }

  /** The dictionary's add-or-replace is the value model's SetMember. */
  lemma AddIsSetMember(items: seq<(string, Json)>, k: string, v: Json)
    requires SlotDict.UniqueKeys(items)
    ensures MembersOf(SlotDict.AddMember(items, k, v)) == SetMember(MembersOf(items), k, v)
  {
    if SlotDict.KeyIn(items, k) {
      ReplaceIsSetMember(items, k, v);
    } else {
      KeysOfMembers(items, k);
      SetMemberNew(MembersOf(items), k, v);
      MembersOfConcat(items, [(k, v)]);
    }
  }

  /** The value a member of the given key holds, if any. */
  function Lookup(members: seq<Member>, key: string): (r: Option<Json>)
    ensures r.Some? <==> key in Keys(members)
  {
    if members == [] then None
    else if members[0].key == key then Some(members[0].value)
    else
      assert Keys(members) == [members[0].key] + Keys(members[1..]);
      Lookup(members[1..], key)
  }

  /** The position of the first value equal to `node`, if any. */
  function FirstWithValue(values: seq<Json>, node: Json): (r: Option<nat>)
    ensures r.Some? ==> r.value < |values| && values[r.value] == node
                        && forall q :: 0 <= q < r.value ==> values[q] != node
    ensures r.None? <==> node !in values
  {
    if values == [] then None
    else if values[0] == node then Some(0)
    else
      match FirstWithValue(values[1..], node)
      case Some(p) => Some(p + 1)
      case None => None
  }

  function ValuesOf(members: seq<Member>): (vs: seq<Json>)
    ensures |vs| == |members|
    ensures forall p :: 0 <= p < |members| ==> vs[p] == members[p].value
  {
    seq(|members|, p requires 0 <= p < |members| => members[p].value)
  }

  /** The key used by Add: an empty key is replaced by a fresh one. */
  function AddKey(members: seq<Member>, key: string): (k: string)
    ensures k != ""
    ensures key != "" ==> k == key
    ensures key == "" ==> k !in Keys(members)
  {
    if key == "" then FreshKey(Keys(members)) else key
  }

  /** The Value getter of a child read through an indexer: an absent child
      is a JSONLazyCreator, whose Value is the empty string. */
  function ValueText(child: Option<Json>, fmt: NumberFormat): (t: string)
    ensures child.None? ==> t == ""
    ensures child.Some? && child.value.JString? ==> t == child.value.s
  {
    match child
    case None => ""
    case Some(JString(s)) => s
    case Some(JNull) => "null"
    case Some(JBool(b)) => if b then "True" else "False"
    case Some(JNumber(n)) => fmt.show(n)
    case Some(_) => ""
  }

  /** Reading an absent key or index yields an empty Value. */
  lemma AbsentReadIsEmpty(members: seq<Member>, key: string, fmt: NumberFormat)
    requires key !in Keys(members)
    ensures ValueText(Lookup(members, key), fmt) == ""
  {
  }

  // ---------------------------------------------------------------------
  // JSONObject

  class ObjectNode {
    var dict: SlotDict.Dict<string, Json>

    ghost predicate Valid()
      reads this
    {
      SlotDict.Valid(dict)
    }

    /** The members in enumeration order. */
    function Members(): seq<Member>
      reads this
    {
      MembersOf(SlotDict.Items(dict))
    }

    function Count(): (n: nat)
      reads this
      ensures n == |Members()|
    {
      SlotDict.Count(dict)
    }

    constructor()
      ensures Valid() && Members() == [] && dict.free == []
    {
      dict := SlotDict.Empty();
    }

    /** The indexer's getter; None stands for the JSONLazyCreator it returns
        for an absent key. */
    function Get(key: string): (r: Option<Json>)
      requires Valid()
      reads this
      ensures r == Lookup(Members(), key)
    {
      SlotDict.HasKeyItems(dict, key);
      KeysOfMembers(SlotDict.Items(dict), key);
      GetIsLookup(SlotDict.Items(dict), dict, key);
      SlotDict.Get(dict, key)
    }

    /** The indexer's setter: an existing key keeps its place and gets the
        new value; a new key takes a free slot or is appended. */
    method Set(key: string, value: Json)
      requires Valid()
      modifies this
      ensures Valid()
      ensures dict == SlotDict.Put(old(dict), key, value)
      ensures key in Keys(old(Members())) ==> Members() == SetMember(old(Members()), key, value)
      ensures key !in Keys(old(Members())) ==> Count() == old(Count()) + 1
      ensures old(dict.free) == [] ==> Members() == SetMember(old(Members()), key, value)
      ensures Get(key) == Some(value)
    {
      var d := dict;
      SlotDict.ItemsUnique(d);
      SlotDict.HasKeyItems(d, key);
      KeysOfMembers(SlotDict.Items(d), key);
      if SlotDict.HasKey(d, key) {
        SlotDict.PutExisting(d, key, value);
        ReplaceIsSetMember(SlotDict.Items(d), key, value);
      } else {
        SlotDict.PutNew(d, key, value);
      }
      if d.free == [] {
        SlotDict.PutNoRemovals(d, key, value);
        AddIsSetMember(SlotDict.Items(d), key, value);
      }
      dict := SlotDict.Put(d, key, value);
      SlotDict.GetPutSame(d, key, value);
      GetAfterPut(dict, key, value);
    }

    /** Add(key, item): a null or empty key is replaced by a fresh one; then
        it is the indexer's setter. On an object nothing was removed from,
        this is the AddMember the parser uses. */
    method Add(key: string, item: Json)
      requires Valid()
      modifies this
      ensures Valid()
      ensures dict == SlotDict.Put(old(dict), AddKey(old(Members()), key), item)
      ensures old(dict.free) == [] ==> Members() == AddMember(old(Members()), key, item)
      ensures key == "" ==> Count() == old(Count()) + 1
    {
      var k := AddKey(Members(), key);
      Set(k, item);
    }

    /** Remove(key): the member with that key goes, the others keep their
        order; an absent key changes nothing. */
    method Remove(key: string)
      requires Valid()
      modifies this
      ensures Valid()
      ensures dict == SlotDict.Remove(old(dict), key)
      ensures SlotDict.Items(dict) == SlotDict.Without(SlotDict.Items(old(dict)), key)
      ensures Get(key) == None
    {
      SlotDict.RemoveItems(dict, key);
      SlotDict.GetRemove(dict, key, key);
      dict := SlotDict.Remove(dict, key);
      GetNone(dict, key);
    }

    /** Remove(index): out of range is a no-op; otherwise exactly the member
        at that position in enumeration order goes. */
    method RemoveAt(index: int)
      requires Valid()
      modifies this
      ensures Valid()
      ensures index < 0 || index >= old(Count()) ==> Members() == old(Members())
      ensures 0 <= index < old(Count()) ==>
        Members() == old(Members())[..index] + old(Members())[index + 1..]
    {
      if index < 0 || index >= Count() {
        return;
      }
      var items := SlotDict.Items(dict);
      SlotDict.ItemsUnique(dict);
      SlotDict.WithoutAt(items, index);
      Remove(items[index].0);
      MembersOfConcat(items[..index], items[index + 1..]);
      MembersOfSlices(items, index);
    }

    /** Remove(node): the first member holding the node goes; when no member
        holds it the object is unchanged and an exception is thrown. */
    method RemoveNode(node: Json) returns (r: Result<()>)
      requires Valid()
      modifies this
      ensures Valid()
      ensures r.Err? <==> node !in ValuesOf(old(Members()))
      ensures r.Err? ==> r.error == NoSuchNode && Members() == old(Members())
      ensures r.Ok? ==> exists p :: 0 <= p < |old(Members())| && old(Members())[p].value == node
                          && (forall q :: 0 <= q < p ==> old(Members())[q].value != node)
                          && Members() == old(Members())[..p] + old(Members())[p + 1..]
    {
      var at := FirstWithValue(ValuesOf(Members()), node);
      if at.None? {
        return Err(NoSuchNode);
      }
      var p := at.value;
      RemoveAt(p);
      r := Ok(());
    }
  }

  lemma SliceAround<T>(a: seq<T>, x: T, b: seq<T>)
    ensures (a + ([x] + b))[..|a|] == a && (a + ([x] + b))[|a| + 1..] == b
  {
  }

  lemma MembersOfSlices(items: seq<(string, Json)>, p: nat)
    requires p < |items|
    ensures MembersOf(items[..p]) + MembersOf(items[p + 1..])
         == MembersOf(items)[..p] + MembersOf(items)[p + 1..]
  {
    var a, b := items[..p], items[p + 1..];
    SlotDict.SplitAt(items, p);
    MembersOfConcat(a, [items[p]] + b);
    MembersOfConcat([items[p]], b);
    assert MembersOf([items[p]]) == [Member(items[p].0, items[p].1)];
    SliceAround(MembersOf(a), Member(items[p].0, items[p].1), MembersOf(b));
  }

  lemma LookupAround(pre: seq<(string, Json)>, e: (string, Json), post: seq<(string, Json)>, key: string)
    requires !SlotDict.KeyIn(pre, key) && e.0 == key
    ensures Lookup(MembersOf(pre + ([e] + post)), key) == Some(e.1)
  {
    KeysOfMembers(pre, key);
    MembersOfConcat(pre, [e] + post);
    LookupAfter(MembersOf(pre), MembersOf([e] + post), key);
    assert MembersOf([e] + post)[0] == Member(e.0, e.1);
  }

  lemma ItemsAtSlot<K, V>(s: seq<Option<(K, V)>>, i: nat)
    requires i < |s| && s[i].Some?
    ensures SlotDict.ItemsOf(s) == SlotDict.ItemsOf(s[..i]) + ([s[i].value] + SlotDict.ItemsOf(s[i + 1..]))
  {
    SlotDict.ItemsOfAround(s, i);
    assert SlotDict.EntryOf(s[i]) == [s[i].value];
    Assoc(SlotDict.ItemsOf(s[..i]), [s[i].value], SlotDict.ItemsOf(s[i + 1..]));
  }

  lemma Assoc<T>(a: seq<T>, b: seq<T>, c: seq<T>)
    ensures (a + b) + c == a + (b + c)
  {
  }

  /** Lookup in the members agrees with the dictionary's TryGetValue. */
  lemma GetIsLookup(items: seq<(string, Json)>, d: SlotDict.Dict<string, Json>, key: string)
    requires SlotDict.Valid(d) && items == SlotDict.Items(d)
    ensures SlotDict.Get(d, key) == Lookup(MembersOf(items), key)
  {
    SlotDict.HasKeyItems(d, key);
    KeysOfMembers(items, key);
    var at := SlotDict.SlotOf(d.slots, key);
    if at.Some? {
      var i := at.value;
      var e := d.slots[i].value;
      SlotDict.AroundSlot(d, i, key);
      SlotDict.KeyNotInItems(d.slots[..i], key);
      ItemsAtSlot(d.slots, i);
      LookupAround(SlotDict.ItemsOf(d.slots[..i]), e, SlotDict.ItemsOf(d.slots[i + 1..]), key);
    }
  }

  lemma {:induction false} LookupAfter(a: seq<Member>, b: seq<Member>, key: string)
    requires key !in Keys(a)
    ensures Lookup(a + b, key) == Lookup(b, key)
  {
    if a != [] {
      assert (a + b)[1..] == a[1..] + b;
      assert Keys(a) == [a[0].key] + Keys(a[1..]);
      LookupAfter(a[1..], b, key);
    } else {
      assert a + b == b;
    }
  }

  lemma GetAfterPut(d: SlotDict.Dict<string, Json>, key: string, value: Json)
    requires SlotDict.Valid(d) && SlotDict.Get(d, key) == Some(value)
    ensures Lookup(MembersOf(SlotDict.Items(d)), key) == Some(value)
  {
    GetIsLookup(SlotDict.Items(d), d, key);
  }

  lemma GetNone(d: SlotDict.Dict<string, Json>, key: string)
    requires SlotDict.Valid(d) && SlotDict.Get(d, key) == None
    ensures Lookup(MembersOf(SlotDict.Items(d)), key) == None
  {
    GetIsLookup(SlotDict.Items(d), d, key);
  }

  // ---------------------------------------------------------------------
  // JSONArray

  /** List.Remove(item): the first equal item goes, if any. */
  function RemoveFirst(items: seq<Json>, node: Json): (r: seq<Json>)
  {
    match FirstWithValue(items, node)
    case Some(p) => items[..p] + items[p + 1..]
    case None => items
  }

  /** RemoveFirst takes away exactly one occurrence when there is one. */
  lemma RemoveFirstCount(items: seq<Json>, node: Json)
    ensures node in items ==> multiset(RemoveFirst(items, node)) == multiset(items) - multiset{node}
    ensures node !in items ==> RemoveFirst(items, node) == items
  {
    var at := FirstWithValue(items, node);
    if at.Some? {
      var p := at.value;
      assert items == items[..p] + [items[p]] + items[p + 1..];
    }
  }

  class ArrayNode {
    var items: seq<Json>

    constructor()
      ensures items == []
    {
      items := [];
    }

    function Count(): nat
      reads this
    {
      |items|
    }

    /** Add(key, item) and Add(item): the key is ignored; the item is
        appended. */
    method Add(item: Json)
      modifies this
      ensures items == old(items) + [item]
    {
      items := items + [item];
    }

    /** Remove(index): out of range is a no-op. */
    method RemoveAt(index: int)
      modifies this
      ensures index < 0 || index >= |old(items)| ==> items == old(items)
      ensures 0 <= index < |old(items)| ==> items == old(items)[..index] + old(items)[index + 1..]
    {
      if index < 0 || index >= |items| {
        return;
      }
      items := items[..index] + items[index + 1..];
    }

    /** Remove(node): List.Remove, which ignores a node it does not hold. */
    method RemoveNode(node: Json)
      modifies this
      ensures items == RemoveFirst(old(items), node)
    {
      var at := FirstWithValue(items, node);
      if at.Some? {
        items := items[..at.value] + items[at.value + 1..];
      }
    }

    /** The indexer's getter; None stands for the JSONLazyCreator returned
        for an index out of range. */
    function Get(index: int): (r: Option<Json>)
      reads this
      ensures r.None? <==> index < 0 || index >= |items|
      ensures r.Some? ==> r.value == items[index]
    {
      if index < 0 || index >= |items| then None else Some(items[index])
    }

    /** The indexer's setter: an index out of range appends. */
    method Set(index: int, value: Json)
      modifies this
      ensures 0 <= index < |old(items)| ==> items == old(items)[index := value]
      ensures index < 0 || index >= |old(items)| ==> items == old(items) + [value]
    {
      if index < 0 || index >= |items| {
        items := items + [value];
      } else {
        items := items[index := value];
      }
    }
  }
}
