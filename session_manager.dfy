/**
 * The client-side session store of AbnerTeamSL/Session/SessionManager.cs: a list of named
 * values (`SessionInfo`) kept in insertion order, with upsert, lookup, first-match removal,
 * clearing, a count and a comma-separated listing of the names.
 *
 * The store is specified by `Contents()`, its entries as name-value pairs, and the pure
 * operations `Upsert`, `Lookup` and `Delete` on such sequences; the map laws relating them
 * are the lemmas at the end.
 */
module Session {
  import opened Wrappers

  // ---------------------------------------------------------------------------------------
  // Entries and the operations on sequences of them

  datatype Entry<V> = Entry(name: string, value: V)

  function Names<V>(entries: seq<Entry<V>>): (names: seq<string>)
    ensures |names| == |entries|
    ensures forall i :: 0 <= i < |entries| ==> names[i] == entries[i].name
  {
    seq(|entries|, i requires 0 <= i < |entries| => entries[i].name)
  }

  /** No name occurs twice. */
  predicate Distinct(names: seq<string>) {
    forall i, j :: 0 <= i < j < |names| ==> names[i] != names[j]
  }

  /**
   * The position of the first occurrence of `x` in `s`, or `None` when it does not occur: the
   * search by name of `FirstOrDefault`, and `List.IndexOf`'s search by reference.
   */
  function FirstIndex<T(==)>(s: seq<T>, x: T): (r: Option<nat>)
    ensures r.None? <==> x !in s
    ensures r.Some? ==> r.value < |s| && s[r.value] == x
    ensures r.Some? ==> forall j :: 0 <= j < r.value ==> s[j] != x
  {
    if s == [] then None
    else if s[0] == x then Some(0)
    else match FirstIndex(s[1..], x)
      case None => None
      case Some(i) => Some(i + 1)
  }

  /** The first occurrence is the one at `i` when `x` is at `i` and nowhere before. */
  lemma FirstIndexAt<T>(s: seq<T>, x: T, i: nat)
    requires i < |s| && s[i] == x
    requires forall j :: 0 <= j < i ==> s[j] != x
    ensures FirstIndex(s, x) == Some(i)
  {
  }

  /** The names of a sequence with one entry removed are its names with that one removed. */
  lemma NamesWithout<V>(entries: seq<Entry<V>>, i: nat)
    requires i < |entries|
    ensures Names(entries[..i] + entries[i + 1..]) == Names(entries)[..i] + Names(entries)[i + 1..]
  {
    var l := Names(entries[..i] + entries[i + 1..]);
    var r := Names(entries)[..i] + Names(entries)[i + 1..];
    assert |l| == |r|;
    forall j | 0 <= j < |l|
      ensures l[j] == r[j]
    {
      if j < i {
        assert l[j] == entries[j].name;
      } else {
        assert l[j] == entries[j + 1].name;
      }
    }
  }

  /** The value stored under `name`. */
  function Lookup<V>(entries: seq<Entry<V>>, name: string): (r: Option<V>)
    ensures r.Some? <==> name in Names(entries)
  {
    match FirstIndex(Names(entries), name)
    case None => None
    case Some(i) => Some(entries[i].value)
  }

  /** Store `value` under `name`: overwrite the first entry so named, or append a new one. */
  function Upsert<V>(entries: seq<Entry<V>>, name: string, value: V): seq<Entry<V>> {
    match FirstIndex(Names(entries), name)
    case None => entries + [Entry(name, value)]
    case Some(i) => entries[i := Entry(name, value)]
  }

  /** Drop the first entry named `name`, keeping the others in order. */
  function Delete<V>(entries: seq<Entry<V>>, name: string): seq<Entry<V>> {
    match FirstIndex(Names(entries), name)
    case None => entries
    case Some(i) => entries[..i] + entries[i + 1..]
  }

  // ---------------------------------------------------------------------------------------
  // The listing of the names

  /** What `ToString`'s loop accumulates: "," before every name. */
  function Prefixed(names: seq<string>): string {
    if names == [] then "" else Prefixed(names[..|names| - 1]) + "," + names[|names| - 1]
  }

  /** The names separated by commas. */
  function Join(names: seq<string>): string
    requires |names| > 0
  {
    if |names| == 1 then names[0] else Join(names[..|names| - 1]) + "," + names[|names| - 1]
  }

  /** The position of the last comma of `s`, or `None`. */
  function LastComma(s: string): (r: Option<nat>)
    ensures r.None? <==> ',' !in s
    ensures r.Some? ==> r.value < |s| && s[r.value] == ','
    ensures r.Some? ==> forall j :: r.value < j < |s| ==> s[j] != ','
  {
    if s == [] then None
    else if s[|s| - 1] == ',' then Some(|s| - 1)
    else LastComma(s[..|s| - 1])
  }

  /** Cuts a comma-separated listing into its pieces; the inverse of `Join`. */
  function Split(s: string): (pieces: seq<string>)
    ensures |pieces| > 0
    decreases |s|
  {
    match LastComma(s)
    case None => [s]
    case Some(k) => Split(s[..k]) + [s[k + 1..]]
  }

  // ---------------------------------------------------------------------------------------
  // The store

  /** `SessionInfo`: one named value; the store overwrites `sessionValue` in place. */
  class SessionInfo<V> {
    var sessionName: string
    var sessionValue: V

    constructor (name: string, value: V)
      ensures sessionName == name && sessionValue == value
    {
      sessionName, sessionValue := name, value;
    }
  }

  /** The entries that a list of `SessionInfo` objects currently holds. */
  function EntriesOf<V>(infos: seq<SessionInfo<V>>): (entries: seq<Entry<V>>)
    reads infos
    ensures |entries| == |infos|
    ensures forall i :: 0 <= i < |infos| ==> entries[i] == Entry(infos[i].sessionName, infos[i].sessionValue)
  {
    seq(|infos|, i reads infos requires 0 <= i < |infos| => Entry(infos[i].sessionName, infos[i].sessionValue))
  }

  /**
   * LINQ's `FirstOrDefault(info => info.SessionName == name)`: the first object so named, or
   * null.
   */
  function FirstOrDefault<V>(infos: seq<SessionInfo<V>>, name: string): (si: SessionInfo?<V>)
    reads infos
    ensures match FirstIndex(Names(EntriesOf(infos)), name)
      case None => si == null
      case Some(i) => si == infos[i]
  {
    if infos == [] then null
    else if infos[0].sessionName == name then infos[0]
    else
      assert Names(EntriesOf(infos))[1..] == Names(EntriesOf(infos[1..]));
      FirstOrDefault(infos[1..], name)
  }

  /**
   * `List.Remove(item)`: drops the first element that is `item` (by reference), and leaves the
   * list as it is when there is none. `SessionInfo` does not override `Equals`, so the list
   * compares references.
   */
  function ListRemove<V>(infos: seq<SessionInfo<V>>, item: SessionInfo?<V>): (rest: seq<SessionInfo<V>>)
    ensures item !in infos ==> rest == infos
    ensures item in infos ==> |rest| == |infos| - 1
  {
    match FirstIndex(infos, item)
    case None => infos
    case Some(i) => infos[..i] + infos[i + 1..]
  }

  /** `List.Remove` keeps only elements of the list it was given. */
  lemma ListRemoveSubset<V>(infos: seq<SessionInfo<V>>, item: SessionInfo?<V>)
    ensures forall o :: o in ListRemove(infos, item) ==> o in infos
  {
    match FirstIndex(infos, item)
    case None =>
    case Some(i) =>
      var rest := infos[..i] + infos[i + 1..];
      forall j | 0 <= j < |rest|
        ensures rest[j] in infos
      {
        if j < i { assert rest[j] == infos[j]; } else { assert rest[j] == infos[j + 1]; }
      }
  }

  /** `List.Remove` takes out exactly one occurrence of the item, or nothing when it is absent. */
  lemma ListRemoveOne<V>(infos: seq<SessionInfo<V>>, item: SessionInfo?<V>)
    ensures multiset(ListRemove(infos, item)) == multiset(infos) - multiset{item}
  {
    match FirstIndex(infos, item)
    case None =>
    case Some(i) =>
      assert infos == infos[..i] + [infos[i]] + infos[i + 1..];
  }

  /** The entries of a list with one object removed are its entries with that one removed. */
  lemma EntriesWithout<V>(infos: seq<SessionInfo<V>>, i: nat)
    requires i < |infos|
    ensures EntriesOf(infos[..i] + infos[i + 1..]) == EntriesOf(infos)[..i] + EntriesOf(infos)[i + 1..]
  {
    var rest := infos[..i] + infos[i + 1..];
    var expected := EntriesOf(infos)[..i] + EntriesOf(infos)[i + 1..];
    assert |EntriesOf(rest)| == |expected|;
    forall j | 0 <= j < |expected|
      ensures EntriesOf(rest)[j] == expected[j]
    {
      if j >= i {
        assert rest[j] == infos[j + 1];
      }
    }
  }

  /** The object `FirstOrDefault` finds is, by reference, the first element of its position. */
  lemma FirstNamedIndex<V>(infos: seq<SessionInfo<V>>, name: string)
    ensures FirstIndex(infos, FirstOrDefault(infos, name)) == FirstIndex(Names(EntriesOf(infos)), name)
  {
    var si := FirstOrDefault(infos, name);
    var ns := Names(EntriesOf(infos));
    var first := FirstIndex(ns, name);
    if first.None? {
      assert si == null;
      assert FirstIndex(infos, si).None?;
    } else {
      var i := first.value;
      assert si == infos[i];
      forall j | 0 <= j < i
        ensures infos[j] != si
      {
        assert ns[j] == infos[j].sessionName;
        assert ns[j] != name;
      }
      FirstIndexAt(infos, si, i);
    }
  }

  /** Removing the object `FirstOrDefault` found removes the first entry with that name. */
  lemma RemoveFirstNamed<V>(infos: seq<SessionInfo<V>>, name: string)
    ensures EntriesOf(ListRemove(infos, FirstOrDefault(infos, name))) == Delete(EntriesOf(infos), name)
  {
    FirstNamedIndex(infos, name);
    match FirstIndex(Names(EntriesOf(infos)), name)
    case None =>
    case Some(i) =>
      EntriesWithout(infos, i);
  }

  /** The entries of a list with one object appended are its entries with that one appended. */
  lemma AppendEntry<V>(infos: seq<SessionInfo<V>>, info: SessionInfo<V>)
    ensures EntriesOf(infos + [info]) == EntriesOf(infos) + [Entry(info.sessionName, info.sessionValue)]
  {
    assert (infos + [info])[..|infos|] == infos;
  }

  /** With distinct names, the object at `i` occurs nowhere else in the list. */
  lemma OnlyObjectNamed<V>(infos: seq<SessionInfo<V>>, i: nat)
    requires i < |infos| && Distinct(Names(EntriesOf(infos)))
    ensures forall j :: 0 <= j < |infos| && j != i ==> infos[j] != infos[i]
  {
    var ns := Names(EntriesOf(infos));
    forall j | 0 <= j < |infos| && j != i
      ensures infos[j] != infos[i]
    {
      assert ns[j] == infos[j].sessionName && ns[i] == infos[i].sessionName;
      if j < i {
        assert ns[j] != ns[i];
      } else {
        assert ns[i] != ns[j];
      }
    }
  }

  /** `SessionManager`: the list of session entries, kept with pairwise distinct names. */
  class SessionManager<V> {
    var listSession: seq<SessionInfo<V>>

    /** The entry objects the store owns: every object of the list, and the ones it dropped. */
    ghost var Repr: set<object>

    /**
     * The class invariant: the store owns its entry objects, and no two entries share a name
     * (hence no object is listed twice).
     */
    ghost predicate Valid()
      reads this, Repr
    {
      (forall o :: o in listSession ==> o in Repr) && Distinct(Names(Contents()))
    }

    /** The store's entries, in insertion order. */
    function Contents(): seq<Entry<V>>
      reads this, listSession
    {
      EntriesOf(listSession)
    }

    /** A new store is empty. */
    constructor ()
      ensures Valid() && Contents() == [] && fresh(Repr)
    {
      listSession := [];
      Repr := {};
    }

    /** `Count`: the number of entries. The source's null check cannot fire after construction. */
    function Count(): (n: nat)
      reads this, listSession
      ensures n == |Contents()|
    {
      |listSession|
    }

    /** The indexer's getter: the value stored under `name`, or `None` (null) when there is none. */
    function Get(name: string): (r: Option<V>)
      reads this, listSession
      ensures r == Lookup(Contents(), name)
    {
      var si := FirstOrDefault(listSession, name);
      if si == null then None else Some(si.sessionValue)
    }

    /** `Add`: overwrites the value of the entry named `name` in place, or appends a new entry. */
    method Add(name: string, value: V)
      requires Valid()
      modifies this, Repr
      ensures Valid() && fresh(Repr - old(Repr))
      ensures Contents() == Upsert(old(Contents()), name, value)
    {
      var si := FirstOrDefault(listSession, name);
      UpsertKeepsDistinct(Contents(), name, value);
      if si == null {
        var info := new SessionInfo(name, value);
        AppendEntry(listSession, info);
        listSession := listSession + [info];
        Repr := Repr + {info};
      } else {
        ghost var i := FirstIndex(Names(Contents()), name).value;
        ghost var before := Contents();
        ghost var infos := listSession;
        OnlyObjectNamed(infos, i);
        si.sessionValue := value;
        forall j | 0 <= j < |infos|
          ensures Contents()[j] == before[i := Entry(name, value)][j]
        {
        }
        assert Contents() == before[i := Entry(name, value)];
      }
    }

    /** The indexer's setter, which hands over to `Add`. */
    method Set(name: string, value: V)
      requires Valid()
      modifies this, Repr
      ensures Valid() && fresh(Repr - old(Repr))
      ensures Contents() == Upsert(old(Contents()), name, value)
    {
      Add(name, value);
    }

    /** `Remove`: drops the entry named `name`; the store is unchanged when there is none. */
    method Remove(name: string)
      requires Valid()
      modifies this
      ensures Valid() && Repr == old(Repr)
      ensures Contents() == Delete(old(Contents()), name)
    {
      var si := FirstOrDefault(listSession, name);
      var rest := ListRemove(listSession, si);
      ListRemoveSubset(listSession, si);
      RemoveFirstNamed(listSession, name);
      DeleteKeepsDistinct(Contents(), name);
      listSession := rest;
    }

    /** `Clear`: the store becomes empty. */
    method Clear()
      modifies this
      ensures Valid() && Repr == old(Repr) && Contents() == []
    {
      listSession := [];
    }

    /**
     * `ToString`: the names in insertion order, separated by commas. On an empty store the
     * source's `Substring(1)` of the empty string throws, which is the `Failure` here.
     */
    method ToString() returns (r: Result<string, string>)
      ensures r.Failure? <==> Count() == 0
      ensures r.Success? ==> r.value == Join(Names(Contents()))
    {
      var names := Names(Contents());
      var acc := "";
      for i := 0 to |listSession|
        invariant acc == Prefixed(names[..i])
      {
        assert names[..i + 1][..i] == names[..i];
        acc := acc + "," + listSession[i].sessionName;
      }
      assert names[..|listSession|] == names;
      if names != [] {
        PrefixedIsCommaJoin(names);
      }
      if |acc| < 1 {
        r := Failure("ArgumentOutOfRangeException");
      } else {
        r := Success(acc[1..]);
      }
    }
  }

  // ---------------------------------------------------------------------------------------
  // The laws of the store

  /** Right after storing `value` under `name`, looking `name` up yields `value`. */
  lemma LookupUpsertSame<V>(entries: seq<Entry<V>>, name: string, value: V)
    ensures Lookup(Upsert(entries, name, value), name) == Some(value)
  {
    var r := Upsert(entries, name, value);
    match FirstIndex(Names(entries), name)
    case None =>
      forall j | 0 <= j < |entries|
        ensures Names(r)[j] != name
      {
        assert Names(r)[j] == Names(entries)[j];
      }
      FirstIndexAt(Names(r), name, |entries|);
    case Some(i) =>
      FirstIndexAt(Names(r), name, i);
  }

  /** Storing under `name` changes no name but possibly one to `name`, and may add `name` at the end. */
  lemma UpsertNames<V>(entries: seq<Entry<V>>, name: string, value: V)
    ensures var r := Names(Upsert(entries, name, value));
      |entries| <= |r| <= |entries| + 1
      && (forall j :: 0 <= j < |entries| ==> r[j] == Names(entries)[j] || r[j] == name)
      && (|r| == |entries| + 1 ==> r[|entries|] == name)
  {
  }

  /** Storing under `name` leaves every other name's value as it was. */
  lemma LookupUpsertOther<V>(entries: seq<Entry<V>>, name: string, value: V, other: string)
    requires other != name
    ensures Lookup(Upsert(entries, name, value), other) == Lookup(entries, other)
  {
    var r := Upsert(entries, name, value);
    UpsertNames(entries, name, value);
    match FirstIndex(Names(entries), other)
    case None =>
      assert other !in Names(r);
    case Some(k) =>
      FirstIndexAt(Names(r), other, k);
  }

  /** Storing a present name overwrites in place; storing a new name appends one entry. */
  lemma UpsertCount<V>(entries: seq<Entry<V>>, name: string, value: V)
    ensures |Upsert(entries, name, value)| == |entries| + (if name in Names(entries) then 0 else 1)
    ensures name !in Names(entries) ==> Upsert(entries, name, value) == entries + [Entry(name, value)]
    ensures name in Names(entries) ==> Names(Upsert(entries, name, value)) == Names(entries)
  {
    if name in Names(entries) {
      var i := FirstIndex(Names(entries), name).value;
      assert Names(Upsert(entries, name, value)) == Names(entries)[i := name];
    }
  }

  /** Upsert keeps the names pairwise distinct. */
  lemma UpsertKeepsDistinct<V>(entries: seq<Entry<V>>, name: string, value: V)
    requires Distinct(Names(entries))
    ensures Distinct(Names(Upsert(entries, name, value)))
  {
    match FirstIndex(Names(entries), name)
    case None =>
      assert Names(Upsert(entries, name, value)) == Names(entries) + [name];
    case Some(i) =>
      assert Names(Upsert(entries, name, value)) == Names(entries);
  }

  /** After a removal the name is gone, on a store whose names are distinct. */
  lemma LookupDeleteSame<V>(entries: seq<Entry<V>>, name: string)
    requires Distinct(Names(entries))
    ensures Lookup(Delete(entries, name), name) == None
  {
    match FirstIndex(Names(entries), name)
    case None =>
    case Some(i) =>
      var r := Delete(entries, name);
      forall j | 0 <= j < |r|
        ensures r[j].name != name
      {
        if j >= i {
          assert r[j] == entries[j + 1];
        }
      }
  }

  /** Where the first `other` sits once a different name at `i` is removed. */
  lemma FirstIndexWithout(names: seq<string>, i: nat, other: string)
    requires i < |names| && names[i] != other
    ensures var r := names[..i] + names[i + 1..];
      match FirstIndex(names, other)
      case None => FirstIndex(r, other).None?
      case Some(k) => FirstIndex(r, other) == Some(if k < i then k else k - 1)
  {
    var r := names[..i] + names[i + 1..];
    match FirstIndex(names, other)
    case None =>
      forall k | 0 <= k < |r|
        ensures r[k] != other
      {
        if k < i { assert r[k] == names[k]; } else { assert r[k] == names[k + 1]; }
      }
    case Some(k) =>
      var k' := if k < i then k else k - 1;
      assert r[k'] == other;
      forall j | 0 <= j < k'
        ensures r[j] != other
      {
        if j < i { assert r[j] == names[j]; } else { assert r[j] == names[j + 1]; }
      }
      FirstIndexAt(r, other, k');
  }

  /** Removing `name` leaves every other name's value as it was. */
  lemma LookupDeleteOther<V>(entries: seq<Entry<V>>, name: string, other: string)
    requires other != name
    ensures Lookup(Delete(entries, name), other) == Lookup(entries, other)
  {
    var first := FirstIndex(Names(entries), name);
    if first.Some? {
      var i := first.value;
      var r := entries[..i] + entries[i + 1..];
      assert Delete(entries, name) == r;
      NamesWithout(entries, i);
      FirstIndexWithout(Names(entries), i, other);
      var k := FirstIndex(Names(entries), other);
      if k.Some? {
        var k' := if k.value < i then k.value else k.value - 1;
        assert FirstIndex(Names(r), other) == Some(k');
        assert r[k'] == entries[k.value];
      }
    }
  }

  /** Removing a present name drops one entry; removing an absent one changes nothing. */
  lemma DeleteCount<V>(entries: seq<Entry<V>>, name: string)
    ensures |Delete(entries, name)| == |entries| - (if name in Names(entries) then 1 else 0)
    ensures name !in Names(entries) ==> Delete(entries, name) == entries
  {
  }

  /** Removal keeps the names pairwise distinct. */
  lemma DeleteKeepsDistinct<V>(entries: seq<Entry<V>>, name: string)
    requires Distinct(Names(entries))
    ensures Distinct(Names(Delete(entries, name)))
  {
    match FirstIndex(Names(entries), name)
    case None =>
    case Some(i) =>
      var ns := Names(entries);
      var rs := ns[..i] + ns[i + 1..];
      NamesWithout(entries, i);
      forall a, b | 0 <= a < b < |rs|
        ensures rs[a] != rs[b]
      {
        var a' := if a < i then a else a + 1;
        var b' := if b < i then b else b + 1;
        assert rs[a] == ns[a'] && rs[b] == ns[b'] && a' < b';
      }
  }

  /** The loop's accumulation is a comma followed by the comma-joined names. */
  lemma {:induction false} PrefixedIsCommaJoin(names: seq<string>)
    requires |names| > 0
    ensures Prefixed(names) == "," + Join(names)
    decreases |names|
  {
    if |names| > 1 {
      PrefixedIsCommaJoin(names[..|names| - 1]);
    } else {
      assert names[..0] == [];
    }
  }

  /** Cutting at the last comma, when the final piece has none. */
  lemma SplitLastPiece(front: string, last: string)
    requires ',' !in last
    ensures Split(front + "," + last) == Split(front) + [last]
  {
    var s := front + "," + last;
    forall j | |front| < j < |s|
      ensures s[j] != ','
    {
      assert s[j] == last[j - |front| - 1];
    }
    assert s[|front|] == ',';
    assert LastComma(s) == Some(|front|);
    assert s[..|front|] == front && s[|front| + 1..] == last;
  }

  /** When no name holds a comma, the listing can be cut back into exactly the names. */
  lemma {:induction false} SplitJoin(names: seq<string>)
    requires |names| > 0
    requires forall i :: 0 <= i < |names| ==> ',' !in names[i]
    ensures Split(Join(names)) == names
    decreases |names|
  {
    if |names| > 1 {
      var front := names[..|names| - 1];
      var last := names[|names| - 1];
      SplitLastPiece(Join(front), last);
      SplitJoin(front);
      assert front + [last] == names;
    }
  }

  // ---------------------------------------------------------------------------------------
  // A client of the store

  /** The contents after storing "x", "y" and "x" again. */
  lemma ScenarioUpserts()
    ensures Upsert(Upsert(Upsert([], "x", 1), "y", 2), "x", 3) == [Entry("x", 3), Entry("y", 2)]
  {
    assert Upsert([], "x", 1) == [Entry("x", 1)];
    assert Names([Entry("x", 1)]) == ["x"];
    assert FirstIndex(["x"], "y").None?;
    assert Upsert([Entry("x", 1)], "y", 2) == [Entry("x", 1), Entry("y", 2)];
    assert Names([Entry("x", 1), Entry("y", 2)]) == ["x", "y"];
    FirstIndexAt(["x", "y"], "x", 0);
  }

  /** Then "x" is read, removed, and removing the absent "z" changes nothing. */
  lemma ScenarioDeletes()
    ensures Lookup([Entry("x", 3), Entry("y", 2)], "x") == Some(3)
    ensures Delete(Delete([Entry("x", 3), Entry("y", 2)], "x"), "z") == [Entry("y", 2)]
  {
    assert Names([Entry("x", 3), Entry("y", 2)]) == ["x", "y"];
    FirstIndexAt(["x", "y"], "x", 0);
    assert Delete([Entry("x", 3), Entry("y", 2)], "x") == [Entry("y", 2)];
    assert Names([Entry("y", 2)]) == ["y"];
    assert FirstIndex(["y"], "z").None?;
  }

  /** The listing of the names "x" and "y". */
  lemma ScenarioListing()
    ensures Join(Names([Entry("x", 3), Entry("y", 2)])) == "x,y"
  {
    assert Names([Entry("x", 3), Entry("y", 2)]) == ["x", "y"];
    assert ["x", "y"][..1] == ["x"];
  }

  /**
   * One store used in sequence: "x", "y" and "x" again are added, the listing is taken, "x" is
   * read, then removed, an absent name is removed, and the store is cleared and listed again.
   */
  method SessionScenario() returns (listing: Result<string, string>, x: Option<int>, left: nat,
                                    cleared: Result<string, string>)
    ensures listing == Success("x,y")
    ensures x == Some(3)
    ensures left == 1
    ensures cleared.Failure?
  {
    var m := new SessionManager<int>();
    m.Add("x", 1);
    m.Add("y", 2);
    m.Add("x", 3);
    ScenarioUpserts();
    assert m.Contents() == [Entry("x", 3), Entry("y", 2)];
    listing := m.ToString();
    ScenarioListing();
    assert listing == Success("x,y");
    x := m.Get("x");
    ScenarioDeletes();
    assert x == Some(3);
    m.Remove("x");
    m.Remove("z");
    assert m.Contents() == [Entry("y", 2)];
    left := m.Count();
    m.Clear();
    cleared := m.ToString();
  }
}
