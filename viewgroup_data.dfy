/** The view group of `source/resource/visualization/cxViewGroupData.cpp`: the
    same list of (data, flags) entries as the uid-keyed variant, keyed by the data
    object itself. Data objects are heap objects, so that two objects with the same
    uid are still different keys, as two pointers are. The patient model is a
    parameter: the map from uid to data object that `getData(uid)` looks in. */
module ViewGroupByData {
  import opened DataView

  /** A data object as the view group sees it: its uid and what `getPriority` and
      `dynamic_pointer_cast` need to know of its class. */
  class Data {
    const uid: string
    const kind: DataKind

    constructor(uid: string, kind: DataKind)
      ensures this.uid == uid && this.kind == kind
    {
      this.uid := uid;
      this.kind := kind;
    }
  }

  /** The `DATA_TYPE` of `getDataOfType`: `Data`, `Image` or `Mesh`. */
  datatype DataType = AnyData | ImageType | MeshType

  /** The uids of the entries' data objects, in list order. */
  function UidsOf(d: seq<Entry<Data>>): (r: seq<string>)
    ensures |r| == |d|
    ensures forall i :: 0 <= i < |d| ==> r[i] == d[i].key.uid
  {
    if d == [] then [] else UidsOf(d[..|d| - 1]) + [d[|d| - 1].key.uid]
  }

  /** `dynamic_pointer_cast<DATA_TYPE>(data)` is not null. */
  predicate IsA(x: Data, t: DataType)
  {
    match t
    case AnyData => true
    case ImageType => x.kind.ImageData?
    case MeshType => x.kind.MeshData?
  }

  /** The data of the listed entries that is of type `t` and shown in one of the
      `required` views, in list order. */
  function OfType(d: seq<Entry<Data>>, t: DataType, required: DataViewProperties): seq<Data>
  {
    if d == [] then []
    else
      OfType(d[..|d| - 1], t, required)
      + (if IsA(d[|d| - 1].key, t) && ContainsAnyFlagsIn(d[|d| - 1].props, required)
         then [d[|d| - 1].key] else [])
  }

  /** `getDataOfType` returns exactly the listed data of the type whose flags
      overlap the required ones. */
  lemma {:induction false} OfTypeMembers(d: seq<Entry<Data>>, t: DataType, required: DataViewProperties, x: Data)
    ensures x in OfType(d, t, required) <==>
      exists i :: 0 <= i < |d| && d[i].key == x && IsA(x, t) && ContainsAnyFlagsIn(d[i].props, required)
  {
    if d != [] {
      var init := d[..|d| - 1];
      OfTypeMembers(init, t, required, x);
      if x in OfType(init, t, required) {
        var i :| 0 <= i < |init| && init[i].key == x && IsA(x, t) && ContainsAnyFlagsIn(init[i].props, required);
        assert d[i] == init[i];
      }
      if exists i :: 0 <= i < |d| && d[i].key == x && IsA(x, t) && ContainsAnyFlagsIn(d[i].props, required) {
        var i :| 0 <= i < |d| && d[i].key == x && IsA(x, t) && ContainsAnyFlagsIn(d[i].props, required);
        if i < |d| - 1 {
          assert init[i] == d[i];
        }
      }
    }
  }

  /** The display priorities of the listed data, in list order. */
  function Ranks(d: seq<Entry<Data>>): (r: seq<int>)
    ensures |r| == |d|
    ensures forall i :: 0 <= i < |d| ==> r[i] == Priority(d[i].key.kind)
  {
    if d == [] then [] else Ranks(d[..|d| - 1]) + [Priority(d[|d| - 1].key.kind)]
  }

  /** What `addDataSorted` makes of a list that lacks `x`: the list invariant
      holds and priority order is kept. */
  lemma SortedInsertion(d: seq<Entry<Data>>, x: Data)
    requires ListOk(d) && !HasKey(d, x)
    ensures var r := InsertedAt(d, InsertPos(Ranks(d), Priority(x.kind)), Entry(x, CreateDefault()));
      ListOk(r) && (NonDecreasing(Ranks(d)) ==> NonDecreasing(Ranks(r)))
  {
    var p := Priority(x.kind);
    var pos := InsertPos(Ranks(d), p);
    var item := Entry(x, CreateDefault());
    InsertedAtOk(d, pos, item);
    assert Ranks(InsertedAt(d, pos, item)) == InsertedAt(Ranks(d), pos, p);
    if NonDecreasing(Ranks(d)) {
      InsertPosSorted(Ranks(d), p);
    }
  }

  /** The entries whose data the patient model still knows by uid, in list order. */
  function KeepLive(d: seq<Entry<Data>>, known: set<string>): (r: seq<Entry<Data>>)
    ensures |r| <= |d|
  {
    if d == [] then []
    else (if d[0].key.uid in known then [d[0]] else []) + KeepLive(d[1..], known)
  }

  /** The uids of the entries the patient model no longer knows, in list order. */
  function DroppedUids(d: seq<Entry<Data>>, known: set<string>): (r: seq<string>)
    ensures forall u :: u in r ==> u !in known
  {
    if d == [] then []
    else (if d[0].key.uid in known then [] else [d[0].key.uid]) + DroppedUids(d[1..], known)
  }

  /** The refresh keeps exactly the entries whose uid is still known. */
  lemma {:induction false} KeepLiveKeys(d: seq<Entry<Data>>, known: set<string>, x: Data)
    ensures HasKey(KeepLive(d, known), x) <==> HasKey(d, x) && x.uid in known
  {
    if d != [] {
      var head: seq<Entry<Data>> := if d[0].key.uid in known then [d[0]] else [];
      var tail := KeepLive(d[1..], known);
      KeepLiveKeys(d[1..], known, x);
      var r := KeepLive(d, known);
      assert r == head + tail;
      if HasKey(d, x) && x.uid in known {
        var j :| 0 <= j < |d| && d[j].key == x;
        if j == 0 {
          assert r[0].key == x;
        } else {
          assert d[1..][j - 1].key == x;
          var k :| 0 <= k < |tail| && tail[k].key == x;
          assert r[|head| + k].key == x;
        }
      }
      if HasKey(r, x) {
        var j :| 0 <= j < |r| && r[j].key == x;
        if j < |head| {
          assert d[0].key == x;
        } else {
          assert tail[j - |head|].key == x;
          var k :| 0 <= k < |d[1..]| && d[1..][k].key == x;
          assert d[k + 1].key == x;
        }
      }
    }
  }

  /** Midway through the refresh of `d0`: the first `n` entries are settled into
      `kept` and `dropped`, the list holds `kept` followed by the rest, and the
      signals `ns0` have grown by one change per dropped uid. */
  ghost predicate Refreshing(d0: seq<Entry<Data>>, known: set<string>, d: seq<Entry<Data>>,
                             n: nat, kept: seq<Entry<Data>>, dropped: seq<string>,
                             ns0: seq<Notice>, ns: seq<Notice>)
  {
    n <= |d0| && d == kept + d0[n..] && ns == ns0 + Changed(dropped)
    && KeepLive(d0, known) == kept + KeepLive(d0[n..], known)
    && DroppedUids(d0, known) == dropped + DroppedUids(d0[n..], known)
  }

  /** A step of the refresh loop over the original entries `d0` at an entry
      whose uid is still known: it is kept, and the loop moves past it. */
  lemma RefreshKeep(d0: seq<Entry<Data>>, known: set<string>, d: seq<Entry<Data>>,
                    n: nat, kept: seq<Entry<Data>>, dropped: seq<string>,
                    ns0: seq<Notice>, ns: seq<Notice>)
    requires Refreshing(d0, known, d, n, kept, dropped, ns0, ns) && |kept| < |d|
    requires d[|kept|].key.uid in known
    ensures n < |d0| && d[|kept|] == d0[n]
    ensures Refreshing(d0, known, d, n + 1, kept + [d0[n]], dropped, ns0, ns)
  {
    assert d0[n..] == [d0[n]] + d0[n + 1..];
    assert d0[n..][1..] == d0[n + 1..];
    assert KeepLive(d0[n..], known) == [d0[n]] + KeepLive(d0[n + 1..], known);
    assert kept + ([d0[n]] + KeepLive(d0[n + 1..], known)) == (kept + [d0[n]]) + KeepLive(d0[n + 1..], known);
    assert kept + ([d0[n]] + d0[n + 1..]) == (kept + [d0[n]]) + d0[n + 1..];
  }

  /** A step of the refresh loop over the original entries `d0` at an entry
      whose uid is no longer known: it is erased where it stands and its
      change announced. */
  lemma RefreshDrop(d0: seq<Entry<Data>>, known: set<string>, d: seq<Entry<Data>>,
                    n: nat, kept: seq<Entry<Data>>, dropped: seq<string>,
                    ns0: seq<Notice>, ns: seq<Notice>)
    requires Refreshing(d0, known, d, n, kept, dropped, ns0, ns) && |kept| < |d|
    requires d[|kept|].key.uid !in known
    ensures n < |d0| && d[|kept|] == d0[n]
    ensures Refreshing(d0, known, d[..|kept|] + d[|kept| + 1..], n + 1, kept, dropped + [d0[n].key.uid],
                       ns0, ns + [PropertiesChanged(d0[n].key.uid)])
  {
    assert d0[n..] == [d0[n]] + d0[n + 1..];
    assert d0[n..][1..] == d0[n + 1..];
    assert DroppedUids(d0[n..], known) == [d0[n].key.uid] + DroppedUids(d0[n + 1..], known);
    assert dropped + ([d0[n].key.uid] + DroppedUids(d0[n + 1..], known))
        == (dropped + [d0[n].key.uid]) + DroppedUids(d0[n + 1..], known);
    SplitAround(kept, d0[n..]);
    ChangedAppend(ns0, dropped, d0[n].key.uid);
  }

  /** What `parseXml` does with one stored `data` element: a uid the patient model
      does not know is skipped; a known one is added with the default flags and
      then given the stored flags. */
  function ParseElement(d: seq<Entry<Data>>, uid: string, props: DataViewProperties,
                        patient: map<string, Data>): seq<Entry<Data>>
  {
    if uid !in patient then d
    else
      var x := patient[uid];
      WithProperties(WithProperties(d, x, AddFlagsIn(PropertiesOf(d, x), CreateDefault())), x, props)
  }

  /** After one element the named data shows exactly the stored flags (and is
      dropped when they are empty); nothing else changes. */
  lemma ParseElementSpec(d: seq<Entry<Data>>, uid: string, props: DataViewProperties,
                         patient: map<string, Data>)
    requires ListOk(d)
    ensures ListOk(ParseElement(d, uid, props, patient))
    ensures uid !in patient ==> ParseElement(d, uid, props, patient) == d
    ensures uid in patient ==> PropertiesOf(ParseElement(d, uid, props, patient), patient[uid]) == props
    ensures uid in patient ==> (HasKey(ParseElement(d, uid, props, patient), patient[uid]) <==> !Empty(props))
    ensures uid in patient ==> forall y :: y != patient[uid] ==>
      PropertiesOf(ParseElement(d, uid, props, patient), y) == PropertiesOf(d, y)
  {
    if uid in patient {
      var x := patient[uid];
      var q := AddFlagsIn(PropertiesOf(d, x), CreateDefault());
      AddDefaultNotEmpty(PropertiesOf(d, x));
      WithPropertiesSpec(d, x, q);
      WithPropertiesSpec(WithProperties(d, x, q), x, props);
    }
  }

  /** `parseXml` over the stored elements, in document order. */
  function ParseAll(d: seq<Entry<Data>>, elems: seq<(string, DataViewProperties)>,
                    patient: map<string, Data>): seq<Entry<Data>>
  {
    if elems == [] then d
    else ParseElement(ParseAll(d, elems[..|elems| - 1], patient),
                      elems[|elems| - 1].0, elems[|elems| - 1].1, patient)
  }

  /** Elements naming data the patient model does not know leave no trace. */
  lemma {:induction false} ParseAllSkipsUnknown(d: seq<Entry<Data>>, elems: seq<(string, DataViewProperties)>,
                                                patient: map<string, Data>)
    requires forall i :: 0 <= i < |elems| ==> elems[i].0 !in patient
    ensures ParseAll(d, elems, patient) == d
  {
    if elems != [] {
      ParseAllSkipsUnknown(d, elems[..|elems| - 1], patient);
    }
  }

  /** The notices `parseXml` raises over the stored elements: a known data is
      announced twice, once by `addData` and once by `setProperties` (its entry
      exists by then, so even empty stored flags are a change); an unknown uid
      raises none. */
  function ParseNotices(elems: seq<(string, DataViewProperties)>, patient: map<string, Data>): seq<Notice>
  {
    if elems == [] then []
    else ParseNotices(elems[..|elems| - 1], patient) + ElementNotices(elems[|elems| - 1].0, patient)
  }

  /** The notices of one stored element. */
  function ElementNotices(uid: string, patient: map<string, Data>): seq<Notice>
  {
    if uid in patient then [PropertiesChanged(patient[uid].uid), PropertiesChanged(patient[uid].uid)] else []
  }

  /** At most two notices per element; each announces the data of a known
      element, and every known element's data is announced. */
  lemma {:induction false} ParseNoticesSpec(elems: seq<(string, DataViewProperties)>, patient: map<string, Data>)
    ensures |ParseNotices(elems, patient)| <= 2 * |elems|
    ensures forall n :: n in ParseNotices(elems, patient) ==>
      exists i :: 0 <= i < |elems| && elems[i].0 in patient && n == PropertiesChanged(patient[elems[i].0].uid)
    ensures forall i :: 0 <= i < |elems| && elems[i].0 in patient ==>
      PropertiesChanged(patient[elems[i].0].uid) in ParseNotices(elems, patient)
  {
    if elems != [] {
      var front := elems[..|elems| - 1];
      ParseNoticesSpec(front, patient);
      forall n | n in ParseNotices(elems, patient)
        ensures exists i :: 0 <= i < |elems| && elems[i].0 in patient && n == PropertiesChanged(patient[elems[i].0].uid)
      {
        if n in ParseNotices(front, patient) {
          var i :| 0 <= i < |front| && front[i].0 in patient && n == PropertiesChanged(patient[front[i].0].uid);
          assert elems[i] == front[i];
        } else {
          assert elems[|elems| - 1].0 in patient;
        }
      }
      forall i | 0 <= i < |elems| && elems[i].0 in patient
        ensures PropertiesChanged(patient[elems[i].0].uid) in ParseNotices(elems, patient)
      {
        if i < |front| {
          assert front[i] == elems[i];
        }
      }
    }
  }

  /** The state of the `parseXml` loop after `i` elements, from list `d0` and
      notices `ns0`. */
  ghost predicate Parsing(d0: seq<Entry<Data>>, ns0: seq<Notice>, elems: seq<(string, DataViewProperties)>,
                          patient: map<string, Data>, i: nat, d: seq<Entry<Data>>, ns: seq<Notice>)
  {
    i <= |elems| && d == ParseAll(d0, elems[..i], patient) && ns == ns0 + ParseNotices(elems[..i], patient)
  }

  /** One more element extends the loop state by that element. */
  lemma ParseStep(d0: seq<Entry<Data>>, ns0: seq<Notice>, elems: seq<(string, DataViewProperties)>,
                  patient: map<string, Data>, i: nat, d: seq<Entry<Data>>, ns: seq<Notice>)
    requires Parsing(d0, ns0, elems, patient, i, d, ns) && i < |elems|
    ensures Parsing(d0, ns0, elems, patient, i + 1,
                    ParseElement(d, elems[i].0, elems[i].1, patient), ns + ElementNotices(elems[i].0, patient))
  {
    assert elems[..i + 1][..i] == elems[..i];
  }

  /** The loop state after every element is the result of `ParseAll` and
      `ParseNotices`. */
  lemma ParseDone(d0: seq<Entry<Data>>, ns0: seq<Notice>, elems: seq<(string, DataViewProperties)>,
                  patient: map<string, Data>, d: seq<Entry<Data>>, ns: seq<Notice>)
    requires Parsing(d0, ns0, elems, patient, |elems|, d, ns)
    ensures d == ParseAll(d0, elems, patient) && ns == ns0 + ParseNotices(elems, patient)
  {
    assert elems[..|elems|] == elems;
  }

  class ViewGroupData {
    /** `mData`: (data, flags) in display order. */
    var data: seq<Entry<Data>>
    var videoSource: string
    var options: Options
    /** The signals emitted so far. */
    var notices: seq<Notice>

    /** Each data object is listed once, and every listed one is shown somewhere. */
    ghost predicate Valid()
      reads this
    {
      ListOk(data)
    }

    constructor()
      ensures Valid()
      ensures data == [] && videoSource == "active" && notices == []
      ensures options == Options(false, false)
    {
      data := [];
      videoSource := "active";
      options := Options(false, false);
      notices := [];
    }

    /** `contains`: counts the entries holding this very object; none holds null. */
    method Contains(x: Data?) returns (r: bool)
      ensures r <==> x != null && HasKey(data, x)
    {
      var count := 0;
      for i := 0 to |data|
        invariant count > 0 <==> exists j :: 0 <= j < i && data[j].key == x
      {
        if data[i].key == x {
          count := count + 1;
        }
      }
      return count > 0;
    }

    method RemoveData(x: Data?) returns (removed: bool)
      requires Valid()
      modifies this
      ensures Valid()
      ensures removed <==> x != null && HasKey(old(data), x)
      ensures x == null ==> data == old(data)
      ensures x != null ==> data == Removed(old(data), x)
      ensures notices == old(notices) + (if removed then [PropertiesChanged(x.uid)] else [])
      ensures videoSource == old(videoSource) && options == old(options)
    {
      if x == null {
        return false;
      }
      var present := Contains(x);
      if !present {
        return false;
      }
      RemovedOk(data, x);
      data := Removed(data, x);
      notices := notices + [PropertiesChanged(x.uid)];
      return true;
    }

    method SetProperties(x: Data?, properties: DataViewProperties)
      requires Valid()
      modifies this
      ensures Valid()
      ensures x == null ==> data == old(data) && notices == old(notices)
      ensures x != null ==> data == WithProperties(old(data), x, properties)
      ensures x != null ==>
        (notices == old(notices) + (if Empty(properties) && !HasKey(old(data), x) then [] else [PropertiesChanged(x.uid)]))
      ensures videoSource == old(videoSource) && options == old(options)
    {
      if x == null {
        return;
      }
      if Empty(properties) {
        var _ := RemoveData(x);
        return;
      }
      WithPropertiesSpec(data, x, properties);
      var present := Contains(x);
      if !present {
        data := data + [Entry(x, properties)];
      } else {
        data := data[IndexOf(data, x) := Entry(x, properties)];
      }
      notices := notices + [PropertiesChanged(x.uid)];
    }

    /** `addData`: shows the data in the default views as well; null is ignored. */
    method AddData(x: Data?)
      requires Valid()
      modifies this
      ensures Valid()
      ensures x == null ==> data == old(data) && notices == old(notices)
      ensures x != null ==> data == WithProperties(old(data), x, AddFlagsIn(PropertiesOf(old(data), x), CreateDefault()))
      ensures x != null ==> notices == old(notices) + [PropertiesChanged(x.uid)]
      ensures x != null ==> HasKey(data, x)
      ensures x != null ==> PropertiesOf(data, x) == AddFlagsIn(PropertiesOf(old(data), x), CreateDefault())
      ensures forall y :: y != x ==> PropertiesOf(data, y) == PropertiesOf(old(data), y)
      ensures forall y :: y != x ==> (HasKey(data, y) <==> HasKey(old(data), y))
      ensures videoSource == old(videoSource) && options == old(options)
    {
      var properties := if x == null then NoFlags else PropertiesOf(data, x);
      properties := AddFlagsIn(properties, CreateDefault());
      if x != null {
        AddDefaultNotEmpty(PropertiesOf(data, x));
        WithPropertiesSpec(data, x, properties);
      }
      SetProperties(x, properties);
    }

    /** The scan of `addDataSorted`; see the uid-keyed variant. */
    method InsertIndex(p: int) returns (pos: nat)
      ensures pos == InsertPos(Ranks(data), p)
    {
      ghost var ps := Ranks(data);
      var i := |data| - 1;
      while i >= 0 && p < Priority(data[i].key.kind)
        invariant -1 <= i < |ps|
        invariant forall j :: i < j < |ps| ==> p < ps[j]
        decreases i + 1
      {
        assert ps[i] == Priority(data[i].key.kind);
        i := i - 1;
      }
      InsertPosUnique(ps, p, i + 1);
      return i + 1;
    }

    /** `addDataSorted`: ignores null and listed data, otherwise inserts right
        after the last entry whose priority is at most the new one, or at the front. */
    method AddDataSorted(x: Data?)
      requires Valid()
      modifies this
      ensures Valid()
      ensures x == null || HasKey(old(data), x) ==> data == old(data) && notices == old(notices)
      ensures x != null && !HasKey(old(data), x) ==>
        data == InsertedAt(old(data), InsertPos(Ranks(old(data)), Priority(x.kind)), Entry(x, CreateDefault()))
      ensures x != null && !HasKey(old(data), x) ==> notices == old(notices) + [PropertiesChanged(x.uid)]
      ensures NonDecreasing(Ranks(old(data))) ==> NonDecreasing(Ranks(data))
      ensures videoSource == old(videoSource) && options == old(options)
    {
      if x == null {
        return;
      }
      var present := Contains(x);
      if present {
        return;
      }
      ghost var d0 := data;
      var i := InsertIndex(Priority(x.kind));
      data := InsertedAt(data, i, Entry(x, CreateDefault()));
      notices := notices + [PropertiesChanged(x.uid)];
      SortedInsertion(d0, x);
    }

    /** `removeData(mData[i].first)`: `removeData` finds the entry at `i`, the
        only one holding that object, erases it and signals the change. */
    method EraseEntry(i: nat)
      requires Valid() && i < |data|
      modifies this`data, this`notices
      ensures Valid()
      ensures data == old(data)[..i] + old(data)[i + 1..]
      ensures data == Removed(old(data), old(data)[i].key)
      ensures notices == old(notices) + [PropertiesChanged(old(data)[i].key.uid)]
    {
      assert Removed(data, data[i].key) == data[..i] + data[i + 1..] by {
        IndexOfUnique(data, i);
      }
      ErasedAtOk(data, i);
      notices := notices + [PropertiesChanged(data[i].key.uid)];
      data := data[..i] + data[i + 1..];
    }

    /** `dataAddedOrRemovedInManager`: removes, one by one, every entry whose uid
        the patient model no longer knows. */
    method DataAddedOrRemovedInManager(known: set<string>)
      requires Valid()
      modifies this
      ensures Valid()
      ensures data == KeepLive(old(data), known)
      ensures notices == old(notices) + Changed(DroppedUids(old(data), known))
      ensures videoSource == old(videoSource) && options == old(options)
    {
      data, notices := RefreshList(data, notices, known);
    }

    /** The loop of `dataAddedOrRemovedInManager` on the list and the signals
        emitted so far: each entry whose uid is not `known` is erased where it
        stands, as `removeData` does, and its change announced. */
    static method RefreshList(d0: seq<Entry<Data>>, ns0: seq<Notice>, known: set<string>)
      returns (d: seq<Entry<Data>>, ns: seq<Notice>)
      requires ListOk(d0)
      ensures ListOk(d)
      ensures d == KeepLive(d0, known)
      ensures ns == ns0 + Changed(DroppedUids(d0, known))
    {
      ghost var kept: seq<Entry<Data>> := [];
      ghost var dropped: seq<string> := [];
      d, ns := d0, ns0;
      var i: nat := 0;
      ghost var n: nat := 0;
      assert d0[0..] == d0;
      while i < |d|
        invariant Refreshing(d0, known, d, n, kept, dropped, ns0, ns) && i == |kept|
        invariant ListOk(d)
        decreases |d| - i
      {
        d, ns, i, n, kept, dropped := RefreshOne(d0, known, d, ns, i, n, kept, dropped, ns0);
      }
      assert d0[n..] == [];
    }

    /** One iteration of the refresh loop at index `i`: a known entry is stepped
        over, an unknown one erased and announced. */
    static method RefreshOne(ghost d0: seq<Entry<Data>>, known: set<string>,
                             d: seq<Entry<Data>>, ns: seq<Notice>, i: nat,
                             ghost n: nat, ghost kept: seq<Entry<Data>>, ghost dropped: seq<string>,
                             ghost ns0: seq<Notice>)
      returns (d1: seq<Entry<Data>>, ns1: seq<Notice>, i1: nat,
               ghost n1: nat, ghost kept1: seq<Entry<Data>>, ghost dropped1: seq<string>)
      requires Refreshing(d0, known, d, n, kept, dropped, ns0, ns) && i == |kept| < |d|
      requires ListOk(d)
      ensures Refreshing(d0, known, d1, n1, kept1, dropped1, ns0, ns1) && i1 == |kept1|
      ensures ListOk(d1)
      ensures |d1| - i1 < |d| - i
    {
      var uid := d[i].key.uid;
      n1 := n + 1;
      if uid !in known {
        RefreshDrop(d0, known, d, n, kept, dropped, ns0, ns);
        ErasedAtOk(d, i);
        d1, ns1, i1 := d[..i] + d[i + 1..], ns + [PropertiesChanged(uid)], i;
        kept1, dropped1 := kept, dropped + [uid];
      } else {
        RefreshKeep(d0, known, d, n, kept, dropped, ns0, ns);
        d1, ns1, i1 := d, ns, i + 1;
        kept1, dropped1 := kept + [d0[n]], dropped;
      }
    }

    /** One step of `clearData`: removes the front entry. */
    method RemoveFront() returns (u: string)
      requires Valid() && data != []
      modifies this
      ensures Valid()
      ensures data == old(data)[1..] && u == old(data)[0].key.uid
      ensures notices == old(notices) + [PropertiesChanged(u)]
      ensures videoSource == old(videoSource) && options == old(options)
    {
      var x := data[0].key;
      assert HasKey(data, x);
      RemovedAt(data, 0);
      assert data[..0] + data[1..] == data[1..];
      var removed := RemoveData(x);
      u := x.uid;
    }

    /** `clearData`: removes the front entry until the list is empty, then
        returns to the active video source. */
    method ClearData()
      requires Valid()
      modifies this
      ensures Valid()
      ensures data == [] && videoSource == "active"
      ensures notices == old(notices) + Changed(UidsOf(old(data)))
        + (if old(videoSource) == "active" then [] else [VideoSourceChanged("active")])
      ensures options == old(options)
    {
      ghost var d0 := data;
      ghost var us := UidsOf(d0);
      ghost var n := 0;
      while data != []
        invariant Valid()
        invariant n <= |d0| && data == d0[n..]
        invariant notices == old(notices) + Changed(us[..n])
        invariant videoSource == old(videoSource) && options == old(options)
        decreases |data|
      {
        assert data[0] == d0[n] && d0[n..][1..] == d0[n + 1..];
        var u := RemoveFront();
        ChangedNext(old(notices), us, n, u);
        n := n + 1;
      }
      assert us[..n] == us;
      SetVideoSource("active");
    }

    method SetVideoSource(uid: string)
      modifies this
      ensures videoSource == uid
      ensures notices == old(notices) + (if old(videoSource) == uid then [] else [VideoSourceChanged(uid)])
      ensures data == old(data) && options == old(options)
    {
      if videoSource == uid {
        return;
      }
      videoSource := uid;
      notices := notices + [VideoSourceChanged(videoSource)];
    }

    /** `getDataOfType`: the listed data of type `t` shown in any of the
        `required` views, in list order. */
    method GetDataOfType(t: DataType, required: DataViewProperties) returns (r: seq<Data>)
      ensures r == OfType(data, t, required)
    {
      r := [];
      for i := 0 to |data|
        invariant r == OfType(data[..i], t, required)
      {
        assert data[..i + 1][..i] == data[..i];
        var x := data[i].key;
        if !IsA(x, t) {
          continue;
        }
        if !ContainsAnyFlagsIn(data[i].props, required) {
          continue;
        }
        r := r + [x];
      }
      assert data[..|data|] == data;
    }

    /** `parseXml` for the stored data elements: each element is a uid and the
        flags stored with it; a uid the patient model does not know is reported
        and skipped. */
    method ParseXml(elems: seq<(string, DataViewProperties)>, patient: map<string, Data>)
      requires Valid()
      modifies this
      ensures Valid()
      ensures data == ParseAll(old(data), elems, patient)
      ensures notices == old(notices) + ParseNotices(elems, patient)
      ensures videoSource == old(videoSource) && options == old(options)
    {
      assert elems[..0] == [];
      for i := 0 to |elems|
        invariant Valid()
        invariant Parsing(old(data), old(notices), elems, patient, i, data, notices)
        invariant videoSource == old(videoSource) && options == old(options)
      {
        ParseStep(old(data), old(notices), elems, patient, i, data, notices);
        ParseOne(elems[i].0, elems[i].1, patient);
      }
      ParseDone(old(data), old(notices), elems, patient, data, notices);
    }

    /** One stored element of `parseXml`: an unknown uid is reported and
        skipped; a known data is added, then given the stored flags. */
    method ParseOne(uid: string, properties: DataViewProperties, patient: map<string, Data>)
      requires Valid()
      modifies this
      ensures Valid()
      ensures data == ParseElement(old(data), uid, properties, patient)
      ensures notices == old(notices) + ElementNotices(uid, patient)
      ensures videoSource == old(videoSource) && options == old(options)
    {
      ParseElementSpec(data, uid, properties, patient);
      if uid !in patient {
        return;
      }
      var x := patient[uid];
      AddData(x);
      SetProperties(x, properties);
    }

    /** Shows landmarks once any registration is made, and the point picker only
        for an image registration. */
    method SetRegistrationMode(mode: RegistrationStatus)
      modifies this
      ensures options.showLandmarks <==> mode == ImageRegistered || mode == PatientRegistered
      ensures options.showPointPickerProbe <==> mode == ImageRegistered
      ensures notices == old(notices) + [OptionsChanged]
      ensures data == old(data) && videoSource == old(videoSource)
    {
      var o := options;
      o := o.(showLandmarks := false, showPointPickerProbe := false);
      if mode == ImageRegistered {
        o := o.(showLandmarks := true, showPointPickerProbe := true);
      }
      if mode == PatientRegistered {
        o := o.(showLandmarks := true, showPointPickerProbe := false);
      }
      options := o;
      notices := notices + [OptionsChanged];
    }
  }
}
