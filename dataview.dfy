/** What both view-group variants share: the `DataViewProperties` flag set, the
    display priority of a data object, and the ordered list of (data, flags)
    entries that a view group keeps, written as functions on values so that the
    two `ViewGroupData` classes can state their new state by them. */
module DataView {
  import opened Text

  // ---------------------------------------------------------------------------
  // DataViewProperties: three independent flags
  // ---------------------------------------------------------------------------

  datatype Flag = Volume3D | Slice3D | Slice2D

  /** Where a data object is shown: as a volume in 3D, as slices in 3D, as 2D slices. */
  datatype DataViewProperties = DataViewProperties(volume3D: bool, slice3D: bool, slice2D: bool)

  /** The flags that are set, as a set: the meaning the operations below are stated by. */
  function Flags(p: DataViewProperties): set<Flag>
  {
    (if p.volume3D then {Volume3D} else {})
    + (if p.slice3D then {Slice3D} else {})
    + (if p.slice2D then {Slice2D} else {})
  }

  /** A value is determined by its flag set. */
  lemma FlagsDetermine(p: DataViewProperties, q: DataViewProperties)
    requires Flags(p) == Flags(q)
    ensures p == q
  {
    assert p.volume3D <==> Volume3D in Flags(p);
    assert p.slice3D <==> Slice3D in Flags(p);
    assert p.slice2D <==> Slice2D in Flags(p);
  }

  /** The default-constructed value, with no flag set. */
  const NoFlags := DataViewProperties(false, false, false)

  function CreateDefault(): (r: DataViewProperties)
    ensures Flags(r) == {Volume3D, Slice2D}
  {
    DataViewProperties(true, false, true)
  }

  function CreateFull(): (r: DataViewProperties)
    ensures Flags(r) == {Volume3D, Slice3D, Slice2D}
  {
    DataViewProperties(true, true, true)
  }

  function CreateVolume3D(): (r: DataViewProperties)
    ensures Flags(r) == {Volume3D}
  {
    DataViewProperties(true, false, false)
  }

  function CreateSlice3D(): (r: DataViewProperties)
    ensures Flags(r) == {Slice3D}
  {
    DataViewProperties(false, true, false)
  }

  function CreateSlice2D(): (r: DataViewProperties)
    ensures Flags(r) == {Slice2D}
  {
    DataViewProperties(false, false, true)
  }

  function Create3D(): (r: DataViewProperties)
    ensures Flags(r) == {Volume3D, Slice3D}
  {
    DataViewProperties(true, true, false)
  }

  /** `empty()`: no flag is set. */
  predicate Empty(p: DataViewProperties)
    ensures Empty(p) <==> Flags(p) == {}
    ensures Empty(p) <==> p == NoFlags
  {
    !(p.volume3D || p.slice3D || p.slice2D)
  }

  /** `addFlagsIn`: the union of the two flag sets. */
  function AddFlagsIn(p: DataViewProperties, rhs: DataViewProperties): (r: DataViewProperties)
    ensures Flags(r) == Flags(p) + Flags(rhs)
  {
    DataViewProperties(p.volume3D || rhs.volume3D, p.slice3D || rhs.slice3D, p.slice2D || rhs.slice2D)
  }

  /** `removeFlagsIn`: the flags of `p` that `rhs` does not have. */
  function RemoveFlagsIn(p: DataViewProperties, rhs: DataViewProperties): (r: DataViewProperties)
    ensures Flags(r) == Flags(p) - Flags(rhs)
  {
    DataViewProperties(p.volume3D && !rhs.volume3D, p.slice3D && !rhs.slice3D, p.slice2D && !rhs.slice2D)
  }

  /** `containsAnyFlagsIn`: the two flag sets overlap. */
  predicate ContainsAnyFlagsIn(p: DataViewProperties, required: DataViewProperties)
    ensures ContainsAnyFlagsIn(p, required) <==> Flags(p) * Flags(required) != {}
  {
    if required.slice2D && p.slice2D then true
    else if required.slice3D && p.slice3D then true
    else if required.volume3D && p.volume3D then true
    else false
  }

  /** Adding the default flags always leaves something to show, so `addData`
      always keeps the data in the list. */
  lemma AddDefaultNotEmpty(p: DataViewProperties)
    ensures !Empty(AddFlagsIn(p, CreateDefault()))
    ensures ContainsAnyFlagsIn(AddFlagsIn(p, CreateDefault()), CreateDefault())
  {
    assert Volume3D in Flags(AddFlagsIn(p, CreateDefault()));
  }

  /** Removing flags and adding them back gives the union; what was removed no
      longer overlaps. */
  lemma RemoveThenAdd(p: DataViewProperties, q: DataViewProperties)
    ensures AddFlagsIn(RemoveFlagsIn(p, q), q) == AddFlagsIn(p, q)
    ensures !ContainsAnyFlagsIn(RemoveFlagsIn(p, q), q)
  {
    FlagsDetermine(AddFlagsIn(RemoveFlagsIn(p, q), q), AddFlagsIn(p, q));
  }

  // ---------------------------------------------------------------------------
  // Display priority (getPriority / dataTypeSort)
  // ---------------------------------------------------------------------------

  /** What `getPriority` can tell about a data object: its concrete class and,
      for an image, its modality and image type. */
  datatype DataKind = MeshData | MetricData | ImageData(modality: string, imageType: string) | OtherData

  predicate IsUltrasound(modality: string) { Contains(Upper(modality), "US") }

  /** `getPriority`: lower priorities are drawn first. */
  function Priority(k: DataKind): (r: nat)
    ensures r <= 7
  {
    match k
    case MeshData => 6
    case MetricData => 7
    case ImageData(modality, imageType) =>
      if IsUltrasound(modality) then
        (if Contains(Upper(imageType), "B-MODE") then 4 else 5)
      else if Contains(Upper(modality), "MR") then 2
      else if Contains(Upper(modality), "CT") then 1
      else 0
    case OtherData => 3
  }

  /** The priority table: metrics on top, then meshes, ultrasound (B-mode below
      the other ultrasound types), other data, and MR above CT above other
      volumes. The modality tests are upper-case substring tests made in the
      order US, MR, CT, so a modality naming several counts as the first. */
  lemma PriorityTable(k: DataKind)
    ensures Priority(k) == 7 <==> k.MetricData?
    ensures Priority(k) == 6 <==> k.MeshData?
    ensures Priority(k) == 3 <==> k.OtherData?
    ensures (Priority(k) == 4 || Priority(k) == 5) <==> k.ImageData? && IsUltrasound(k.modality)
    ensures Priority(k) == 4 <==>
      k.ImageData? && IsUltrasound(k.modality) && Contains(Upper(k.imageType), "B-MODE")
    ensures Priority(k) == 2 <==>
      k.ImageData? && !IsUltrasound(k.modality) && Contains(Upper(k.modality), "MR")
    ensures Priority(k) == 1 <==>
      k.ImageData? && !IsUltrasound(k.modality) && !Contains(Upper(k.modality), "MR")
      && Contains(Upper(k.modality), "CT")
    ensures Priority(k) == 0 <==>
      k.ImageData? && !IsUltrasound(k.modality) && !Contains(Upper(k.modality), "MR")
      && !Contains(Upper(k.modality), "CT")
  {
  }

  /** `dataTypeSort`: the order in which data is stacked in a view. */
  predicate DataTypeSort(a: DataKind, b: DataKind)
  {
    Priority(a) < Priority(b)
  }

  /** `dataTypeSort` is a strict weak order, as `std::sort` needs: irreflexive,
      transitive, and "neither before the other" is transitive too. */
  lemma DataTypeSortStrictWeakOrder(a: DataKind, b: DataKind, c: DataKind)
    ensures !DataTypeSort(a, a)
    ensures DataTypeSort(a, b) && DataTypeSort(b, c) ==> DataTypeSort(a, c)
    ensures !DataTypeSort(a, b) && !DataTypeSort(b, a) && !DataTypeSort(b, c) && !DataTypeSort(c, b)
            ==> !DataTypeSort(a, c) && !DataTypeSort(c, a)
  {
  }

  /** A volume always lies below every mesh, metric and non-image object. */
  lemma ImagesBelowGeometry(image: DataKind, other: DataKind)
    requires image.ImageData? && !IsUltrasound(image.modality) && !other.ImageData?
    ensures DataTypeSort(image, other)
  {
    PriorityTable(image);
    PriorityTable(other);
  }

  // ---------------------------------------------------------------------------
  // The (data, flags) list of a view group
  // ---------------------------------------------------------------------------

  datatype Entry<K> = Entry(key: K, props: DataViewProperties)

  /** `contains`: some entry has key `k`. */
  predicate HasKey<K(==)>(d: seq<Entry<K>>, k: K)
  {
    exists i :: 0 <= i < |d| && d[i].key == k
  }

  /** The position `std::find_if` stops at: the first entry with key `k`. */
  function IndexOf<K(==)>(d: seq<Entry<K>>, k: K): (i: nat)
    requires HasKey(d, k)
    ensures i < |d| && d[i].key == k
    ensures forall j :: 0 <= j < i ==> d[j].key != k
  {
    if d[0].key == k then 0
    else
      var w :| 0 <= w < |d| && d[w].key == k;
      assert d[1..][w - 1].key == k;
      1 + IndexOf(d[1..], k)
  }

  /** Every key appears at most once. */
  ghost predicate UniqueKeys<K>(d: seq<Entry<K>>)
  {
    forall i, j :: 0 <= i < j < |d| ==> d[i].key != d[j].key
  }

  /** No entry is shown nowhere. */
  ghost predicate NoneEmpty<K>(d: seq<Entry<K>>)
  {
    forall i :: 0 <= i < |d| ==> !Empty(d[i].props)
  }

  /** The invariant every view-group list keeps. */
  ghost predicate ListOk<K>(d: seq<Entry<K>>)
  {
    UniqueKeys(d) && NoneEmpty(d)
  }

  /** `getProperties`: the flags of the first entry with key `k`, or no flags. */
  function PropertiesOf<K(==)>(d: seq<Entry<K>>, k: K): (r: DataViewProperties)
    ensures !HasKey(d, k) ==> r == NoFlags
    ensures HasKey(d, k) ==> Entry(k, r) in d
  {
    if HasKey(d, k) then d[IndexOf(d, k)].props else NoFlags
  }

  /** In a list with unique keys an entry for `k` holds the flags of `k`. */
  lemma PropertiesOfUnique<K>(d: seq<Entry<K>>, i: nat)
    requires UniqueKeys(d) && i < |d|
    ensures PropertiesOf(d, d[i].key) == d[i].props
  {
    assert HasKey(d, d[i].key);
  }

  /** In a list with unique keys the first entry for a key is its only one. */
  lemma IndexOfUnique<K>(d: seq<Entry<K>>, i: nat)
    requires UniqueKeys(d) && i < |d|
    ensures IndexOf(d, d[i].key) == i
  {
  }

  /** In a list without repeated keys, erasing the key of entry `i` erases
      entry `i`. */
  lemma RemovedAt<K>(d: seq<Entry<K>>, i: nat)
    requires UniqueKeys(d) && i < |d|
    ensures Removed(d, d[i].key) == d[..i] + d[i + 1..]
  {
    IndexOfUnique(d, i);
  }

  /** The list with the first entry for `k` erased. */
  function Removed<K(==)>(d: seq<Entry<K>>, k: K): seq<Entry<K>>
  {
    if HasKey(d, k) then d[..IndexOf(d, k)] + d[IndexOf(d, k) + 1..] else d
  }

  /** The entries of `Removed(d, k)` are those of `d` before the erased one,
      then those after it. */
  lemma RemovedShape<K>(d: seq<Entry<K>>, k: K)
    requires HasKey(d, k)
    ensures |Removed(d, k)| == |d| - 1
    ensures forall j :: 0 <= j < IndexOf(d, k) ==> Removed(d, k)[j] == d[j]
    ensures forall j :: IndexOf(d, k) <= j < |d| - 1 ==> Removed(d, k)[j] == d[j + 1]
  {
  }

  /** Erasing an entry keeps the list invariant. */
  lemma RemovedOk<K>(d: seq<Entry<K>>, k: K)
    requires ListOk(d)
    ensures ListOk(Removed(d, k))
  {
    if HasKey(d, k) {
      RemovedShape(d, k);
      var i := IndexOf(d, k);
      var r := Removed(d, k);
      forall a, b | 0 <= a < b < |r|
        ensures r[a].key != r[b].key
      {
        assert r[a] == d[if a < i then a else a + 1];
        assert r[b] == d[if b < i then b else b + 1];
      }
      forall j | 0 <= j < |r|
        ensures !Empty(r[j].props)
      {
        assert r[j] == d[if j < i then j else j + 1];
      }
    }
  }

  /** Erasing the entry at a given position keeps the list invariant. */
  lemma ErasedAtOk<K>(d: seq<Entry<K>>, i: nat)
    requires ListOk(d) && i < |d|
    ensures ListOk(d[..i] + d[i + 1..])
  {
    var r := d[..i] + d[i + 1..];
    forall a, b | 0 <= a < b < |r|
      ensures r[a].key != r[b].key
    {
      assert r[a] == d[if a < i then a else a + 1];
      assert r[b] == d[if b < i then b else b + 1];
    }
    forall j | 0 <= j < |r|
      ensures !Empty(r[j].props)
    {
      assert r[j] == d[if j < i then j else j + 1];
    }
  }

  lemma RemovedKeys<K>(d: seq<Entry<K>>, k: K, x: K)
    requires UniqueKeys(d)
    ensures HasKey(Removed(d, k), x) <==> HasKey(d, x) && x != k
  {
    if HasKey(d, k) {
      var i := IndexOf(d, k);
      var r := Removed(d, k);
      RemovedShape(d, k);
      if HasKey(d, x) && x != k {
        var j :| 0 <= j < |d| && d[j].key == x;
        if j < i { assert r[j].key == x; } else { assert r[j - 1].key == x; }
      }
      if HasKey(r, x) {
        var j :| 0 <= j < |r| && r[j].key == x;
        if j < i { assert d[j].key == x; } else { assert d[j + 1].key == x; }
      }
    }
  }

  lemma RemovedProps<K>(d: seq<Entry<K>>, k: K, x: K)
    requires UniqueKeys(d) && x != k
    ensures PropertiesOf(Removed(d, k), x) == PropertiesOf(d, x)
  {
    var r := Removed(d, k);
    RemovedKeys(d, k, x);
    if HasKey(d, k) && HasKey(r, x) {
      var i := IndexOf(d, k);
      RemovedShape(d, k);
      var j := IndexOf(r, x);
      if j < i {
        PropertiesOfUnique(d, j);
      } else {
        PropertiesOfUnique(d, j + 1);
      }
    }
  }

  /** Erasing an entry keeps the list invariant, drops exactly key `k` and
      leaves the flags of every other key as they were. */
  lemma RemovedSpec<K>(d: seq<Entry<K>>, k: K)
    requires UniqueKeys(d)
    ensures HasKey(d, k) ==> |Removed(d, k)| == |d| - 1
    ensures !HasKey(d, k) ==> Removed(d, k) == d
    ensures UniqueKeys(Removed(d, k))
    ensures NoneEmpty(d) ==> NoneEmpty(Removed(d, k))
    ensures forall x :: HasKey(Removed(d, k), x) <==> HasKey(d, x) && x != k
    ensures forall x :: x != k ==> PropertiesOf(Removed(d, k), x) == PropertiesOf(d, x)
  {
    if HasKey(d, k) {
      RemovedShape(d, k);
      var i := IndexOf(d, k);
      var r := Removed(d, k);
      forall a, b | 0 <= a < b < |r|
        ensures r[a].key != r[b].key
      {
        assert r[a] == d[if a < i then a else a + 1];
        assert r[b] == d[if b < i then b else b + 1];
      }
      forall j | 0 <= j < |r|
        ensures NoneEmpty(d) ==> !Empty(r[j].props)
      {
        assert r[j] == d[if j < i then j else j + 1];
      }
    }
    forall x
      ensures HasKey(Removed(d, k), x) <==> HasKey(d, x) && x != k
    {
      RemovedKeys(d, k, x);
    }
    forall x | x != k
      ensures PropertiesOf(Removed(d, k), x) == PropertiesOf(d, x)
    {
      RemovedProps(d, k, x);
    }
  }

  /** `setProperties` on a key it does not ignore: empty flags erase the entry,
      other flags update the entry in place or append a new one. */
  function WithProperties<K(==)>(d: seq<Entry<K>>, k: K, p: DataViewProperties): seq<Entry<K>>
  {
    if Empty(p) then Removed(d, k)
    else if HasKey(d, k) then d[IndexOf(d, k) := Entry(k, p)]
    else d + [Entry(k, p)]
  }

  /** `setProperties(k, p)` on a listed key with non-empty flags: the entry is
      updated in place. */
  lemma UpdatedInPlace<K>(d: seq<Entry<K>>, k: K, p: DataViewProperties)
    requires UniqueKeys(d) && HasKey(d, k) && !Empty(p)
    ensures var r := d[IndexOf(d, k) := Entry(k, p)];
      UniqueKeys(r) && (NoneEmpty(d) ==> NoneEmpty(r))
      && PropertiesOf(r, k) == p
      && (forall x :: x != k ==> PropertiesOf(r, x) == PropertiesOf(d, x))
      && (forall x :: HasKey(r, x) <==> HasKey(d, x))
  {
    var i := IndexOf(d, k);
    var r := d[i := Entry(k, p)];
    assert forall j :: 0 <= j < |r| ==> r[j].key == d[j].key;
    forall x | x != k && HasKey(r, x)
      ensures PropertiesOf(r, x) == PropertiesOf(d, x)
    {
      PropertiesOfUnique(d, IndexOf(r, x));
    }
    PropertiesOfUnique(r, i);
  }

  /** `setProperties(k, p)` on an unlisted key with non-empty flags: a new entry
      is appended. */
  lemma Appended<K>(d: seq<Entry<K>>, k: K, p: DataViewProperties)
    requires UniqueKeys(d) && !HasKey(d, k) && !Empty(p)
    ensures var r := d + [Entry(k, p)];
      UniqueKeys(r) && (NoneEmpty(d) ==> NoneEmpty(r))
      && PropertiesOf(r, k) == p
      && (forall x :: x != k ==> PropertiesOf(r, x) == PropertiesOf(d, x))
      && (forall x :: HasKey(r, x) <==> HasKey(d, x) || x == k)
  {
    var r := d + [Entry(k, p)];
    assert forall j :: 0 <= j < |d| ==> r[j] == d[j];
    forall x | x != k && HasKey(r, x)
      ensures PropertiesOf(r, x) == PropertiesOf(d, x)
    {
      PropertiesOfUnique(d, IndexOf(r, x));
    }
    PropertiesOfUnique(r, |d|);
  }

  /** After `setProperties(k, p)`, `getProperties(k)` is `p`, every other key keeps
      its flags and its place, and the list invariant still holds. */
  lemma WithPropertiesSpec<K>(d: seq<Entry<K>>, k: K, p: DataViewProperties)
    requires UniqueKeys(d)
    ensures UniqueKeys(WithProperties(d, k, p))
    ensures ListOk(d) ==> ListOk(WithProperties(d, k, p))
    ensures PropertiesOf(WithProperties(d, k, p), k) == p
    ensures forall x :: x != k ==> PropertiesOf(WithProperties(d, k, p), x) == PropertiesOf(d, x)
    ensures forall x :: HasKey(WithProperties(d, k, p), x) <==> (if x == k then !Empty(p) else HasKey(d, x))
    ensures !Empty(p) ==> forall i :: 0 <= i < |d| && d[i].key != k ==> WithProperties(d, k, p)[i] == d[i]
  {
    if Empty(p) {
      RemovedSpec(d, k);
    } else if HasKey(d, k) {
      UpdatedInPlace(d, k, p);
    } else {
      Appended(d, k, p);
    }
  }

  /** `d` with `e` inserted at position `i`. */
  function InsertedAt<T>(d: seq<T>, i: nat, e: T): (r: seq<T>)
    requires i <= |d|
    ensures |r| == |d| + 1 && r[i] == e
    ensures forall j :: 0 <= j < i ==> r[j] == d[j]
    ensures forall j :: i < j < |r| ==> r[j] == d[j - 1]
  {
    d[..i] + [e] + d[i..]
  }

  /** Inserting a key that is absent keeps the list invariant. */
  lemma InsertedAtOk<K>(d: seq<Entry<K>>, i: nat, e: Entry<K>)
    requires ListOk(d) && i <= |d| && !HasKey(d, e.key) && !Empty(e.props)
    ensures ListOk(InsertedAt(d, i, e))
    ensures forall x :: HasKey(InsertedAt(d, i, e), x) <==> HasKey(d, x) || x == e.key
  {
    var r := InsertedAt(d, i, e);
    forall a, b | 0 <= a < b < |r|
      ensures r[a].key != r[b].key
    {
      if a != i && b != i {
        assert r[a] == d[if a < i then a else a - 1] && r[b] == d[if b < i then b else b - 1];
      } else if a == i {
        assert r[b] == d[b - 1];
      } else {
        assert r[a] == d[a];
      }
    }
    forall x
      ensures HasKey(r, x) <==> HasKey(d, x) || x == e.key
    {
      if HasKey(d, x) {
        var j :| 0 <= j < |d| && d[j].key == x;
        if j < i { assert r[j].key == x; } else { assert r[j + 1].key == x; }
      }
      if HasKey(r, x) && x != e.key {
        var j :| 0 <= j < |r| && r[j].key == x;
        if j < i { assert d[j].key == x; } else { assert d[j - 1].key == x; }
      }
    }
  }

  // ---------------------------------------------------------------------------
  // Priority-sorted insertion (addDataSorted)
  // ---------------------------------------------------------------------------

  ghost predicate NonDecreasing(ps: seq<int>)
  {
    forall i, j :: 0 <= i < j < |ps| ==> ps[i] <= ps[j]
  }

  /** Where `addDataSorted` puts an item of priority `p` in a list whose entries
      have priorities `ps`: right after the last entry of priority at most `p`,
      or at the front when every entry has a higher priority. */
  function InsertPos(ps: seq<int>, p: int): (i: nat)
    ensures i <= |ps|
    ensures forall j :: i <= j < |ps| ==> p < ps[j]
    ensures i > 0 ==> ps[i - 1] <= p
  {
    if ps == [] then 0
    else if ps[|ps| - 1] <= p then |ps|
    else InsertPos(ps[..|ps| - 1], p)
  }

  /** `InsertPos` is the only position with both of its properties, so a scan
      from the back that stops at the first priority at most `p` finds it. */
  lemma InsertPosUnique(ps: seq<int>, p: int, i: nat)
    requires i <= |ps|
    requires forall j :: i <= j < |ps| ==> p < ps[j]
    requires i > 0 ==> ps[i - 1] <= p
    ensures InsertPos(ps, p) == i
  {
  }

  /** Inserting at `InsertPos` keeps a non-decreasing list non-decreasing. */
  lemma InsertPosSorted(ps: seq<int>, p: int)
    requires NonDecreasing(ps)
    ensures NonDecreasing(InsertedAt(ps, InsertPos(ps, p), p))
  {
    var i := InsertPos(ps, p);
    var r := InsertedAt(ps, i, p);
    forall a, b | 0 <= a < b < |r|
      ensures r[a] <= r[b]
    {
      if b < i {
      } else if b == i {
        assert ps[i - 1] <= p;
      } else if a < i {
        assert ps[a] <= ps[i - 1] <= p < ps[b - 1];
      } else if a == i {
      } else {
      }
    }
  }

  // ---------------------------------------------------------------------------
  // Notifications and options
  // ---------------------------------------------------------------------------

  /** The signals a view group emits, recorded in order. */
  datatype Notice =
    | PropertiesChanged(uid: string)   // dataViewPropertiesChanged
    | VideoSourceChanged(source: string)
    | OptionsChanged

  /** One `dataViewPropertiesChanged` per uid, in order. */
  function Changed(uids: seq<string>): (r: seq<Notice>)
    ensures |r| == |uids|
    ensures forall i :: 0 <= i < |uids| ==> r[i] == PropertiesChanged(uids[i])
  {
    if uids == [] then [] else Changed(uids[..|uids| - 1]) + [PropertiesChanged(uids[|uids| - 1])]
  }

  /** One more removal, one more change. */
  lemma ChangedAppend(emitted: seq<Notice>, uids: seq<string>, u: string)
    ensures (emitted + Changed(uids)) + [PropertiesChanged(u)] == emitted + Changed(uids + [u])
  {
    assert (uids + [u])[..|uids|] == uids;
  }

  /** One more uid of `uids` announced after the first `n`. */
  lemma ChangedNext(emitted: seq<Notice>, uids: seq<string>, n: nat, u: string)
    requires n < |uids| && u == uids[n]
    ensures (emitted + Changed(uids[..n])) + [PropertiesChanged(u)] == emitted + Changed(uids[..n + 1])
  {
    ChangedAppend(emitted, uids[..n], u);
    assert uids[..n] + [u] == uids[..n + 1];
  }

  /** Emitting one more change extends the emitted prefix. */
  lemma ChangedStep(uids: seq<string>, k: nat)
    requires k < |uids|
    ensures Changed(uids[..k + 1]) == Changed(uids[..k]) + [PropertiesChanged(uids[k])]
  {
    assert uids[..k + 1][..k] == uids[..k];
  }

  /** The keys of a list, in list order. */
  function KeysOf<K>(d: seq<Entry<K>>): (r: seq<K>)
    ensures |r| == |d|
    ensures forall i :: 0 <= i < |d| ==> r[i] == d[i].key
  {
    if d == [] then [] else KeysOf(d[..|d| - 1]) + [d[|d| - 1].key]
  }

  /** The part of `ViewGroupData::Options` the registration mode sets. */
  datatype Options = Options(showLandmarks: bool, showPointPickerProbe: bool)

  datatype RegistrationStatus = NotRegistered | ImageRegistered | PatientRegistered

  /** Erasing the first entry after `a` from `a + b` leaves `a + b[1..]`. */
  lemma SplitAround<T>(a: seq<T>, b: seq<T>)
    requires b != []
    ensures (a + b)[..|a|] + (a + b)[|a| + 1..] == a + b[1..]
  {
    assert (a + b)[..|a|] == a;
    assert (a + b)[|a| + 1..] == b[1..];
  }
}
