/** The view group of `source/resource/view/cxViewGroupData.cpp`: the data shown
    in a group of views, kept as a list of (uid, flags) entries, the group's
    video source and options, and the camera style record. The patient model
    that `getData(uid)` asks is a parameter: a map from the uids it knows to
    what `getPriority` needs of each data object. */
module ViewGroupByUid {
  import opened DataView

  // ---------------------------------------------------------------------------
  // CameraStyleData
  // ---------------------------------------------------------------------------

  /** `CAMERA_STYLE_TYPE`, with `cstCOUNT` as `StyleCount`. */
  datatype CameraStyle = DefaultStyle | ToolStyle | AngledToolStyle | UniCamStyle | StyleCount

  /** The styles `getStyle` tries, in enum order. */
  const Styles: seq<CameraStyle> := [DefaultStyle, ToolStyle, AngledToolStyle, UniCamStyle]

  /** The fields `operator==` compares. The elevation is kept in degrees (the
      styles set 0 or 20); its conversion to radians is not modelled and the
      tolerance of `similar` reduces to equality. */
  datatype CameraFields = CameraFields(
    cameraFollowTool: bool,
    focusFollowTool: bool,
    cameraOnTooltip: bool,
    tableLock: bool,
    elevation: int,
    uniCam: bool,
    autoZoomROI: string,
    focusROI: string)

  /** What `clear` leaves: every flag false, elevation 0, both ROI names empty. */
  const Cleared := CameraFields(false, false, false, false, 0, false, "", "")

  /** The fields `setCameraStyle(s)` leaves: it clears, then sets what the style needs. */
  function StyleFields(s: CameraStyle): CameraFields
  {
    match s
    case ToolStyle => Cleared.(cameraFollowTool := true, focusFollowTool := true)
    case AngledToolStyle => Cleared.(cameraFollowTool := true, focusFollowTool := true, elevation := 20)
    case UniCamStyle => Cleared.(uniCam := true)
    case _ => Cleared
  }

  /** The style `getStyle` reports for fields `f`: the first style in enum order
      whose fields equal `f`, or `StyleCount` when none does. */
  function StyleOf(f: CameraFields): (s: CameraStyle)
    ensures s != StyleCount ==> StyleFields(s) == f
    ensures s == StyleCount <==> forall t :: t != StyleCount ==> StyleFields(t) != f
  {
    if StyleFields(DefaultStyle) == f then DefaultStyle
    else if StyleFields(ToolStyle) == f then ToolStyle
    else if StyleFields(AngledToolStyle) == f then AngledToolStyle
    else if StyleFields(UniCamStyle) == f then UniCamStyle
    else StyleCount
  }

  /** `getStyle(CameraStyleData(s)) == s` for every real style. */
  lemma StyleRoundTrip(s: CameraStyle)
    requires s != StyleCount
    ensures StyleOf(StyleFields(s)) == s
  {
  }

  /** `cstCOUNT` is not a style: setting it only clears, which reads back as the default. */
  lemma StyleCountReadsAsDefault()
    ensures StyleOf(StyleFields(StyleCount)) == DefaultStyle
  {
  }

  class CameraStyleData {
    var cameraFollowTool: bool
    var focusFollowTool: bool
    var cameraOnTooltip: bool
    var tableLock: bool
    var elevation: int
    var uniCam: bool
    var autoZoomROI: string
    var focusROI: string

    function Fields(): CameraFields
      reads this
    {
      CameraFields(cameraFollowTool, focusFollowTool, cameraOnTooltip, tableLock,
                   elevation, uniCam, autoZoomROI, focusROI)
    }

    constructor()
      ensures Fields() == Cleared
    {
      cameraFollowTool, focusFollowTool, cameraOnTooltip, tableLock := false, false, false, false;
      elevation, uniCam, autoZoomROI, focusROI := 0, false, "", "";
    }

    constructor FromStyle(style: CameraStyle)
      ensures Fields() == StyleFields(style)
    {
      cameraFollowTool, focusFollowTool, cameraOnTooltip, tableLock := false, false, false, false;
      elevation, uniCam, autoZoomROI, focusROI := 0, false, "", "";
      new;
      SetCameraStyle(style);
    }

    method Clear()
      modifies this
      ensures Fields() == Cleared
    {
      cameraFollowTool := false;
      focusFollowTool := false;
      cameraOnTooltip := false;
      tableLock := false;
      elevation := 0;
      uniCam := false;
      autoZoomROI := "";
      focusROI := "";
    }

    method SetCameraStyle(style: CameraStyle)
      modifies this
      ensures Fields() == StyleFields(style)
    {
      Clear();
      if style == ToolStyle {
        cameraFollowTool := true;
        focusFollowTool := true;
      }
      if style == AngledToolStyle {
        cameraFollowTool := true;
        focusFollowTool := true;
        elevation := 20;
      }
      if style == UniCamStyle {
        uniCam := true;
      }
    }

    /** Tries every style in enum order and reports the first whose fields match. */
    method GetStyle() returns (s: CameraStyle)
      ensures s == StyleOf(Fields())
    {
      var i := 0;
      while i < |Styles|
        invariant 0 <= i <= |Styles|
        invariant forall j :: 0 <= j < i ==> StyleFields(Styles[j]) != Fields()
      {
        if StyleFields(Styles[i]) == Fields() {
          return Styles[i];
        }
        i := i + 1;
      }
      assert StyleFields(Styles[0]) != Fields() && StyleFields(Styles[1]) != Fields();
      assert StyleFields(Styles[2]) != Fields() && StyleFields(Styles[3]) != Fields();
      return StyleCount;
    }
  }

  // ---------------------------------------------------------------------------
  // The uid-keyed list, seen through the patient model
  // ---------------------------------------------------------------------------

  /** Every listed uid is one the patient model knows. */
  ghost predicate Known(d: seq<Entry<string>>, patient: map<string, DataKind>)
  {
    forall i :: 0 <= i < |d| ==> d[i].key in patient
  }

  /** The display priorities of the listed data, in list order. */
  function Ranks(d: seq<Entry<string>>, patient: map<string, DataKind>): (r: seq<int>)
    requires Known(d, patient)
    ensures |r| == |d|
    ensures forall i :: 0 <= i < |d| ==> r[i] == Priority(patient[d[i].key])
  {
    if d == [] then [] else Ranks(d[..|d| - 1], patient) + [Priority(patient[d[|d| - 1].key])]
  }

  /** Inserting an entry inserts its priority at the same place. */
  lemma RanksInserted(d: seq<Entry<string>>, patient: map<string, DataKind>, i: nat, e: Entry<string>)
    requires Known(d, patient) && i <= |d| && e.key in patient
    ensures Known(InsertedAt(d, i, e), patient)
    ensures Ranks(InsertedAt(d, i, e), patient) == InsertedAt(Ranks(d, patient), i, Priority(patient[e.key]))
  {
  }

  /** What `addDataSorted` makes of a list that lacks `uid`: the list invariant
      holds, every uid is still known, and priority order is kept. */
  lemma SortedInsertion(d: seq<Entry<string>>, patient: map<string, DataKind>, uid: string)
    requires ListOk(d) && Known(d, patient) && uid in patient && !HasKey(d, uid)
    ensures var r := InsertedAt(d, InsertPos(Ranks(d, patient), Priority(patient[uid])), Entry(uid, CreateDefault()));
      ListOk(r) && Known(r, patient)
      && (NonDecreasing(Ranks(d, patient)) ==> NonDecreasing(Ranks(r, patient)))
  {
    var ranks := Ranks(d, patient);
    var p := Priority(patient[uid]);
    var item := Entry(uid, CreateDefault());
    InsertedAtOk(d, InsertPos(ranks, p), item);
    RanksInserted(d, patient, InsertPos(ranks, p), item);
    if NonDecreasing(ranks) {
      InsertPosSorted(ranks, p);
    }
  }

  /** The entries whose uid the patient model still knows, in list order. */
  function KeepKnown(d: seq<Entry<string>>, known: set<string>): (r: seq<Entry<string>>)
    ensures |r| <= |d|
  {
    if d == [] then []
    else (if d[0].key in known then [d[0]] else []) + KeepKnown(d[1..], known)
  }

  /** The purge keeps exactly the known uids. */
  lemma {:induction false} KeepKnownKeys(d: seq<Entry<string>>, known: set<string>, x: string)
    ensures HasKey(KeepKnown(d, known), x) <==> HasKey(d, x) && x in known
  {
    if d != [] {
      var head: seq<Entry<string>> := if d[0].key in known then [d[0]] else [];
      var tail := KeepKnown(d[1..], known);
      KeepKnownKeys(d[1..], known, x);
      var r := KeepKnown(d, known);
      assert r == head + tail;
      if HasKey(d, x) && x in known {
        var j :| 0 <= j < |d| && d[j].key == x;
        if j == 0 {
          assert r[0].key == x;
        } else {
          assert d[1..][j - 1].key == x;
          var k :| 0 <= k < |tail| && tail[k].key == x;
          assert r[|head| + k].key == x;
        }
      }
      if HasKey(r, x) {
        var j :| 0 <= j < |r| && r[j].key == x;
        if j < |head| {
          assert d[0].key == x;
        } else {
          assert tail[j - |head|].key == x;
          var k :| 0 <= k < |d[1..]| && d[1..][k].key == x;
          assert d[k + 1].key == x;
        }
      }
    }
  }

  /** The uids the patient model no longer knows, in list order. */
  function Dropped(d: seq<Entry<string>>, known: set<string>): (r: seq<string>)
    ensures forall u :: u in r ==> u !in known
  {
    if d == [] then []
    else (if d[0].key in known then [] else [d[0].key]) + Dropped(d[1..], known)
  }

  /** Midway through the purge of `d0`: the first `n` entries are settled into
      `kept` and `purged`, and the list holds `kept` followed by the rest. */
  ghost predicate Purging(d0: seq<Entry<string>>, known: set<string>, d: seq<Entry<string>>,
                          n: nat, kept: seq<Entry<string>>, purged: seq<string>)
  {
    n <= |d0| && d == kept + d0[n..]
    && KeepKnown(d0, known) == kept + KeepKnown(d0[n..], known)
    && Dropped(d0, known) == purged + Dropped(d0[n..], known)
  }

  /** One step of the purge loop over the original entries `d0`: the entry `n`
      is kept or erased, and the kept, dropped and remaining lists move on. */
  lemma PurgeStep(d0: seq<Entry<string>>, known: set<string>, d: seq<Entry<string>>,
                  n: nat, kept: seq<Entry<string>>, purged: seq<string>)
    requires Purging(d0, known, d, n, kept, purged) && |kept| < |d|
    ensures n < |d0| && d[|kept|] == d0[n]
    ensures d0[n].key in known ==> Purging(d0, known, d, n + 1, kept + [d0[n]], purged)
    ensures d0[n].key !in known ==>
      Purging(d0, known, d[..|kept|] + d[|kept| + 1..], n + 1, kept, purged + [d0[n].key])
  {
    assert d0[n..][1..] == d0[n + 1..];
    assert d0[n..] == [d0[n]] + d0[n + 1..];
    if d0[n].key in known {
      assert KeepKnown(d0[n..], known) == [d0[n]] + KeepKnown(d0[n + 1..], known);
      assert kept + ([d0[n]] + KeepKnown(d0[n + 1..], known)) == (kept + [d0[n]]) + KeepKnown(d0[n + 1..], known);
      assert kept + ([d0[n]] + d0[n + 1..]) == (kept + [d0[n]]) + d0[n + 1..];
    } else {
      assert Dropped(d0[n..], known) == [d0[n].key] + Dropped(d0[n + 1..], known);
      assert purged + ([d0[n].key] + Dropped(d0[n + 1..], known)) == (purged + [d0[n].key]) + Dropped(d0[n + 1..], known);
      SplitAround(kept, d0[n..]);
    }
  }

  // ---------------------------------------------------------------------------
  // ViewGroupData
  // ---------------------------------------------------------------------------

  class ViewGroupData {
    /** `mData`: (uid, flags) in display order. */
    var data: seq<Entry<string>>
    var videoSource: string
    var options: Options
    /** The signals emitted so far. */
    var notices: seq<Notice>

    /** Each uid is listed once, and every listed uid is shown somewhere. */
    ghost predicate Valid()
      reads this
    {
      ListOk(data)
    }

    constructor()
      ensures Valid()
      ensures data == [] && videoSource == "active" && notices == []
      ensures options == Options(false, false)
    {
      data := [];
      videoSource := "active";
      options := Options(false, false);
      notices := [];
    }

    /** `contains`: counts the entries with this uid. */
    method Contains(uid: string) returns (r: bool)
      ensures r <==> HasKey(data, uid)
    {
      var count := 0;
      for i := 0 to |data|
        invariant count > 0 <==> exists j :: 0 <= j < i && data[j].key == uid
      {
        if data[i].key == uid {
          count := count + 1;
        }
      }
      return count > 0;
    }

    method RemoveData(uid: string) returns (removed: bool)
      requires Valid()
      modifies this
      ensures Valid()
      ensures removed <==> HasKey(old(data), uid)
      ensures data == Removed(old(data), uid)
      ensures notices == old(notices) + (if removed then [PropertiesChanged(uid)] else [])
      ensures videoSource == old(videoSource) && options == old(options)
    {
      var present := Contains(uid);
      if !present {
        return false;
      }
      RemovedSpec(data, uid);
      data := Removed(data, uid);
      notices := notices + [PropertiesChanged(uid)];
      return true;
    }

    method SetProperties(uid: string, properties: DataViewProperties)
      requires Valid()
      modifies this
      ensures Valid()
      ensures uid == "" ==> data == old(data) && notices == old(notices)
      ensures uid != "" ==> data == WithProperties(old(data), uid, properties)
      ensures uid != "" ==>
        (notices == old(notices) + (if Empty(properties) && !HasKey(old(data), uid) then [] else [PropertiesChanged(uid)]))
      ensures videoSource == old(videoSource) && options == old(options)
    {
      if uid == "" {
        return;
      }
      if Empty(properties) {
        var _ := RemoveData(uid);
        return;
      }
      WithPropertiesSpec(data, uid, properties);
      var present := Contains(uid);
      if !present {
        data := data + [Entry(uid, properties)];
      } else {
        data := data[IndexOf(data, uid) := Entry(uid, properties)];
      }
      notices := notices + [PropertiesChanged(uid)];
    }

    /** `addData`: shows the data in the default views as well. */
    method AddData(uid: string)
      requires Valid()
      modifies this
      ensures Valid()
      ensures uid != "" ==> HasKey(data, uid)
      ensures uid != "" ==> PropertiesOf(data, uid) == AddFlagsIn(PropertiesOf(old(data), uid), CreateDefault())
      ensures uid != "" ==> data == WithProperties(old(data), uid, AddFlagsIn(PropertiesOf(old(data), uid), CreateDefault()))
      ensures uid != "" ==> notices == old(notices) + [PropertiesChanged(uid)]
      ensures uid == "" ==> data == old(data) && notices == old(notices)
      ensures forall x :: x != uid ==> PropertiesOf(data, x) == PropertiesOf(old(data), x)
      ensures forall x :: x != uid ==> (HasKey(data, x) <==> HasKey(old(data), x))
      ensures videoSource == old(videoSource) && options == old(options)
    {
      var properties := PropertiesOf(data, uid);
      properties := AddFlagsIn(properties, CreateDefault());
      AddDefaultNotEmpty(PropertiesOf(data, uid));
      WithPropertiesSpec(data, uid, properties);
      SetProperties(uid, properties);
    }

    /** `addDataSorted`: a new uid goes right after the last entry whose priority
        is at most its own, or to the front. */
    method AddDataSorted(uid: string, patient: map<string, DataKind>)
      requires Valid()
      requires uid in patient && Known(data, patient)
      modifies this
      ensures Valid() && Known(data, patient)
      ensures HasKey(old(data), uid) ==> data == old(data) && notices == old(notices)
      ensures !HasKey(old(data), uid) ==>
        data == InsertedAt(old(data), InsertPos(Ranks(old(data), patient), Priority(patient[uid])),
                           Entry(uid, CreateDefault()))
      ensures !HasKey(old(data), uid) ==> notices == old(notices) + [PropertiesChanged(uid)]
      ensures NonDecreasing(Ranks(old(data), patient)) ==> NonDecreasing(Ranks(data, patient))
      ensures videoSource == old(videoSource) && options == old(options)
    {
      var present := Contains(uid);
      if present {
        return;
      }
      ghost var d0 := data;
      var p := Priority(patient[uid]);
      var i := InsertIndex(p, patient);
      data := InsertedAt(data, i, Entry(uid, CreateDefault()));
      notices := notices + [PropertiesChanged(uid)];
      SortedInsertion(d0, patient, uid);
    }

    /** The scan of `addDataSorted`: from the back, the first entry whose priority
        is at most `p`; the item goes right after it, or to the front when the scan
        runs out (the source's `if (!contains(uid))` fallback). */
    method InsertIndex(p: int, patient: map<string, DataKind>) returns (pos: nat)
      requires Known(data, patient)
      ensures pos == InsertPos(Ranks(data, patient), p)
    {
      ghost var ps := Ranks(data, patient);
      var i := |data| - 1;
      while i >= 0 && p < Priority(patient[data[i].key])
        invariant -1 <= i < |ps|
        invariant forall j :: i < j < |ps| ==> p < ps[j]
        decreases i + 1
      {
        assert ps[i] == Priority(patient[data[i].key]);
        i := i - 1;
      }
      InsertPosUnique(ps, p, i + 1);
      return i + 1;
    }

    /** One step of `clearData`: removes the front entry. */
    method RemoveFront()
      requires Valid() && data != []
      modifies this
      ensures Valid()
      ensures data == old(data)[1..]
      ensures notices == old(notices) + [PropertiesChanged(old(data)[0].key)]
      ensures videoSource == old(videoSource) && options == old(options)
    {
      var x := data[0].key;
      assert HasKey(data, x);
      RemovedAt(data, 0);
      assert data[..0] + data[1..] == data[1..];
      var removed := RemoveData(x);
    }

    /** `clearData`: removes the front entry until the list is empty, then
        returns to the active video source. */
    method ClearData()
      requires Valid()
      modifies this
      ensures Valid()
      ensures data == [] && videoSource == "active"
      ensures notices == old(notices) + Changed(KeysOf(old(data)))
        + (if old(videoSource) == "active" then [] else [VideoSourceChanged("active")])
      ensures options == old(options)
    {
      ghost var d0 := data;
      ghost var ks := KeysOf(d0);
      ghost var n := 0;
      while data != []
        invariant Valid()
        invariant n <= |d0| && data == d0[n..]
        invariant notices == old(notices) + Changed(ks[..n])
        invariant videoSource == old(videoSource) && options == old(options)
        decreases |data|
      {
        assert d0[n..][1..] == d0[n + 1..];
        RemoveFront();
        ChangedNext(old(notices), ks, n, ks[n]);
        n := n + 1;
      }
      assert ks[..n] == ks;
      SetVideoSource("active");
    }

    /** `purgeDataNotExistingInPatientModelService`: erases every entry whose uid
        the patient model no longer knows, then emits one change per erased uid. */
    method Purge(known: set<string>)
      requires Valid()
      modifies this
      ensures Valid()
      ensures data == KeepKnown(old(data), known)
      ensures notices == old(notices) + Changed(Dropped(old(data), known))
      ensures videoSource == old(videoSource) && options == old(options)
    {
      var purged := EraseUnknown(known);
      for k := 0 to |purged|
        invariant notices == old(notices) + Changed(purged[..k])
        invariant data == KeepKnown(old(data), known)
        invariant Valid()
        invariant videoSource == old(videoSource) && options == old(options)
      {
        ChangedStep(purged, k);
        notices := notices + [PropertiesChanged(purged[k])];
      }
      assert purged[..|purged|] == purged;
    }

    /** The erasing loop of the purge on `mData`; it reports the erased uids in
        list order. */
    method EraseUnknown(known: set<string>) returns (purged: seq<string>)
      requires Valid()
      modifies this
      ensures Valid()
      ensures data == KeepKnown(old(data), known)
      ensures purged == Dropped(old(data), known)
      ensures notices == old(notices)
      ensures videoSource == old(videoSource) && options == old(options)
    {
      var d;
      d, purged := PurgeList(data, known);
      data := d;
    }

    /** The erasing loop itself, on a list of entries: each entry whose uid is not
        `known` is erased where it stands, and its uid reported. */
    static method PurgeList(d0: seq<Entry<string>>, known: set<string>)
      returns (d: seq<Entry<string>>, purged: seq<string>)
      requires ListOk(d0)
      ensures ListOk(d)
      ensures d == KeepKnown(d0, known) && purged == Dropped(d0, known)
    {
      ghost var kept: seq<Entry<string>> := [];
      d := d0;
      purged := [];
      var i := 0;
      ghost var n := 0;
      assert d0[0..] == d0;
      while i < |d|
        invariant Purging(d0, known, d, n, kept, purged) && i == |kept|
        invariant ListOk(d)
        decreases |d| - i
      {
        var uid := d[i].key;
        PurgeStep(d0, known, d, n, kept, purged);
        if uid !in known {
          // `std::find_if` stops at i, the only entry with this uid
          ErasedAtOk(d, i);
          purged := purged + [uid];
          d := d[..i] + d[i + 1..];
        } else {
          i := i + 1;
          kept := kept + [d0[n]];
        }
        n := n + 1;
      }
      assert d0[n..] == [];
    }

    method SetVideoSource(uid: string)
      modifies this
      ensures videoSource == uid
      ensures notices == old(notices) + (if old(videoSource) == uid then [] else [VideoSourceChanged(uid)])
      ensures data == old(data) && options == old(options)
    {
      if videoSource == uid {
        return;
      }
      videoSource := uid;
      notices := notices + [VideoSourceChanged(videoSource)];
    }

    /** Shows landmarks once any registration is made, and the point picker only
        for an image registration. */
    method SetRegistrationMode(mode: RegistrationStatus)
      modifies this
      ensures options.showLandmarks <==> mode == ImageRegistered || mode == PatientRegistered
      ensures options.showPointPickerProbe <==> mode == ImageRegistered
      ensures notices == old(notices) + [OptionsChanged]
      ensures data == old(data) && videoSource == old(videoSource)
    {
      var o := options;
      o := o.(showLandmarks := false, showPointPickerProbe := false);
      if mode == ImageRegistered {
        o := o.(showLandmarks := true, showPointPickerProbe := true);
      }
      if mode == PatientRegistered {
        o := o.(showLandmarks := true, showPointPickerProbe := false);
      }
      options := o;
      notices := notices + [OptionsChanged];
    }
  }
}
