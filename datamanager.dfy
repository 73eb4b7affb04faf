/** `ssc::DataManagerImpl` (`Code/Data/sscDataManagerImpl.cpp`): the uid-keyed
    stores of images, meshes and landmark properties, the active image, the medical
    domain and the signals it emits. File contents, VTK objects and the center's
    floating-point coordinates are not modelled; a reader is a method that returns
    a new data object with the requested uid. */
module DataManagement {
  import opened Common
  import opened Text

  // ---------------------------------------------------------------------------
  // Reader types
  // ---------------------------------------------------------------------------

  /** `READER_TYPE` (`Code/Data/sscDataManager.h`). */
  datatype ReaderType = Dicom | SonowandM3D | MetaImage | PolyData | Stl | Auto | ReaderCount

  /** The reader types the manager installs a reader for. */
  predicate HasReader(t: ReaderType)
  {
    t == MetaImage || t == PolyData || t == Stl
  }

  /** `getReaderType`: the reader for a file suffix, ignoring case. */
  function ReaderTypeOf(fileType: string): ReaderType
  {
    if EqualsIgnoreCase(fileType, "mhd") || EqualsIgnoreCase(fileType, "mha") then MetaImage
    else if EqualsIgnoreCase(fileType, "stl") then Stl
    else if EqualsIgnoreCase(fileType, "vtk") then PolyData
    else ReaderCount
  }

  /** The suffix table: each reader is chosen for exactly its suffixes, compared
      in lower case, and any other suffix gets no reader. */
  lemma ReaderTypeTable(fileType: string)
    ensures ReaderTypeOf(fileType) == MetaImage <==> Lower(fileType) == "mhd" || Lower(fileType) == "mha"
    ensures ReaderTypeOf(fileType) == Stl <==> Lower(fileType) == "stl"
    ensures ReaderTypeOf(fileType) == PolyData <==> Lower(fileType) == "vtk"
    ensures ReaderTypeOf(fileType) == ReaderCount <==> Lower(fileType) !in {"mhd", "mha", "stl", "vtk"}
    ensures ReaderTypeOf(fileType) != ReaderCount ==> HasReader(ReaderTypeOf(fileType))
  {
    assert Lower("mhd") == "mhd" && Lower("mha") == "mha";
    assert Lower("stl") == "stl" && Lower("vtk") == "vtk";
  }

  /** Upper-casing the suffix does not change the reader chosen. */
  lemma {:induction false} ReaderTypeIgnoresCase(fileType: string)
    ensures ReaderTypeOf(Upper(fileType)) == ReaderTypeOf(fileType)
  {
    LowerOfUpper(fileType);
  }

  lemma {:induction false} LowerOfUpper(s: string)
    ensures Lower(Upper(s)) == Lower(s)
  {
    if s != [] {
      LowerOfUpper(s[1..]);
      assert Upper(s) == [UpperChar(s[0])] + Upper(s[1..]);
      assert Lower(Upper(s)) == [LowerChar(UpperChar(s[0]))] + Lower(Upper(s)[1..]);
    }
  }

  // ---------------------------------------------------------------------------
  // Data objects and signals
  // ---------------------------------------------------------------------------

  class Image {
    const uid: string
    const name: string

    constructor(uid: string, name: string)
      ensures this.uid == uid && this.name == name
    {
      this.uid := uid;
      this.name := name;
    }
  }

  class Mesh {
    const uid: string
    const name: string

    constructor(uid: string, name: string)
      ensures this.uid == uid && this.name == name
    {
      this.uid := uid;
      this.name := name;
    }
  }

  /** A non-null `DataPtr`, by what `shared_dynamic_cast` finds in it. */
  datatype DataRef = ImageRef(image: Image) | MeshRef(mesh: Mesh) | OtherRef

  /** The manager's signals, in emission order. */
  datatype Signal =
    | CenterChanged
    | DataLoaded
    | ActiveImageChanged(uid: string)
    | ActiveImageTransferFunctionsChanged
    | LandmarkPropertiesChanged
    | MedicalDomainChanged

  /** `MEDICAL_DOMAIN`; only the default value matters here. */
  datatype MedicalDomain = Laboratory | Laparoscopy | OtherDomain(code: nat)

  /** A point of the patient space in millimetres. */
  datatype Point = Point(x: real, y: real, z: real)

  const Origin := Point(0.0, 0.0, 0.0)

  /** What a reader makes of a file: the meta-image reader gives an image, the
      poly-data and STL readers give a mesh named "PolyData". */
  method ReadFile(uid: string, filename: string, t: ReaderType) returns (d: DataRef)
    requires HasReader(t)
    ensures t == MetaImage ==> d.ImageRef? && fresh(d.image) && d.image.uid == uid
    ensures t != MetaImage ==> d.MeshRef? && fresh(d.mesh) && d.mesh.uid == uid && d.mesh.name == "PolyData"
  {
    if t == MetaImage {
      var image := new Image(uid, uid);
      d := ImageRef(image);
    } else {
      var mesh := new Mesh(uid, "PolyData");
      d := MeshRef(mesh);
    }
  }

  // ---------------------------------------------------------------------------
  // Landmark properties
  // ---------------------------------------------------------------------------

  /** `LandmarkProperty`: a landmark's uid, display name and whether it is in use. */
  datatype LandmarkProperty = LandmarkProperty(uid: string, name: string, active: bool)

  /** `LandmarkProperty()`, what `operator[]` inserts for an unknown uid. */
  const DefaultLandmark := LandmarkProperty("", "", true)

  /** `LandmarkProperty(uid)`: named after its uid. */
  function NewLandmark(uid: string): LandmarkProperty
  {
    LandmarkProperty(uid, uid, true)
  }

  /** `setLandmarkNames`: uid "i+1" names `names[i]`. */
  function NamedLandmarks(names: seq<string>): map<string, LandmarkProperty>
  {
    if names == [] then map[]
    else
      var uid := NatToString(|names|);
      NamedLandmarks(names[..|names| - 1])[uid := LandmarkProperty(uid, names[|names| - 1], true)]
  }

  /** Landmark "i" of `setLandmarkNames(names)` carries `names[i - 1]`. */
  lemma {:induction false} NamedLandmarkAt(names: seq<string>, i: nat)
    requires 1 <= i <= |names|
    ensures NatToString(i) in NamedLandmarks(names)
    ensures NamedLandmarks(names)[NatToString(i)] == LandmarkProperty(NatToString(i), names[i - 1], true)
  {
    var n := |names|;
    if i < n {
      NamedLandmarkAt(names[..n - 1], i);
      assert names[..n - 1][i - 1] == names[i - 1];
      if NatToString(i) == NatToString(n) {
        NatToStringInjective(i, n);
      }
    }
  }

  /** Every uid of `setLandmarkNames(names)` is one of "1" .. "n". */
  lemma {:induction false} NamedLandmarkKey(names: seq<string>, k: string) returns (i: nat)
    requires k in NamedLandmarks(names)
    ensures 1 <= i <= |names| && k == NatToString(i)
  {
    var n := |names|;
    if k == NatToString(n) {
      i := n;
    } else {
      i := NamedLandmarkKey(names[..n - 1], k);
    }
  }

  /** `setLandmarkNames(names)` makes one landmark per name. */
  lemma {:induction false} NamedLandmarksCount(names: seq<string>)
    ensures |NamedLandmarks(names)| == |names|
  {
    var n := |names|;
    if n > 0 {
      var prev := NamedLandmarks(names[..n - 1]);
      NamedLandmarksCount(names[..n - 1]);
      if NatToString(n) in prev {
        var i := NamedLandmarkKey(names[..n - 1], NatToString(n));
        NatToStringInjective(i, n);
      }
    }
  }

  /** The landmarks after `setLandmarkNames(names)` are exactly "1" .. "n", one
      per name, and landmark "i" carries `names[i - 1]` under its own uid. */
  lemma NamedLandmarksSpec(names: seq<string>)
    ensures |NamedLandmarks(names)| == |names|
    ensures forall i :: 1 <= i <= |names| ==>
      NatToString(i) in NamedLandmarks(names)
      && NamedLandmarks(names)[NatToString(i)] == LandmarkProperty(NatToString(i), names[i - 1], true)
    ensures |names| <= Int32Max ==>
      forall k :: k in NamedLandmarks(names) ==> 1 <= ParseInt(k) <= |names| && k == NatToString(ParseInt(k))
  {
    NamedLandmarksCount(names);
    forall i | 1 <= i <= |names|
      ensures NatToString(i) in NamedLandmarks(names)
      ensures NamedLandmarks(names)[NatToString(i)] == LandmarkProperty(NatToString(i), names[i - 1], true)
    {
      NamedLandmarkAt(names, i);
    }
    if |names| <= Int32Max {
      forall k | k in NamedLandmarks(names)
        ensures 1 <= ParseInt(k) <= |names| && k == NatToString(ParseInt(k))
      {
        var i := NamedLandmarkKey(names, k);
        ParseNatToString(i);
        assert ParseInt(k) == i;
      }
    }
  }

  /** The largest of `f` over the keys, or 0 (the loop of `addLandmark` starts
      its maximum at 0). */
  ghost function MaxOver(keys: set<string>, f: string -> int): (m: nat)
    ensures forall k :: k in keys ==> f(k) <= m
    ensures m == 0 || exists k :: k in keys && f(k) == m
    decreases |keys|
  {
    if keys == {} then 0
    else
      var k :| k in keys;
      var r := MaxOver(keys - {k}, f);
      assert forall j :: j in keys ==> j == k || j in keys - {k};
      if f(k) > r then f(k) else r
  }

  /** A bound of `f` that is 0 or reached is the maximum. */
  lemma MaxOverUnique(keys: set<string>, f: string -> int, m: nat)
    requires forall k :: k in keys ==> f(k) <= m
    requires m == 0 || exists k :: k in keys && f(k) == m
    ensures m == MaxOver(keys, f)
  {
  }

  /** A landmark's name read as a number (`QString::toInt`). */
  function NameValue(props: map<string, LandmarkProperty>): string -> int
  {
    k => if k in props then ParseInt(props[k].name) else 0
  }

  /** `addLandmark` as written: one more than the largest landmark NAME. */
  ghost function NextLandmarkUidAsWritten(props: map<string, LandmarkProperty>): string
  {
    NatToString(MaxOver(props.Keys, NameValue(props)) + 1)
  }

  /** Once the landmarks carry names, the uid `addLandmark` picks can be one in
      use: after `setLandmarkNames(["a"])` it returns "1", and the new landmark
      replaces landmark "1". */
  lemma AddLandmarkAsWrittenOverwrites()
    ensures var props := NamedLandmarks(["a"]);
      "1" in props && NextLandmarkUidAsWritten(props) == "1"
  {
    var props := NamedLandmarks(["a"]);
    assert NatToString(1) == "1";
    assert ["a"][..0] == [];
    assert props == map["1" := LandmarkProperty("1", "a", true)];
    assert ParseInt("a") == 0 by {
      assert !IsDigit("a"[0]);
    }
    assert forall k :: k in props ==> k == "1";
    assert props["1"].name == "a";
    assert NameValue(props)("1") == 0;
    MaxOverUnique(props.Keys, NameValue(props), 0);
  }

  /** The uid `addLandmark` is meant to pick: one more than the largest UID. */
  ghost function NextLandmarkUid(props: map<string, LandmarkProperty>): string
  {
    NatToString(MaxOver(props.Keys, ParseInt) + 1)
  }

  /** The corrected choice never reuses a uid while the largest uid read as an
      `int` is below the `int` maximum (past it `toInt` reads 0). */
  lemma NextLandmarkUidFresh(props: map<string, LandmarkProperty>)
    ensures MaxOver(props.Keys, ParseInt) < Int32Max ==> NextLandmarkUid(props) !in props
  {
    var m := MaxOver(props.Keys, ParseInt);
    var uid := NatToString(m + 1);
    ParseNatToString(m + 1);
    if m < Int32Max && uid in props {
      assert ParseInt(uid) <= m;
    }
  }

  /** After `setLandmarkNames(names)`, the corrected `addLandmark` continues the
      numbering with "n+1". */
  lemma NextLandmarkUidAfterNames(names: seq<string>)
    ensures |names| < Int32Max ==> NextLandmarkUid(NamedLandmarks(names)) == NatToString(|names| + 1)
  {
    var n := |names|;
    var keys := NamedLandmarks(names).Keys;
    if n < Int32Max {
      assert MaxOver(keys, ParseInt) == n by {
        NamedLandmarksBelow(names);
        if n > 0 {
          var top := NatToString(n);
          NamedLandmarkAt(names, n);
          ParseNatToString(n);
          assert top in keys && ParseInt(top) == n;
        }
        MaxOverUnique(keys, ParseInt, n);
      }
    }
  }

  /** No uid of `setLandmarkNames(names)` reads as more than the number of
      names. */
  lemma NamedLandmarksBelow(names: seq<string>)
    requires |names| <= Int32Max
    ensures forall k :: k in NamedLandmarks(names) ==> ParseInt(k) <= |names|
  {
    forall k | k in NamedLandmarks(names)
      ensures ParseInt(k) <= |names|
    {
      var i := NamedLandmarkKey(names, k);
      ParseNatToString(i);
    }
  }

  // ---------------------------------------------------------------------------
  // DataManagerImpl
  // ---------------------------------------------------------------------------

  class DataManager {
    var images: map<string, Image>
    var meshes: map<string, Mesh>
    var landmarks: map<string, LandmarkProperty>
    var activeImage: Image?
    var center: Point
    var medicalDomain: MedicalDomain
    var signals: seq<Signal>

    /** Each image and mesh is stored under its own uid. */
    ghost predicate Valid()
      reads this
    {
      (forall k :: k in images ==> images[k].uid == k)
      && (forall k :: k in meshes ==> meshes[k].uid == k)
    }

    /** The manager starts in the laboratory domain and cleared. */
    constructor()
      ensures Valid()
      ensures images == map[] && meshes == map[] && landmarks == map[]
      ensures activeImage == null && center == Origin && medicalDomain == Laboratory
    {
      medicalDomain := Laboratory;
      images := map[];
      meshes := map[];
      landmarks := map[];
      activeImage := null;
      center := Origin;
      signals := [];
      new;
      Clear();
    }

    /** `clear`: empties every store, drops the active image, recentres. */
    method Clear()
      modifies this
      ensures Valid()
      ensures images == map[] && meshes == map[] && landmarks == map[]
      ensures activeImage == null && center == Origin
      ensures medicalDomain == old(medicalDomain)
      ensures signals == old(signals) + [CenterChanged, ActiveImageChanged(""),
        ActiveImageTransferFunctionsChanged, LandmarkPropertiesChanged, DataLoaded]
    {
      images := map[];
      center := Origin;
      meshes := map[];
      activeImage := null;
      landmarks := map[];
      signals := signals + [CenterChanged, ActiveImageChanged(""),
        ActiveImageTransferFunctionsChanged, LandmarkPropertiesChanged, DataLoaded];
    }

    method SetCenter(p: Point)
      modifies this`center, this`signals
      ensures center == p && signals == old(signals) + [CenterChanged]
    {
      center := p;
      signals := signals + [CenterChanged];
    }

    /** `setActiveImage`: nothing happens for the current image; otherwise the
        new one (or none) becomes active and its uid ("" for none) is announced. */
    method SetActiveImage(image: Image?)
      modifies this`activeImage, this`signals
      ensures activeImage == image
      ensures old(activeImage) == image ==> signals == old(signals)
      ensures old(activeImage) != image ==>
        signals == old(signals) + [ActiveImageChanged(if image == null then "" else image.uid)]
    {
      if activeImage == image {
        return;
      }
      activeImage := image;
      var uid := "";
      if activeImage != null {
        uid := activeImage.uid;
      }
      signals := signals + [ActiveImageChanged(uid)];
    }

    method SetMedicalDomain(domain: MedicalDomain)
      modifies this`medicalDomain, this`signals
      ensures medicalDomain == domain
      ensures signals == old(signals) + (if old(medicalDomain) == domain then [] else [MedicalDomainChanged])
    {
      if medicalDomain == domain {
        return;
      }
      medicalDomain := domain;
      signals := signals + [MedicalDomainChanged];
    }

    // -- landmarks ------------------------------------------------------------

    /** `setLandmarkNames`: replaces every landmark by "1" .. "n", named in order. */
    method SetLandmarkNames(names: seq<string>)
      modifies this`landmarks, this`signals
      ensures landmarks == NamedLandmarks(names)
      ensures signals == old(signals) + [LandmarkPropertiesChanged]
    {
      landmarks := map[];
      for i := 0 to |names|
        invariant landmarks == NamedLandmarks(names[..i])
        invariant signals == old(signals)
      {
        assert names[..i + 1][..i] == names[..i];
        var uid := NatToString(i + 1);
        landmarks := landmarks[uid := LandmarkProperty(uid, names[i], true)];
      }
      assert names[..|names|] == names;
      signals := signals + [LandmarkPropertiesChanged];
    }

    /** The loop of `addLandmark`, over uids: the largest uid read as a number, or 0. */
    method MaxLandmarkUid() returns (m: nat)
      ensures m == MaxOver(landmarks.Keys, ParseInt)
    {
      m := 0;
      var todo := landmarks.Keys;
      while todo != {}
        invariant todo <= landmarks.Keys
        invariant forall k :: k in landmarks && k !in todo ==> ParseInt(k) <= m
        invariant m == 0 || exists k :: k in landmarks && k !in todo && ParseInt(k) == m
        decreases |todo|
      {
        var k :| k in todo;
        if ParseInt(k) > m {
          m := ParseInt(k);
        }
        todo := todo - {k};
      }
      MaxOverUnique(landmarks.Keys, ParseInt, m);
    }

    /** `addLandmark`: adds a landmark under a new uid and returns the uid. */
    method AddLandmark() returns (uid: string)
      modifies this`landmarks, this`signals
      ensures uid == NextLandmarkUid(old(landmarks))
      ensures MaxOver(old(landmarks).Keys, ParseInt) < Int32Max ==> uid !in old(landmarks)
      ensures landmarks == old(landmarks)[uid := NewLandmark(uid)]
      ensures signals == old(signals) + [LandmarkPropertiesChanged]
    {
      var m := MaxLandmarkUid();
      assert m == MaxOver(landmarks.Keys, ParseInt);
      uid := NatToString(m + 1);
      assert NextLandmarkUid(landmarks) == NatToString(m + 1);
      NextLandmarkUidFresh(landmarks);
      landmarks := landmarks[uid := NewLandmark(uid)];
      signals := signals + [LandmarkPropertiesChanged];
    }

    /** `setLandmarkName`: renames the landmark, creating a default one first
        when the uid is unknown. */
    method SetLandmarkName(uid: string, name: string)
      modifies this`landmarks, this`signals
      ensures uid in old(landmarks) ==> landmarks == old(landmarks)[uid := old(landmarks)[uid].(name := name)]
      ensures uid !in old(landmarks) ==> landmarks == old(landmarks)[uid := DefaultLandmark.(name := name)]
      ensures signals == old(signals) + [LandmarkPropertiesChanged]
    {
      var prop := if uid in landmarks then landmarks[uid] else DefaultLandmark;
      landmarks := landmarks[uid := prop.(name := name)];
      signals := signals + [LandmarkPropertiesChanged];
    }

    method SetLandmarkActive(uid: string, active: bool)
      modifies this`landmarks, this`signals
      ensures uid in old(landmarks) ==> landmarks == old(landmarks)[uid := old(landmarks)[uid].(active := active)]
      ensures uid !in old(landmarks) ==> landmarks == old(landmarks)[uid := DefaultLandmark.(active := active)]
      ensures signals == old(signals) + [LandmarkPropertiesChanged]
    {
      var prop := if uid in landmarks then landmarks[uid] else DefaultLandmark;
      landmarks := landmarks[uid := prop.(active := active)];
      signals := signals + [LandmarkPropertiesChanged];
    }

    // -- loading ----------------------------------------------------------------

    /** `loadImage(ImagePtr)`: stores a non-null image under its uid. */
    method LoadImageObject(image: Image?)
      requires Valid()
      modifies this`images, this`signals
      ensures Valid()
      ensures image == null ==> images == old(images) && signals == old(signals)
      ensures image != null ==> images == old(images)[image.uid := image] && signals == old(signals) + [DataLoaded]
    {
      if image != null {
        images := images[image.uid := image];
        signals := signals + [DataLoaded];
      }
    }

    /** `loadMesh(MeshPtr)`: stores a non-null mesh under its uid. */
    method LoadMeshObject(mesh: Mesh?)
      requires Valid()
      modifies this`meshes, this`signals
      ensures Valid()
      ensures mesh == null ==> meshes == old(meshes) && signals == old(signals)
      ensures mesh != null ==> meshes == old(meshes)[mesh.uid := mesh] && signals == old(signals) + [DataLoaded]
    {
      if mesh != null {
        meshes := meshes[mesh.uid := mesh];
        signals := signals + [DataLoaded];
      }
    }

    /** `loadData`: an image goes to the images, a mesh to the meshes, anything
        else (and null) is ignored. */
    method LoadData(data: Option<DataRef>)
      requires Valid()
      modifies this`images, this`meshes, this`signals
      ensures Valid()
      ensures data.Some? && data.value.ImageRef? ==>
        images == old(images)[data.value.image.uid := data.value.image] && meshes == old(meshes)
        && signals == old(signals) + [DataLoaded]
      ensures data.Some? && data.value.MeshRef? ==>
        meshes == old(meshes)[data.value.mesh.uid := data.value.mesh] && images == old(images)
        && signals == old(signals) + [DataLoaded]
      ensures data.None? || data.value.OtherRef? ==>
        images == old(images) && meshes == old(meshes) && signals == old(signals)
    {
      if data.Some? && data.value.ImageRef? {
        LoadImageObject(data.value.image);
      }
      if data.Some? && data.value.MeshRef? {
        LoadMeshObject(data.value.mesh);
      }
    }

    /** `loadImage(uid, filename, type)`: a stored uid returns the stored image
        without reading; `Auto` returns null; otherwise the file is read and
        loaded, and the result is returned if it is an image. A mesh reader loads
        a mesh and returns null. */
    method LoadImage(uid: string, filename: string, t: ReaderType) returns (r: Image?)
      requires Valid()
      requires uid in images || t == Auto || HasReader(t)
      modifies this`images, this`meshes, this`signals
      ensures Valid()
      ensures uid in old(images) ==>
        r == old(images)[uid] && images == old(images) && meshes == old(meshes) && signals == old(signals)
      ensures uid !in old(images) && t == Auto ==>
        r == null && images == old(images) && meshes == old(meshes) && signals == old(signals)
      ensures uid !in old(images) && t == MetaImage ==>
        r != null && fresh(r) && r.uid == uid
        && images == old(images)[uid := r] && meshes == old(meshes) && signals == old(signals) + [DataLoaded]
      ensures uid !in old(images) && (t == PolyData || t == Stl) ==>
        r == null && uid in meshes && fresh(meshes[uid])
        && meshes == old(meshes)[uid := meshes[uid]] && images == old(images) && signals == old(signals) + [DataLoaded]
    {
      if uid in images {
        return images[uid];
      }
      if t == Auto {
        return null;
      }
      var current := ReadFile(uid, filename, t);
      LoadData(Some(current));
      r := if current.ImageRef? then current.image else null;
    }

    /** `loadMesh(uid, fileName, type)`: a stored uid returns the stored mesh
        without reading; otherwise the file is read and loaded, and the result is
        returned if it is a mesh. The meta-image reader loads an image and
        returns null. */
    method LoadMesh(uid: string, filename: string, t: ReaderType) returns (r: Mesh?)
      requires Valid()
      requires uid in meshes || HasReader(t)
      modifies this`images, this`meshes, this`signals
      ensures Valid()
      ensures uid in old(meshes) ==>
        r == old(meshes)[uid] && images == old(images) && meshes == old(meshes) && signals == old(signals)
      ensures uid !in old(meshes) && (t == PolyData || t == Stl) ==>
        r != null && fresh(r) && r.uid == uid && r.name == "PolyData"
        && meshes == old(meshes)[uid := r] && images == old(images) && signals == old(signals) + [DataLoaded]
      ensures uid !in old(meshes) && t == MetaImage ==>
        r == null && uid in images && fresh(images[uid])
        && images == old(images)[uid := images[uid]] && meshes == old(meshes) && signals == old(signals) + [DataLoaded]
    {
      if uid in meshes {
        return meshes[uid];
      }
      var newMesh := ReadFile(uid, filename, t);
      LoadData(Some(newMesh));
      r := if newMesh.MeshRef? then newMesh.mesh else null;
    }

    // -- lookups ----------------------------------------------------------------

    /** `getImage`: the stored image with this uid, or null. */
    method GetImage(uid: string) returns (r: Image?)
      requires Valid()
      ensures r != null <==> uid in images
      ensures r != null ==> r == images[uid] && r.uid == uid
    {
      if uid !in images {
        return null;
      }
      return images[uid];
    }

    /** `getMesh`: the stored mesh with this uid, or null. */
    method GetMesh(uid: string) returns (r: Mesh?)
      requires Valid()
      ensures r != null <==> uid in meshes
      ensures r != null ==> r == meshes[uid] && r.uid == uid
    {
      if uid !in meshes {
        return null;
      }
      return meshes[uid];
    }

    /** `getImageUids`: every stored uid once, in map order. */
    method GetImageUids() returns (r: seq<string>)
      ensures |r| == |images|
      ensures forall k :: k in r <==> k in images
      ensures StrictlySorted(r)
    {
      r := SortedKeys(images.Keys);
      SortedSeqSpec(images.Keys);
    }

    /** `getImageNames`: the stored images' names, in the map order of their uids. */
    method GetImageNames() returns (r: seq<string>)
      ensures |r| == |SortedSeq(images.Keys)| == |images|
      ensures forall i :: 0 <= i < |r| ==>
        (SortedSeq(images.Keys)[i] in images && r[i] == images[SortedSeq(images.Keys)[i]].name)
    {
      var uids := SortedKeys(images.Keys);
      r := [];
      for i := 0 to |uids|
        invariant |r| == i
        invariant forall j :: 0 <= j < i ==> r[j] == images[uids[j]].name
      {
        assert uids[i] in uids;
        r := r + [images[uids[i]].name];
      }
    }

    /** `getImageUidsAndNames`: each stored uid mapped to its image's name. */
    method GetImageUidsAndNames() returns (r: map<string, string>)
      ensures r.Keys == images.Keys
      ensures forall k :: k in r ==> r[k] == images[k].name
    {
      r := map[];
      var todo := images.Keys;
      while todo != {}
        invariant todo <= images.Keys
        invariant forall k :: k in r <==> k in images && k !in todo
        invariant forall k :: k in r ==> r[k] == images[k].name
        decreases |todo|
      {
        var k :| k in todo;
        r := r[k := images[k].name];
        todo := todo - {k};
      }
    }

    /** `getMeshUidsWithNames`: each stored uid mapped to its mesh's name. */
    method GetMeshUidsWithNames() returns (r: map<string, string>)
      ensures r.Keys == meshes.Keys
      ensures forall k :: k in r ==> r[k] == meshes[k].name
    {
      r := map[];
      var todo := meshes.Keys;
      while todo != {}
        invariant todo <= meshes.Keys
        invariant forall k :: k in r <==> k in meshes && k !in todo
        invariant forall k :: k in r ==> r[k] == meshes[k].name
        decreases |todo|
      {
        var k :| k in todo;
        r := r[k := meshes[k].name];
        todo := todo - {k};
      }
    }

    /** `getMeshUids` and `getMeshNames` return an empty list whatever is stored. */
    method GetMeshUids() returns (r: seq<string>)
      ensures r == []
    {
      r := [];
    }

    method GetMeshNames() returns (r: seq<string>)
      ensures r == []
    {
      r := [];
    }
  }
}
