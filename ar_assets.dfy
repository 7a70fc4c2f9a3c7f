/** The AR asset paths for a pet: the model kind picks `/ar/<kind>.usdz`
    and `/ar/<kind>.glb`, and the Android Scene Viewer link wraps the
    model's address and title. */
module ArAssets {
  import opened Common
  import opened PetStore

  /** The kind names the asset table knows, besides `default`. */
  function KindName(k: AvatarKind): (s: string)
    ensures s != "" && s != "default"
  {
    match k
    case Fox => "fox"
    case Dog => "dog"
    case Cat => "cat"
    case Frog => "frog"
    case Blob => "blob"
    case Element => "element"
  }

  predicate IsKnownKind(raw: string) {
    raw in {"fox", "dog", "cat", "frog", "blob", "element"}
  }

  /** `kindMap[rawKind] || kindMap.default`. */
  function MappedKind(raw: string): (m: string)
    ensures IsKnownKind(raw) ==> m == raw
    ensures !IsKnownKind(raw) ==> m == "pet"
  {
    if IsKnownKind(raw) then raw else "pet"
  }

  /** `pet?.avatarKind || 'default'`. */
  function RawKind(pet: Option<PetMeta>): (s: string)
    ensures pet.Some? && pet.value.avatarKind.Some? ==> s == KindName(pet.value.avatarKind.value)
    ensures pet.None? || pet.value.avatarKind.None? ==> s == "default"
  {
    if pet.Some? && pet.value.avatarKind.Some? then KindName(pet.value.avatarKind.value) else "default"
  }

  datatype ArAssetPaths = ArAssetPaths(iosUsdzPath: string, androidGlbPath: string, title: string)

  /** `getArAssetForPet`. The fallbacks after `||` are never taken: the
      built paths are never empty. */
  function GetArAssetForPet(pet: Option<PetMeta>): (r: ArAssetPaths)
    ensures var m := MappedKind(RawKind(pet));
      r.iosUsdzPath == "/ar/" + m + ".usdz" && r.androidGlbPath == "/ar/" + m + ".glb"
    ensures r.title == if pet.Some? && pet.value.name != "" then pet.value.name else "ActiveGotchi"
  {
    var base := "/ar/" + MappedKind(RawKind(pet));
    ArAssetPaths(base + ".usdz", base + ".glb",
      if pet.Some? && pet.value.name != "" then pet.value.name else "ActiveGotchi")
  }

  /** Every pet kind has its own model; no pet or no kind gets `pet`. */
  lemma AssetPerKind(pet: Option<PetMeta>)
    ensures pet.Some? && pet.value.avatarKind.Some? ==>
      GetArAssetForPet(pet).androidGlbPath == "/ar/" + KindName(pet.value.avatarKind.value) + ".glb"
    ensures pet.None? || pet.value.avatarKind.None? ==>
      GetArAssetForPet(pet) == ArAssetPaths("/ar/pet.usdz", "/ar/pet.glb",
        if pet.Some? && pet.value.name != "" then pet.value.name else "ActiveGotchi")
  {
    if pet.Some? && pet.value.avatarKind.Some? {
      var k := KindName(pet.value.avatarKind.value);
      assert IsKnownKind(k);
    }
  }

  const SceneViewerPrefix: string := "https://arvr.google.com/scene-viewer/1.0?file="
  const SceneViewerSuffix: string :=
    "#intent;scheme=https;package=com.google.android.googlequicksearchbox;action=android.intent.action.VIEW;end;"
  const SceneViewerMode: string := "&mode=ar_preferred&title="

  /** `title || 'ActiveGotchi'`, before it is percent-encoded. */
  function SceneTitle(title: Option<string>): (t: string)
    ensures t != ""
    ensures title.Some? && title.value != "" ==> t == title.value
  {
    if title.Some? && title.value != "" then title.value else "ActiveGotchi"
  }

  /** The middle part of a three-part concatenation is found again at its
      own offset. */
  lemma SliceOfMiddle(a: string, b: string, c: string)
    ensures |a + b + c| == |a| + |b| + |c|
    ensures (a + b + c)[..|a|] == a
    ensures (a + b + c)[|a|..|a| + |b|] == b
    ensures (a + b + c)[|a| + |b|..] == c
  {
    assert a + b + c == a + (b + c);
  }

  lemma Regroup(a: string, b: string, c: string, d: string, e: string)
    ensures a + b + (c + d + e) == (a + b + c) + d + e
  {
  }

  /** `buildAndroidSceneViewerUrl`, given the already encoded file address
      and title. */
  function SceneViewerUrl(encodedFile: string, encodedTitle: string): (u: string)
    ensures |u| == |SceneViewerPrefix| + |encodedFile| + |SceneViewerMode| + |encodedTitle| + |SceneViewerSuffix|
    ensures u[..|SceneViewerPrefix|] == SceneViewerPrefix
    ensures u[|u| - |SceneViewerSuffix|..] == SceneViewerSuffix
    ensures u[|SceneViewerPrefix|..|SceneViewerPrefix| + |encodedFile|] == encodedFile
    ensures u[|u| - |SceneViewerSuffix| - |encodedTitle|..|u| - |SceneViewerSuffix|] == encodedTitle
  {
    var u := SceneViewerPrefix + encodedFile + (SceneViewerMode + encodedTitle + SceneViewerSuffix);
    SliceOfMiddle(SceneViewerPrefix, encodedFile, SceneViewerMode + encodedTitle + SceneViewerSuffix);
    Regroup(SceneViewerPrefix, encodedFile, SceneViewerMode, encodedTitle, SceneViewerSuffix);
    SliceOfMiddle(SceneViewerPrefix + encodedFile + SceneViewerMode, encodedTitle, SceneViewerSuffix);
    u
  }
}
