// The provider records of src/cloud/registry.ts: how a record is read from the settings document,
// how it is written back, and that reading what was written gives the record again.

module CloudRecords {
  import opened Options

  // --- JSON values -----------------------------------------------------------------------------

  datatype Json =
    | Null
    | Bool(flag: bool)
    | Number(value: real)
    | Str(text: string)
    | Arr(items: seq<Json>)
    | Obj(fields: map<string, Json>)

  /** `value?.[name]` of a parsed JSON value. */
  function Field(j: Json, name: string): Option<Json> {
    if j.Obj? && name in j.fields then Some(j.fields[name]) else None
  }

  function Get(raw: map<string, Json>, name: string): Option<Json> {
    if name in raw then Some(raw[name]) else None
  }

  predicate IsStr(j: Option<Json>) {
    j.Some? && j.value.Str?
  }

  /** `Array.isArray(x) ? x : []` */
  function ItemsOf(j: Option<Json>): seq<Json> {
    if j.Some? && j.value.Arr? then j.value.items else []
  }

  // --- the media part --------------------------------------------------------------------------

  datatype Kind = Image | Video

  datatype MediaModel = MediaModel(id: string, kind: Kind)

  datatype Media = Media(models: seq<MediaModel>, imageApi: Option<string>, videoApi: Option<string>)

  const IMAGE_DIALECTS := {"openai-images", "xai-images", "openrouter-images", "gemini-image", "minimax-image",
                           "dashscope-image", "hf-images", "nvidia-genai", "mistral-agent-image", "a1111"}

  const VIDEO_DIALECTS := {"openai-videos", "openrouter-videos", "xai-videos", "gemini-veo", "minimax-video",
                           "minimax-video-v2", "dashscope-video", "aimlapi-videos", "hf-videos"}

  function Dialects(kind: Kind): set<string> {
    if kind.Image? then IMAGE_DIALECTS else VIDEO_DIALECTS
  }

  function KindName(kind: Kind): string {
    if kind.Image? then "image" else "video"
  }

  /** The model an entry of a media list names, if it names one. */
  function ModelOf(item: Json): Option<MediaModel> {
    var id, kind := Field(item, "id"), Field(item, "kind");
    if !IsStr(id) || id.value.text == "" || !IsStr(kind) then None
    else if kind.value.text == "image" then Some(MediaModel(id.value.text, Image))
    else if kind.value.text == "video" then Some(MediaModel(id.value.text, Video))
    else None
  }

  /** The models the entries name, each once, in the order of their first mention. */
  function ModelsOf(items: seq<Json>): (ms: seq<MediaModel>)
    ensures forall i, j :: 0 <= i < j < |ms| ==> ms[i] != ms[j]
    ensures forall m: MediaModel :: m in ms ==> m.id != ""
  {
    if items == [] then []
    else
      var before := ModelsOf(items[..|items| - 1]);
      var m := ModelOf(items[|items| - 1]);
      if m.None? || m.value in before then before else before + [m.value]
  }

  /** Every model an entry names is there, and no other. */
  lemma {:induction false} ModelsAreNamed(items: seq<Json>, m: MediaModel)
    ensures m in ModelsOf(items) <==> exists i :: 0 <= i < |items| && ModelOf(items[i]) == Some(m)
  {
    if items != [] {
      var n := |items| - 1;
      ModelsAreNamed(items[..n], m);
      if i :| 0 <= i < |items| && ModelOf(items[i]) == Some(m) {
        assert i < n ==> items[..n][i] == items[i];
      }
    }
  }

  /** The adapter a media record names for one kind, dropped unless it makes that kind. */
  function ApiOf(j: Option<Json>, kind: Kind): Option<string> {
    if IsStr(j) && j.value.text in Dialects(kind) then Some(j.value.text) else None
  }

  function MediaOf(raw: Option<Json>): Option<Media> {
    if raw.None? || !raw.value.Obj? then None
    else
      var j := raw.value;
      Some(Media(ModelsOf(ItemsOf(Field(j, "models"))), ApiOf(Field(j, "image_api"), Image), ApiOf(Field(j, "video_api"), Video)))
  }

  /** How a model is remembered as seen. */
  function SeenKey(m: MediaModel): string {
    KindName(m.kind) + ":" + m.id
  }

  lemma SeenKeyInjective(a: MediaModel, b: MediaModel)
    ensures SeenKey(a) == SeenKey(b) <==> a == b
  {
    if SeenKey(a) == SeenKey(b) {
      assert SeenKey(a)[0] == (if a.kind.Image? then 'i' else 'v');
      assert SeenKey(b)[0] == (if b.kind.Image? then 'i' else 'v');
      assert SeenKey(a)[6..] == a.id && SeenKey(b)[6..] == b.id;
    }
  }

  /** `readStoredMedia`: one pass over the list with a set of `kind:id` keys. */
  method ReadStoredMedia(raw: Option<Json>) returns (media: Option<Media>)
    ensures media == MediaOf(raw)
  {
    if raw.None? || !raw.value.Obj? {
      return None;
    }
    var items := ItemsOf(Field(raw.value, "models"));
    var models: seq<MediaModel> := [];
    var seen: set<string> := {};
    for i := 0 to |items|
      invariant models == ModelsOf(items[..i])
      invariant forall m: MediaModel :: m in models ==> SeenKey(m) in seen
      invariant forall k: string :: k in seen ==> exists m: MediaModel :: m in models && SeenKey(m) == k
    {
      assert items[..i + 1][..i] == items[..i];
      var m := ModelOf(items[i]);
      if m.Some? && SeenKey(m.value) !in seen {
        models := models + [m.value];
        seen := seen + {SeenKey(m.value)};
      } else if m.Some? {
        var other: MediaModel :| other in models && SeenKey(other) == SeenKey(m.value);
        SeenKeyInjective(other, m.value);
      }
    }
    assert items[..|items|] == items;
    media := Some(Media(models, ApiOf(Field(raw.value, "image_api"), Image), ApiOf(Field(raw.value, "video_api"), Video)));
  }

  /** A media record as the core keeps it. */
  predicate GoodMedia(m: Media) {
    && (forall i, j :: 0 <= i < j < |m.models| ==> m.models[i] != m.models[j])
    && (forall i :: 0 <= i < |m.models| ==> m.models[i].id != "")
    && (m.imageApi.Some? ==> m.imageApi.value in Dialects(Image))
    && (m.videoApi.Some? ==> m.videoApi.value in Dialects(Video))
  }

  function ModelJson(m: MediaModel): Json {
    Obj(map["id" := Str(m.id), "kind" := Str(KindName(m.kind))])
  }

  function ModelsJson(ms: seq<MediaModel>): Json {
    Arr(seq(|ms|, i requires 0 <= i < |ms| => ModelJson(ms[i])))
  }

  /** An optional field of an object. */
  function Optional(name: string, j: Option<Json>): map<string, Json> {
    if j.Some? then map[name := j.value] else map[]
  }

  function ApiJson(api: Option<string>): Option<Json> {
    if api.Some? then Some(Str(api.value)) else None
  }

  function MediaJson(m: Media): Json {
    Obj(map["models" := ModelsJson(m.models)]
        + Optional("image_api", ApiJson(m.imageApi)) + Optional("video_api", ApiJson(m.videoApi)))
  }

  lemma ModelRoundTrip(m: MediaModel)
    requires m.id != ""
    ensures ModelOf(ModelJson(m)) == Some(m)
  {
    assert "id" != "kind" by { assert |"id"| != |"kind"|; }
    assert "image" != "video" by { assert "image"[0] != "video"[0]; }
  }

  /** Reading back a list of distinct models gives the same list. */
  lemma {:induction false} ModelsRoundTrip(items: seq<Json>, ms: seq<MediaModel>)
    requires |items| == |ms| && forall i :: 0 <= i < |ms| ==> ModelOf(items[i]) == Some(ms[i])
    requires forall i, j :: 0 <= i < j < |ms| ==> ms[i] != ms[j]
    ensures ModelsOf(items) == ms
  {
    if ms != [] {
      var n := |ms| - 1;
      ModelsRoundTrip(items[..n], ms[..n]);
      assert ms == ms[..n] + [ms[n]];
    }
  }

  lemma MediaFields(m: Media)
    ensures var j := MediaJson(m);
      && Field(j, "models") == Some(ModelsJson(m.models))
      && Field(j, "image_api") == ApiJson(m.imageApi) && Field(j, "video_api") == ApiJson(m.videoApi)
  {
    assert |"models"| == 6 && |"image_api"| == 9 && |"video_api"| == 9;
    assert "image_api"[0] != "video_api"[0];
  }

  lemma MediaRoundTrip(m: Media)
    requires GoodMedia(m)
    ensures MediaOf(Some(MediaJson(m))) == Some(m)
  {
    var items := ModelsJson(m.models).items;
    forall i | 0 <= i < |m.models|
      ensures ModelOf(items[i]) == Some(m.models[i])
    {
      ModelRoundTrip(m.models[i]);
    }
    ModelsRoundTrip(items, m.models);
    MediaFields(m);
  }

  lemma MediaOfIsGood(raw: Option<Json>)
    ensures MediaOf(raw).Some? ==> GoodMedia(MediaOf(raw).value)
  {
  }

  // --- whole records ---------------------------------------------------------------------------

  /** A header is kept as the object it is: extra fields stay. */
  predicate IsHeader(h: Json) {
    IsStr(Field(h, "header")) && IsStr(Field(h, "value"))
  }

  datatype Provider = Provider(name: string, baseUrl: Option<string>, headers: seq<Json>, models: seq<string>,
                               media: Option<Media>)

  predicate GoodProvider(p: Provider) {
    && p.name != ""
    && (forall i :: 0 <= i < |p.headers| ==> IsHeader(p.headers[i]))
    && (p.media.Some? ==> GoodMedia(p.media.value))
  }

  function HeadersOf(items: seq<Json>): (hs: seq<Json>)
    ensures forall i :: 0 <= i < |hs| ==> IsHeader(hs[i])
  {
    if items == [] then []
    else (if IsHeader(items[0]) then [items[0]] else []) + HeadersOf(items[1..])
  }

  function StringsOf(items: seq<Json>): seq<string> {
    if items == [] then []
    else (if items[0].Str? then [items[0].text] else []) + StringsOf(items[1..])
  }

  /** One record of the settings document, as `stored()` reads it. */
  function ProviderOf(raw: map<string, Json>): (p: Option<Provider>)
    ensures p.Some? ==> GoodProvider(p.value)
  {
    var name := Get(raw, "provider");
    if !IsStr(name) || name.value.text == "" then None
    else
      var url, media := Get(raw, "base_url"), MediaOf(Get(raw, "media"));
      MediaOfIsGood(Get(raw, "media"));
      Some(Provider(name.value.text, if IsStr(url) then Some(url.value.text) else None,
                    HeadersOf(ItemsOf(Get(raw, "custom_headers"))), StringsOf(ItemsOf(Get(raw, "models"))), media))
  }

  function StringsJson(ss: seq<string>): Json {
    Arr(seq(|ss|, i requires 0 <= i < |ss| => Str(ss[i])))
  }

  function UrlJson(url: Option<string>): Json {
    if url.Some? then Str(url.value) else Null
  }

  function MediaField(media: Option<Media>): Option<Json> {
    if media.Some? then Some(MediaJson(media.value)) else None
  }

  function ProviderJson(p: Provider): map<string, Json> {
    map["provider" := Str(p.name), "base_url" := UrlJson(p.baseUrl), "custom_headers" := Arr(p.headers),
        "models" := StringsJson(p.models)]
    + Optional("media", MediaField(p.media))
  }

  lemma {:induction false} HeadersKept(hs: seq<Json>)
    requires forall i :: 0 <= i < |hs| ==> IsHeader(hs[i])
    ensures HeadersOf(hs) == hs
  {
    if hs != [] {
      HeadersKept(hs[1..]);
    }
  }

  lemma {:induction false} StringsKept(items: seq<Json>, ss: seq<string>)
    requires |items| == |ss| && forall i :: 0 <= i < |ss| ==> items[i] == Str(ss[i])
    ensures StringsOf(items) == ss
  {
    if ss != [] {
      StringsKept(items[1..], ss[1..]);
    }
  }

  lemma ProviderFields(p: Provider)
    ensures var raw := ProviderJson(p);
      && Get(raw, "provider") == Some(Str(p.name)) && Get(raw, "base_url") == Some(UrlJson(p.baseUrl))
      && Get(raw, "custom_headers") == Some(Arr(p.headers)) && Get(raw, "models") == Some(StringsJson(p.models))
      && Get(raw, "media") == MediaField(p.media)
  {
    assert |"provider"| == 8 && |"base_url"| == 8 && |"custom_headers"| == 14 && |"models"| == 6 && |"media"| == 5;
    assert "provider"[0] != "base_url"[0];
  }

  lemma ProviderRoundTrip(p: Provider)
    requires GoodProvider(p)
    ensures ProviderOf(ProviderJson(p)) == Some(p)
  {
    ProviderFields(p);
    HeadersKept(p.headers);
    StringsKept(StringsJson(p.models).items, p.models);
    if p.media.Some? {
      MediaRoundTrip(p.media.value);
    }
  }

  // --- the list --------------------------------------------------------------------------------

  /** `stored()`: the records that name a provider. */
  function Stored(raws: seq<map<string, Json>>): (ps: seq<Provider>)
    ensures forall i :: 0 <= i < |ps| ==> GoodProvider(ps[i])
  {
    if raws == [] then []
    else
      var p := ProviderOf(raws[0]);
      (if p.Some? then [p.value] else []) + Stored(raws[1..])
  }

  function ListJson(ps: seq<Provider>): seq<map<string, Json>> {
    seq(|ps|, i requires 0 <= i < |ps| => ProviderJson(ps[i]))
  }

  /** What the registry writes is read back unchanged. */
  lemma {:induction false} StoredRoundTrip(ps: seq<Provider>)
    requires forall i :: 0 <= i < |ps| ==> GoodProvider(ps[i])
    ensures Stored(ListJson(ps)) == ps
  {
    if ps != [] {
      ProviderRoundTrip(ps[0]);
      assert ListJson(ps)[1..] == ListJson(ps[1..]);
      StoredRoundTrip(ps[1..]);
    }
  }

  /** `stored()` is idempotent: rewriting what it read changes nothing it reads. */
  lemma StoredIdempotent(raws: seq<map<string, Json>>)
    ensures Stored(ListJson(Stored(raws))) == Stored(raws)
  {
    StoredRoundTrip(Stored(raws));
  }

  // --- media of a registration -----------------------------------------------------------------

  /** What `checkedMedia` accepts for one adapter field. */
  predicate ApiAccepted(j: Option<Json>, kind: Kind) {
    j.None? || j.value.Null? || (j.value.Str? && j.value.text in Dialects(kind))
  }

  predicate MediaAccepted(j: Json) {
    && j.Obj? && Field(j, "models").Some? && Field(j, "models").value.Arr?
    && (var items := Field(j, "models").value.items; forall i :: 0 <= i < |items| ==> ModelOf(items[i]).Some?)
    && ApiAccepted(Field(j, "image_api"), Image) && ApiAccepted(Field(j, "video_api"), Video)
  }

  /** `checkedMedia`: refuses what `readStoredMedia` would have to drop a part of. */
  method CheckedMedia(j: Json) returns (r: Result<Media, string>)
    ensures r.Ok? <==> MediaAccepted(j)
    ensures r.Ok? ==> GoodMedia(r.value) && MediaOf(Some(j)) == Some(r.value)
    ensures r.Ok? ==> forall i :: 0 <= i < |ItemsOf(Field(j, "models"))| ==>
      ModelOf(ItemsOf(Field(j, "models"))[i]).Some? && ModelOf(ItemsOf(Field(j, "models"))[i]).value in r.value.models
  {
    if !j.Obj? {
      return Err("media must be an object");
    }
    var list := Field(j, "models");
    if list.None? || !list.value.Arr? {
      return Err("media.models must be a list of {id, kind}");
    }
    for i := 0 to |list.value.items|
      invariant forall k :: 0 <= k < i ==> ModelOf(list.value.items[k]).Some?
    {
      if ModelOf(list.value.items[i]).None? {
        return Err("media.models must be a list of {id, kind}");
      }
    }
    if !ApiAccepted(Field(j, "image_api"), Image) {
      return Err("media.image_api must be one of the image adapters");
    }
    if !ApiAccepted(Field(j, "video_api"), Video) {
      return Err("media.video_api must be one of the video adapters");
    }
    var media := ReadStoredMedia(Some(j));
    forall i | 0 <= i < |list.value.items|
      ensures ModelOf(list.value.items[i]).value in media.value.models
    {
      ModelsAreNamed(list.value.items, ModelOf(list.value.items[i]).value);
    }
    r := Ok(media.value);
  }
}
