/**
 * Beatmap: a NativeHandler over a NativeBeatmap record. It is created from a file path or from
 * the text of a .osu file, exposes the record's numeric fields behind the closed guard, fetches
 * its three metadata strings through the buffer-size-query protocol, and destroys its handle once.
 */
module Beatmaps {
  import opened Wrappers
  import opened ErrorCodes
  import opened Utf8
  import opened Native
  import NativeHelper
  import opened NativeHandlers

  /** The record Beatmap_CreateFromFile / Beatmap_CreateFromText write through their out-pointer. */
  datatype NativeBeatmap = NativeBeatmap(
    handle: Handle,
    approachRate: Float, drainRate: Float, overallDifficulty: Float, circleSize: Float,
    sliderMultiplier: Float, sliderTickRate: Float,
    rulesetId: int, beatmapId: int)

  /** The three string getters a beatmap exposes. */
  datatype MetadataField = Title | Artist | Version

  /** A native call on a beatmap handle: one of the two calls of a string getter. */
  datatype BeatmapOp = GetMetadata(field: MetadataField, withBuffer: bool)

  /** What __repr__ shows: the closed form, the described form, or the handle fallback. */
  datatype BeatmapRepr =
    | ClosedRepr
    | Described(artist: string, title: string, version: string, approachRate: Float, overallDifficulty: Float)
    | HandleRepr(id: Handle)

  const BeatmapClassName := "Beatmap"

  class Beatmap {
    const native: NativeBeatmap
    /** The inherited NativeHandler state: the handle, the closed flag and the trace of native calls. */
    const base: NativeHandler<BeatmapOp>

    ghost predicate Valid()
      reads base
    {
      base.Valid() && base.handle == native.handle && base.className == BeatmapClassName
    }

    constructor (native: NativeBeatmap)
      ensures Valid() && this.native == native && fresh(base)
      ensures !base.closed && base.trace == []
    {
      this.native := native;
      base := new NativeHandler(native.handle, BeatmapClassName);
    }

    /**
     * from_file: the path is sent as a NUL-terminated UTF-8 buffer; a non-success code raises
     * "Failed to create beatmap from file", otherwise the written record becomes an open Beatmap.
     */
    static method FromFile(path: string, code: int, written: NativeBeatmap)
      returns (r: Result<Beatmap, Error>, ghost sent: seq<byte>)
      ensures sent == NativeHelper.NativeString(path)
      ensures r.Err? <==> code != Value(Success)
      ensures r.Err? ==> r.error == NativeFailure(CreateBeatmapFromFile(path), FromValue(code))
      ensures r.Ok? ==> fresh(r.value) && fresh(r.value.base) && r.value.Valid()
      ensures r.Ok? ==> r.value.native == written && !r.value.base.closed && r.value.base.trace == []
    {
      var buffer := NativeHelper.CreateNativeString(path);
      sent := buffer[..];
      match NativeHelper.CheckError(code, CreateBeatmapFromFile(path)) {
        case Fail(e) => r := Err(e);
        case Pass =>
          var b := new Beatmap(written);
          r := Ok(b);
      }
    }

    /** from_text: as from_file, with the .osu content itself as the sent string. */
    static method FromText(text: string, code: int, written: NativeBeatmap)
      returns (r: Result<Beatmap, Error>, ghost sent: seq<byte>)
      ensures sent == NativeHelper.NativeString(text)
      ensures r.Err? <==> code != Value(Success)
      ensures r.Err? ==> r.error == NativeFailure(CreateBeatmapFromText, FromValue(code))
      ensures r.Ok? ==> fresh(r.value) && fresh(r.value.base) && r.value.Valid()
      ensures r.Ok? ==> r.value.native == written && !r.value.base.closed && r.value.base.trace == []
    {
      var buffer := NativeHelper.CreateNativeString(text);
      sent := buffer[..];
      match NativeHelper.CheckError(code, CreateBeatmapFromText) {
        case Fail(e) => r := Err(e);
        case Pass =>
          var b := new Beatmap(written);
          r := Ok(b);
      }
    }

    /**
     * title / artist / version: the closed guard, then get_string with the field's getter.
     * A closed beatmap raises without calling the getter.
     */
    method Metadata(field: MetadataField, g: NativeHelper.StringGetter) returns (r: Result<string, Error>)
      requires Valid()
      modifies base
      ensures Valid() && base.closed == old(base.closed)
      ensures old(base.closed) ==> r == Err(Closed(BeatmapClassName)) && base.trace == old(base.trace)
      ensures !old(base.closed) ==> r == NativeHelper.GetStringResult(g)
      ensures !old(base.closed) ==> base.trace == old(base.trace) + GetterCalls(field, g)
    {
      if base.closed {
        return Err(Closed(base.className));
      }
      r := base.GetString(g, GetMetadata(field, false), GetMetadata(field, true));
    }

    function ApproachRate(): (r: Result<Float, Error>)
      reads base
      ensures r.Err? <==> base.closed
      ensures r.Err? ==> r.error == Closed(base.className)
      ensures r.Ok? ==> r.value == native.approachRate
    {
      if base.closed then Err(Closed(base.className)) else Ok(native.approachRate)
    }

    function DrainRate(): (r: Result<Float, Error>)
      reads base
      ensures r.Err? <==> base.closed
      ensures r.Err? ==> r.error == Closed(base.className)
      ensures r.Ok? ==> r.value == native.drainRate
    {
      if base.closed then Err(Closed(base.className)) else Ok(native.drainRate)
    }

    function OverallDifficulty(): (r: Result<Float, Error>)
      reads base
      ensures r.Err? <==> base.closed
      ensures r.Err? ==> r.error == Closed(base.className)
      ensures r.Ok? ==> r.value == native.overallDifficulty
    {
      if base.closed then Err(Closed(base.className)) else Ok(native.overallDifficulty)
    }

    function CircleSize(): (r: Result<Float, Error>)
      reads base
      ensures r.Err? <==> base.closed
      ensures r.Err? ==> r.error == Closed(base.className)
      ensures r.Ok? ==> r.value == native.circleSize
    {
      if base.closed then Err(Closed(base.className)) else Ok(native.circleSize)
    }

    function SliderMultiplier(): (r: Result<Float, Error>)
      reads base
      ensures r.Err? <==> base.closed
      ensures r.Err? ==> r.error == Closed(base.className)
      ensures r.Ok? ==> r.value == native.sliderMultiplier
    {
      if base.closed then Err(Closed(base.className)) else Ok(native.sliderMultiplier)
    }

    function SliderTickRate(): (r: Result<Float, Error>)
      reads base
      ensures r.Err? <==> base.closed
      ensures r.Err? ==> r.error == Closed(base.className)
      ensures r.Ok? ==> r.value == native.sliderTickRate
    {
      if base.closed then Err(Closed(base.className)) else Ok(native.sliderTickRate)
    }

    function RulesetId(): (r: Result<int, Error>)
      reads base
      ensures r.Err? <==> base.closed
      ensures r.Err? ==> r.error == Closed(base.className)
      ensures r.Ok? ==> r.value == native.rulesetId
    {
      if base.closed then Err(Closed(base.className)) else Ok(native.rulesetId)
    }

    function BeatmapId(): (r: Result<int, Error>)
      reads base
      ensures r.Err? <==> base.closed
      ensures r.Err? ==> r.error == Closed(base.className)
      ensures r.Ok? ==> r.value == native.beatmapId
    {
      if base.closed then Err(Closed(base.className)) else Ok(native.beatmapId)
    }

    /** close: the inherited idempotent close, whose destroy call is Beatmap_Destroy. */
    method Close()
      requires Valid()
      modifies base
      ensures Valid() && base.closed
      ensures base.trace == if old(base.closed) then old(base.trace) else old(base.trace) + [Destroy]
      ensures DestroyCount(base.trace) == 1
    {
      base.Close();
    }

    /** __exit__: leaving a `with` block closes the beatmap. */
    method Exit()
      requires Valid()
      modifies base
      ensures Valid() && base.closed
      ensures base.trace == if old(base.closed) then old(base.trace) else old(base.trace) + [Destroy]
    {
      base.Exit();
    }

    /**
     * __repr__: never raises. Closed gives the closed form with no native call; otherwise the
     * artist, title and version getters run in that order, and any failure among them falls
     * back to the handle form.
     */
    method Repr(artist: NativeHelper.StringGetter, title: NativeHelper.StringGetter, version: NativeHelper.StringGetter)
      returns (r: BeatmapRepr)
      requires Valid()
      modifies base
      ensures Valid() && base.closed == old(base.closed)
      ensures old(base.closed) ==> r == ClosedRepr && base.trace == old(base.trace)
      ensures !old(base.closed) ==> base.trace == old(base.trace) + ReprCalls(artist, title, version)
      ensures !old(base.closed) ==> r == ReprOf(native, NativeHelper.GetStringResult(artist),
                                                NativeHelper.GetStringResult(title), NativeHelper.GetStringResult(version))
    {
      if base.closed {
        return ClosedRepr;
      }
      ghost var start := base.trace;
      var a := Metadata(Artist, artist);
      if a.Err? {
        return HandleRepr(base.handle);
      }
      var t := Metadata(Title, title);
      if t.Err? {
        return HandleRepr(base.handle);
      }
      var v := Metadata(Version, version);
      assert base.trace == start + GetterCalls(Artist, artist) + GetterCalls(Title, title) + GetterCalls(Version, version);
      if v.Err? {
        return HandleRepr(base.handle);
      }
      r := Described(a.value, t.value, v.value, native.approachRate, native.overallDifficulty);
    }
  }

  /** The native calls of one string getter: the size query, then the fetch when the size is positive. */
  function GetterCalls(field: MetadataField, g: NativeHelper.StringGetter): (calls: seq<NativeCall<BeatmapOp>>)
    ensures |calls| == if NativeHelper.Fetches(g) then 2 else 1
    ensures calls[0] == Invoke(GetMetadata(field, false))
    ensures NativeHelper.Fetches(g) ==> calls[1] == Invoke(GetMetadata(field, true))
  {
    [Invoke(GetMetadata(field, false))] + (if NativeHelper.Fetches(g) then [Invoke(GetMetadata(field, true))] else [])
  }

  /**
   * The native calls of an open beatmap's __repr__: the artist getter, then the title getter
   * only if artist succeeded, then the version getter only if title succeeded as well.
   */
  function ReprCalls(artist: NativeHelper.StringGetter, title: NativeHelper.StringGetter, version: NativeHelper.StringGetter)
    : (calls: seq<NativeCall<BeatmapOp>>)
    ensures NativeHelper.GetStringResult(artist).Err? ==> calls == GetterCalls(Artist, artist)
    ensures NativeHelper.GetStringResult(artist).Ok? && NativeHelper.GetStringResult(title).Err? ==>
      calls == GetterCalls(Artist, artist) + GetterCalls(Title, title)
    ensures NativeHelper.GetStringResult(artist).Ok? && NativeHelper.GetStringResult(title).Ok? ==>
      calls == GetterCalls(Artist, artist) + GetterCalls(Title, title) + GetterCalls(Version, version)
  {
    var rest :=
      if NativeHelper.GetStringResult(title).Err? then [] else GetterCalls(Version, version);
    GetterCalls(Artist, artist)
      + (if NativeHelper.GetStringResult(artist).Err? then [] else GetterCalls(Title, title) + rest)
  }

  /** The open-beatmap __repr__, given what the three getters return. */
  function ReprOf(native: NativeBeatmap, artist: Result<string, Error>, title: Result<string, Error>, version: Result<string, Error>)
    : (r: BeatmapRepr)
    ensures r != ClosedRepr
    ensures r.Described? <==> artist.Ok? && title.Ok? && version.Ok?
    ensures r.Described? ==> r.artist == artist.value && r.title == title.value && r.version == version.value
    ensures r.Described? ==> r.approachRate == native.approachRate && r.overallDifficulty == native.overallDifficulty
    ensures r.HandleRepr? ==> r.id == native.handle
  {
    if artist.Ok? && title.Ok? && version.Ok? then
      Described(artist.value, title.value, version.value, native.approachRate, native.overallDifficulty)
    else
      HandleRepr(native.handle)
  }
}
