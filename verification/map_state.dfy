/** `MapState`: the two map layers of a raw observation (visibility and
    creep), decoded from the wire message `Raw.MapState`. */
module ObservationRaw {
  import opened Wrappers
  import opened Errors

  /** A raster layer; `ImageData` is not part of this model. */
  type ImageData(==, !new)
  /** Its wire form (`Common.ImageData`). */
  type WireImageData(==, !new)

  /** The wire message: both layers may be absent. */
  datatype WireMapState = WireMapState(visibility: Option<WireImageData>, creep: Option<WireImageData>)

  /** The immutable snapshot: both layers are present. */
  datatype MapState = MapState(visibility: ImageData, creep: ImageData)

  /** `MapState.from(message)`: a missing message fails naming
      "sc2api map state"; then visibility is checked, then creep. Each slot
      holds the image decoded (by `imageFrom`, that is `ImageData::from`)
      from the wire field of the same name. */
  function From(m: Option<WireMapState>, imageFrom: WireImageData -> ImageData): (r: Result<MapState, Error>)
    ensures m.None? ==> r == Failure(Required("sc2api map state"))
    ensures m.Some? && m.value.visibility.None? ==> r == Failure(Required("visibility"))
    ensures m.Some? && m.value.visibility.Some? && m.value.creep.None? ==> r == Failure(Required("creep"))
    ensures r.Success? <==> m.Some? && m.value.visibility.Some? && m.value.creep.Some?
    ensures r.Success? ==>
      r.value.visibility == imageFrom(m.value.visibility.value) && r.value.creep == imageFrom(m.value.creep.value)
  {
    if m.None? then Failure(Required("sc2api map state"))
    else if m.value.visibility.None? then Failure(Required("visibility"))
    else if m.value.creep.None? then Failure(Required("creep"))
    else Success(MapState(imageFrom(m.value.visibility.value), imageFrom(m.value.creep.value)))
  }

  /** A missing creep layer is reported as "creep" only when the visibility
      layer is there; with both missing, "visibility" is reported. */
  lemma MissingCreepReport(m: WireMapState, imageFrom: WireImageData -> ImageData)
    requires m.creep.None?
    ensures From(Some(m), imageFrom).Failure?
    ensures From(Some(m), imageFrom).error == (if m.visibility.Some? then Required("creep") else Required("visibility"))
  {
  }

  /** Every snapshot is decoded from the message that carries the encodings
      of its layers, when `imageFrom` inverts the image encoder: the two
      slots are never swapped. */
  lemma FromReachesEvery(s: MapState, imageFrom: WireImageData -> ImageData, imageToSc2Api: ImageData -> WireImageData)
    requires forall i :: imageFrom(imageToSc2Api(i)) == i
    ensures From(Some(WireMapState(Some(imageToSc2Api(s.visibility)), Some(imageToSc2Api(s.creep)))), imageFrom) == Success(s)
  {
  }

  /** `equals`: visibility and creep, each compared with its counterpart. */
  function Equals(a: MapState, b: MapState): (r: bool)
    ensures r <==> a == b
  {
    a.visibility == b.visibility && a.creep == b.creep
  }
}
