/** The cross-fade rule of the plain textured surface (`SurfaceContent` in
    the textured surface component): given the committed texture and a
    transition record (`progress` in [0, 1]), which layers are drawn and at
    what opacity. The record is an input here. */
module TexturedSurface {
  import opened Surfaces

  /** The transition record the component reads for its surface. */
  datatype Transition = Transition(isTransitioning: bool, progress: real, newTexture: string)

  datatype Overlay = Overlay(texture: string, opacity: real)

  datatype Layers = Layers(
    baseTexture: string,
    baseOpacity: real,
    overlay: Option<Overlay>,
    loadingIndicator: bool)

  /** The layers drawn for committed texture `current` and record `tr`. */
  function SurfaceLayers(current: string, tr: Option<Transition>): (v: Layers)
    ensures v.baseTexture == current
    ensures tr.None? ==> v.baseOpacity == 1.0 && v.overlay.None? && !v.loadingIndicator
    ensures tr.Some? ==> v.baseOpacity == 1.0 - tr.value.progress
    ensures v.overlay.Some? <==> tr.Some? && tr.value.isTransitioning
    ensures v.overlay.Some? ==> v.overlay.value == Overlay(tr.value.newTexture, tr.value.progress)
    ensures v.overlay.Some? ==> v.baseOpacity + v.overlay.value.opacity == 1.0
    ensures v.loadingIndicator <==> tr.Some? && tr.value.progress == 0.0
    ensures tr.Some? && 0.0 <= tr.value.progress <= 1.0 ==>
      0.0 <= v.baseOpacity <= 1.0 && (v.overlay.Some? ==> 0.0 <= v.overlay.value.opacity <= 1.0)
  {
    Layers(
      current,
      if tr.Some? then 1.0 - tr.value.progress else 1.0,
      if tr.Some? && tr.value.isTransitioning then Some(Overlay(tr.value.newTexture, tr.value.progress)) else None,
      tr.Some? && tr.value.progress == 0.0)
  }

  /** A record that is not transitioning still dims the base layer but draws
      no overlay, so the two opacities need not sum to 1. */
  lemma StaleRecordDimsWithoutOverlay(current: string, tr: Transition)
    requires !tr.isTransitioning && 0.0 < tr.progress
    ensures SurfaceLayers(current, Some(tr)).overlay.None?
    ensures SurfaceLayers(current, Some(tr)).baseOpacity < 1.0
  {
  }
}
