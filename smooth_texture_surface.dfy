/** The stepped cross-fade of one surface (`SurfaceContent` in the smooth
    surface component). A staged texture that differs from the committed one
    starts a transition; once the new layer has loaded, the old layer fades
    out in steps of 0.1, then the new layer fades in in steps of 0.1, and the
    last step commits the staged texture in the store.

    Opacities are counted in tenths (10 is fully opaque). `Phase` records which
    of the two interval timers is running. */
module SmoothTextureSurface {
  import opened Surfaces
  import opened TextureContext

  /** Fully opaque, in tenths. */
  const Full: int := 10

  /** Which interval is running: none, the fade-out one or the fade-in one. */
  datatype Phase = Idle | FadingOut | FadingIn

  datatype FadeState = FadeState(
    isTransitioning: bool,
    oldOpacity: int,
    newOpacity: int,
    showLoading: bool,
    phase: Phase)

  /** The component's initial state. */
  const InitialFade: FadeState := FadeState(false, Full, 0, false, Idle)

  /** Opacities stay in [0, 1]; the new layer stays transparent while the old
      one fades out, and the old one is gone before the new one fades in. */
  predicate FadeInv(f: FadeState)
  {
    && 0 <= f.oldOpacity <= Full
    && 0 <= f.newOpacity <= Full
    && (f.phase == FadingOut ==> f.newOpacity == 0)
    && (f.phase == FadingIn ==> f.oldOpacity == 0)
  }

  /** A staged texture that is truthy and not already committed. */
  predicate StartsTransition(current: string, pending: Option<string>)
  {
    Truthy(pending) && pending.value != current
  }

  /** The transition-start effect, run when the surface's committed or staged
      texture changes. */
  function AfterSync(f: FadeState, current: string, pending: Option<string>): (r: FadeState)
    ensures StartsTransition(current, pending) ==>
      r == f.(isTransitioning := true, showLoading := true)
    ensures !StartsTransition(current, pending) ==> r == f
    ensures FadeInv(f) ==> FadeInv(r)
  {
    if StartsTransition(current, pending) then f.(showLoading := true, isTransitioning := true) else f
  }

  /** `handleNewTextureLoaded`: hide the loading overlay, reset the opacities
      and start the fade-out interval. */
  function AfterLoad(f: FadeState): (r: FadeState)
    ensures FadeInv(r)
    ensures !r.showLoading && r.phase == FadingOut
    ensures r.oldOpacity == Full && r.newOpacity == 0
    ensures r.isTransitioning == f.isTransitioning
  {
    f.(showLoading := false, oldOpacity := Full, newOpacity := 0, phase := FadingOut)
  }

  /** What one interval callback does: the new state, and whether it called
      `clearPendingTexture`. */
  datatype TickResult = TickResult(next: FadeState, commit: bool)

  /** The state after the running interval fires once. Fading out lowers the
      old layer by one tenth and, on reaching 0, switches to fading in; fading
      in raises the new layer by one tenth and, on reaching 1, ends the
      transition and commits. Nothing runs while idle. */
  function AfterTick(f: FadeState): (r: TickResult)
    requires FadeInv(f)
    ensures FadeInv(r.next)
    ensures r.commit <==> f.phase == FadingIn && f.newOpacity + 1 >= Full
    ensures r.commit ==> r.next == f.(isTransitioning := false, oldOpacity := Full, newOpacity := 0, phase := Idle)
    ensures f.phase == Idle ==> r.next == f
    ensures f.phase == FadingOut ==> r.next.newOpacity == 0 && r.next.oldOpacity == Max0(f.oldOpacity - 1)
    ensures f.phase == FadingOut ==> (r.next.phase == FadingIn <==> f.oldOpacity - 1 <= 0)
    ensures f.phase == FadingIn && !r.commit ==> r.next == f.(newOpacity := f.newOpacity + 1)
    ensures r.next.isTransitioning == (f.isTransitioning && !r.commit)
    ensures r.next.showLoading == f.showLoading
  {
    match f.phase
    case Idle => TickResult(f, false)
    case FadingOut =>
      var newValue := f.oldOpacity - 1;
      if newValue <= 0 then TickResult(f.(oldOpacity := 0, phase := FadingIn), false)
      else TickResult(f.(oldOpacity := newValue), false)
    case FadingIn =>
      var newValue := f.newOpacity + 1;
      if newValue >= Full then
        TickResult(f.(isTransitioning := false, oldOpacity := Full, newOpacity := 0, phase := Idle), true)
      else TickResult(f.(newOpacity := newValue), false)
  }

  function Max0(x: int): int { if x < 0 then 0 else x }

  /** The state after `n` interval callbacks, and how many of them committed. */
  function RunTicks(f: FadeState, n: nat): (r: (FadeState, nat))
    requires FadeInv(f)
    ensures FadeInv(r.0)
    decreases n
  {
    if n == 0 then (f, 0)
    else
      var t := AfterTick(f);
      var rest := RunTicks(t.next, n - 1);
      (rest.0, rest.1 + if t.commit then 1 else 0)
  }

  /** Running `a + b` ticks is running `a`, then `b`. */
  lemma {:induction false} RunTicksSplit(f: FadeState, a: nat, b: nat)
    requires FadeInv(f)
    ensures RunTicks(f, a + b).0 == RunTicks(RunTicks(f, a).0, b).0
    ensures RunTicks(f, a + b).1 == RunTicks(f, a).1 + RunTicks(RunTicks(f, a).0, b).1
    decreases a
  {
    if a > 0 {
      RunTicksSplit(AfterTick(f).next, a - 1, b);
      assert a + b - 1 == (a - 1) + b;
    }
  }

  /** An idle surface stays as it is and never commits. */
  lemma {:induction false} IdleStaysIdle(f: FadeState, n: nat)
    requires FadeInv(f) && f.phase == Idle
    ensures RunTicks(f, n) == (f, 0)
    decreases n
  {
    if n > 0 {
      IdleStaysIdle(f, n - 1);
    }
  }

  /** The fade-out leg: while `j` < `oldOpacity` ticks have run the old layer
      is at `oldOpacity - j`; after exactly `oldOpacity` ticks it is 0 and the
      fade-in starts, without a commit. */
  lemma {:induction false} FadeOutLeg(f: FadeState, j: nat)
    requires FadeInv(f) && f.phase == FadingOut && 0 < f.oldOpacity
    requires j <= f.oldOpacity
    ensures j < f.oldOpacity ==> RunTicks(f, j) == (f.(oldOpacity := f.oldOpacity - j), 0)
    ensures j == f.oldOpacity ==> RunTicks(f, j) == (f.(oldOpacity := 0, phase := FadingIn), 0)
    decreases j
  {
    if j > 0 {
      var t := AfterTick(f);
      if f.oldOpacity == 1 {
        assert RunTicks(f, 1) == (t.next, 0);
      } else {
        FadeOutLeg(t.next, j - 1);
      }
    }
  }

  /** The fade-in leg: after `j` < `Full - newOpacity` ticks the new layer is at
      `newOpacity + j`; the tick that brings it to 1 ends the transition,
      resets the opacities and commits exactly once. */
  lemma {:induction false} FadeInLeg(f: FadeState, j: nat)
    requires FadeInv(f) && f.phase == FadingIn && f.newOpacity < Full
    requires j <= Full - f.newOpacity
    ensures j < Full - f.newOpacity ==> RunTicks(f, j) == (f.(newOpacity := f.newOpacity + j), 0)
    ensures j == Full - f.newOpacity ==>
      RunTicks(f, j) == (f.(isTransitioning := false, oldOpacity := Full, newOpacity := 0, phase := Idle), 1)
    decreases j
  {
    if j > 0 {
      var t := AfterTick(f);
      if f.newOpacity == Full - 1 {
        assert RunTicks(f, 1) == (t.next, 1);
      } else {
        FadeInLeg(t.next, j - 1);
      }
    }
  }

  /** A loaded transition takes 20 ticks (10 down, 10 up) and commits exactly
      once: before the 20th tick nothing is committed and the transition is
      still running; from then on the surface is idle with opacities 1/0. */
  lemma FadeCommitsExactlyOnce(f: FadeState, n: nat)
    requires FadeInv(f) && f.phase == FadingOut && f.oldOpacity == Full
    ensures n < 2 * Full ==> RunTicks(f, n).1 == 0 && RunTicks(f, n).0.phase != Idle
    ensures n < 2 * Full ==> RunTicks(f, n).0.isTransitioning == f.isTransitioning
    ensures 2 * Full <= n ==>
      RunTicks(f, n) == (f.(isTransitioning := false, oldOpacity := Full, newOpacity := 0, phase := Idle), 1)
  {
    if n <= Full {
      FadeOutLeg(f, n);
    } else {
      FadeAfterFadeOut(f, n - Full);
    }
  }

  lemma FadeAfterFadeOut(f: FadeState, m: nat)
    requires FadeInv(f) && f.phase == FadingOut && f.oldOpacity == Full
    ensures m < Full ==> RunTicks(f, Full + m).1 == 0 && RunTicks(f, Full + m).0.phase == FadingIn
    ensures m < Full ==> RunTicks(f, Full + m).0.isTransitioning == f.isTransitioning
    ensures Full <= m ==>
      RunTicks(f, Full + m) == (f.(isTransitioning := false, oldOpacity := Full, newOpacity := 0, phase := Idle), 1)
  {
    var mid := f.(oldOpacity := 0, phase := FadingIn);
    FadeOutLeg(f, Full);
    RunTicksSplit(f, Full, m);
    if m < Full {
      FadeInLeg(mid, m);
    } else {
      FadeFromMidway(mid, m);
    }
  }

  /** From anywhere in the fade-in, the fade ends and commits once the
      remaining steps have run, and nothing happens after. */
  lemma FadeFromMidway(mid: FadeState, m: nat)
    requires FadeInv(mid) && mid.phase == FadingIn && mid.newOpacity < Full
    requires Full - mid.newOpacity <= m
    ensures RunTicks(mid, m) == (mid.(isTransitioning := false, oldOpacity := Full, newOpacity := 0, phase := Idle), 1)
  {
    var done := mid.(isTransitioning := false, oldOpacity := Full, newOpacity := 0, phase := Idle);
    var rest := Full - mid.newOpacity;
    FadeInLeg(mid, rest);
    ThenIdle(mid, done, rest, m - rest);
  }

  /** Ticks after the surface has gone idle change nothing. */
  lemma ThenIdle(f: FadeState, done: FadeState, a: nat, k: nat)
    requires FadeInv(f) && FadeInv(done) && done.phase == Idle
    requires RunTicks(f, a) == (done, 1)
    ensures RunTicks(f, a + k) == (done, 1)
  {
    IdleStaysIdle(done, k);
    RunTicksSplit(f, a, k);
  }

  /** The layers drawn: the committed texture as base, and the staged texture
      as overlay while transitioning. */
  datatype Layers = Layers(
    baseTexture: string,
    baseOpacity: int,
    overlay: Option<(string, int)>,
    loadingOverlay: bool)

  function View(f: FadeState, current: string, pending: Option<string>): (v: Layers)
    ensures v.baseTexture == current
    ensures !f.isTransitioning ==> v.baseOpacity == Full && v.overlay.None?
    ensures f.isTransitioning ==> v.baseOpacity == f.oldOpacity
    ensures v.overlay.Some? <==> f.isTransitioning && Truthy(pending)
    ensures v.overlay.Some? ==> v.overlay.value == (pending.value, f.newOpacity)
    ensures v.loadingOverlay == f.showLoading
    ensures FadeInv(f) ==> 0 <= v.baseOpacity <= Full
    ensures FadeInv(f) && v.overlay.Some? ==> 0 <= v.overlay.value.1 <= Full
  {
    Layers(
      current,
      if f.isTransitioning then f.oldOpacity else Full,
      if f.isTransitioning && Truthy(pending) then Some((pending.value, f.newOpacity)) else None,
      f.showLoading)
  }

  /** The surface and the store together over `n` interval callbacks: each
      committing callback calls `clearPendingTexture` on the store. */
  function RunWithStore(t: TextureRecords, f: FadeState, s: Surface, n: nat): (r: (TextureRecords, FadeState))
    requires Total(t) && FadeInv(f)
    ensures Total(r.0) && FadeInv(r.1)
    decreases n
  {
    if n == 0 then (t, f)
    else
      var tick := AfterTick(f);
      var t1 := if tick.commit then AfterClearPendingTexture(t, s) else t;
      RunWithStore(t1, tick.next, s, n - 1)
  }

  /** Committing twice is committing once. */
  lemma ClearTwice(t: TextureRecords, s: Surface)
    requires Total(t)
    ensures AfterClearPendingTexture(AfterClearPendingTexture(t, s), s) == AfterClearPendingTexture(t, s)
  {
  }

  /** The store sees the fade's commits: after `n` callbacks it has been
      committed iff the fade committed at least once. */
  lemma {:induction false} RunWithStoreCommits(t: TextureRecords, f: FadeState, s: Surface, n: nat)
    requires Total(t) && FadeInv(f)
    ensures RunWithStore(t, f, s, n).1 == RunTicks(f, n).0
    ensures RunWithStore(t, f, s, n).0 ==
      if RunTicks(f, n).1 == 0 then t else AfterClearPendingTexture(t, s)
    decreases n
  {
    if n > 0 {
      var tick := AfterTick(f);
      var t1 := if tick.commit then AfterClearPendingTexture(t, s) else t;
      RunWithStoreCommits(t1, tick.next, s, n - 1);
      if tick.commit {
        ClearTwice(t, s);
      }
    }
  }

  /** A full transition, end to end: a request for a new texture starts a
      transition; after the load and 20 interval callbacks the texture is
      committed and nothing is staged. Before the 20th callback the old
      texture is still the committed one. */
  lemma RequestIsCommittedAfterFade(t: TextureRecords, f: FadeState, s: Surface, tex: string, n: nat)
    requires Total(t) && FadeInv(f)
    requires tex != t.current[s] && tex != ""
    ensures
      var t1 := AfterSetTexture(t, s, tex);
      var f1 := AfterLoad(AfterSync(f, t1.current[s], t1.pending[s]));
      var r := RunWithStore(t1, f1, s, n);
      && f1.isTransitioning
      && (n < 2 * Full ==> r.0 == t1 && r.0.current[s] == t.current[s] && r.1.isTransitioning)
      && (2 * Full <= n ==> r.0.current[s] == tex && r.0.pending[s] == None && !r.1.isTransitioning && r.1.phase == Idle)
  {
    var t1 := AfterSetTexture(t, s, tex);
    var f1 := AfterLoad(AfterSync(f, t1.current[s], t1.pending[s]));
    FadeCommitsExactlyOnce(f1, n);
    RunWithStoreCommits(t1, f1, s, n);
  }

  /** One mounted surface: its fade state and the store it reads and commits to. */
  class SurfaceContent {
    const surfaceType: Surface
    const store: TextureProvider
    var isTransitioning: bool
    var oldOpacity: int
    var newOpacity: int
    var showLoading: bool
    var phase: Phase

    ghost predicate Valid()
      reads this, store
    {
      store.Valid() && FadeInv(Fade())
    }

    function Fade(): FadeState
      reads this
    {
      FadeState(isTransitioning, oldOpacity, newOpacity, showLoading, phase)
    }

    constructor (surfaceType: Surface, store: TextureProvider)
      requires store.Valid()
      ensures Valid()
      ensures this.surfaceType == surfaceType && this.store == store
      ensures Fade() == InitialFade
    {
      this.surfaceType := surfaceType;
      this.store := store;
      isTransitioning := false;
      oldOpacity := Full;
      newOpacity := 0;
      showLoading := false;
      phase := Idle;
    }

    /** The transition-start effect over the store's current records. */
    method SyncWithStore()
      requires Valid()
      modifies this
      ensures Valid()
      ensures Fade() == AfterSync(old(Fade()), store.currentTextures[surfaceType], store.pendingTextures[surfaceType])
    {
      var currentTexture := store.currentTextures[surfaceType];
      var pendingTexture := store.pendingTextures[surfaceType];
      if Truthy(pendingTexture) && pendingTexture.value != currentTexture {
        showLoading := true;
        isTransitioning := true;
      }
    }

    method HandleNewTextureLoaded()
      requires Valid()
      modifies this
      ensures Valid()
      ensures Fade() == AfterLoad(old(Fade()))
    {
      showLoading := false;
      oldOpacity := Full;
      newOpacity := 0;
      phase := FadingOut;
    }

    /** One callback of whichever interval is running; the last fade-in step
        commits the staged texture in the store. */
    method IntervalTick()
      requires Valid()
      modifies this, store
      ensures Valid()
      ensures Fade() == AfterTick(old(Fade())).next
      ensures store.Textures() ==
        if AfterTick(old(Fade())).commit then AfterClearPendingTexture(old(store.Textures()), surfaceType)
        else old(store.Textures())
      ensures store.selectedSurface == old(store.selectedSurface)
      ensures store.roomDimensions == old(store.roomDimensions)
    {
      if phase == FadingOut {
        var newValue := oldOpacity - 1;
        if newValue <= 0 {
          oldOpacity := 0;
          phase := FadingIn;
        } else {
          oldOpacity := newValue;
        }
      } else if phase == FadingIn {
        var newValue := newOpacity + 1;
        if newValue >= Full {
          isTransitioning := false;
          oldOpacity := Full;
          newOpacity := 0;
          phase := Idle;
          store.ClearPendingTexture(surfaceType);
        } else {
          newOpacity := newValue;
        }
      }
    }

    function Render(): Layers
      reads this, store
      requires Valid()
    {
      View(Fade(), store.currentTextures[surfaceType], store.pendingTextures[surfaceType])
    }
  }
}
