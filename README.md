# Room viewer core, modelled in Dafny

A model of the logic underneath a React/three.js room viewer. The room has
five paintable surfaces: `wall1`..`wall4` and `floor`. The model covers:

- **The texture store** (`TextureContext`). It holds a committed texture and
  an optional staged texture per surface, plus the selected surface and the
  room dimensions. `setTexture` stages a texture unless it is already
  committed. `clearPendingTexture` commits the staged texture.
- **The stepped cross-fade of a surface** (`SmoothTextureSurface`).
  - A staged texture starts a transition.
  - Once the new layer loads, the old layer fades out in steps of 0.1 and the
    new one fades in in steps of 0.1.
  - The last step commits the texture in the store.
- **The layer rule of the plain textured surface** (`TexturedSurface`). It is
  given a transition record.
- **Two camera controllers.**
  - The first-person look controller (`CameraController`): held keys,
    left-button drag, and yaw/pitch with pitch clamped to [-PI/2, PI/2].
  - The drag-to-orbit controller of the room canvas (`Room3D`): vertical
    angle clamped to [-PI/3, PI/3] and zoom distance clamped to [2, 20]. The
    canvas's Ctrl+Shift display toggles are in the same module.
- **Three visibility heuristics** that decide which surface buttons to offer:
  - the every-third-frame radio manager (`SurfaceRadioManager`);
  - the per-frame screen-space buttons (`SurfaceRadioButtons`);
  - the smoothed floor-visibility hook (`UseFloorVisibility`).
- **The texture panels.**
  - `TextureSelectionPanel`: display names of texture paths, the catalog
    offered, the current-texture marker and the two handlers.
  - `DebugPanel`: the surface table, the catalog choice and the
    texture-change call.

Each component whose source mutates state has two parts:
- An abstract state (a datatype) with pure step functions `After…`. The
  properties are proved about these functions and about folds of them
  (`Replay`, `RunFrames`, `RunTicks`).
- A `class` with the component's fields, whose methods change those fields.
  Each method's postcondition is the step function applied to the old state.

The per-frame `forEach` loops are methods with a `for` loop, proved equal to
the function that assesses every surface.

Inputs the model does not compute:
- The camera's world direction and position.
- The camera's projection to device coordinates (`project`).
- `Math.pow(x, 1.5)` (`pow`). It is constrained only by `Surfaces.PowFacts`:
  0 maps to 0, 1 maps to 1, and it is monotone from [0,1] into [0,1].
- The orbit placement formula (`orbit`).

All of these are parameters. Opacities of the stepped fade are integer tenths
(`SmoothTextureSurface.Full` = 10).

## Model

| member | source | states |
|---|---|---|
| Surfaces.EverySurfaceListed | src/contexts/TextureContext.tsx:6 | The surface set is exactly wall1..wall4 and floor; the walls are the four non-floor surfaces |
| Surfaces.Label | src/components/SurfaceRadioManager.tsx:120-129 | A surface's label ends in "Wall" exactly when the surface is a wall |
| Surfaces.LabelsDistinct | src/components/SurfaceRadioManager.tsx:120-129 | Different surfaces have different labels |
| Surfaces.Normal | src/components/SurfaceRadioManager.tsx:57-84 | Every surface normal is a unit axis vector; it points up exactly for the floor and is horizontal exactly for the walls |
| Surfaces.Facing | src/components/SurfaceRadioManager.tsx:98 | For a unit camera direction the facing dot product lies in [-1, 1] |
| Surfaces.Clamp | src/components/CameraController.tsx:56 | The `max(lo, min(hi, x))` clamp lands in [lo, hi], keeps values already inside and maps values below or above to the nearer bound |
| Surfaces.Lerp | src/hooks/useFloorVisibility.ts:41-45 | For a factor in [0, 1] linear interpolation lies between its two ends; factor 0 gives the start, factor 1 the end |
| TextureContext.InitialTextures | src/contexts/TextureContext.tsx:59-73 | Initially nothing is staged, every wall shows wall1.png and the floor shows floor2.jpg |
| TextureContext.AfterSetPendingTexture | src/contexts/TextureContext.tsx:83-88 | Staging sets only this surface's staged entry; committed textures and other surfaces are unchanged |
| TextureContext.AfterSetTexture | src/contexts/TextureContext.tsx:75-81 | Requesting the committed texture changes nothing; any other texture is staged for this surface only, committed textures untouched |
| TextureContext.AfterClearPendingTexture | src/contexts/TextureContext.tsx:90-105 | A non-empty staged texture becomes committed and the staged entry empties; with nothing staged nothing changes; other surfaces are unchanged |
| TextureContext.OtherSurfacesUnaffected | src/contexts/TextureContext.tsx:75-105 | Any sequence of store operations on other surfaces leaves this surface's committed and staged entries as they were |
| TextureContext.LastRequestWins | src/contexts/TextureContext.tsx:75-88 | Over a run of requests for one surface, nothing is committed and other surfaces are untouched; the last differing request is the one staged; all-equal requests stage nothing |
| TextureContext.Supersede | src/contexts/TextureContext.tsx:75-105 | Requesting A then B and committing commits B, never A, and leaves nothing staged |
| TextureContext.TextureProvider.constructor | src/contexts/TextureContext.tsx:51-73 | The provider starts with the initial textures, no selection and a 15 x 8 x 15 room |
| TextureContext.TextureProvider.SetSelectedSurface | src/contexts/TextureContext.tsx:52 | Replaces the selection and nothing else |
| TextureContext.TextureProvider.SetRoomDimensions | src/contexts/TextureContext.tsx:53-57 | Replaces the dimensions and nothing else |
| TextureContext.TextureProvider.SetPendingTexture | src/contexts/TextureContext.tsx:83-88 | Updates the texture maps as `AfterSetPendingTexture`, nothing else |
| TextureContext.TextureProvider.SetTexture | src/contexts/TextureContext.tsx:75-81 | Updates the texture maps as `AfterSetTexture`, nothing else |
| TextureContext.TextureProvider.ClearPendingTexture | src/contexts/TextureContext.tsx:90-105 | Updates the texture maps as `AfterClearPendingTexture`, nothing else |
| SmoothTextureSurface.AfterSync | src/components/SmoothTextureSurface.tsx:94-99 | A non-empty staged texture that differs from the committed one raises the transition and loading flags; otherwise the state is unchanged; opacity bounds are kept |
| SmoothTextureSurface.AfterLoad | src/components/SmoothTextureSurface.tsx:101-109 | The load hides the loading overlay, resets opacities to old 1 / new 0 and starts the fade-out, in place of any fade already running (see Left out) |
| SmoothTextureSurface.AfterTick | src/components/SmoothTextureSurface.tsx:109-136 | One timer step: fade-out lowers the old layer by 0.1, switching to fade-in at 0 with the new layer still 0; fade-in raises the new layer by 0.1; it commits exactly when the new layer reaches 1, which ends the transition and resets the opacities; both opacities stay in [0, 1] |
| SmoothTextureSurface.RunTicks | src/components/SmoothTextureSurface.tsx:109-136 | Any number of timer steps keeps both opacities in [0, 1] and the phases apart |
| SmoothTextureSurface.IdleStaysIdle | src/components/SmoothTextureSurface.tsx:109-136 | With no timer running, steps change nothing and never commit |
| SmoothTextureSurface.FadeOutLeg | src/components/SmoothTextureSurface.tsx:109-134 | The old layer drops by one tenth per step and, when it reaches 0, the fade-in starts without a commit |
| SmoothTextureSurface.FadeInLeg | src/components/SmoothTextureSurface.tsx:116-129 | The new layer rises by one tenth per step; the step that reaches 1 ends the transition and commits exactly once |
| SmoothTextureSurface.FadeFromMidway | src/components/SmoothTextureSurface.tsx:116-129 | From any point of the fade-in, enough steps end the transition with exactly one commit |
| SmoothTextureSurface.FadeCommitsExactlyOnce | src/components/SmoothTextureSurface.tsx:109-136 | A loaded transition commits nothing and keeps running for 19 steps; from step 20 on it is idle with exactly one commit |
| SmoothTextureSurface.View | src/components/SmoothTextureSurface.tsx:143-169 | The committed texture is the base layer, opaque unless transitioning (then at the old opacity); the staged texture is overlaid iff transitioning and staged, at the new opacity; the loading overlay follows its flag |
| SmoothTextureSurface.RunWithStoreCommits | src/components/SmoothTextureSurface.tsx:116-125 | Run together with the store, the store is committed iff the fade committed, and committing twice equals committing once |
| SmoothTextureSurface.RequestIsCommittedAfterFade | src/components/SmoothTextureSurface.tsx:94-136 | End to end: a new texture request starts a transition; the old texture stays committed for 19 steps after the load; after 20 steps the new texture is committed, nothing is staged and the surface is idle |
| SmoothTextureSurface.SurfaceContent.constructor | src/components/SmoothTextureSurface.tsx:85-88 | The surface starts idle, opaque, with no overlay and no loading indicator |
| SmoothTextureSurface.SurfaceContent.SyncWithStore | src/components/SmoothTextureSurface.tsx:94-99 | Applies `AfterSync` to the fields, reading the store |
| SmoothTextureSurface.SurfaceContent.HandleNewTextureLoaded | src/components/SmoothTextureSurface.tsx:101-109 | Hides the overlay, resets the opacities and starts one fade-out timer, in place of any fade already running (see Left out) |
| SmoothTextureSurface.SurfaceContent.IntervalTick | src/components/SmoothTextureSurface.tsx:109-136 | Applies `AfterTick` to the fields and, on a commit, calls the store's `clearPendingTexture` for its surface and changes nothing else there |
| TexturedSurface.SurfaceLayers | src/components/TexturedSurface.tsx:66-102 | Base opacity is 1 without a record and 1 - progress with one; the overlay shows the new texture at `progress` iff a record is transitioning, and then the two opacities sum to 1; the loading indicator shows iff progress is 0 |
| TexturedSurface.StaleRecordDimsWithoutOverlay | src/components/TexturedSurface.tsx:70-85 | A record that is not transitioning still dims the base layer but draws no overlay |
| CameraController.InitialPitchInRange | src/components/CameraController.tsx:18-19 | Yaw and pitch start at 0, inside the pitch range |
| CameraController.AfterKeyDown | src/components/CameraController.tsx:25-27 | Key down adds the key code to the held set and changes nothing else |
| CameraController.AfterKeyUp | src/components/CameraController.tsx:29-31 | Key up removes the key code from the held set and changes nothing else |
| CameraController.AfterMouseDown | src/components/CameraController.tsx:33-40 | Only the left button starts a drag and records the cursor; other buttons change nothing |
| CameraController.AfterMouseUp | src/components/CameraController.tsx:42-47 | Only the left button ends a drag; other buttons change nothing |
| CameraController.AfterMouseMove | src/components/CameraController.tsx:49-61 | Without a drag nothing changes; a drag turns yaw and pitch by 0.002 per pixel of cursor delta, clamps pitch to [-PI/2, PI/2] and records the cursor |
| CameraController.AfterFrame | src/components/CameraController.tsx:88-107 | Left/right arrows turn yaw by 0.02 unclamped; up raises pitch by 0.02 up to PI/2, down lowers it by 0.02 down to -PI/2, both held apply up then down, neither leaves it; the pitch range is preserved |
| CameraController.PitchAlwaysInRange | src/components/CameraController.tsx:49-103 | Pitch stays in [-PI/2, PI/2] over any sequence of key, mouse, wheel and frame events |
| CameraController.HeldLeftTurnsWithoutBound | src/components/CameraController.tsx:92-94 | Holding only ArrowLeft for n frames turns yaw by exactly n x 0.02, however large |
| CameraController.LookController.constructor | src/components/CameraController.tsx:10-19 | The controller starts with no keys held, no drag and zero yaw and pitch |
| CameraController.LookController.HandleKeyDown | src/components/CameraController.tsx:25-27 | Applies `AfterKeyDown` to the controller's refs |
| CameraController.LookController.HandleKeyUp | src/components/CameraController.tsx:29-31 | Applies `AfterKeyUp` to the controller's refs |
| CameraController.LookController.HandleMouseDown | src/components/CameraController.tsx:33-40 | Applies `AfterMouseDown` to the controller's refs |
| CameraController.LookController.HandleMouseUp | src/components/CameraController.tsx:42-47 | Applies `AfterMouseUp` to the controller's refs |
| CameraController.LookController.HandleMouseMove | src/components/CameraController.tsx:49-61 | Applies `AfterMouseMove` to the controller's refs |
| CameraController.LookController.OnFrame | src/components/CameraController.tsx:88-107 | Applies `AfterFrame` to the controller's refs |
| Room3D.InitialOrbit | src/components/Room3D.tsx:21-29 | The orbit controller starts without a drag, with zero angles, at the given camera placement |
| Room3D.AfterMouseDown | src/components/Room3D.tsx:31-37 | Only the left button starts a drag and records the cursor |
| Room3D.AfterMouseMove | src/components/Room3D.tsx:39-64 | Without a drag nothing changes; a drag turns both angles by 0.003 per pixel, clamps the vertical angle to [-PI/3, PI/3], places the camera by the orbit formula and records the cursor |
| Room3D.AfterMouseUp | src/components/Room3D.tsx:66-69 | Mouse up (or leaving the canvas) ends any drag and changes nothing else |
| Room3D.AfterWheel | src/components/Room3D.tsx:71-78 | The wheel sets the camera distance to clamp(distance + deltaY x 0.001, 2, 20), keeping the direction; the distance is in [2, 20] |
| Room3D.RotationAlwaysInRange | src/components/Room3D.tsx:39-64 | The vertical angle stays in [-PI/3, PI/3] over any event sequence |
| Room3D.NoPressNoTurn | src/components/Room3D.tsx:31-78 | Without a left-button press, no event sequence turns the camera or changes its direction |
| Room3D.AfterKeyDown | src/components/Room3D.tsx:114-168 | Ctrl+Shift+S, F, Z and C each flip exactly their own flag; any other key or modifier combination changes nothing |
| Room3D.ShortcutTwiceRestores | src/components/Room3D.tsx:114-168 | Pressing the same key combination twice restores every flag |
| Room3D.OrbitControlsEnabled | src/components/Room3D.tsx:238 | The orbit controls respond iff the playground allows it and the orbit is not frozen |
| Room3D.OrbitCameraController.constructor | src/components/Room3D.tsx:20-29 | Starts in `InitialOrbit` at the given placement |
| Room3D.OrbitCameraController.HandleMouseDown | src/components/Room3D.tsx:31-37 | Applies `AfterMouseDown` to the controller's refs |
| Room3D.OrbitCameraController.HandleMouseMove | src/components/Room3D.tsx:39-64 | Applies `AfterMouseMove` to the controller's refs and camera |
| Room3D.OrbitCameraController.HandleMouseUp | src/components/Room3D.tsx:66-69 | Applies `AfterMouseUp` to the controller's refs |
| Room3D.OrbitCameraController.HandleWheel | src/components/Room3D.tsx:71-78 | Applies `AfterWheel` to the camera placement |
| Room3D.CanvasContent.constructor | src/components/Room3D.tsx:103-108 | All flags start true except the orbit freeze and custom controls |
| Room3D.CanvasContent.HandleKeyDown | src/components/Room3D.tsx:114-168 | Applies `AfterKeyDown` to the flags |
| Room3D.CanvasContent.SetOrbitEnabled | src/components/Room3D.tsx:106 | Sets the orbit-enabled flag and nothing else |
| SurfaceRadioManager.Anchor | src/components/SurfaceRadioManager.tsx:57-84 | Wall anchors sit at 0.3 of the half height, 0.01 inside their wall plane; the floor anchor is 0.5 above the floor |
| SurfaceRadioManager.FloorScoreBounds | src/components/SurfaceRadioManager.tsx:48-49 | The floor score is in [0, 1], is 0 when not looking down and 1 when looking straight down |
| SurfaceRadioManager.FloorScoreMonotone | src/components/SurfaceRadioManager.tsx:48-49 | Looking further down never lowers the floor score |
| SurfaceRadioManager.Assess | src/components/SurfaceRadioManager.tsx:88-114 | The floor's score is the floor score and it is visible iff that exceeds 0.25; a wall's score is max(0, -dot), and it is visible iff dot < -0.3 and its anchor is in front of the camera |
| SurfaceRadioManager.AssessAll | src/components/SurfaceRadioManager.tsx:86-115 | Every surface has an entry, and it is that surface's assessment |
| SurfaceRadioManager.ComputeVisibleSurfaces | src/components/SurfaceRadioManager.tsx:86-117 | The `forEach` over the five surfaces produces exactly `AssessAll`, whatever the previous map |
| SurfaceRadioManager.OppositeWallsExclusive | src/components/SurfaceRadioManager.tsx:98-100 | Opposite walls are never visible together |
| SurfaceRadioManager.MostVisibleInNone | src/components/SurfaceRadioManager.tsx:140-144 | No wall is chosen iff none of the listed walls is visible |
| SurfaceRadioManager.MostVisibleInIsMaximal | src/components/SurfaceRadioManager.tsx:140-144 | The chosen wall has the highest score of all visible listed walls |
| SurfaceRadioManager.MostVisibleInIsFirst | src/components/SurfaceRadioManager.tsx:140-144 | On a tie, the earliest listed wall wins, as the stable descending sort keeps it first |
| SurfaceRadioManager.MostVisibleWall | src/components/SurfaceRadioManager.tsx:139-144 | The shown wall is a visible wall with the highest score among visible walls; none is shown iff no wall is visible |
| SurfaceRadioManager.FacingFrontWall | src/components/SurfaceRadioManager.tsx:86-144 | Looking along -z from any point in front of the front wall's anchor, the front wall is the one offered |
| SurfaceRadioManager.UnfacedWallHidden | src/components/SurfaceRadioManager.tsx:98-111 | A wall whose facing dot is not below -0.3 is never visible |
| SurfaceRadioManager.LookingAlongMinusZ | src/components/SurfaceRadioManager.tsx:104-108 | Looking along -z, a point is in front of the camera iff it lies further along -z |
| SurfaceRadioManager.FloorButtonFollowsPitch | src/components/SurfaceRadioManager.tsx:48-50 | Looking straight down shows the floor; looking level or up never does |
| SurfaceRadioManager.ToggleSelection | src/components/SurfaceRadioManager.tsx:131-137 | A click selects the surface iff it was not selected, and clears the selection iff it was |
| SurfaceRadioManager.ToggleTwice | src/components/SurfaceRadioManager.tsx:131-137 | Two clicks on the same button restore the selection |
| SurfaceRadioManager.InitialManager | src/components/SurfaceRadioManager.tsx:20-32 | The manager starts at frame 0 with the floor hidden, score 0 and every surface hidden |
| SurfaceRadioManager.AfterFrame | src/components/SurfaceRadioManager.tsx:34-118 | Every frame advances the counter; only when it reaches a multiple of 3 are the floor flag, floor score and all surface entries recomputed; other frames change nothing else |
| SurfaceRadioManager.SettledStays | src/components/SurfaceRadioManager.tsx:34-118 | Once the state reflects a view, further frames with that view keep it reflected |
| SurfaceRadioManager.SteadyViewSettles | src/components/SurfaceRadioManager.tsx:34-37 | After at least three frames with a steady view the state reflects that view, whatever the counter was |
| SurfaceRadioManager.FramesWithoutRefresh | src/components/SurfaceRadioManager.tsx:36-37 | Until the counter reaches the next multiple of 3, frames only count |
| SurfaceRadioManager.Render | src/components/SurfaceRadioManager.tsx:147-192 | The floor button shows iff the floor is visible, independently of the wall button, which is the most visible wall |
| SurfaceRadioManager.RadioManager.constructor | src/components/SurfaceRadioManager.tsx:16-32 | Starts in `InitialManager`, bound to the store |
| SurfaceRadioManager.RadioManager.OnFrame | src/components/SurfaceRadioManager.tsx:34-118 | Applies `AfterFrame` with the store's room dimensions |
| SurfaceRadioManager.RadioManager.HandleRadioChange | src/components/SurfaceRadioManager.tsx:131-137 | Sets the store's selection by `ToggleSelection`; textures and dimensions are unchanged |
| UseFloorVisibility.ResolveOptions | src/hooks/useFloorVisibility.ts:16-20 | Each omitted option takes its default: threshold 0.25, every 3 frames, smoothing 0.1 |
| UseFloorVisibility.RawVisibilityInUnit | src/hooks/useFloorVisibility.ts:37-38 | The raw rating of a unit direction is in [0, 1] |
| UseFloorVisibility.RawLookingDown | src/hooks/useFloorVisibility.ts:61 | The returned downward amount is positive iff the camera points below the horizon |
| UseFloorVisibility.AfterFrame | src/hooks/useFloorVisibility.ts:27-56 | Every frame counts; only a frame whose count is a multiple of the frequency moves the smoothed rating towards the raw rating (staying between them), sets the amount to it and raises the flag iff it exceeds the threshold |
| UseFloorVisibility.SmoothedStaysInUnit | src/hooks/useFloorVisibility.ts:41-45 | With smoothing in [0, 1], the smoothed rating and the amount stay in [0, 1] over any camera motion |
| UseFloorVisibility.ZeroFrequencyFreezes | src/hooks/useFloorVisibility.ts:29-30 | With frequency 0 (the remainder is NaN) only the counter ever changes |
| UseFloorVisibility.GapShrinksGeometrically | src/hooks/useFloorVisibility.ts:41-45 | Under a steady view each refresh multiplies the gap to the raw rating by 1 - smoothing |
| UseFloorVisibility.RefreshShrinksGap | src/hooks/useFloorVisibility.ts:29-45 | A refreshing frame of the hook multiplies the gap between its smoothed rating and the current raw rating by 1 - smoothing |
| UseFloorVisibility.GapAfterRefreshes | src/hooks/useFloorVisibility.ts:41-45 | After n refreshes with the same raw rating the gap is (1 - smoothing)^n times the first one |
| UseFloorVisibility.RefreshCount | src/hooks/useFloorVisibility.ts:28-30 | Of n frames at most n refresh; with frequency 1 all do, with frequency 0 none do |
| UseFloorVisibility.SteadyViewSmoothsRepeatedly | src/hooks/useFloorVisibility.ts:27-45 | With the camera held still, the hook's smoothed rating after n frames is the raw rating smoothed once per refreshing frame |
| UseFloorVisibility.StraightDownShowsFloorOnThirdRefresh | src/hooks/useFloorVisibility.ts:27-55 | With default options and the camera straight down, the flag is still down after 8 frames and up after 9 |
| UseFloorVisibility.FloorVisibilityHook.constructor | src/hooks/useFloorVisibility.ts:14-25 | Starts at frame 0 with smoothed rating 0, amount 0 and the floor hidden |
| UseFloorVisibility.FloorVisibilityHook.OnFrame | src/hooks/useFloorVisibility.ts:27-56 | Applies `AfterFrame` to the hook's state and refs |
| SurfaceRadioButtons.Anchor | src/components/SurfaceRadioButtons.tsx:95-121 | Wall anchors sit on their wall plane at 0.3 of the half height; the floor anchor is 0.1 above the floor |
| SurfaceRadioButtons.ScreenX | src/components/SurfaceRadioButtons.tsx:134 | Device x in [-1, 1] maps into [0, width], -1 to the left edge, 0 to the centre, 1 to the right edge |
| SurfaceRadioButtons.ScreenY | src/components/SurfaceRadioButtons.tsx:135 | Device y in [-1, 1] maps into [0, height] flipped: 1 to the top, -1 to the bottom; it is the x mapping of -y |
| SurfaceRadioButtons.Assess | src/components/SurfaceRadioButtons.tsx:125-140 | A surface, the floor included, is visible iff dot < -0.3 and its projected anchor is nearer than the far plane; its screen position is the mapped projection, on screen when the projection is in range |
| SurfaceRadioButtons.AssessAll | src/components/SurfaceRadioButtons.tsx:123-141 | Every surface has an entry, and it is that surface's assessment |
| SurfaceRadioButtons.ComputeVisibleSurfaces | src/components/SurfaceRadioButtons.tsx:123-143 | The per-frame `forEach` produces exactly `AssessAll`, whatever the previous map |
| SurfaceRadioButtons.Shown | src/components/SurfaceRadioButtons.tsx:148-155 | A surface gets a button iff its entry is visible |
| SurfaceRadioButtons.AtMostThreeButtons | src/components/SurfaceRadioButtons.tsx:125-155 | Never more than three buttons are drawn at once |
| SurfaceRadioButtons.FloorButtonRule | src/components/SurfaceRadioButtons.tsx:116-138 | The floor's button is drawn iff the camera's y is below -0.3 and the floor anchor projects before the far plane |
| SurfaceRadioButtons.ClickSelection | src/components/SurfaceRadioButtons.tsx:20-22 | A click selects its surface, whatever was selected |
| SurfaceRadioButtons.SecondClickKeepsSelection | src/components/SurfaceRadioButtons.tsx:20-22 | A second click keeps the surface selected (set, not toggle) |
| SurfaceRadioButtons.Caption | src/components/SurfaceRadioButtons.tsx:60-62 | The caption reads "Change Floor" exactly for the floor and "Change Wall" exactly for walls |
| SurfaceRadioButtons.RadioButtons.constructor | src/components/SurfaceRadioButtons.tsx:74-82 | Every surface starts hidden at the origin |
| SurfaceRadioButtons.RadioButtons.OnFrame | src/components/SurfaceRadioButtons.tsx:86-144 | Every frame replaces all entries with `AssessAll` for the store's dimensions |
| SurfaceRadioButtons.RadioButtons.HandleRadioChange | src/components/SurfaceRadioButtons.tsx:20-22 | Sets the store's selection by `ClickSelection`; textures and dimensions are unchanged |
| TextureSelectionPanel.LastSegment | src/components/TextureSelectionPanel.tsx:33 | The result is the longest suffix without '/', the whole string when it has none |
| TextureSelectionPanel.BeforeFirstDot | src/components/TextureSelectionPanel.tsx:34 | The result is the longest prefix without '.', the whole string when it has none |
| TextureSelectionPanel.DashesToSpaces | src/components/TextureSelectionPanel.tsx:34 | Same length; every '-' becomes a space and every other character is kept |
| TextureSelectionPanel.DashesReplaced | src/components/TextureSelectionPanel.tsx:34 | No dash survives, and a string without dashes is unchanged |
| TextureSelectionPanel.Upper | src/components/TextureSelectionPanel.tsx:34 | Lower-case ASCII letters become upper-case; every other character is unchanged; word characters stay word characters |
| TextureSelectionPanel.Capitalize | src/components/TextureSelectionPanel.tsx:34 | Same length; a character is upper-cased iff it starts a word (a word character at index 0 or after a non-word character); non-word characters are kept |
| TextureSelectionPanel.CapitalizeIdempotent | src/components/TextureSelectionPanel.tsx:34 | Capitalising twice equals capitalising once |
| TextureSelectionPanel.TextureName | src/components/TextureSelectionPanel.tsx:32-35 | A display name contains no '/', '.' or '-', and is exactly as long as the file's base name |
| TextureSelectionPanel.TextureNameIdempotent | src/components/TextureSelectionPanel.tsx:32-35 | The display name of a display name is itself |
| TextureSelectionPanel.WoodPanelName | src/components/TextureSelectionPanel.tsx:32-35 | "/textures/walls/wood-panel2.jpg" is shown as "Wood Panel2" |
| TextureSelectionPanel.AvailableTextures | src/components/TextureSelectionPanel.tsx:17-18 | The floor gets the floor catalog, every wall the wall catalog |
| TextureSelectionPanel.View | src/components/TextureSelectionPanel.tsx:15-134 | No panel without a selection; otherwise the surface's label, kind, committed texture and its name, and the surface's catalog in order, each entry named and marked iff it is the committed texture |
| TextureSelectionPanel.Items | src/components/TextureSelectionPanel.tsx:102-134 | One entry per catalog texture, in order, named by `TextureName`, marked iff equal to the committed texture |
| TextureSelectionPanel.CatalogsDistinct | src/contexts/TextureContext.tsx:31-45 | Neither catalog lists a texture twice |
| TextureSelectionPanel.CurrentMarkedOnce | src/components/TextureSelectionPanel.tsx:108-134 | In a catalog without duplicates, a committed texture from the catalog is marked on exactly one entry, and any other texture on none |
| TextureSelectionPanel.SelectionPanel.HandleTextureSelect | src/components/TextureSelectionPanel.tsx:37-39 | Requests the texture for the selected surface, through `setTexture` |
| TextureSelectionPanel.SelectionPanel.HandleClose | src/components/TextureSelectionPanel.tsx:41-43 | Clears the selection, which hides the panel; textures are unchanged |
| DebugPanel.Find | src/components/DebugPanel.tsx:55 | No row is found iff no row has the id; a found row has the id and no earlier row has it |
| DebugPanel.FindInTable | src/components/DebugPanel.tsx:34-40 | Each wall id finds a wall-typed row, "floor" finds the floor row, and every other id finds nothing |
| DebugPanel.TextureOptions | src/components/DebugPanel.tsx:52-57 | No selection gives no options; a wall id gives the wall catalog; every other id, unknown ones included, gives the floor catalog |
| DebugPanel.TextureSelectCall | src/components/DebugPanel.tsx:46-50 | The texture-change callback is called iff a surface is selected, with that surface and the image path |
| DebugPanel.ToggleCaption | src/components/DebugPanel.tsx:66 | The toggle reads "Hide Panel" iff the panel is open and "Debug Panel" iff it is closed |
| DebugPanel.CatalogPerSurface | src/components/DebugPanel.tsx:13-57 | Each catalog has six entries; every wall id gets the wall catalog, "floor" the floor catalog, and no selection nothing |
| DebugPanel.CatalogsDisjoint | src/components/DebugPanel.tsx:13-29 | No image is offered both for walls and for the floor |
| DebugPanel.DebugPanelState.constructor | src/components/DebugPanel.tsx:32 | No surface is selected at first |
| DebugPanel.DebugPanelState.HandleSurfaceChange | src/components/DebugPanel.tsx:42-44 | Replaces the selected id |
| DebugPanel.DebugPanelState.HandleTextureSelect | src/components/DebugPanel.tsx:46-50 | Makes the callback call `TextureSelectCall` describes for the current selection, and changes nothing |
| DebugPanel.DebugPanelState.Options | src/components/DebugPanel.tsx:52-57 | The options shown are `TextureOptions` of the current selection |

## Left out

- Floating point: opacities of the stepped fade are exact tenths, so each fade leg takes 10 timer steps. In IEEE doubles, subtracting 0.1 ten times from 1 leaves about 1.4e-16 (still above 0), and adding 0.1 ten times to 0 gives 0.9999999999999999 (still below 1). The source therefore takes 11 steps per leg. Other reals (angles, scores, distances) are exact reals too.
- SmoothTextureSurface.FadeCommitsExactlyOnce: states 20 steps, which holds for exact tenths; in double arithmetic the source takes 22 (see the line above).
- Timers and React scheduling: each interval callback, effect and event handler is one atomic step. `setInterval` timing, render batching and effect lifetimes are not modelled.
- Stale closures: `clearPendingTexture` (src/contexts/TextureContext.tsx:91) and the radio manager's spread of `visibleSurfaces` (src/components/SurfaceRadioManager.tsx:86) read the latest state in the model, not a render-time snapshot.
- Counters are unbounded integers; JavaScript numbers lose precision after 2^53 frames.
- Trigonometry: the orbit placement (src/components/Room3D.tsx:56-59) is the parameter `orbit`; `Math.pow(x, 1.5)` is the parameter `pow` with only the facts in `PowFacts`.
- PI is the double nearest to it; no property depends on its value beyond sign.
- three.js and drei calls are not modelled: the camera direction, camera position and projected device coordinates are inputs; `lookAt`, `rotation.set`, `camera.position.set`, the `Html` placement and `OrbitControls` behaviour (damping, polar limits, speeds) are left out. Only the `enabled` rule of the orbit controls is modelled.
- Room3D.AfterWheel: the camera is kept as direction and distance; the source's special case of a camera exactly at the target (normalising the zero vector) is not represented. The orbit formula keeps the camera at least 4 units from the vertical axis, so that position does not occur.
- SmoothTextureSurface.AfterLoad: a load while a fade is running starts a second interval in the source (src/components/SmoothTextureSurface.tsx:101-109 never clears the first), and the intervals then both step the shared opacities, so the transition can end early and `clearPendingTexture` is called twice; the model keeps a single fade phase and the new load replaces the running one.
- HandleNewTextureLoaded: inherits the gap of `AfterLoad`; the overlapping intervals a load during a fade starts are not modelled.
- UseFloorVisibility.Options: `updateFrequency` is an integer; a fractional JavaScript frequency (2.5 refreshes on every fifth frame, where the remainder is 0) is not modelled.
- Image loading, Suspense fallbacks and `onError` image substitution are asset I/O; the texture layer's `onLoad` is the event `HandleNewTextureLoaded`.
- DebugPanel.ImagePath: a lookup of the catalog's file paths and inline SVG images, with no contract of its own.
- Markup and styling: class names, cursor styles, loading text, the selected-state highlight of buttons, the sidebar, the playground, object controls and the room and mesh contexts that `Room3D.tsx` imports. Those modules are not part of this model.
- TexturedSurface reads a `getTransition` that the texture store does not declare; the transition record is therefore an input of `SurfaceLayers`.
- Behaviour of the code worth noting:
  - The fade is stepped by timer callbacks, not a progress derived from elapsed time.
  - Surface ids are a fixed enumeration, so no request names an unknown surface.
  - The debug panel gives the floor catalog to any non-empty id it does not know.
  - The radio manager's floor anchor is half a unit above the floor.
  - The screen-space buttons show every visible surface at once, the floor included by the same facing rule.
