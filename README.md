# SecretAgents frame simulation in Dafny

This project models the discrete per-frame simulation underneath the two 3D
scenes of SecretAgents. It leaves out the rendering and proves properties of
what remains:

- the keyboard and mouse sampler of the game scene;
- the avatar step (yaw, intent, normalised move, ground pin, publish);
- the camera rig (mode toggle, per-mode offset, easing toward the desired position);
- the proximity markers (near/within edge detection, the hint, and the global "e" flag that a marker consumes to navigate);
- the two zustand stores;
- the player, rig and beacons of the second scene (`components/rpg/Scene.tsx`);
- the quote lists, with the random pick, the by-category pick, the per-destination quote and the no-repeat rotation.

One Dafny module covers each source file:

- `Input`: useInput.ts.
- `Player`: Player.tsx.
- `CameraRig`: CameraRig.tsx.
- `NavMarker`: NavMarker.tsx and the marker list of GameCanvas.tsx.
- `GameStore` and `RpgStore`: the two store.ts files.
- `RpgScene`: rpg/Scene.tsx.
- `Quotes` and `RpgQuotes`: the two quotes.ts files.
- `Common` and `Geometry`: the shared vocabulary.
- `Scenario`: an end-to-end walk from the mount point to the Main marker.

Mutable objects are classes whose methods are proved against functions on values:

- `Input.InputState`;
- `Player.Avatar`;
- `CameraRig.Rig`;
- `NavMarker.Marker` and `NavMarker.EKeyFlag`;
- the stores;
- `RpgScene.RpgPlayer` and `RpgScene.RpgBeacon`;
- `Quotes.QuoteRotation`.

Conventions:

- Coordinates are `real`.
- `Math.hypot(dx, dz) < 1.6` is compared on squares: `dx*dx + dz*dz < 2.56`.
- The easing factor `1 - Math.pow(0.001, dt)` is a parameter `alpha` in [0, 1].
- The yaw rotation is a `Rotation(cos, sin)` with `cos² + sin² = 1`. It is applied to (x, z) and preserves length.
- `normalize` of a diagonal intent multiplies by a parameter `k` with `k > 0` and `k * k = 0.5`, that is 1/√2.
- Each `Math.random()` value is a parameter `r` with `0 <= r < 1`. The index is `Math.floor(r * length)`.
- `router.push(href)` is an emitted `Some(href)`.
- The "toggle-camera" event is a returned flag.
- `null` is `None`.

Some behaviours are proved that the code has without evidently intending them:

- With the scene's marker positions, no point is near two markers at once (`AtMostOneNear`). So the "last evaluated marker wins" case cannot arise for these markers.
- Within one frame the hint ends as the last marker in mount order whose state changed left it (`SweepLastChangeWins`). So a single frame that jumps to a marker earlier in mount order (About → Main) loses the hint for good: the marker being entered writes its prompt, then the marker being left, which runs after it, clears it (`JumpBetweenMarkersLosesHint`). A jump to a later marker (Main → About) ends on the right prompt (`JumpForwardKeepsHint`).

Four behaviours of the code that the model keeps as written:

- Leaving a marker clears the hint whatever it shows, even when another marker wrote it.
- The rpg beacon navigates on every "e"/"E" keydown while near, with no edge guard.
- In the game scene the "e" flag is set by every keydown event, so keyboard auto-repeat sets it again. A held key navigates once only over frames in which no keydown arrives.
- Holding T flips the camera mode on every auto-repeat keydown in both scenes: every "t" keydown requests a toggle (`Input.RequestsToggle`, `RpgScene.OnToggleKey`), and n toggles leave the mode flipped exactly when n is odd (`CameraRig.ToggleParity`).

## Model

| member | source | states |
|---|---|---|
| Common.LowerChar | components/rpg/Scene.tsx:17-18 | folds an ASCII capital to its lower-case letter (code +32) and leaves every other character alone; the result is never a capital |
| Common.Lower | components/rpg/Scene.tsx:17-18 | `toLowerCase` keeps the length, folds each character, and leaves no capital letter |
| Geometry.PlanarDistSq | components/game/NavMarker.tsx:24-27 | the squared planar (x, z) distance that replaces `Math.hypot` is never negative |
| Geometry.RotateY | components/game/Player.tsx:32-33 | rotating (x, z) about the vertical axis preserves its length |
| GameStore.Store.constructor | components/game/store.ts:14-21 | the store starts in third-person mode, with the player at the origin and no hint |
| GameStore.Store.SetCameraMode | components/game/store.ts:16 | sets the camera mode and leaves position and hint unchanged |
| GameStore.Store.SetPlayerPos | components/game/store.ts:18 | sets the published position and leaves mode and hint unchanged |
| GameStore.Store.SetHint | components/game/store.ts:20 | sets the hint (`None` clears it) and leaves mode and position unchanged |
| RpgStore.Store.constructor | components/rpg/store.ts:12-17 | the store starts with `cam` third-person and no hint |
| RpgStore.Store.SetCam | components/rpg/store.ts:14 | sets `cam` only |
| RpgStore.Store.SetHint | components/rpg/store.ts:16 | sets `hint` only; `None` clears it |
| RpgStore.SetThenRead | components/rpg/store.ts:14-16 | a read after each setter returns the value just written, and the other field keeps its value |
| Input.AfterKey | components/game/useInput.ts:17-21 | "w", "s", "a", "d" and "e" set forward, back, left, right and interact to `down`, each touching only its own field; every other key leaves the record unchanged; the mouse fields are never touched |
| Input.RequestsToggle | components/game/useInput.ts:22-25 | a toggle is requested exactly on a "t" keydown |
| Input.AfterMouseDown | components/game/useInput.ts:27 | mouse-down sets `mouseDown` and changes nothing else |
| Input.AfterMouseUp | components/game/useInput.ts:28 | mouse-up clears `mouseDown`, zeroes `dx` and changes nothing else |
| Input.AfterMouseMove | components/game/useInput.ts:29 | `dx` grows by the movement exactly while the button is held; otherwise the record is unchanged |
| Input.UpperCaseIgnored | components/game/useInput.ts:17-25 | "W", "S", "A", "D", "E" and "T" change nothing and request no toggle: the match is case-sensitive |
| Input.ToggleKeyLeavesRecord | components/game/useInput.ts:22-25 | a "t" event of either kind leaves the record unchanged, and it requests a toggle exactly on keydown |
| Input.InputState.constructor | components/game/useInput.ts:10-13 | every flag starts false and `dx` starts at 0 |
| Input.InputState.OnKey | components/game/useInput.ts:16-26 | the new record is `AfterKey` of the old one, and the returned toggle flag is `RequestsToggle` |
| Input.InputState.OnMouseDown | components/game/useInput.ts:27 | the new record is `AfterMouseDown` of the old one |
| Input.InputState.OnMouseUp | components/game/useInput.ts:28 | the new record is `AfterMouseUp` of the old one |
| Input.InputState.OnMouseMove | components/game/useInput.ts:29 | the new record is `AfterMouseMove` of the old one |
| Player.IntentFrom | components/game/Player.tsx:24-28 | each component lies in {-1, 0, 1}; x is 1 exactly for right without left, and -1 exactly for left without right, and likewise z for back and forward |
| Player.Normalize | components/game/Player.tsx:30 | the normalised intent has unit length, is parallel to the intent, and each component is positive, negative or zero exactly as the intent's is |
| Player.Heading | components/game/Player.tsx:30-33 | the rotated normalised intent is a unit vector, and at yaw 0 it is the normalised intent itself |
| Player.IntentOf | components/game/Player.tsx:24-28 | the avatar stands still exactly when each pair of opposing keys is both held or both released; it heads forward (z = -1) exactly when "w" is held without "s" |
| Player.StepPosition | components/game/Player.tsx:29-38 | y ends at 0.9; a zero intent leaves x and z unchanged; a non-zero intent moves from the old position along the yaw-rotated normalised intent scaled by `5 * dt`, a planar distance of exactly `5 * dt` |
| Player.StepAtIdentity | components/game/Player.tsx:29-35 | at yaw 0 the displacement is the normalised intent itself times `5 * dt`: "d" moves toward +x and "w" toward -z for a positive `dt` |
| Player.LengthSqPositive | components/game/Player.tsx:29 | `dir.lengthSq() > 0` holds exactly when the intent is non-zero |
| Player.OpposingKeysCancel | components/game/Player.tsx:24-35 | holding opposing keys gives the zero intent and no planar movement |
| Player.DiagonalMovesAsFarAsStraight | components/game/Player.tsx:29-35 | a diagonal key combination moves exactly as far as a single direction key |
| Player.Avatar.constructor | components/game/Player.tsx:48 | the avatar is mounted at (0, 0.9, 4) with yaw 0 |
| Player.Avatar.Frame | components/game/Player.tsx:14-45 | yaw drops by `0.003 * dx`; `dx` is consumed; the position is `StepPosition` of the old position and intent; y ends at 0.9; the store publishes exactly the new position and keeps its other fields |
| CameraRig.Toggled | components/game/CameraRig.tsx:14-17 | the toggle always changes the mode: third becomes iso and iso becomes third |
| CameraRig.ToggleParity | components/game/CameraRig.tsx:14-17 | an even number of toggles restores the mode and an odd number flips it |
| CameraRig.Desired | components/game/CameraRig.tsx:25-39 | the target plus (-2.5, 2, 3.5) in third mode and plus (6, 8, 6) in iso mode, always above the target |
| CameraRig.Lerp | components/game/CameraRig.tsx:31 | the new offset from the desired position is the old offset scaled by `1 - alpha`; alpha 0 stays, alpha 1 lands on the target, and a camera already there stays there |
| CameraRig.LerpNeverOvershoots | components/game/CameraRig.tsx:31 | for alpha in [0, 1] the squared distance to the desired position is multiplied by `(1 - alpha)²`, never grows, and strictly shrinks when alpha > 0 and the camera is not there yet |
| CameraRig.Rig.constructor | components/game/CameraRig.tsx:11 | the target starts at the origin |
| CameraRig.Rig.Frame | components/game/CameraRig.tsx:22-43 | the target equals the published position, and the camera moves to `Lerp` toward `Desired` for the store's mode |
| CameraRig.Rig.OnToggle | components/game/CameraRig.tsx:14-17 | the store's mode becomes `Toggled` of the old one; position and hint are unchanged |
| NavMarker.NearMatchesDistance | components/game/NavMarker.tsx:24-28 | the squared test agrees with `d < 1.6` on the planar distance itself, and the player's height plays no part |
| NavMarker.IsNear | components/game/NavMarker.tsx:24-28 | a near player lies strictly within 1.6 of the marker along x and along z separately; the rpg beacons (components/rpg/Scene.tsx:97-98) use the same test and radius |
| NavMarker.HintText | components/game/NavMarker.tsx:31 | the prompt is "Press E to enter " followed by the marker's label, and its length is the two added |
| NavMarker.HintTextInjective | components/game/NavMarker.tsx:31 | markers with different labels show different prompts |
| NavMarker.NearBoundary | components/game/NavMarker.tsx:28 | at the marker the player is near; at exactly 1.6 away the player is not |
| NavMarker.ProximityStep | components/game/NavMarker.tsx:29-32 | `within` becomes the near test; without a change the hint is untouched; entering shows "Press E to enter {label}"; leaving clears the hint |
| NavMarker.ProximitySettles | components/game/NavMarker.tsx:29-32 | a second evaluation at the same position changes nothing |
| NavMarker.InteractStep | components/game/NavMarker.tsx:36-43 | while not within, nothing happens; while within, the flag ends cleared, and a navigation to `href` is emitted exactly when the flag was set |
| NavMarker.OneNavigationPerPress | components/game/NavMarker.tsx:36-43 | over any frames without key events, one press navigates at most once, and exactly once iff the marker is within on some frame; without a press it never navigates |
| NavMarker.HeldForTenFrames | components/game/NavMarker.tsx:36-43 | ten frames within with the flag set navigate exactly once |
| NavMarker.EKeyFlag.constructor | components/game/NavMarker.tsx:38 | the flag starts unset: an absent global is not `=== true` |
| NavMarker.EKeyFlag.OnKeyDown | components/game/NavMarker.tsx:47 | only a lower-case "e" keydown sets the flag |
| NavMarker.EKeyFlag.OnKeyUp | components/game/NavMarker.tsx:48 | only a lower-case "e" keyup clears the flag |
| NavMarker.Marker.constructor | components/game/NavMarker.tsx:20 | a marker starts not within |
| NavMarker.Marker.ProximityFrame | components/game/NavMarker.tsx:23-33 | `within` and the store's hint become `ProximityStep` of their old values; mode and position are unchanged |
| NavMarker.Marker.InteractFrame | components/game/NavMarker.tsx:36-43 | the flag and the emitted destination are `InteractStep` of the old flag |
| NavMarker.Sweep | components/game/NavMarker.tsx:23-33 | after the markers' callbacks run in order, each `within` equals that marker's near test, and if no flag changes the hint is unchanged |
| NavMarker.SweepLastChangeWins | components/game/NavMarker.tsx:29-32 | when marker `j` changes state and no later marker does, the frame ends with `j`'s prompt if it became near and with no hint if it stopped being near |
| NavMarker.JumpForwardKeepsHint | components/game/NavMarker.tsx:29-32 | a one-frame jump from Main to About ends on About's prompt |
| NavMarker.BothNearMeansClose | components/game/NavMarker.tsx:28 | two markers that are both near one point lie less than 3.2 apart (squared distance below 10.24) |
| NavMarker.AtMostOneNear | components/game/GameCanvas.tsx:51-55 | no position is near two of the scene's markers at once |
| NavMarker.JumpBetweenMarkersLosesHint | components/game/NavMarker.tsx:29-32 | a one-frame jump from About to Main leaves the player at Main with no hint, and later frames never restore it |
| RpgScene.KeyStore | components/rpg/Scene.tsx:17-18 | the lower-cased key takes the new state and every other entry keeps its own |
| RpgScene.Intent | components/rpg/Scene.tsx:32-36 | the player stands still exactly when "d" and "a" are held alike and "s" and "w" are held alike, a key never seen counting as released; it heads forward exactly when "w" is held without "s"; with no key record it stands still |
| RpgScene.ShiftedKeysMove | components/rpg/Scene.tsx:17-18 | "W" drives forward exactly as "w" does, and a "W" keyup releases a held "w" |
| RpgScene.YawAfterMove | components/rpg/Scene.tsx:25 | yaw drops by `0.003 * movementX` exactly when `buttons === 1`, and is unchanged otherwise |
| RpgScene.RpgPlayer.constructor | components/rpg/Scene.tsx:47 | the player starts at (0, 0.9, 4) with yaw 0 and no keys recorded |
| RpgScene.RpgPlayer.OnKeyDown | components/rpg/Scene.tsx:17 | the key map becomes `KeyStore` with true; yaw and position are unchanged |
| RpgScene.RpgPlayer.OnKeyUp | components/rpg/Scene.tsx:18 | the key map becomes `KeyStore` with false; yaw and position are unchanged |
| RpgScene.RpgPlayer.OnMouseMove | components/rpg/Scene.tsx:25 | the yaw becomes `YawAfterMove` of the old yaw |
| RpgScene.RpgPlayer.Frame | components/rpg/Scene.tsx:30-44 | the position is `StepPosition` for the intent (d − a, s − w) of the held keys, with y at 0.9 |
| RpgScene.RigFrame | components/rpg/Scene.tsx:64-74 | without a player group the camera stays; otherwise it moves to `Lerp` toward `Desired` for `cam` |
| RpgScene.OnToggleKey | components/rpg/Scene.tsx:76-80 | "t" or "T" flips `cam`; any other key leaves it; the hint is unchanged |
| RpgScene.BeaconKey | components/rpg/Scene.tsx:105-106 | a navigation is emitted exactly for "e" or "E" while near, and it carries the beacon's link |
| RpgScene.EveryPressNavigates | components/rpg/Scene.tsx:104-110 | while near, each of n "e" keydowns navigates, n in all; while not near, none does |
| RpgScene.NavigationsBounded | components/rpg/Scene.tsx:105-106 | keydowns never navigate more often than they occur, and keys other than "e"/"E" never navigate |
| RpgScene.RpgBeacon.constructor | components/rpg/Scene.tsx:91 | a beacon starts not near |
| RpgScene.RpgBeacon.Frame | components/rpg/Scene.tsx:93-103 | without a player group nothing changes; otherwise `near` and the hint become `ProximityStep` of their old values; `cam` is unchanged |
| RpgScene.RpgBeacon.OnKeyDown | components/rpg/Scene.tsx:105-106 | the emitted destination is `BeaconKey` of the current `near` and the key |
| Quotes.Index | components/game/quotes.ts:57 | `Math.floor(r * n)` is a valid index, and it is the integer part of `r * n` |
| Quotes.IndexReachable | components/game/quotes.ts:57 | every index i < n is produced by the random value i/n |
| Quotes.PickAt | components/game/quotes.ts:57 | the pick is a member of the list |
| Quotes.EveryQuoteReachable | components/game/quotes.ts:56-58 | every entry of the list is some random value's pick |
| Quotes.Filter | components/game/quotes.ts:64 | the result holds exactly the entries of the category, is no longer than the list, and is empty exactly when no entry has the category |
| Quotes.FilterCons | components/game/quotes.ts:64 | a list's first entry stays first in the result exactly when it has the category |
| Quotes.FilterAppend | components/game/quotes.ts:64 | filtering a concatenation is the concatenation of the filtered parts, so list order is kept |
| Quotes.ByCategoryIn | components/game/quotes.ts:63-66 | the pick is a member of the list; it has the category whenever some entry does; with no such entry it is the fallback draw |
| Quotes.PresentMeansMatched | components/game/quotes.ts:64-65 | a category with an entry gives a non-empty filter and a matching pick |
| Quotes.RandomQuote | components/game/quotes.ts:56-58 | `getRandomQuote` returns a member of the list |
| Quotes.QuoteByCategory | components/game/quotes.ts:63-66 | `getQuoteByCategory` returns a member of the list with the category whenever one exists |
| Quotes.EveryCategoryPresent | components/game/quotes.ts:12-51 | each of the five categories has an entry, so the filter is never empty and the fallback is never taken |
| Quotes.QuoteForDestination | components/game/quotes.ts:71-81 | the five labels give their fixed quote; any other destination gives a member of the list |
| Quotes.EveryMarkerHasQuote | components/game/quotes.ts:72-78 | every marker label of the scene has its own fixed quote |
| Quotes.FirstFresh | components/game/quotes.ts:90-94 | the settled quote is the first draw whose text differs from the last one shown: a member of the list, drawn at some `j` with every earlier draw repeating the last text; `None` exactly when every supplied draw repeats it or none was supplied |
| Quotes.PickFresh | components/game/quotes.ts:90-94 | the draw-again loop returns `FirstFresh` of the last quote and the draws |
| Quotes.QuoteRotation.constructor | components/game/quotes.ts:87 | nothing has been shown yet |
| Quotes.QuoteRotation.Next | components/game/quotes.ts:89-96 | yields `FirstFresh` from the last shown quote and records it as the last shown |
| Quotes.Yields | components/game/quotes.ts:86-98 | the rotation yields at most one quote per batch of draws, each from the list, and stops only at a batch that runs out before a fresh quote comes up |
| Quotes.NoConsecutiveRepeats | components/game/quotes.ts:86-98 | the rotation yields members of the list, never the same text twice in a row, and never repeats the quote shown before it started |
| Quotes.RotationCanProceed | components/game/quotes.ts:92-94 | whatever was shown last, some draw gives a different text |
| RpgQuotes.RandomQuote | components/rpg/quotes.ts:59-61 | `getRandomQuote` returns a member of the list |
| RpgQuotes.QuoteByCategory | components/rpg/quotes.ts:66-69 | returns a member with the category whenever one exists, and otherwise the `getRandomQuote` fallback |
| RpgQuotes.ExtendsGameList | components/rpg/quotes.ts:12-54 | the list is the game's 29 quotes, in order, followed by three more |
| RpgQuotes.EveryCategoryPresent | components/rpg/quotes.ts:12-54 | each category has an entry, so the by-category pick always matches |
| Scenario.WalkForward | components/game/Player.tsx:24-38 | from (0, 0.9, 4), holding "w" for 1.24 s at yaw 0 reaches (0, 0.9, -2.2) |
| Scenario.ArriveAtMainAndEnter | components/game/NavMarker.tsx:23-43 | there the Main marker shows "Press E to enter Main", and one press held over three frames navigates to "/" once |

## Left out

- Rendering is not modelled: meshes, lights, `Stars`, `Html` labels, `OrbitControls`, `camera.lookAt`, the facing `rotation.y = yaw`, and the QuoteHUD and QuoteDisplay fade timers.
- Listener registration and removal are not modelled. The handlers are methods. The `removeEventListener` calls at components/game/useInput.ts:37-38 are given fresh closures, so those two listeners are never removed.
- Each marker's `window.onkeydown` assignment replaces the previous one. All markers install the same handlers, so one `EKeyFlag` stands for them.
- Hook timing is not modelled. `setYaw`, `setWithin` and `setNear` take effect on a later render, and the frame callbacks read the render-time `yaw`, `within`, `near`, `mode` and `playerPos`. The model applies each update at once. In particular the `setYaw` updater of components/game/Player.tsx:19 reads `input.current.dx` when React runs it, which may be after line 20 has reset it to 0; the model uses the drag amount the frame saw. The rotation the frame uses is a parameter: the rotation by the yaw the frame renders with.
- `Player.Avatar.Frame`: does not model the `if (!ref.current) return` guard before mount. This also applies to `RpgScene.RpgPlayer.Frame`.
- The rpg player's position is not copied into a store. The rig and beacons receive it as an `Option` standing for `scene.children.find(o => o.type === "Group")`.
- Floating point is not modelled. Coordinates are exact reals; `Math.hypot` becomes a squared comparison; `Math.pow(0.001, dt)` becomes `alpha`.
- The rotation is an abstract `Rotation` with `cos² + sin² = 1`; its relation to the yaw angle is not modelled. Normalisation of a diagonal uses a supplied 1/√2.
- `CameraRig.LerpNeverOvershoots`: the strict shrink is stated under "the camera is not yet there" as a positive squared distance, rather than as `p != q`.
- `Common.Lower`: folds only ASCII letters; the full Unicode `toLowerCase` is not modelled. Key names are ASCII.
- `Quotes.QuoteForDestination`: a destination that names an `Object.prototype` member (such as "toString") returns that inherited function in the source; the model treats every destination outside the five labels as a miss.
- `Quotes.QuoteRotation.Next`: the generator draws without end; the model takes a finite sequence of draws and returns `None` when they all repeat the last quote. `Quotes.RotationCanProceed` shows a fresh draw always exists.
- The `intervalMs` parameter of `quoteRotation` is unused in the source and is not modelled.
- The stores' subscription and selector machinery is not modelled. Each store is a plain object.
- Keyboard auto-repeat is not modelled as an event source. Held-key properties are stated over frames without key events, or over explicit keydown sequences (`RpgScene.EveryPressNavigates`).
