# Abyssea — a verified model of the game core

Abyssea is a browser game in which the player steers a small submarine from
the sea surface down through six depth zones. The water darkens with depth. A
battery-powered spotlight, together with a small ambient glow around the hull,
reveals creatures. Pressing Enter while a creature is lit opens the creature's
card and records it as discovered. A radar lights a dot while something is in
the light. A school of fish flees from the submarine when it comes close and
regroups afterwards.

This project models that core in Dafny:

- `wrappers.dfy`: `Wrappers`, the `Option` type.
- `config.dfy`: `Config`, the game constants and the depth-zone table (`src/game/constants.js`).
- `geometry.dfy`: `Geometry`, the helpers of `src/utils/utils.js`, which are clamp, interpolation and the point-in-triangle test, together with its geometric invariants.
- `pool.dfy`: `Pool`, the bubble and particle objects and the object pool that recycles them (`src/game/game.js`).
- `vessel.dfy`: `Vessel`, the ocean and the submarine. It covers movement, surfacing, the camera, facing, bubble emission and the spotlight battery.
- `creatures.dfy`: `Creatures`, a single creature. It covers wandering, bouncing off the borders, breathing (scale), glowing, highlight and fading with darkness.
- `schools.dfy`: `Schools`, a school of creatures. It covers the flee/regroup state machine with its timers, the steering weights and the facing of members.
- `frame.dfy`: `Frame`, the per-frame logic of the game component (`src/components/Game/Game.js`). It covers keyboard handling, which creatures are lit, Enter-to-discover, zone lookup and darkness interpolation, the HUD numbers, the zone announcement and the radar update.
- `screens.dfy`: `Screens`, the application shell (`src/App.js`). It covers the current screen, the pause flag derived from it, the selected creature, the discovery record and the screen switch.
- `radar.dfy`: `RadarView`, the radar widget (`src/components/Hud/Radar.js`) and the same radar logic duplicated in the game component.

Objects whose fields the source updates in place are classes with `modifies`
frames:

- `Ocean`, `Submarine`, `Bubble`, `Particle`, `ObjectPool`;
- `Creature`, `School`, `Radar`, `App`;
- the game component's refs, as `Frame.GameView`.

Pure calculations are functions, and each has lemmas that relate it to an
independent characterisation. All JavaScript numbers are modelled as `real`.

Values the source gets from the browser are parameters of the model:

- `Math.random()` draws;
- `Math.sin` of the wave;
- `Math.sqrt`, `Math.atan2` and `Math.cos` of the particle push;
- the steering forces of a school;
- canvas sizes;
- `performance.now()`.

Timers (`setTimeout`) are explicit events.

## Model

| member | source | states |
|---|---|---|
| Config.ZoneTableIsValid | src/game/constants.js:26-33 | The zone table starts at depth 0. Its depths strictly increase. Every darkness level lies in [0, 1] and never decreases with depth. Every zone begins above the world's maximum depth. |
| Config.ConstantsAreSane | src/game/constants.js:2-6 | Pixels per metre is positive and the world is 110000 px deep. The drain and charge rates are positive and smaller than the battery's capacity. |
| Geometry.Clamp | src/game/game.js:905-906 | The result lies in [lo, hi]. A value already inside is unchanged. A value below is raised to lo. A value above is lowered to hi. |
| Geometry.Lerp | src/utils/utils.js:8-10 | t = 0 gives a and t = 1 gives b. For t in [0, 1] the result lies between a and b. Equal ends give that value. |
| Geometry.LerpBetween | src/utils/utils.js:8-10 | For t in [0, 1], the interpolation formula stays between its two ends. |
| Geometry.ScaleByFraction | src/utils/utils.js:8-10 | Scaling by a fraction in [0, 1] moves a quantity toward 0 and keeps its sign. |
| Geometry.InTriangleIffSignsAgree | src/utils/utils.js:66-73 | A point is inside exactly when the three edge orientations are all non-negative or all non-positive. |
| Geometry.SignSwapFirstTwo | src/utils/utils.js:50-52 | Swapping the two points of the oriented line negates the orientation sign. |
| Geometry.SignRotate | src/utils/utils.js:50-52 | Rotating the three points does not change the orientation sign. |
| Geometry.SignSum | src/utils/utils.js:66-73 | The three edge signs of any point add up to the triangle's own orientation sign (twice its signed area). |
| Geometry.VerticesAreInside | src/utils/utils.js:66-73 | Each vertex of a triangle counts as inside it. |
| Geometry.RotationInvariant | src/utils/utils.js:66-73 | Listing the vertices in rotated order does not change the test. |
| Geometry.ReversalInvariant | src/utils/utils.js:66-73 | Listing the vertices in reverse order does not change the test. |
| Geometry.TranslationInvariant | src/utils/utils.js:66-73 | Shifting the point and all vertices by the same offset does not change the test. |
| Geometry.Sign | src/utils/utils.js:50-52 | The orientation of three points is 0 whenever two of them coincide. |
| Geometry.IsPointInTriangle | src/utils/utils.js:66-73 | The point-in-triangle test accepts each of the triangle's vertices. |
| Geometry.MirrorInvariant | src/utils/utils.js:66-73 | Mirroring the point and the triangle horizontally does not change the test. |
| Geometry.DegenerateIsAllInside | src/utils/utils.js:66-73 | A triangle collapsed to one point contains every point, because all its signs are zero. |
| Geometry.CentroidIsInside | src/utils/utils.js:66-73 | The centroid of any triangle is inside it. |
| Geometry.Barycentric | src/utils/utils.js:66-73 | The point's x coordinate is the sign-weighted combination of the vertices' x coordinates. |
| Geometry.InsideIsRightOfLeftmostVertex | src/utils/utils.js:66-73 | A point inside a proper triangle is not left of the triangle's leftmost vertex. |
| Geometry.LeftOfTriangleIsOutside | src/utils/utils.js:66-73 | A point strictly left of all three vertices of a proper triangle is outside. |
| Geometry.TransposeInvariant | src/utils/utils.js:66-73 | Swapping the x and y axes of the point and the triangle does not change the test. |
| Geometry.RightOfTriangleIsOutside | src/utils/utils.js:66-73 | A point strictly right of all three vertices of a proper triangle is outside. |
| Geometry.AboveTriangleIsOutside | src/utils/utils.js:66-73 | A point strictly above all three vertices of a proper triangle is outside. |
| Geometry.BelowTriangleIsOutside | src/utils/utils.js:66-73 | A point strictly below all three vertices of a proper triangle is outside. |
| Geometry.OutsideBoundingBoxIsOutside | src/utils/utils.js:66-73 | A point outside the bounding box of a proper triangle, on any side, is outside the triangle. |
| Pool.Bubble.constructor | src/game/game.js:347-356 | A new bubble is inactive and every field is zero. |
| Pool.Bubble.Init | src/game/game.js:368-377 | Activates the bubble with the given position, speeds, size, alpha and decay. |
| Pool.Bubble.Update | src/game/game.js:382-390 | An inactive bubble is untouched. An active bubble moves by its speed and fades by its decay rate, and stays active exactly while its alpha is positive. |
| Pool.WrapX | src/game/game.js:299-300 | Leaving the left edge re-enters at the right edge and vice versa. The result always lies on the canvas. |
| Pool.WrapY | src/game/game.js:301-303 | Rising above the band under the surface re-enters at the bottom of the world, and sinking below the bottom re-enters at the top of the band. The result always lies in the band. |
| Pool.Particle.constructor | src/game/game.js:228-239 | A new particle is an inactive mote and every field is zero. |
| Pool.Particle.Init | src/game/game.js:252-263 | Activates the particle with the given fields and kind (a mote unless another kind is given), and remembers its initial size. |
| Pool.Particle.Update | src/game/game.js:271-305 | Inactive particles are untouched. Active particles move by their speed plus the submarine's push. Spotlight dust fades and deactivates at alpha 0. Motes and debris wrap around the world instead. |
| Pool.Flags | src/game/game.js:450 | One activity flag per pool entry, in pool order. |
| Pool.FirstInactive | src/game/game.js:448-453 | Returns the index of the first inactive flag, with every earlier entry active. It returns None exactly when every entry is active. |
| Pool.FirstInactiveIs | src/game/game.js:448-453 | An inactive index preceded only by active entries is the one the scan finds. |
| Pool.NewInstance | src/game/game.js:439 | A fresh, inactive object of the pool's class. |
| Pool.ObjectPool.constructor | src/game/game.js:436-442 | The pool holds initialSize fresh, inactive objects of its class. |
| Pool.ObjectPool.Get | src/game/game.js:448-457 | Returns the first inactive object and leaves the pool as it was. If every object is active, it appends one fresh object and returns it. |
| Pool.ObjectPool.ForEachActive | src/game/game.js:463-469 | Visits exactly the active entries, each once, in increasing pool order. |
| Vessel.Ocean.constructor | src/game/game.js:7-14 | The ocean's height, wave amplitude, frequency, offset and speed. |
| Vessel.Ocean.Update | src/game/game.js:41-43 | The wave phase advances by the wave speed. |
| Vessel.BatteryStep | src/game/game.js:210-215 | A lit lamp with charge left becomes exactly max(0, level − drain), and stays lit iff the level was above the drain rate. A dark lamp below the maximum becomes exactly min(maximum, level + charge) and stays dark. A lit lamp at 0 and a dark lamp at the maximum stay as they are. The level stays in bounds. |
| Vessel.DarkStaysDark | src/game/game.js:210-215 | No number of frames switches a dark lamp on. |
| Vessel.BatteryRunInBounds | src/game/game.js:210-215 | Over any number of frames the level stays within [0, max]. |
| Vessel.LitSpotlightRunsOut | src/game/game.js:210-215 | A lit lamp with level at most n × drain is off after n frames. |
| Vessel.DarkSpotlightRecharges | src/game/game.js:210-215 | A dark lamp that is n × charge or less below the maximum is full after n frames. |
| Vessel.FullAndDarkIsStable | src/game/game.js:210-215 | A full, dark lamp stays unchanged frame after frame. |
| Vessel.LitAtEmptyStaysLit | src/game/game.js:210-215 | A lamp switched on at an empty battery stays on at 0 indefinitely. |
| Vessel.FollowCamera | src/game/game.js:156-163 | The camera stays within [0, depth − canvas height]. When the submarine rises above 30 % of the view, the camera becomes exactly max(0, y − 0.3 × canvas height). When it sinks below 70 %, the camera becomes exactly min(limit, y + height − 0.7 × canvas height). Inside the band it holds still. |
| Vessel.DiveClamp | src/game/game.js:148-153 | After a dive step the submarine's top is no higher than half a hull above the highest wave crest, and the submarine is no lower than the world's bottom. |
| Vessel.WavePull | src/game/game.js:166-172 | With no vertical input, the hull's centre is pulled toward the wave line and never overshoots it. |
| Vessel.VerticalStep | src/game/game.js:139-172 | The submarine surfaces exactly when it is within 10 % of its height of the surface and not diving. A surfaced submarine eases toward a point 10 above the local wave line at its x, with the camera at 0. A submerged one dives within bounds with the camera clamped. |
| Vessel.Facing | src/game/game.js:175-177 | Horizontal input sets the facing direction. Without input the facing is kept, so it is always ±1. |
| Vessel.BubbleCount | src/game/game.js:180-208 | At most two bubbles per frame, and only when submerged and the interval has passed. Two bubbles exactly when moving both ways. Idle bubbling starts after 500 ms. |
| Vessel.SpawnBubble | src/game/game.js:189 | Takes the pool's first inactive bubble, or appends a fresh one when every bubble is active, and initialises it with the given fields. No other pooled bubble changes. |
| Vessel.Submarine.constructor | src/game/game.js:50-92 | The image size scaled by 0.8 (120 × 60 before scaling when no image is loaded). The start position under the surface, the speeds, a full battery with the lamp off, and no input. |
| Vessel.Submarine.Update | src/game/game.js:126-217 | One frame composes the steps in order: horizontal move clamped to the canvas, vertical step with camera, facing, bubble emission and battery step. Each is stated by its specification function. |
| Vessel.Submarine.MoveHorizontally | src/game/game.js:129-130 | x moves by the input times the speed, clamped to the canvas. |
| Vessel.Submarine.TurnToInput | src/game/game.js:175-177 | The facing direction follows the horizontal input and the tilt resets. |
| Vessel.Submarine.MoveVertically | src/game/game.js:139-172 | The new height, surfaced flag and camera are those of the vertical step. |
| Vessel.Submarine.Dive | src/game/game.js:148-163 | The submerged branch: the dive step is clamped, then the wave pull is applied, then the camera follows. |
| Vessel.Submarine.FollowCameraStep | src/game/game.js:156-163 | The camera is the follow-camera function of its inputs. |
| Vessel.Submarine.EmitBubbles | src/game/game.js:180-208 | Emits the bubble count the rule gives and stamps the time if any bubble was emitted. The pool grows by at most that count. |
| Vessel.Submarine.EmitOne | src/game/game.js:189-190 | One bubble taken from the pool and initialised with the given fields, and the time stamped. The pool grows by at most one. |
| Vessel.Submarine.StepBattery | src/game/game.js:210-215 | The lamp and level become the battery step of the old ones. |
| Creatures.BounceAxis | src/game/game.js:563-570 | A creature off either border is put back on the border and its speed is reversed and damped to 80 %. Inside the area nothing changes. |
| Creatures.FacingFromVelocity | src/game/game.js:587-590 | Facing follows the sign of the horizontal velocity and is kept when that velocity is 0. |
| Creatures.SignUnderPositiveScale | src/game/game.js:572-579 | Renormalising by a positive factor keeps the velocity's sign. |
| Creatures.ScaleStep | src/game/game.js:582-584 | The breathing scale stays within [min, max] and its direction stays ±1. A step reaching the maximum stops on it and turns down. A step reaching the minimum stops on it and turns up. A step strictly inside the range moves by speed × direction and keeps the direction. |
| Creatures.LightStep | src/game/game.js:592-602 | The glow keeps its invariant (level in range, direction ±1). It stops on the maximum and turns down, and stops on the minimum and turns up, each checked only in the direction that approaches it. Otherwise it moves by speed × direction, keeping the direction. |
| Creatures.LightRunKeepsInvariant | src/game/game.js:592-602 | However many frames pass, the glow stays within its range. |
| Creatures.OpacityTarget | src/game/game.js:637-643 | A creature in the lit spotlight aims at full opacity. Otherwise it aims at 1 − darkness but never below 0.1. |
| Creatures.Grayscale | src/game/game.js:637-643 | No grey in the spotlight. Otherwise the grey is 100 × darkness, which lies in [0, 100] for a darkness in [0, 1]. |
| Creatures.SmoothingApproachesTarget | src/game/game.js:645 | One smoothing step moves the opacity toward its target, never past it, and keeps it within [0.1, 1]. |
| Creatures.WanderVelocity | src/game/game.js:557-558 | A draw of 0.5 gives a velocity of 0. For a positive speed limit, the velocity is positive exactly for draws above 0.5 and negative exactly for draws below. |
| Creatures.WanderVelocityInRange | src/game/game.js:557-558 | A new wandering velocity drawn from [0, 1) lies within [−maxSpeed, maxSpeed). |
| Creatures.BetweenScaled | src/game/game.js:557-558 | A draw centred on 0, doubled and scaled by a positive factor, stays within ±factor. |
| Creatures.WanderStep | src/game/game.js:556-561 | Before the interval has elapsed nothing changes. After it, position and facing are kept, the clock is restarted at the current time and, for draws in [0, 1), both velocity components lie within ±maxSpeed. |
| Creatures.AcrossStep | src/game/game.js:563-568 | The horizontal position ends within [0, canvas width − width]. Inside the canvas the creature just moves. Past the left edge it is put on it, its speed is reversed and damped by 0.8 and it faces right; past the right edge likewise, facing left. The vertical fields and the clock are untouched. |
| Creatures.DownStep | src/game/game.js:564-570 | The vertical position ends within the creature's depth band. Only y and the vertical velocity change. Inside the band the creature just moves. Past the top of the band it is put on the top, and past the bottom on the bottom. In both cases its vertical speed is reversed and damped by 0.8. |
| Creatures.Renorm | src/game/game.js:572-579 | Only the velocity changes, and a positive factor keeps the sign of the horizontal velocity. |
| Creatures.SwimStep | src/game/game.js:563-579 | Both bounds hold after the move. The wander clock is kept. Inside the canvas the creature moves by its velocity. A bounce on the left turns it right and one on the right turns it left. |
| Creatures.FaceStep | src/game/game.js:587-590 | Only the facing changes, and for a non-zero horizontal velocity it is 1 exactly when moving right and −1 exactly when moving left. |
| Creatures.RoamStep | src/game/game.js:556-590 | A free creature's step keeps it inside its canvas and depth band. Before the interval elapses the clock is kept and in the interior it moves by its velocity. It ends facing its horizontal velocity. |
| Creatures.Creature.constructor | src/game/game.js:476-537 | The size is 120 × 80 times the scale. The position, velocity and movement interval come from the draws. Facing follows the velocity. The breathing, glow, opacity and highlight start values. |
| Creatures.Creature.TriggerHighlight | src/game/game.js:543-547 | Starts the highlight at the given time. |
| Creatures.Creature.Update | src/game/game.js:553-608 | A free creature's movement fields become the roam step of the old ones, so it stays inside its area. A schooling creature's movement fields are unchanged. Both breathe, glow and end an expired highlight. |
| Creatures.Creature.Roam | src/game/game.js:556-590 | The movement fields become the roam step of the old ones. |
| Creatures.Creature.Wander | src/game/game.js:556-561 | The movement fields become the wander step of the old ones. |
| Creatures.Creature.Swim | src/game/game.js:563-579 | The movement fields become the swim step of the old ones. |
| Creatures.Creature.SwimAcross | src/game/game.js:563-568 | The movement fields become the horizontal step of the old ones. |
| Creatures.Creature.SwimDown | src/game/game.js:564-570 | The movement fields become the vertical step of the old ones. |
| Creatures.Creature.Breathe | src/game/game.js:582-584 | The scale becomes the scale step of the old one. |
| Creatures.Creature.FaceVelocity | src/game/game.js:587-590 | The movement fields become the facing step of the old ones. |
| Creatures.Creature.Glow | src/game/game.js:592-602 | The glow becomes the light step of the old one. |
| Creatures.Creature.Draw | src/game/game.js:634-648 | The opacity moves toward the target given by the lamp and the lit list. The returned grey is the target for that case. The opacity stays within [0.1, 1]. |
| Schools.OnProximity | src/game/game.js:728-744 | A close submarine starts fleeing and cancels any pending return. When it leaves, a flight arms its timeout once. Otherwise the state is kept, and consistency is preserved. |
| Schools.OnFleeTimeout | src/game/game.js:737-743 | When the flee timeout fires, the school stops fleeing and starts regrouping, and arms the regroup timer. |
| Schools.OnReuniteTimer | src/game/game.js:742 | When a regroup timer fires, regrouping ends and nothing else changes. |
| Schools.RunKeepsConsistent | src/game/game.js:728-744 | Any sequence of frames and timer events keeps the flags consistent: never fleeing and regrouping at once, and a timeout only while fleeing. |
| Schools.FleeCycle | src/game/game.js:728-744 | Approach, retreat, timeout and regroup timer lead from calm back to calm. |
| Schools.ReturnCancelsDelay | src/game/game.js:731-735 | A return during the delay clears the pending timeout, so it can no longer fire. |
| Schools.StaleTimerEndsRegrouping | src/game/game.js:742 | A regroup timer left over from an earlier flight ends a later regrouping early, because the timer is never cancelled. |
| Schools.StateWeights | src/game/game.js:856-871 | Fleeing drops cohesion and alignment, quadruples separation and uses the flee speed. Regrouping triples cohesion, doubles alignment, halves separation and uses the regroup speed. Calm uses the base weights. |
| Schools.SchoolFacing | src/game/game.js:747-753 | A calm school faces the sign of its members' total horizontal velocity. A fleeing or regrouping school keeps facing right. |
| Schools.MemberFacing | src/game/game.js:909-918 | A fleeing member faces away from the threat (kept when the flee force is 0). Otherwise it faces with the school. |
| Schools.School.constructor | src/game/game.js:669-706 | Calm state, one schooling member per spawn, and the school's radii, weights, speeds and delay. |
| Schools.School.AnyMemberClose | src/game/game.js:717-726 | True exactly when some member is within the flee radius of the submarine. |
| Schools.School.TotalVelocityX | src/game/game.js:747-749 | The sum of the members' horizontal velocities. |
| Schools.School.UpdateFleeState | src/game/game.js:728-744 | The flags become the proximity transition of the old ones. |
| Schools.School.FleeTimeoutFires | src/game/game.js:737-743 | The flags become the timeout transition. |
| Schools.School.ReuniteTimerFires | src/game/game.js:742 | The flags become the regroup-timer transition. |
| Schools.School.Update | src/game/game.js:713-922 | One frame: detects closeness via any member, applies the proximity transition, computes the school's facing, then steers every member. Members are clamped to the area and faced, and breathing and glow continue. |
| Schools.School.Assess | src/game/game.js:717-753 | The closeness scan, flag update and facing part of a frame. |
| Schools.School.SteerAll | src/game/game.js:756-920 | Each member takes its steering velocity, is clamped to the area and is faced. |
| Schools.School.Steer | src/game/game.js:905-920 | One member's velocity, clamped position and facing. Then the member's own update: its scale becomes the scale step of the old one, its glow the light step of the old one, and an expired highlight ends. |
| Schools.SpeedsOrdered | src/game/game.js:856-871 | The configured fleeing speed exceeds the regrouping speed, which exceeds the calm speed. |
| Frame.ToLower | src/components/Game/Game.js:127 | The key name keeps its length and has no upper-case letters left. Letters are shifted to lower case and other characters are unchanged. |
| Frame.ToLowerIsIdempotent | src/components/Game/Game.js:127 | Lower-casing twice is lower-casing once. |
| Frame.PressThenReleaseIsUp | src/components/Game/Game.js:133-152 | After a press and the release of the same key (in any letter case) that key is up, and every other key is as before. |
| Frame.SpotlightCone | src/components/Game/Game.js:169-180 | The beam is symmetric about the lamp's height, 80 px wide at the end and 200 px long toward the facing. The lamp sits in the front half of the hull and in its lower half. |
| Frame.SpotlightIsCameraIndependent | src/components/Game/Game.js:171-194 | Whether a creature is in the beam does not depend on the camera position. |
| Frame.NothingBehindTheLampIsSpotlit | src/components/Game/Game.js:172-194 | A creature behind the lamp is never in the beam. |
| Frame.LampIsSpotlit | src/components/Game/Game.js:194-199 | A creature centred on the lamp is lit while the lamp is on. |
| Frame.LitCreaturesStep | src/components/Game/Game.js:190-202 | Helper of the scan: one more creature of the scanned prefix extends the lit list exactly when it is lit. |
| Frame.ConeOrientation | src/components/Game/Game.js:176-180 | Helper for the cone proofs: the orientation of the cone, drawn and mirrored, is its length times the far width. |
| Frame.LitCreaturesAreTheLitOnes | src/components/Game/Game.js:190-202 | The lit list holds exactly the school's members and the individual creatures that are lit, and no others. |
| Frame.LitCreaturesSnoc | src/components/Game/Game.js:190-202 | Scanning one more creature appends it exactly when it is lit. |
| Frame.LitCreaturesOfConcat | src/components/Game/Game.js:185-202 | The lit list of school plus individuals is the school's lit list followed by the individuals' lit list, in order. |
| Frame.AllLitKeepsAll | src/components/Game/Game.js:190-202 | When every creature is lit, the list is all of them in order. |
| Frame.FirstLit | src/components/Game/Game.js:213-214 | None exactly when no creature is lit. Otherwise a lit creature of the list. |
| Frame.FirstLitIsEarliest | src/components/Game/Game.js:213-214 | The head of the lit list is lit and no earlier creature is lit. |
| Frame.Illuminated | src/components/Game/Game.js:191-199 | The per-creature test equals lit = in the beam with the lamp on, or within 1.2 × the ambient radius of the hull's centre. |
| Frame.CreaturesInLight | src/components/Game/Game.js:167-204 | The loop builds exactly the lit list of the school's members followed by the individuals. |
| Frame.LastReached | src/components/Game/Game.js:236-244 | The index of the last zone whose depth the camera has reached. Every later zone is deeper than the camera. When no zone is reached, the index is 0. |
| Frame.LastReachedIsUnique | src/components/Game/Game.js:236-244 | A reached zone with all later zones unreached is the one the scan picks. |
| Frame.ZoneLookupFindsBand | src/components/Game/Game.js:236-244 | On a valid table the scan picks the zone whose depth band holds the camera. |
| Frame.FindZone | src/components/Game/Game.js:236-249 | The loop's zone index is the last reached zone. The next zone is the following one, or the same one at the bottom. |
| Frame.InterpolationFactor | src/components/Game/Game.js:252-258 | A factor in [0, 1], proportional to the progress through the band. It is 0 above the zone and 1 below the next one. Equal depths give 1 only at the table's last depth. |
| Frame.ProgressThroughBand | src/components/Game/Game.js:253-254 | The progress through a band is at most 0 above it and at least 1 below it. Inside it, it lies in [0, 1] and places the camera at that fraction of the band. |
| Frame.InterpolatedDarkness | src/components/Game/Game.js:259 | The darkness lies between the two zones' levels. |
| Frame.DarknessAt | src/components/Game/Game.js:236-259 | The frame's darkness lies in [0, 1] for a table with levels in [0, 1]. |
| Frame.DarknessAtZoneStart | src/components/Game/Game.js:236-259 | At a zone's own depth the darkness is that zone's level. |
| Frame.DarknessBelowLastZone | src/components/Game/Game.js:236-259 | Below the last zone the darkness is the last zone's level. |
| Frame.DarknessBetweenZones | src/components/Game/Game.js:236-259 | Inside a band the darkness lies between the band's two levels. |
| Frame.ZoneNameScan | src/components/Game/Game.js:428-434 | The backward scan returns the name of the last reached zone, or "Zona Desconocida" when none is reached. |
| Frame.NoZoneIsNamedUnknown | src/game/constants.js:26-33 | No zone of the table carries the fallback name. |
| Frame.UnknownZoneOnlyAboveSurface | src/components/Game/Game.js:428-434 | The fallback name is shown exactly when the camera is above depth 0. |
| Frame.DepthMeters | src/components/Game/Game.js:404 | The whole metres of depth (floor of pixels per metre), never negative, and 0 near the surface. |
| Frame.BatteryPercentage | src/components/Game/Game.js:406 | The floor of level/max × 100. It lies within [0, 100] for an in-range level, and is 100 exactly at a full battery. |
| Frame.UpdateRadarDisplay | src/components/Game/Game.js:608-625 | The radar's dot and sweep follow the radar rules, with detection meaning a non-empty lit list. On a canvas too small for the rim, the sweep is unchanged and no dot is shown. Otherwise the dot is shown exactly when something is detected and a dot is set. |
| Frame.HandleEnterPress | src/components/Game/Game.js:207-218 | With the lamp off nothing happens. With it on, the first lit creature, if any, is selected, shown in the modal that pauses the game, and recorded as discovered. With nothing lit the shell is untouched. |
| Frame.GameView.constructor | src/components/Game/Game.js:28-68 | No keys held, no zone announced yet, the 'game' screen and not paused. |
| Frame.GameView.HandleKeyDown | src/components/Game/Game.js:126-148 | Records the key as held. A fresh space press toggles the lamp. A fresh Enter press with the lamp on selects the first lit creature. Escape pauses. Any other key leaves the shell untouched. |
| Frame.GameView.HandleKeyUp | src/components/Game/Game.js:151-153 | The released key is up and every other key is unchanged. |
| Frame.GameView.HandleInput | src/components/Game/Game.js:156-164 | Right wins over left and up wins over down. With neither key of an axis held, that direction is 0. |
| Frame.GameView.AnnounceZone | src/components/Game/Game.js:435-438 | A message is shown exactly when the zone name changed, and the name is remembered. |
| Frame.GameView.ZoneAndHud | src/components/Game/Game.js:236-259 | The frame's darkness (in [0, 1]), depth in metres, battery percentage and zone announcement for the camera position. |
| Screens.Discover | src/App.js:41-43 | The creature becomes discovered. Every other entry is kept and no other key is added. |
| Screens.DiscoverIsIdempotent | src/App.js:41-43 | Discovering a creature twice is the same as once. |
| Screens.DiscoveriesCommute | src/App.js:41-43 | The order of two discoveries does not matter. |
| Screens.DiscoveriesAccumulate | src/App.js:41-43 | A discovered creature stays discovered whatever is discovered afterwards. |
| Screens.DiscoverAll | src/App.js:41-43 | A run of discoveries records exactly the old keys plus the run's ids, and leaves every entry not in the run as it was. |
| Screens.DiscoverAllRecordsEach | src/App.js:41-43 | After a run of discoveries every creature in it is recorded. |
| Screens.RenderScreen | src/App.js:82-124 | The game view is shown exactly for the game, creature-modal and pause screens, with an overlay exactly on the two paused ones. Unknown names fall back to the main menu. |
| Screens.OverlayMeansPaused | src/App.js:82-124 | The bare game view is shown exactly on the game screen. Every paused screen shows the game with an overlay. |
| Screens.App.constructor | src/App.js:16-21 | Main menu, not paused, nothing discovered, nothing selected. |
| Screens.App.SyncPaused | src/App.js:27-33 | Paused exactly on the pause and creature-modal screens. |
| Screens.App.SetScreen | src/App.js:27-33 | Switches the screen and re-derives the paused flag. |
| Screens.App.HandleStartGame | src/App.js:23-25 | Goes to the tutorial, running. |
| Screens.App.HandleShowGallery | src/App.js:36-38 | Goes to the gallery, running. |
| Screens.App.HandleCreatureDiscovery | src/App.js:41-43 | The record becomes the discovery of the creature. |
| Screens.App.HandleShowCreatureModal | src/App.js:46-49 | Selects the creature and shows the modal screen, paused. |
| Screens.App.HandleCloseCreatureModal | src/App.js:52-54 | Clears the selection only. |
| Screens.App.HandleGamePause | src/App.js:57-59 | Goes to the pause screen, paused. |
| Screens.App.HandleResumeGame | src/App.js:62-64 | Back to the game, running. |
| Screens.App.HandleBackToMenu | src/App.js:67-69 | Back to the main menu, running. |
| Screens.App.HandleCloseGallery | src/App.js:72-74 | Back to the main menu, running. |
| Screens.App.HandleCloseTutorial | src/App.js:77-79 | On to the game, running. |
| Screens.App.Render | src/App.js:82-124 | With the paused flag in sync, an overlay covers the game exactly when the shell is paused. |
| RadarView.DotCoordinate | src/components/Hud/Radar.js:90-93 | A dot placed from a draw in [0, 1) keeps a 10 px margin from the canvas edges. |
| RadarView.Radar.constructor | src/components/Hud/Radar.js:9-10 | The sweep starts at 0 and there is no dot. |
| RadarView.Radar.Draw | src/components/Hud/Radar.js:12-86 | A canvas too small for a rim leaves everything alone and paints no dot. Otherwise the sweep takes one step, and the dot is painted exactly when something is detected and a dot is set. |
| RadarView.Radar.UpdateDisplay | src/components/Hud/Radar.js:88-101 | A dot is placed only while active with a detection and no dot yet. It is kept while both hold and cleared as soon as either fails. Placed dots keep the margin. |
| RadarView.Sweep | src/components/Hud/Radar.js:72-78 | Inactive resets to 0. Active advances by 0.05 and wraps at a full turn, staying within [0, 2π). |
| RadarView.SweepStaysInTurn | src/components/Hud/Radar.js:72-78 | However long the radar stays active, the sweep stays within one turn. |
| RadarView.InactiveSweepResets | src/components/Hud/Radar.js:76-78 | One inactive frame resets the sweep, so the next active frame starts from the first step. |
| RadarView.RunEffect | src/components/Hud/Radar.js:6-108 | One run of the widget's effect starts from fresh state and updates once. There is a dot exactly while active with a detection, and it is painted exactly then, given a canvas with room for the rim. |

## Source behaviour the model follows

These are behaviours of the code that a reader may not expect. The model
follows the code in each case.

- **Toggling at an empty battery:** the spotlight toggles on even with an empty battery, and a lamp switched on at level 0 stays on at 0 (`Vessel.LitAtEmptyStaysLit`).
- **Regrouping weights:** cohesion is multiplied by 3 while regrouping.
- **Individual creatures:** only school members flee.
- **Regroup timer:** the second timer of the flee cycle is never cancelled, so a stale timer can end a later regrouping (`Schools.StaleTimerEndsRegrouping`).
- **Screen checks in the game component:** the game component checks its own `gameState.currentScreen`, which is the constant `'game'`, and its `gamePaused`, which is never set. So while the game component is mounted (on the game, creatureModal and pause screens), the lamp toggle and Enter work whatever overlay the shell shows, and the frame loop never pauses itself. On the mainMenu, tutorial and gallery screens the game component is unmounted and its key listeners are removed. Nor does a game survive a screen change. The shell renders the game bare on `game` but wrapped with an overlay on `creatureModal` and `pause`, so the component is mounted afresh on each switch. The component's main effect also depends on handlers the shell recreates on every render (src/components/Game/Game.js:642). Each run of it builds a new submarine (src/components/Game/Game.js:628). So a discovery, a pause or a resume restarts the dive. The model does not capture this: `Frame.GameView` and `Screens.App` are modelled as separate objects whose state persists. The shell's pause flag is not read by the game component.
- **Closing the creature modal:** this clears the selection but leaves the screen on `creatureModal`, so the shell stays paused.
- **Radar.js widget effect:** it requests a single animation frame per run, so its sweep never passes its first step (`RadarView.RunEffect`).
- **Submarine construction:** the game component passes the submarine constructor a longer argument list than `Submarine` declares (src/components/Game/Game.js:628). The model follows the constructor as `Submarine` declares it (src/game/game.js:50-92).

## Left out

- Drawing: canvas, DOM and CSS output (colours, gradients, filters, element positions, the battery display colour, scanlines, the glow of the game area).
- `preventDefault`, image preloading, canvas resize, `throttle`, animation-frame scheduling, and the presentation-only components (menus, modals, gallery, spinner, HUD wrappers, mute indicator).
- The creature catalogue of `src/game/creatures.js` and the spawning of creatures and particles at start-up. These are data and random placement.
- The rest of the frame loop as one step: the loops that update and draw particles, bubbles, creatures and the school are modelled as the separate operations they call, not composed into a single frame.
- Transcendental functions and square roots (`Math.sin`, `Math.cos`, `Math.atan2`, `Math.sqrt`) are parameters. Distances are compared squared where the source compares a root against a radius.
- `Math.random()` draws are parameters. `performance.now()` and the discovery timestamp are parameters or ignored.
- Floating-point rounding: numbers are exact reals, and 2π is written as the double the source computes.
- Frame.ToLower: only ASCII letters are lower-cased. Other Unicode case mappings of `toLowerCase` are not modelled.
- Schools.StateWeights: the state-dependent speed cap is not applied anywhere in the model, because the capped velocity is part of the `Steering` input. The weights are stated on their own, and Schools.SpeedsOrdered orders the three states.
- Schools.School.SteerAll: the cohesion, alignment, separation, boundary and flee forces, their caps and their renormalisation are inputs (`Steering`). Only what the school does with them is stated: clamping, facing and continued breathing and glow. Breathing, glow and the highlight are stated per member by Schools.School.Steer. Over the whole loop and the frame, only the kept oscillation invariant is stated. So the order effects between members within a frame are not captured.
- Creatures.Creature.Swim: the velocity renormalisation factor is a parameter, because it involves a square root. Only its sign-preserving effect is stated.
- Pool.Particle.Update: the submarine's push is passed in as a displacement, because it needs a square root and trigonometry.
- Vessel.Submarine.EmitBubbles: the count of bubbles emitted is a ghost result. The emitted bubbles' fields are stated per bubble by Vessel.Submarine.EmitOne and Vessel.SpawnBubble. For the whole tick they are stated only as a pool extension of at most that count.
- Pool.ObjectPool.ForEachActive: returns the visiting order, the indices of the active instances, instead of applying a callback. The caller applies the callback to each visited instance, so what the callback does is not part of this member.
- Timer scheduling: the two `setTimeout` callbacks of a school are explicit events applied by the caller, not delays in real time.
