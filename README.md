# Parkour platformer core, modelled in Dafny

This project models the deterministic core of a small OpenTK parkour game.

- **Physics step.** A player moves over a course of box-shaped platforms. Some platforms move back and forth along a segment. Some are checkpoints, and one is the goal. Each tick the player turns, reads the W/S keys, may jump, falls under gravity, is carried by the platform underneath, is stopped by platform walls, and then lands on a platform, on the floor, or stays in the air. The animation follows these steps.
- **Room.** The room's bounds are computed from its vertex table. The camera and the player's moves are clamped to them.
- **Animated model.** A frame-index and frame-timer state machine plays named animations. Each animation either loops or holds its last frame.
- **STL mesh loader.** It reads the binary and ASCII layouts of the StereoLithography format into a vertex list, takes the mesh bounds, and rebuilds texture coordinates in five projection modes.
- **WAVE loader.** It walks the chunks of a RIFF/WAVE file to find the PCM format and the sample data. A name registry maps sound names to buffers and sources.
- **Start screen.** The title and start button are laid out relative to the window. Button clicks are detected on the rising edge of the left mouse button.

Every `float` and `double` of the source is a Dafny `real`. The `float.MaxValue` and `float.MinValue` sentinels of unset bounds are the constants `FloatMax` and `FloatMin` (`Vectors`), because the source compares against them. `Math.Clamp`, which throws when its bounds cross, returns an `Option`, and the loaders return a `Result` where the source throws. Library calls whose results the model does not interpret are function-valued parameters: sine and cosine of the yaw, `Atan2`, `BinaryReader.ReadSingle` and `float.Parse`.

## Modules

- `Wrappers`: `Option` and `Result`.
- `Vectors`: `Vec2` and `Vec3` arithmetic, and `Lerp`.
- `Bytes`: little-endian 16-bit and 32-bit reads, and their encoders.
- `Platforms`: the `Platform` class, with the pure collider queries on its state.
- `Course`: the `PlatformManager` class, holding a sequence of distinct `Platform` objects. Its queries are folds over their states.
- `Players`: the `Player` class. `Update` is split into sections that follow the source's numbered comments. The pure `Step` specifies the whole tick.
- `Rooms`: the room vertex table, the bounds loop and the clamping queries.
- `Animations`: `Clip`, which is one loaded animation, and the `AnimatedModel` class.
- `Stl`: the STL readers, the bounds, `ComputeUV` and the `StlModel` class.
- `Sound`: `LoadWave` over bytes, the format table and the `SoundEngine` registry.
- `StartScreen`: layout and click detection.

Where the code and its own comments disagree, the model follows the code:

- The standing test widens the platform footprint by 0.05 (Utility/Platform.cs:121-123), although a comment there says no margin.
- The jump tick applies gravity to the freshly set 7.5 vertical velocity before moving, because the source's gravity step tests `IsGrounded` after the jump has cleared it.
- `Player.Update` never consults the room. The room only constrains the camera.

The shown files come from different revisions. `PlatformManager.cs` uses platform kinds `CheckPoint` and `Final` and a `CheckpointNumber`, which `Platform.cs` lacks. The model's `Kind` datatype has all four kinds (`Static`, `Moving`, `CheckPoint`, `Final`), and every platform state carries a checkpoint number.

## Model

| member | source | states |
|---|---|---|
| Vectors.LerpComponentBetween | Utility/Platform.cs:69 | With a blend in [0, 1], each component of a lerp lies between the two endpoint components. |
| Vectors.LerpInSpan | Utility/Platform.cs:69 | With a blend in [0, 1], a lerp lies in the axis-aligned span of its endpoints. |
| Bytes.U16 | Utility/SoundEngine.cs:128-133 | A little-endian 16-bit read is below 2^16. |
| Bytes.U32 | Utility/StlModel.cs:183 | A little-endian 32-bit read (`ToUInt32`, `ReadUInt32`) is below 2^32. |
| Bytes.I16 | Utility/SoundEngine.cs:128-133 | `ReadInt16` gives a two's complement value in [-2^15, 2^15). |
| Bytes.I32 | Utility/SoundEngine.cs:124 | `ReadInt32` gives a two's complement value in [-2^31, 2^31). |
| Bytes.U16OfLE16 | Utility/SoundEngine.cs:128-133 | A 16-bit value written low byte first reads back as itself. |
| Bytes.U32OfLE32 | Utility/StlModel.cs:193 | A 32-bit value written low byte first reads back as itself. |
| Bytes.U32OfLE32At | Utility/StlModel.cs:183 | The same holds inside any surrounding bytes. |
| Bytes.I16OfLE16 | Utility/SoundEngine.cs:128-133 | A written value below 2^15 reads back as itself through the signed 16-bit read. |
| Bytes.I32OfLE32 | Utility/SoundEngine.cs:124 | A written value below 2^31 reads back as itself through the signed 32-bit read. |
| Bytes.Chars4 | Utility/SoundEngine.cs:107 | `ReadChars(4)` gives four characters, or fewer when the input ends first. |
| Bytes.Chars4OfTag | Utility/SoundEngine.cs:107-113 | A written four-letter tag reads back as itself. |
| Platforms.CycleRange | Utility/Platform.cs:66 | The truncating `% 2` of the progress lies in [0, 2) for non-negative progress, and in (-2, 0] otherwise. |
| Platforms.PingPong | Utility/Platform.cs:66-67 | The ping-pong parameter lies in [0, 1] whenever the progress is non-negative. |
| Platforms.CyclePeriodic | Utility/Platform.cs:66 | Adding whole multiples of 2 to a non-negative progress leaves the cycle unchanged. |
| Platforms.PingPongPeriodic | Utility/Platform.cs:66-67 | The ping-pong parameter depends only on the progress modulo 2. |
| Platforms.PingPongAtIntegers | Utility/Platform.cs:66-67 | At even integer progress the parameter is 0; at odd integer progress it is 1. |
| Platforms.WithPath | Utility/Platform.cs:47-54 | Setting a path makes the platform Moving, puts it at the start, and stores the end and the speed. Size, progress, delta and checkpoint number are kept. |
| Platforms.AdvanceChangesOnlyMotion | Utility/Platform.cs:56-76 | An update changes only position, delta and progress. The delta is the new position minus the old. A non-moving platform stays put with a zero delta. |
| Platforms.MovingStaysInSpan | Utility/Platform.cs:63-69 | A moving platform with non-negative progress ends at a blend in [0, 1] of start and end, so on the start–end segment, and within their span. It never overshoots. |
| Platforms.MoveToInSpan | Utility/Platform.cs:66-69 | Any non-negative progress places the platform within the span of start and end. |
| Platforms.MovingEndpoints | Utility/Platform.cs:63-69 | Progress at an even integer puts the platform exactly at the start, and an odd integer exactly at the end. |
| Platforms.VelocityIsScaledDisplacement | Utility/Platform.cs:79-84 | The velocity is 60 times the last displacement, whatever the tick length. It is zero for a non-moving platform. |
| Platforms.IsPlayerOnPlatform | Utility/Platform.cs:117-135 | Standing holds iff the player's XZ is in the footprint widened by 0.05 and the foot-to-surface gap is in [-0.1, 0.15]. Outside the footprint the surface out-value is 0; inside it is the platform's top. |
| Platforms.BlocksMovement | Utility/Platform.cs:138-167 | No block when moving up, when outside the zero-margin footprint, or when the starting foot is above the top. Otherwise it blocks iff the player's vertical extent strictly overlaps the platform's. |
| Platforms.Platform.constructor | Utility/Platform.cs:17-36 | A new platform is a static 2 × 0.3 × 2 box at the origin, with speed 1, progress 0 and a zero delta. |
| Platforms.Platform.SetMovementPath | Utility/Platform.cs:47-54 | The new state is `WithPath` of the old. |
| Platforms.Platform.SetCheckpointNumber | Utility/PlatformManager.cs:183 | Only the checkpoint number changes. |
| Platforms.Platform.Update | Utility/Platform.cs:56-76 | The new state is `Advance` of the old, whose properties are the lemmas above. |
| Platforms.Cycle | Utility/Platform.cs:66 | C#'s truncating `progress % 2`, as removal of whole periods. Its range and periodicity are `CycleRange` and `CyclePeriodic`. |
| Platforms.Advance | Utility/Platform.cs:56-76 | The state after one Update. `AdvanceChangesOnlyMotion`, `MovingStaysInSpan` and `MovingEndpoints` state its properties. |
| Platforms.Velocity | Utility/Platform.cs:79-84 | `GetVelocity`: the last displacement times 60. `VelocityIsScaledDisplacement` states it. |
| Platforms.SurfaceY | Utility/Platform.cs:99-104 | `GetSurfaceY`: the top of the box, whatever the queried X and Z. `IsPlayerOnPlatform` uses it as the surface. |
| Platforms.WithinHorizontalBounds | Utility/Platform.cs:107-114 | The closed footprint widened by the margin on every side. `IsPlayerOnPlatform` and `BlocksMovement` use it with margins 0.05 and 0. |
| Rooms.Corner | Utility/Room.cs:8-39 | Every corner row of the room table has the eight-float stride. |
| Rooms.CornerWithinRoom | Utility/Room.cs:8-39 | Every corner of the table lies in x, z ∈ [-10, 10] and y ∈ [0, 8]. |
| Rooms.ExtentsBound | Utility/Room.cs:84-99 | The bounds loop yields a box that contains every scanned position. Each of its five bounds (minimum and maximum X, minimum and maximum Z, wall top) is attained by some position, or is still the sentinel. |
| Rooms.ExtentsOfRoomPositions | Utility/Room.cs:84-99 | Any table with the room's corner positions yields x, z ∈ [-10, 10] and wall top 8. |
| Rooms.RoomExtents | Utility/Room.cs:84-99 | The shown vertex table has 20 rows and yields the bounds ±10 and wall top 8. |
| Rooms.Clamp | Utility/Room.cs:128-129 | `Math.Clamp` is defined iff the lower bound is at most the upper bound. Its result then lies between the bounds and keeps a value already between them. |
| Rooms.UnloadedPassesThrough | Utility/Room.cs:117-160 | Before loading, the camera and the move are returned unchanged and nothing blocks. |
| Rooms.ConstrainMovementIdempotent | Utility/Room.cs:149-160 | `ConstrainMovement` keeps Y, ignores the starting point, and is idempotent. |
| Rooms.ConstrainMovementInside | Utility/Room.cs:156-157 | When min + r ≤ max - r, the constrained X and Z lie in [min + r, max - r]. A move that is not blocked is returned unchanged. |
| Rooms.BlocksIffConstrained | Utility/Room.cs:134-147 | When the room is wider than the player, a move is blocked iff constraining it changes it. |
| Rooms.ConstrainCameraBounds | Utility/Room.cs:117-132 | After loading, `ConstrainCamera` is defined iff the room is wider than the camera. The result's Y is at least 0.1 + radius, its X and Z are clamped, and an inside point is kept. |
| Rooms.Room.constructor | Utility/Room.cs:55-59 | A new room holds the shown table with unset bounds. |
| Rooms.Room.Load | Utility/Room.cs:84-99 | After the loop, the bounds are the extents of the table's positions. |
| Rooms.LoadedRoom | Utility/Room.cs:61-100 | A loaded room has the bounds ±10 in X and Z and wall top 8. |
| Rooms.ConstrainCamera | Utility/Room.cs:117-132 | The camera clamp on a box. `ConstrainCameraBounds` and `UnloadedPassesThrough` state its properties. |
| Rooms.BlocksMovement | Utility/Room.cs:134-147 | The wall test on a box. `BlocksIffConstrained` and `UnloadedPassesThrough` state its properties. |
| Rooms.ConstrainMovement | Utility/Room.cs:149-160 | The move clamp on a box. `ConstrainMovementIdempotent` and `ConstrainMovementInside` state its properties. |
| Rooms.Room.ConstrainCameraPosition | Utility/Room.cs:117-132 | The room's `ConstrainCamera` is the camera clamp on its current bounds. |
| Rooms.Room.Blocks | Utility/Room.cs:134-147 | The room's `BlocksMovement` is the wall test on its current bounds. |
| Rooms.Room.Constrain | Utility/Room.cs:149-160 | The room's `ConstrainMovement` is the move clamp on its current bounds. |
| Course.SupportScan | Utility/PlatformManager.cs:198-229 | The scan reports ground exactly when it reports a surface. |
| Course.SupportScanOnGround | Utility/PlatformManager.cs:198-229 | `onGround` holds iff some platform supports the player. Without support the result is (false, unset, 0, 0). |
| Course.SupportScanHighest | Utility/PlatformManager.cs:198-229 | The reported surface, velocity and delta come from the first platform with the strictly greatest surface among the supporting ones. |
| Course.CheckpointScanMonotone | Utility/PlatformManager.cs:205-224 | The checkpoint counter never decreases. It changes only to the number of a supporting checkpoint platform, and it reaches at least every such number, not just the highest surface's. |
| Course.SupportStep | Utility/PlatformManager.cs:205-215 | One pass of the support loop. `SupportScanOnGround` and `SupportScanHighest` state what the whole loop reports. |
| Course.CheckpointScan | Utility/PlatformManager.cs:205-224 | The checkpoint counter after the loop. `CheckpointScanMonotone` states its properties. |
| Course.ReachesFinal | Utility/PlatformManager.cs:220-223 | Some Final platform supports the player. `CheckPlayerOnPlatform` latches the complete flag on it. |
| Course.WallBlocks | Utility/PlatformManager.cs:245-256 | Some platform blocks the move. `CheckWallCollision` returns it. |
| Course.Numbered | Utility/PlatformManager.cs:177-186 | The platforms after the numbering loop, one per input platform. `NumberingInOrder` states the numbering. |
| Course.Respawns | Utility/PlatformManager.cs:177-186 | The map entries the numbering loop writes. `RespawnsMatchNumbers` states its keys and values. |
| Course.AdvanceAll | Utility/PlatformManager.cs:189-195 | Update advances every platform exactly once, in place. |
| Course.AdvanceAllKeepsNumbers | Utility/PlatformManager.cs:189-195 | Updating keeps every checkpoint number mapped to a respawn point. |
| Course.NumberingInOrder | Utility/PlatformManager.cs:177-186 | Checkpoint platforms are numbered 1..n strictly increasing in list order. Other platforms are untouched. |
| Course.RespawnsMatchNumbers | Utility/PlatformManager.cs:177-186 | The respawn map's keys are exactly 1..n, and key k is the k-th checkpoint's position plus (0, 1, 0). |
| Course.NumberingMapped | Utility/PlatformManager.cs:177-186 | After numbering, every checkpoint's number is a key of the map. |
| Course.CourseCheckpoints | Utility/PlatformManager.cs:84-187 | The course has 14 platforms, two of them checkpoints, numbered 1 (index 4) and 2 (index 9), respawning at (-1, 3.5, 0.5) and (-5, 6.2, -0.5). |
| Course.NewPlaced | Utility/PlatformManager.cs:30-42 | A new platform is placed at the given position, with the given size and kind. |
| Course.NewMoving | Utility/PlatformManager.cs:44-55 | A new moving platform starts at its start point, with the given path, size and speed. |
| Course.PlatformManager.constructor | Utility/PlatformManager.cs:15-21 | No platforms, checkpoint 0, not complete, and the map holds only 0 ↦ start position. |
| Course.PlatformManager.Update | Utility/PlatformManager.cs:189-195 | The platform states become `AdvanceAll` of the old ones. |
| Course.PlatformManager.CheckPlayerOnPlatform | Utility/PlatformManager.cs:198-229 | The result is the support scan. The counter becomes the checkpoint scan. The complete flag latches on when a Final platform supports the player. |
| Course.PlatformManager.CurrentCheckpointPosition | Utility/PlatformManager.cs:231-234 | The current checkpoint is always a key of the map, so the lookup is total. |
| Course.PlatformManager.SetGameRestart | Utility/PlatformManager.cs:240-243 | Only the complete flag is cleared. |
| Course.PlatformManager.CheckGameComplete | Utility/PlatformManager.cs:236-239 | The completion latch, which `CheckPlayerOnPlatform` sets and `SetGameRestart` clears. |
| Course.PlatformManager.CheckWallCollision | Utility/PlatformManager.cs:245-256 | Blocked iff some platform blocks the move. |
| Course.PlatformManager.ClearPlatforms | Utility/PlatformManager.cs:281-288 | The list is emptied. The counter, the flag and the map are kept. |
| Course.PlatformManager.AddPlaced | Utility/PlatformManager.cs:30-81 | Static, checkpoint and final platforms are appended, with the requested placement, and nothing else changes. |
| Course.PlatformManager.AddMovingPlatform | Utility/PlatformManager.cs:44-55 | A moving platform is appended, and nothing else changes. |
| Course.PlatformManager.SetupParkourCourse | Utility/PlatformManager.cs:84-187 | The list becomes exactly the numbered course, replacing any earlier list. The map gains the course's respawn points. The counter and the flag are not reset. |
| Course.PlatformManager.AddFirstLeg | Utility/PlatformManager.cs:91-116 | Appends the first four platforms. |
| Course.PlatformManager.AddSecondLeg | Utility/PlatformManager.cs:117-138 | Appends the first checkpoint and two moving platforms. |
| Course.PlatformManager.AddThirdLeg | Utility/PlatformManager.cs:139-153 | Appends two static platforms and the second checkpoint. |
| Course.PlatformManager.AddFinalLeg | Utility/PlatformManager.cs:154-175 | Appends the final push and the goal. |
| Course.PlatformManager.SetNumberAt | Utility/PlatformManager.cs:183 | Sets one platform's number, and every other platform keeps its state. |
| Course.PlatformManager.NumberCheckpoints | Utility/PlatformManager.cs:177-186 | The numbering loop gives every platform its numbered state and adds the respawn points to the map. |
| Players.WrappedRange | Utility/Player.cs:50-51 | The two wrap loops leave the yaw in [0, 360). |
| Players.WrappedUnique | Utility/Player.cs:50-51 | The wrapped yaw is the unique value in [0, 360) that differs from the input by whole turns. |
| Players.Wrapped | Utility/Player.cs:50-51 | The two wrap loops' result lies in [0, 360). |
| Players.StepYaw | Utility/Player.cs:39-51 | After a tick the yaw is in [0, 360) and differs from the turned yaw by whole turns. The model's rotation is (-90, yaw, 0). |
| Players.StillYaw | Utility/Player.cs:39-51 | With A and D both held, or neither, an in-range yaw is unchanged. |
| Players.TurnRate | Utility/Player.cs:39-47 | A alone adds 300·dt and D alone subtracts it, when the result stays in range. |
| Players.BackwardWins | Utility/Player.cs:57-69 | S gives the backward direction even with W held, W alone gives forward, and neither gives no input move. |
| Players.JumpAndGravity | Utility/Player.cs:72-88 | A jump happens exactly on Space while grounded. It sets the vertical velocity to 7.5, keeps X and Z, clears grounded and restarts "jumping". Gravity applies exactly when the player is airborne after that. |
| Players.NoJumpInAir | Utility/Player.cs:72-78 | In the air, Space changes nothing. |
| Players.CarryTable | Utility/Player.cs:104-118 | Grounded and supported, the carry is the highest platform's delta. Airborne, it is (Vx, 0, Vz)·dt. Grounded without a platform, it is zero. |
| Players.WallCancel | Utility/Player.cs:121-134 | The wall test runs only when grounded or not rising. A block drops the input move and keeps the vertical move and the carry. |
| Players.LandingOrder | Utility/Player.cs:139-178 | Landing on the highest supporting platform comes first: the player snaps 0.3 above it and takes its horizontal velocity. Next comes the floor: the player snaps to it and the velocity becomes zero. Otherwise the player is airborne with the target position. |
| Players.AirborneAboveFloor | Utility/Player.cs:157-177 | A player left in the air is above the floor. |
| Players.LeaveJumpOnlyOnLanding | Utility/Player.cs:152-155 | "jumping" is left only on a landing whose animation has finished. |
| Players.GroundedAnimation | Utility/Player.cs:184-194 | Grounded and not jumping, moving ends in "walking", and stopping while walking ends in "idle". In the air the animation is left alone. |
| Players.TargetOf | Utility/Player.cs:121-134 | Section 6's target. `WallCancel` states its properties. |
| Players.Settle | Utility/Player.cs:139-178 | A landing never moves the player in X or Z. The player is grounded exactly when it landed. A player that did not land keeps the target and its velocity, and is above the floor. |
| Players.PlanMove | Utility/Player.cs:36-97 | Sections 1 to 4. `StepYaw`, `StillYaw`, `TurnRate`, `BackwardWins`, `JumpAndGravity` and `NoJumpInAir` state their properties. |
| Players.Conclude | Utility/Player.cs:100-197 | Sections 5 to 9. `CarryTable`, `WallCancel`, `LandingOrder`, `AirborneAboveFloor`, `LeaveJumpOnlyOnLanding` and `GroundedAnimation` state their properties. |
| Players.Step | Utility/Player.cs:34-198 | One whole tick, `Conclude` after `PlanMove`. `Player.Update` is proved against it. |
| Players.Player.constructor | Utility/Player.cs:11-32 | A new player is at the origin, grounded, with yaw 180, ground level 0.5 and the given model and gravity. |
| Players.Player.Update | Utility/Player.cs:34-198 | The new body and animation are `Step` of the old ones. The platform manager's list and map are kept. The support query runs before the move and at the target, so the counter and the flag advance at both positions. |
| Players.Player.Prepare | Utility/Player.cs:36-97 | Sections 1 to 4 give the planned turn, input move, jump and gravity. |
| Players.Player.Finish | Utility/Player.cs:100-197 | Sections 5 to 9 give `Conclude` of the plan. |
| Players.Player.Turn | Utility/Player.cs:39-51 | The yaw is turned and wrapped, and stays in range. |
| Players.Player.Steer | Utility/Player.cs:53-69 | The move flag and the direction of the W/S keys. |
| Players.Player.Jump | Utility/Player.cs:72-78 | The jump step. |
| Players.Player.ApplyGravity | Utility/Player.cs:81-88 | The gravity step. |
| Players.Player.Move | Utility/Player.cs:100-134 | The intended position is the wall-checked target. The platforms' states are kept. |
| Players.Player.Arrive | Utility/Player.cs:139-197 | The landing, the position, the ground animation and the rotation. |
| Players.Player.Land | Utility/Player.cs:139-181 | The landing resolution and the position update. |
| Players.Player.Animate | Utility/Player.cs:184-194 | The ground animation switch. |
| Players.Player.GetYaw | Utility/Player.cs:200-203 | The yaw is in [0, 360). |
| Animations.Clip.constructor | Utility/AnimatedModel.cs:14-19 | Stores the name, the frame count, the rate and the loop flag. |
| Animations.FrameOf | Utility/AnimatedModel.cs:133-139 | The frame to draw is a valid index of the current animation. There is none without a current animation, or when it has no frames. |
| Animations.LoadKeepsRange | Utility/AnimatedModel.cs:47-53 | Loading keeps the frame index valid. |
| Animations.LoadCurrent | Utility/AnimatedModel.cs:47-53 | The first animation loaded becomes current, and later loads keep the current one. The name is rebound to the new animation, and other names are kept. |
| Animations.PlayOutcome | Utility/AnimatedModel.cs:57-68 | An unknown name changes nothing. Otherwise either nothing changes, or the animation becomes current at frame 0 with timer 0. Without restart, a change happens only when switching animations. |
| Animations.PlayThenResume | Utility/AnimatedModel.cs:57-68 | Playing again without restart changes nothing. |
| Animations.PlayKeepsRange | Utility/AnimatedModel.cs:57-68 | Playing keeps the frame index valid. |
| Animations.TickIdle | Utility/AnimatedModel.cs:73-74 | Without a current animation with frames, Update does nothing. |
| Animations.TickStep | Utility/AnimatedModel.cs:76-96 | When due, one Update advances one frame below the last, and the timer loses one frame's duration. At the last frame it wraps to 0 when looping and holds the last frame otherwise. When not due, only the timer grows. |
| Animations.TickKeepsRange | Utility/AnimatedModel.cs:80-96 | Update keeps the frame index valid. |
| Animations.FinishedHolds | Utility/AnimatedModel.cs:73-107 | A finished non-looping animation stays finished on the same frame through any number of updates. |
| Animations.LoopingNeverFinished | Utility/AnimatedModel.cs:101-107 | A looping animation is never finished. |
| Animations.Play | Utility/AnimatedModel.cs:57-68 | `PlayAnimation` on the playback state. `PlayOutcome`, `PlayThenResume` and `PlayKeepsRange` state its properties. |
| Animations.Tick | Utility/AnimatedModel.cs:71-98 | An Update changes only the frame index and the timer; the animations and the current one are kept. `TickStep` states the step. |
| Animations.Finished | Utility/AnimatedModel.cs:101-107 | A non-looping current animation on or past its last frame. `FinishedHolds` and `LoopingNeverFinished` state its properties. |
| Animations.NameOf | Utility/AnimatedModel.cs:142 | The current animation's name, or "None". |
| Animations.Load | Utility/AnimatedModel.cs:47-53 | The binding `LoadAnimation` makes. `LoadCurrent` and `LoadKeepsRange` state its properties. |
| Animations.AnimatedModel.constructor | Utility/AnimatedModel.cs:25-32 | No animations, none current, frame 0 and timer 0, so the frame index is in range. |
| Animations.AnimatedModel.LoadAnimation | Utility/AnimatedModel.cs:35-54 | A fresh animation with one frame per numbered file is bound to the name. The state becomes `Load` of the old. A frame index in range stays in range. |
| Animations.AnimatedModel.PlayAnimation | Utility/AnimatedModel.cs:57-68 | The state becomes `Play` of the old. A frame index in range stays in range. |
| Animations.AnimatedModel.Update | Utility/AnimatedModel.cs:71-98 | The state becomes `Tick` of the old. A frame index in range stays in range. |
| Animations.AnimatedModel.IsAnimationFinished | Utility/AnimatedModel.cs:101-107 | The object's answer is `Finished` of its playback state. |
| Animations.AnimatedModel.GetCurrentAnimationName | Utility/AnimatedModel.cs:142 | The object's answer is `NameOf` of its playback state. |
| Animations.AnimatedModel.GetCurrentFrame | Utility/AnimatedModel.cs:133-139 | The object's frame is `FrameOf` of its playback state, so when there is one it is a valid index of the current animation. |
| Animations.AnimatedModel.GetCurrentAnimationFrameCount | Utility/AnimatedModel.cs:144 | The current animation's frame count, or 0 without one. A non-zero count bounds the frame index. |
| StartScreen.LayoutCentred | Utility/Screen.cs:27-30 | The title is 0.8W × 0.2H at 0.12H and the button is 0.2W × 0.1H at 0.6H. Both are centred horizontally. |
| StartScreen.LayoutFits | Utility/Screen.cs:27-30 | In a window of non-negative size both elements fit, and the title ends above the button. |
| StartScreen.LayoutFor | Utility/Screen.cs:27-30 | The layout for a window size. `LayoutCentred` and `LayoutFits` state its properties. |
| StartScreen.Hover | Utility/Screen.cs:71-72 | The pointer lies in the closed button rectangle. |
| StartScreen.Clicks | Utility/Screen.cs:74-77 | A click: the button is down now, was not recorded as down, and the pointer is over the button. `RisingEdge` states what this means over successive checks. |
| StartScreen.AfterCheck | Utility/Screen.cs:71-80 | The flags after one check. `RisingEdge`, `HoldingKeepsClicking` and `PressOutsideNeverClicks` state their consequences. |
| StartScreen.RisingEdge | Utility/Screen.cs:67-81 | A check with the button up never clicks and arms the next check, which then clicks exactly when the pointer is over the button. After a check with the button down, the next press clicks only if that check clicked and the pointer is over the button. The hover flag is the rectangle test. |
| StartScreen.HoldingKeepsClicking | Utility/Screen.cs:74-80 | After a click, holding the button over the target reports a click on every later check. |
| StartScreen.PressOutsideNeverClicks | Utility/Screen.cs:71-80 | A press that starts away from the button never clicks while held, even when dragged onto it. |
| StartScreen.Screen.constructor | Utility/Screen.cs:21-33 | The layout is `LayoutFor` of the window size, with both flags false. |
| StartScreen.Screen.Resize | Utility/Screen.cs:59-65 | Resizing gives exactly the constructor's layout and keeps the flags. |
| StartScreen.Screen.CheckButtonClick | Utility/Screen.cs:67-81 | The result is `Clicks`, the flags become `AfterCheck`, and the layout is kept. |
| Sound.After | Utility/SoundEngine.cs:139-148 | `ReadBytes` moves the cursor forward, never past the end. |
| Sound.FormatTable | Utility/SoundEngine.cs:37-42 | A format exists iff there are 1 or 2 channels. Mono iff 1 channel. 8-bit iff 8 bits. |
| Sound.DataBeforeFormatRefused | Utility/SoundEngine.cs:115-152 | A data chunk before any format chunk loads with 0 channels, which the format table refuses. |
| Sound.FormatChunkAt | Utility/SoundEngine.cs:126-140 | A "fmt " chunk with tag 1 sets channels, rate and bits, and skips 16 + extra bytes. Any other tag is refused. |
| Sound.DataChunkAt | Utility/SoundEngine.cs:141-152 | A "data" chunk yields its bytes and ends the walk. |
| Sound.SkipsUnknownChunk | Utility/SoundEngine.cs:145-149 | An unknown chunk is skipped by exactly its size. |
| Sound.WaveRoundTrip | Utility/SoundEngine.cs:101-157 | Encoding a RIFF header, a PCM format chunk and a data chunk, followed by any bytes, reads back as the same channels, bits, rate and data. |
| Sound.LoadWave | Utility/SoundEngine.cs:101-157 | The chunk-walking loop computes `WaveOf`, including its errors. |
| Sound.Walk | Utility/SoundEngine.cs:115-152 | The chunk loop. `FormatChunkAt`, `DataChunkAt` and `SkipsUnknownChunk` state each kind of chunk. |
| Sound.WaveOf | Utility/SoundEngine.cs:101-157 | The whole loader. `WaveRoundTrip` and `DataBeforeFormatRefused` state its properties. |
| Sound.FormatOf | Utility/SoundEngine.cs:37-42 | The format table. `FormatTable` states it. |
| Sound.SoundEngine.constructor | Utility/SoundEngine.cs:7-8 | Empty registries, and nothing playing. |
| Sound.SoundEngine.Load | Utility/SoundEngine.cs:30-56 | A refused file or layout is reported and changes nothing. Otherwise the name is bound to the buffer and source, overwriting any earlier binding, and the buffer holds the PCM data. |
| Sound.SoundEngine.Play | Utility/SoundEngine.cs:59-67 | An unknown name does nothing. Otherwise the source gets the loop flag and gain and is playing. |
| Sound.SoundEngine.Stop | Utility/SoundEngine.cs:69-73 | An unknown name does nothing. Otherwise only its source stops. Afterwards `IsPlaying` is false. |
| Sound.SoundEngine.IsPlaying | Utility/SoundEngine.cs:75-80 | A known name whose source is playing. `Play` makes it true and `Stop` false. |
| Stl.FlattenLayout | Utility/StlModel.cs:249-255 | Float 8k + c of the flat list is component c of vertex k. |
| Stl.AddVertex | Utility/StlModel.cs:249-255 | Appends one vertex with the position, the normal and UV (0, 0); every earlier vertex is kept in place. |
| Stl.BinaryRecognised | Utility/StlModel.cs:176-186 | An 80-byte header, a count n and 50·n record bytes are recognised as binary. |
| Stl.BinaryShape | Utility/StlModel.cs:176-186 | A recognised file has at least 84 bytes and exactly count × 50 record bytes. |
| Stl.IsBinaryStl | Utility/StlModel.cs:176-186 | The binary test. `BinaryRecognised` and `BinaryShape` state it in both directions. |
| Stl.Facets | Utility/StlModel.cs:188-206 | The binary list: three vertices per record. `FacetAt` and `FacetsLayout` state where each vertex comes from. |
| Stl.AddFacetLayout | Utility/StlModel.cs:196-203 | One record adds its three corners in order, each with the facet normal. |
| Stl.FacetAt | Utility/StlModel.cs:194-205 | Vertex 3t + j of the binary list is corner j of record t, with record t's normal. |
| Stl.FacetsLayout | Utility/StlModel.cs:188-206 | The binary list has 3 vertices per triangle, each corner at its place. |
| Stl.LoadBinary | Utility/StlModel.cs:188-206 | The reader loop computes `Facets` for the declared count. |
| Stl.ReadRecords | Utility/StlModel.cs:194-205 | The loop over records computes `Facets`. |
| Stl.ReadRecord | Utility/StlModel.cs:196-203 | One record's reads and three appends compute `AddFacet`. |
| Stl.Trim | Utility/StlModel.cs:217 | The trimmed line is a slice of the line without leading or trailing white space. |
| Stl.Tokens | Utility/StlModel.cs:220 | Splitting on spaces with empty entries removed gives non-empty, space-free tokens. |
| Stl.WordBeforeSpace | Utility/StlModel.cs:220 | The first word of a line is not affected by anything after a space that follows it. |
| Stl.TokensSplitAtSpace | Utility/StlModel.cs:220 | The words of a line split at any space are the words before it followed by the words after it. |
| Stl.TokensOfWord | Utility/StlModel.cs:220 | A non-empty run without spaces is exactly one word. With `TokensSplitAtSpace`, this fixes the split of every line. |
| Stl.LoadAscii | Utility/StlModel.cs:208-247 | The line loop computes `AsciiOf`, including its parse errors. |
| Stl.ReadLine | Utility/StlModel.cs:215-245 | One pass of the line loop. `EndFacet`, `OtherLinesIgnored` and `NormalCarriesOver` state its cases. |
| Stl.AsciiOf | Utility/StlModel.cs:208-247 | The ASCII reader. `WholeTriangles` states that it emits whole triangles. |
| Stl.EndFacet | Utility/StlModel.cs:235-244 | "endfacet" emits the face only when exactly three vertices were collected, then clears them. |
| Stl.OtherLinesIgnored | Utility/StlModel.cs:215-245 | Lines with none of the three prefixes change nothing. |
| Stl.CaseInsensitive | Utility/StlModel.cs:218-235 | For every line and keyword, the test gives the same answer when the line is upper-cased, when the keyword is lowered, or when the keyword is replaced by any spelling that folds to the same letters. |
| Stl.WholeTriangles | Utility/StlModel.cs:235-244 | The ASCII reader only ever emits whole triangles. |
| Stl.NormalCarriesOver | Utility/StlModel.cs:213-225 | Without a "facet normal" line, the normal carries over. |
| Stl.StlWholeTriangles | Utility/StlModel.cs:163-174 | Both readers give a vertex count that is a multiple of 3. |
| Stl.LoadStl | Utility/StlModel.cs:163-174 | Chooses the binary reader iff the sizes match, and the ASCII reader otherwise. |
| Stl.StlOf | Utility/StlModel.cs:163-174 | The loader's choice of reader. `StlWholeTriangles` states its result. |
| Stl.ExtentsBound | Utility/StlModel.cs:47-54 | The bounds contain every position scanned, and each bound is its starting value or some vertex's coordinate. |
| Stl.LoadedBoxNonEmpty | Utility/StlModel.cs:47-54 | After scanning at least one vertex, the size is non-negative in every axis and the centre lies in the box. |
| Stl.SafeExtent | Utility/StlModel.cs:116-118 | A non-positive size is replaced by 1, so the divisor is positive. |
| Stl.UnitRatio | Utility/StlModel.cs:116-122 | A coordinate inside the bounds maps to [0, 1]. |
| Stl.PlanarUnitSquare | Utility/StlModel.cs:119-159 | In every planar mode, a position inside the bounds maps into the unit square. |
| Stl.CylindricalRange | Utility/StlModel.cs:146-157 | In the cylindrical mode, u is in [0, 1] when the angle is in [-π, π], and v is the height ratio. |
| Stl.ModeTable | Utility/StlModel.cs:119-160 | Unlisted modes act as mode 0. Triplanar picks the strictly dominant normal axis, with ties going to XY. |
| Stl.ComputeUV | Utility/StlModel.cs:114-160 | The five projections. `PlanarUnitSquare`, `CylindricalRange` and `ModeTable` state their properties. |
| Stl.Rebuild | Utility/StlModel.cs:74-83 | One rebuilt vertex per raw vertex. `RebuiltAt` and `RebuildLayout` state each vertex. |
| Stl.RebuiltAt | Utility/StlModel.cs:74-83 | Rebuilt vertex k is the retextured raw vertex k. |
| Stl.RebuildLayout | Utility/StlModel.cs:74-85 | Every rebuilt vertex keeps its position and normal and has the tiled UV. |
| Stl.ClampMode | Utility/StlModel.cs:62 | The mode is clamped to [0, 4]. |
| Stl.ClampTiling | Utility/StlModel.cs:63 | Each tiling component is at least 0.0001, and larger values are kept. |
| Stl.StlModel.constructor | Utility/StlModel.cs:23-37 | Not loaded, bounds unset, mode 0 and tiling (1, 1). |
| Stl.StlModel.Load | Utility/StlModel.cs:39-58 | A no-op once loaded. A refused file is reported and changes nothing. Otherwise it installs the vertices, takes the bounds and uploads the rebuilt buffer. |
| Stl.StlModel.Install | Utility/StlModel.cs:44-57 | The raw vertices, bounds, buffer and count after a successful read. |
| Stl.StlModel.TakeExtents | Utility/StlModel.cs:47-54 | The bounds loop computes `Extents`. |
| Stl.StlModel.SetUvMode | Utility/StlModel.cs:60-68 | Clamps the mode and tiling, and rebuilds only when loaded. |
| Stl.StlModel.RebuildBuffers | Utility/StlModel.cs:70-85 | The uploaded buffer is the flat rebuilt list, and the count is its length over 8. |
| Stl.StlModel.Center | Utility/StlModel.cs:25 | The centre is midway between the minimum and maximum corners, equally far from each in every axis. |
| Stl.StlModel.Size | Utility/StlModel.cs:26 | The size carries the minimum corner onto the maximum corner. |

## Left out

- Rendering: VAO/VBO setup, `Draw`, model matrices, textures, shaders, the UI quad drawer, `Dispose` and the camera's `LookAt`. Camera.cs, Shader.cs, Texture.cs and UI.cs are not part of this model; nor is `Screen.RenderFrame`.
- Game.cs and Program.cs (window, event loop and input plumbing) are not part of this model. The model follows the signatures of the class files.
- Floating point: every quantity is an exact real, so rounding, NaN and infinities are not modelled. `ReadSingle`, `float.Parse`, `Atan2` and the yaw's sine and cosine are uninterpreted parameters.
- File-system access: `File.Exists`, `File.Open`, `Path.Combine`, and the `FileNotFoundException`. The loaders take the file's bytes; the ASCII STL reader also takes the file's lines and a number parser.
- The OpenAL side of the sound engine: `Init`, `SetVolume`, `Dispose`, `PlayRandomFootstep`, `CheckALErr` and `PrintSourceState`. `AL.GenBuffer` and `AL.GenSource` become parameters of `Load`. The device is not modelled, so a source never finishes playing on its own.
- Sound.LoadWave: `ReadChars` is modelled as one character per byte; multi-byte UTF-8 sequences in a chunk tag are not. RIFF pad bytes after odd-sized chunks are not skipped, as in the source.
- Stl.LoadAscii: `StartsWith(..., OrdinalIgnoreCase)` is modelled with ASCII case folding only. Line splitting is a parameter.
- Stl.StlModel: the float list is modelled as a sequence of vertices that is flattened at upload; positions and normals are read from vertices rather than from list offsets.
- Animations.AnimatedModel: frames are a count rather than STL models, so `SetUvMode` over all frames, `Draw` and `GetCurrentFrame`'s model are left out; the frame index stands for the model.
- Players.Player.Update: the source's single method is split into section methods, and the platform manager's support queries run on the platform states.
- The visual STL model of a platform (Utility/Platform.cs:40-45) and `_movingForward`, which the source never reads.
