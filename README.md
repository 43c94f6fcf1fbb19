# Unity scripts: terrain generator, Flappy game, brick texture

This project is a Dafny model of the logic inside three groups of Unity
scripts, with what those scripts promise proved about the model.

- **TerrainGenerator** (`terrain_generator.dfy`) covers four parts of the terrain script:
  - the height field blended across beach, plain and mountain bands, with one random jitter draw per cell;
  - the five-layer splatmap weights and their normalisation;
  - the alphamap fill;
  - the scattering of trees and grass.

  Trees retry a rejected slot; grass skips it.
- **Flappy** (`flappy.dfy`) is the game's state machine:
  - the controller's run, game-over and score state;
  - the bird's press handling and target rotation;
  - the one-shot score gate;
  - the pipe spawner's interval timer and pipe-pair geometry;
  - the pipe mover's scrolling and despawning.

  Each MonoBehaviour whose fields change is a class. The controller's state is also a value, `GameState`, with one step function per operation. The methods are proved to perform those steps, and lemmas state what the steps guarantee.
- **BrickTexture** (`brick_texture.dfy`) covers the brick albedo pattern written row-major into a pixel array, the flat normal map, the texture-size clamp and the normal-map keyword gating on the four materials.
- The shared pieces each have their own file:
  - `unity_math.dfy` holds Mathf's clamped `Lerp`/`InverseLerp`/`Clamp01` over reals;
  - `row_major.dfy` holds the index arithmetic of a square grid;
  - `decimal_text.dfy` holds C# `int` wrap-around and `int.ToString()`.

Engine functions whose code is not part of this model are parameters:
- `Mathf.PerlinNoise`, `Mathf.SmoothStep`, `GetInterpolatedHeight`, `GetSteepness` and `SampleHeight` are function-typed parameters;
- the `System.Random(randomSeed)` stream is `random: nat -> real`, where `random(k)` is the k-th `NextDouble()`;
- per-frame inputs (`Time.deltaTime`, key or button presses, `Random.Range`, the collider that entered a trigger) are method parameters.

The model follows the C# code in these edge cases:
- `ApplySplatmap` with fewer than 5 terrain layers writes the first `layers` of the five weights. More than 5 layers is a precondition violation, because the code reads past the five-element weight array.
- A resolution of 0 gives an empty grid. Only resolution 1 is excluded, because it divides 0 by 0.
- The degenerate-cell test in `Normalize` is `total <= Mathf.Epsilon`.
- Decoration heights come from `Terrain.SampleHeight`, a parameter here.

## Model

| member | source | states |
|---|---|---|
| TerrainGenerator.GridCoord | Assets/Scripts/TerrainGenerator.cs:126-127 | A grid index below the resolution maps into [0,1], cell 0 to 0 and the last cell to 1. |
| TerrainGenerator.BeachHeight | Assets/Scripts/TerrainGenerator.cs:129-134 | For a Perlin sample in [0,1], the beach height lies in [0.02, 0.068]. |
| TerrainGenerator.PlainHeight | Assets/Scripts/TerrainGenerator.cs:133-135 | For a Perlin sample in [0,1], the plain height lies in [0.08, 0.096]. |
| TerrainGenerator.MountainHeight | Assets/Scripts/TerrainGenerator.cs:137-140 | Without its noise term the mountain height lies in [0.15, 0.75]. For a Perlin sample in [0,1] it lies in [0.15, 0.83]. |
| TerrainGenerator.RawHeight | Assets/Scripts/TerrainGenerator.cs:129-143 | For Perlin samples in [0,1] at both scales, the blended height lies in [0.02, 0.83], whatever SmoothStep returns. |
| TerrainGenerator.Ridge | Assets/Scripts/TerrainGenerator.cs:137 | The ridge factor lies in [0,1]. It is 1 exactly at nx = 0.5 and 0 exactly when abs(nx - 0.5) >= 1/2.8. |
| TerrainGenerator.BlendStaysWithinBands | Assets/Scripts/TerrainGenerator.cs:129-143 | The blended height always lies between the smallest and the largest of the beach, plain and mountain heights. |
| TerrainGenerator.SouthEdgeIsBeach | Assets/Scripts/TerrainGenerator.cs:129-143 | On the southern edge nz = 0, the blended height is the beach height 0.02 plus its noise term, given SmoothStep(0,1,0) = 0. |
| TerrainGenerator.PlainAtMountainBoundary | Assets/Scripts/TerrainGenerator.cs:130-143 | At nz = 0.6 the height is exactly the plain height. |
| TerrainGenerator.NorthEdgeIsMountain | Assets/Scripts/TerrainGenerator.cs:131-143 | At nz = 1 the height is exactly the mountain height. |
| TerrainGenerator.Jitter | Assets/Scripts/TerrainGenerator.cs:145 | A draw r in [0,1) gives a jitter in [-0.0015, 0.0015). |
| TerrainGenerator.CellHeight | Assets/Scripts/TerrainGenerator.cs:142-146 | A stored height lies in [0,1] whatever the noise and SmoothStep return. |
| TerrainGenerator.HeightAt | Assets/Scripts/TerrainGenerator.cs:122-146 | Cell (x, z) uses draw number z * resolution + x, and its height lies in [0,1]. |
| TerrainGenerator.BuildHeights | Assets/Scripts/TerrainGenerator.cs:117-151 | Returns a resolution x resolution grid. Each cell holds HeightAt for that cell and lies in [0,1]. Exactly resolution^2 draws are taken, z outer and x inner. |
| TerrainGenerator.BuildHeightRow | Assets/Scripts/TerrainGenerator.cs:124-147 | The inner loop fills row z with HeightAt, takes one draw per cell and leaves every other row unchanged. |
| TerrainGenerator.CellsUseDistinctDraws | Assets/Scripts/TerrainGenerator.cs:120-145 | Distinct cells consume distinct draws, all below resolution^2. |
| TerrainGenerator.SandWeight | Assets/Scripts/TerrainGenerator.cs:205 | The sand weight lies in [0,1]. |
| TerrainGenerator.GrassRockyWeight | Assets/Scripts/TerrainGenerator.cs:206 | The rocky-grass weight lies in [0,1] for a sand weight in [0,1]. |
| TerrainGenerator.GrassHillWeight | Assets/Scripts/TerrainGenerator.cs:207 | The hill-grass weight lies in [0,1]. |
| TerrainGenerator.RockWeight | Assets/Scripts/TerrainGenerator.cs:208 | The weight of the fourth layer ("glassRocky") lies in [0,1]. |
| TerrainGenerator.CliffWeight | Assets/Scripts/TerrainGenerator.cs:209 | The cliff weight lies in [0,1]. |
| TerrainGenerator.RawWeights | Assets/Scripts/TerrainGenerator.cs:205-211 | The five raw weights come in the order of the five terrain layers, and each lies in [0,1]. |
| TerrainGenerator.Normalized | Assets/Scripts/TerrainGenerator.cs:224-246 | The length is kept. When the total is <= Epsilon the result is 1 at index 0 and 0 elsewhere. Otherwise each entry is the old entry divided by the total. |
| TerrainGenerator.Normalize | Assets/Scripts/TerrainGenerator.cs:224-246 | The array becomes Normalized of its old contents: one-hot on index 0 when the total is <= Epsilon, and otherwise every entry divided by the same total. The length is unchanged. |
| TerrainGenerator.NormalizedIsDistribution | Assets/Scripts/TerrainGenerator.cs:224-246 | For non-negative weights, the normalised entries lie in [0,1] and sum to 1, in the one-hot case too. |
| TerrainGenerator.SplatWeights | Assets/Scripts/TerrainGenerator.cs:205-212 | A cell's normalised weights are five values in [0,1] that sum to 1. |
| TerrainGenerator.SandDominatesLowFlatCells | Assets/Scripts/TerrainGenerator.cs:205-212 | A cell at height <= 0.03 with slope < 0.25 keeps more than half its weight on sand. |
| TerrainGenerator.CellWeights | Assets/Scripts/TerrainGenerator.cs:199-212 | The weights of alphamap point (nx, nz) come from height / size.y and steepness / 90. They are five values in [0,1]. |
| TerrainGenerator.SplatAt | Assets/Scripts/TerrainGenerator.cs:195-212 | The weights of alphamap cell (x, z) are CellWeights at the cell's normalised coordinates. |
| TerrainGenerator.ApplySplatmap | Assets/Scripts/TerrainGenerator.cs:189-222 | Returns a resolution x resolution x layers map. Entry (z, x, i) is weight i of cell (x, z) and lies in [0,1]. |
| TerrainGenerator.WriteSplatCell | Assets/Scripts/TerrainGenerator.cs:199-217 | Writes the first `layers` normalised weights of cell (z, x) and leaves every other cell unchanged. |
| TerrainGenerator.Candidate | Assets/Scripts/TerrainGenerator.cs:314-320 | RandomTerrainPoint with draws k and k + 1 of the stream gives a point on the terrain: x in [0, size.x], z in [0, size.z], and y equal to the sampled height plus the terrain's base. |
| TerrainGenerator.TreeAt | Assets/Scripts/TerrainGenerator.cs:262-274 | The tree for a candidate at draw k is a tree at Candidate(k) with identity rotation, and its scale, from draw k + 2, lies in [0.8,1.5]. |
| TerrainGenerator.RetryLoopCounts | Assets/Scripts/TerrainGenerator.cs:262-274 | The retry loop (the shape of the tree loop: an accepted candidate takes three draws and fills the slot, a rejected one takes two and the same slot is drawn again) fills exactly n slots when it finishes and fewer than n when the rejection budget runs out. It then ends at draw k + 3n + 2m for some m <= budget rejections (the end draw lies in [k + 3n, k + 3n + 2 budget] and differs from k + 3n by an even number), or, on giving up, at k + 3 per placed item + 2(budget + 1). |
| TerrainGenerator.Trees | Assets/Scripts/TerrainGenerator.cs:262-274 | The tree loop over the stream from draw k: exactly n trees when it finishes, fewer when the budget runs out, and every tree on the terrain at y >= base + 6 with identity rotation and scale in [0.8,1.5]. |
| TerrainGenerator.FinishedRunIgnoresBudget | Assets/Scripts/TerrainGenerator.cs:262-274 | A retry loop that finishes gives the same result with a larger budget, so the budget is only a bound on retries: a finished run is what the unbounded loop gives. |
| TerrainGenerator.TreesArePlaced | Assets/Scripts/TerrainGenerator.cs:262-274 | Every tree the tree loop places stands on the terrain at the sampled height, at y >= base + 6, with identity rotation and scale in [0.8,1.5]. |
| TerrainGenerator.NoRejectionsNeedNoBudget | Assets/Scripts/TerrainGenerator.cs:262-274 | When no candidate point is below base + 6, the tree loop finishes with no rejection budget and takes exactly three draws per tree. |
| TerrainGenerator.GrassAt | Assets/Scripts/TerrainGenerator.cs:276-287 | The grass instance for a slot at draw k is grass at Candidate(k), rotated (90,0,0), and its scale, from draw k + 2, lies in [0.4,0.9]. |
| TerrainGenerator.SkipLoop | Assets/Scripts/TerrainGenerator.cs:276-287 | The shape of the grass loop: an accepted slot takes three draws and plants one instance, a rejected one takes two and is skipped. So over n slots at most n instances are planted. |
| TerrainGenerator.GrassSlots | Assets/Scripts/TerrainGenerator.cs:276-287 | The grass loop over the stream from draw k, over n slots: at most n instances, each on the terrain at y >= base + 4, rotated (90,0,0), with scale in [0.4,0.9]. |
| TerrainGenerator.SkipLoopCount | Assets/Scripts/TerrainGenerator.cs:276-287 | A loop that skips rejected slots plants exactly one instance per accepted slot. |
| TerrainGenerator.KeptCountStep | Assets/Scripts/TerrainGenerator.cs:276-287 | Slot s adds one to the number of planted slots exactly when it is accepted. |
| TerrainGenerator.SkipLoopSlot | Assets/Scripts/TerrainGenerator.cs:276-287 | An accepted slot's instance comes right after those of the accepted slots before it. |
| TerrainGenerator.GrassIsPlaced | Assets/Scripts/TerrainGenerator.cs:276-287 | Every instance the grass loop plants stands on the terrain at the sampled height, at y >= base + 4, rotated (90,0,0), with scale in [0.4,0.9]. |
| TerrainGenerator.GrassSlotIsPlantedIffHighEnough | Assets/Scripts/TerrainGenerator.cs:276-287 | Grass slot s is planted exactly when its candidate point, drawn where the previous slots left the stream, is at least base + 4. A planted slot's instance sits at the position of the accepted slots before it. |
| TerrainGenerator.Decorations | Assets/Scripts/TerrainGenerator.cs:248-291 | The trees from draw 0, then the grass from the draw after the last tree's. With treeCount <= 0 the tree loop always finishes. Without a terrain nothing is placed. When the tree loop finishes, exactly treeCount trees come first and at most grassCount grass instances follow, all placed as above. When the budget runs out, only trees are placed, fewer than treeCount. |
| TerrainGenerator.PlantTrees | Assets/Scripts/TerrainGenerator.cs:262-274 | The tree loop's result is the reference tree loop over the stream from draw 0: two draws per candidate, a third for an accepted tree's scale, and a rejected candidate retries the same slot. |
| TerrainGenerator.RetryPlacing | Assets/Scripts/TerrainGenerator.cs:262-274 | The loop with `i--; continue;` on a rejection, stopping after maxRejections + 1 rejections, returns what the reference retry loop places from draw 0, the draw after its last one, and whether every slot was filled. |
| TerrainGenerator.PlantGrass | Assets/Scripts/TerrainGenerator.cs:276-287 | The grass loop's result is the reference loop over the stream from the given draw: two draws per slot and a third for each planted instance's scale. A rejected slot is skipped. |
| TerrainGenerator.PopulateDecorations | Assets/Scripts/TerrainGenerator.cs:248-291 | Equals the reference placement, with trees from the first draw and grass from the draw after the last tree's. Without a terrain nothing is placed. When the tree loop finishes, exactly treeCount trees on the terrain come first, at y >= base + 6 with identity rotation and scale in [0.8,1.5], followed by at most grassCount grass instances at y >= base + 4, rotated (90,0,0), with scale in [0.4,0.9]. When the rejection budget runs out, only trees are placed, fewer than treeCount. |
| UnityMath.Clamp01 | Assets/Scripts/TerrainGenerator.cs:137 | The result lies in [0,1]. Values in [0,1] are kept; smaller values give 0 and larger values give 1. |
| UnityMath.InverseLerp | Assets/Scripts/TerrainGenerator.cs:129-131 | The result lies in [0,1]. For a < b it is 0 at or below a and 1 at or above b. |
| UnityMath.Lerp | Assets/Scripts/TerrainGenerator.cs:134 | The result lies between a and b. It is a for t <= 0 and b for t >= 1. |
| RowMajor.IndexInjective | Assets/Scripts/BrickTextureApplier.cs:78-83 | Two cells with the same index y * size + x are the same cell, so each index is written at most once. |
| RowMajor.IndexCovers | Assets/Scripts/BrickTextureApplier.cs:76-83 | Every index below size * size is the index of some cell, so every pixel is written. |
| DecimalText.Wrap32 | Assets/Scripts/FlappyGameController.cs:56 | `score += amount` stores the 32-bit int congruent to the exact sum modulo 2^32, which is the sum itself when that is in range. |
| DecimalText.IntToString | Assets/Scripts/FlappyGameController.cs:57 | `score.ToString()` is non-empty and starts with '-' exactly for negative scores. |
| DecimalText.IntToStringRoundTrip | Assets/Scripts/FlappyGameController.cs:57 | Reading the score text back gives the score. |
| DecimalText.IntToStringInjective | Assets/Scripts/FlappyGameController.cs:57 | Different scores show different texts. |
| Flappy.SpawnerTick | Assets/Scripts/PipeSpawner.cs:33-46 | An inactive spawner does nothing. An active one spawns exactly when timer + dt >= spawnInterval, and the timer is then 0. Otherwise an active timer advances by exactly dt. At most one pair spawns per frame. |
| Flappy.TickKeepsTimerInRange | Assets/Scripts/PipeSpawner.cs:22-46 | With dt >= 0 the timer stays in [0, spawnInterval). |
| Flappy.SpawnCount | Assets/Scripts/PipeSpawner.cs:40-45 | A sequence of frames spawns at most one pair per frame, and none while inactive. |
| Flappy.SpawnsAccountForTime | Assets/Scripts/PipeSpawner.cs:40-45 | Each spawn consumes at least one interval: spawns * spawnInterval + remaining timer <= starting timer + elapsed time. |
| Flappy.Layout | Assets/Scripts/PipeSpawner.cs:48-61 | The top pipe's y minus the bottom pipe's y is gapSize + 7, and the two are symmetric about centerY. The gate sits at centerY with height gapSize. The pair spawns at horizontalSpawn with speed scrollSpeed. |
| Flappy.PassageIsOpenAndGated | Assets/Scripts/PipeSpawner.cs:55-90 | The pipe colliders, 7.2 tall, leave an opening of gapSize + 7 - 7.2 around centerY. The gate trigger spans that opening, which stays within [-3.7, 3.7] for centres in the random range. |
| Flappy.PipeSpawner.constructor | Assets/Scripts/PipeSpawner.cs:11-12 | A new spawner is inactive with its timer at 0. |
| Flappy.PipeSpawner.Begin | Assets/Scripts/PipeSpawner.cs:22-26 | Sets the spawner active with the timer at 0. |
| Flappy.PipeSpawner.Stop | Assets/Scripts/PipeSpawner.cs:28-31 | Clears the active flag only. The timer is kept. |
| Flappy.PipeSpawner.Update | Assets/Scripts/PipeSpawner.cs:33-46 | Performs SpawnerTick. A spawned pair has Layout(centerY), a new mover at (horizontalSpawn, 0, 0) with speed scrollSpeed, and a new unscored gate. |
| Flappy.PipeSpawner.SpawnPipePair | Assets/Scripts/PipeSpawner.cs:48-61 | Creates the layout, the mover and the gate of one pair. |
| Flappy.PipeMover.constructor | Assets/Scripts/PipeMover.cs:5 | The default Speed is 2.8. |
| Flappy.PipeMover.Update | Assets/Scripts/PipeMover.cs:7-19 | During game over nothing changes. Otherwise x decreases by Speed * dt, y and z are unchanged, and the pair is destroyed exactly when the new x < -12. |
| Flappy.ScrollX | Assets/Scripts/PipeMover.cs:14 | Each frame moves x left by Speed times the frame time, so with a non-negative speed and frame times the pair never ends up to the right of where it started. |
| Flappy.ScrollIsFrameRateIndependent | Assets/Scripts/PipeMover.cs:14 | After any sequence of frames, x has decreased by Speed times the elapsed time. |
| Flappy.InitialIsConsistent | Assets/Scripts/FlappyGameController.cs:163-164 | The initial state (idle, score 0, text "0", spawner stopped) satisfies the game invariant. |
| Flappy.StartRunStep | Assets/Scripts/FlappyGameController.cs:37-47 | StartRun does nothing when running or over. From idle it sets running, clears the hint and begins the spawner. |
| Flappy.AddScoreStep | Assets/Scripts/FlappyGameController.cs:49-58 | AddScore is ignored after game over. Otherwise only the score and its text change. The score is the 32-bit int equal to the old score plus amount modulo 2^32, and the text is its decimal form. |
| Flappy.GameOverStep | Assets/Scripts/FlappyGameController.cs:60-71 | TriggerGameOver sets game over. If it was not already over, it also clears running, shows "Game Over\nPress R to Restart" and stops the spawner, keeping its timer. If it was already over, nothing changes. |
| Flappy.TickStep | Assets/Scripts/PipeSpawner.cs:33-46 | A spawner frame changes only the spawner's timer, and nothing at all while the spawner is inactive. |
| Flappy.StepsPreserveConsistency | Assets/Scripts/FlappyGameController.cs:37-71 | Every operation keeps the invariant, AddScore for any amount: never running and over at once, spawner active exactly while running, timer in range, 32-bit score, and score text equal to the decimal score. |
| Flappy.ScoreTextShowsScore | Assets/Scripts/FlappyGameController.cs:56-57 | In every consistent state the score text reads back as the score. |
| Flappy.GameOverIsIdempotent | Assets/Scripts/FlappyGameController.cs:62-65 | A second TriggerGameOver changes nothing. |
| Flappy.GameOverIsFinal | Assets/Scripts/FlappyGameController.cs:39-68 | Once over, StartRun, AddScore and TriggerGameOver change nothing, and no step clears IsGameOver. |
| Flappy.GatesAddUp | Assets/Scripts/FlappyGameController.cs:49-58 | While the game goes on and no overflow occurs, n gates add exactly n to the score, and the text shows the new score. |
| Flappy.FlappyGameController.constructor | Assets/Scripts/FlappyGameController.cs:149-164 | The first controller starts idle with score 0, text "0", hint "Tap / Space to fly" and a new, stopped spawner. |
| Flappy.FlappyGameController.Awake | Assets/Scripts/FlappyGameController.cs:22-35 | When an instance already exists, the new controller destroys itself and Instance stays the first. Otherwise Instance becomes this controller. |
| Flappy.FlappyGameController.StartRun | Assets/Scripts/FlappyGameController.cs:37-47 | Performs StartRunStep and keeps the controller's invariant. |
| Flappy.FlappyGameController.AddScore | Assets/Scripts/FlappyGameController.cs:49-58 | Performs AddScoreStep and keeps the controller's invariant. |
| Flappy.FlappyGameController.TriggerGameOver | Assets/Scripts/FlappyGameController.cs:60-71 | Performs GameOverStep and keeps the controller's invariant. |
| Flappy.ScoreGate.constructor | Assets/Scripts/ScoreGate.cs:5 | A new gate has not scored and has called AddScore zero times. |
| Flappy.ScoreGate.OnTriggerEnter2D | Assets/Scripts/ScoreGate.cs:7-16 | A non-bird collider and any entry after the first scoring change nothing. The first bird entry sets the latch and performs AddScore(1). The gate calls AddScore at most once in its lifetime, and the controller's invariant is kept. |
| Flappy.TargetRotation | Assets/Scripts/BirdController.cs:36-37 | The target rotation lies in [minRotation, maxRotation]. It is the minimum for vy <= -8 and the maximum for vy >= 8. |
| Flappy.TargetRotationMonotone | Assets/Scripts/BirdController.cs:36-37 | A faster climb never gives a lower target rotation. |
| Flappy.BirdController.constructor | Assets/Scripts/FlappyGameController.cs:137-147 | The bird's body starts unsimulated and at rest. |
| Flappy.BirdController.Update | Assets/Scripts/BirdController.cs:17-39 | During game over nothing changes. A press while not running sets simulated and starts the run. Every press sets the velocity to (0, flapVelocity). Without a press nothing changes. The target rotation comes from the current vertical velocity. The controller's invariant is kept. |
| Flappy.BirdController.OnCollisionEnter2D | Assets/Scripts/BirdController.cs:41-44 | Any collision performs GameOverStep and keeps the controller's invariant. |
| Flappy.FirstPressStartsRun | Assets/Scripts/BirdController.cs:27-31 | From the idle state, a press's StartRun leaves the game running and consistent, with the spawner active at timer 0 and the hint cleared. |
| BrickTexture.IsMortar | Assets/Scripts/BrickTextureApplier.cs:82 | A pixel is mortar exactly on the bed joint every 16th row, and on every 16th column in the lower half (y % 16 < 8, since texture rows run bottom to top) of each course. |
| BrickTexture.BrickImage | Assets/Scripts/BrickTextureApplier.cs:76-85 | The pixel array has size * size entries, each mortar or brick. |
| BrickTexture.BrickPixel | Assets/Scripts/BrickTextureApplier.cs:82-83 | Every pixel is mortar or brick. It is mortar exactly when y % 16 == 0, or when x % 16 == 0 and (y / 8) % 2 == 0. |
| BrickTexture.BrickImageAt | Assets/Scripts/BrickTextureApplier.cs:76-85 | Index y * size + x of the size * size pixel array holds the colour of pixel (x, y). |
| BrickTexture.FirstRowIsMortar | Assets/Scripts/BrickTextureApplier.cs:82 | Row 0 is entirely mortar. |
| BrickTexture.UpperHalfOfCourseIsBrick | Assets/Scripts/BrickTextureApplier.cs:82 | Rows with y % 16 >= 8 have no mortar at all, so vertical joints appear only in the lower half of each 16-row course. |
| BrickTexture.PatternPeriod | Assets/Scripts/BrickTextureApplier.cs:82 | The pattern repeats every 16 pixels in both directions. |
| BrickTexture.TilesSeamlessly | Assets/Scripts/BrickTextureApplier.cs:67-83 | With repeat wrapping, a texture whose size is a multiple of 16, such as the default 64, tiles without a seam. |
| BrickTexture.BrickPixels | Assets/Scripts/BrickTextureApplier.cs:74-85 | The pixel array has size * size entries, and the row-major loops leave it equal to the brick image. |
| BrickTexture.DefaultSizeTilesSeamlessly | Assets/Scripts/BrickTextureApplier.cs:11-34 | The default texture size 64 passes the clamp unchanged and tiles without a seam. |
| BrickTexture.FillBrickRow | Assets/Scripts/BrickTextureApplier.cs:80-84 | The inner loop writes row y with the brick image and leaves every index before and after that row unchanged. |
| BrickTexture.FlatNormalPixels | Assets/Scripts/BrickTextureApplier.cs:100-105 | All size * size normal-map pixels are (128,128,255,255). |
| BrickTexture.CreateBrickTexture | Assets/Scripts/BrickTextureApplier.cs:65-90 | Returns a new size x size texture holding the brick image. |
| BrickTexture.CreateFlatNormalMap | Assets/Scripts/BrickTextureApplier.cs:92-110 | Returns a new size x size texture of flat normals. |
| BrickTexture.ClampedSize | Assets/Scripts/BrickTextureApplier.cs:29-32 | Sizes below 4 are raised to 4, and larger sizes are kept. |
| BrickTexture.BrickTextureApplier.ApplyToMaterial | Assets/Scripts/BrickTextureApplier.cs:43-63 | A null material is untouched. Otherwise it gets the albedo and the tiling. The _NORMALMAP keyword is enabled and _BumpMap set exactly when a normal map is given; otherwise the keyword is disabled and _BumpMap is null. |
| BrickTexture.BrickTextureApplier.ApplyTextures | Assets/Scripts/BrickTextureApplier.cs:27-41 | Clamps textureSize and regenerates both textures at that size. Every non-null material gets the brick albedo. The bumped materials get the normal map. A diffuse or specular material that does not also fill a bumped slot ends with no normal map. |

## Left out

- Floating point is not modelled. Arithmetic is over reals, with no single-precision rounding or NaN. In single precision, `(float)random.NextDouble()` can round up to 1.0, which the jitter bound's r < 1 excludes.
- TerrainGenerator.PopulateDecorations: the source retries a rejected tree slot without limit, and never returns when no point is high enough. The model allows at most `maxRejections` rejected tree draws and returns `complete = false` once they run out. FinishedRunIgnoresBudget shows that a run that finishes is unaffected by the budget. The prefab instances, their parent object and the destruction of the prefabs are not modelled; the result is the list of placements.
- TerrainGenerator.BuildHeights: resolution 1 is excluded because the source divides 0 by 0 there.
- TerrainGenerator.ApplySplatmap: resolution 1 is excluded for the same reason. `layers <= 5` is required because the source would index past the five weights. `size.y > 0` is required to avoid a float division by zero.
- TerrainGenerator.Normalize: a non-empty array is required, because for an empty one the source's fallback writes `weights[0]` and throws. The source only ever calls it with five weights.
- Not part of this model, because they are engine object creation, scene lookup or lifecycle plumbing:
  - `GenerateTerrain`, `BuildTerrainLayers` (beyond its count of five layers), `CreateLayer`, `CreateSolidTexture`;
  - `CreateTreePrefab`, `CreateGrassPrefab`, `ApplyMaterial`, `GetOrCreateRoot`, `ClearChildren`, `SafeDestroy`, `FindExistingTerrain`;
  - `GenerateIfNeeded`, `RegenerateTerrain`, `SetHeights`, `SetAlphamaps`, `Instantiate`;
  - `OnEnable`, `Start`, `OnValidate`.
- Not part of this model: `CreateSprites`, `CreateTextureSprite`, `SetupCamera`, sprites, renderers, colliders other than their sizes, and `PipeSpawner.Configure`. `FlappyBootstrap.cs` is not part of this model either.
- Flappy.FlappyGameController.constructor: `BuildWorld` and `BuildUi` creating the spawner and the two texts are folded into the constructor, so a second controller is born with texts of its own. The source never builds them for a second controller; it destroys itself in `Awake`.
- Flappy.FlappyGameController.Awake: the static `Instance` is a `GameRegistry` object passed in, and `Destroy(gameObject)` is the `destroyed` flag.
- Flappy.BirdController.Update, Flappy.PipeMover.Update, Flappy.ScoreGate.OnTriggerEnter2D: the game controller is passed in rather than read from `FlappyGameController.Instance`. The NullReferenceException the source throws when there is no instance is not modelled.
- Left out as engine concerns:
  - `Rigidbody2D` physics: gravity, integration of the velocity and collision detection;
  - the `Quaternion.Lerp` smoothing of the bird's rotation, of which only the target angle is modelled;
  - input polling;
  - the scene reload on R in `FlappyGameController.Update`.
- Flappy.PipeMover.Update: called only on live objects, since Unity stops calling `Update` on a destroyed object. The model marks the object destroyed at once, while Unity defers `Destroy` to the end of the frame.
- DecimalText.IntToString: the model writes negative numbers with '-'. `int.ToString()` uses the current culture's negative sign, which may differ.
- The texture wrap and filter modes, anisotropy, mipmaps and `Apply(true, true)` are not modelled. The pixel count `size * size` is not modelled as a 32-bit product, so overflow for enormous sizes is not captured.
