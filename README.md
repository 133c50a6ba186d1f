# Brown-noise streamer, modelled in Dafny

This project models the signal core of a small brown-noise generator, together with its WebAssembly host glue.

The core is a streamer that keeps one number, the accumulator: the current position of a damped random walk. It also keeps three parameters fixed at construction: damping, gain and step size. Each requested stereo frame goes through four steps:

1. The streamer draws a uniform value `r` in [0, 1). This gives the white increment `(2r - 1) * stepSize`.
2. It sets `accumulator = accumulator * damping + white`.
3. It clamps the accumulator into [-1, 1].
4. It writes `accumulator * gain` to both the left and the right channel.

A validated constructor checks the three parameters in a fixed order. The first failing check is the error returned. The WASM glue has two parts:

- One process-wide streamer slot. `initStreamer` fills it and performs no validation.
- A `nextSamples(count)` call. It streams `count` frames into a fresh buffer and returns them flattened into an interleaved array of length `2 * count`.

Randomness is an explicit input. Every frame consumes one element of a sequence `draws`, which stands for one call of the uniform generator. Given the draws, the walk is a deterministic function of the starting accumulator. The in-place loops are therefore proved against pure specification functions:

- `Step`: one accumulator update.
- `Walk`: the accumulator values after each draw.
- `Final`: the accumulator after a whole batch.
- `Frames`: the frames written for a walk.
- `Interleave`: the flat host-side layout.

Go's `float64` is modelled as `real`.

Files:

- `brownnoise.dfy`, module `BrownNoise`: validation, the walk, and the `Streamer` class with its in-place `Stream` method.
- `wasm.dfy`, module `Wasm`: the `Host` class holding the global slot, and the flattening.

Two inline parts of the Go code are written as helper methods of their own:

- The per-frame update step of `Stream` (draw, damp, clamp) is `Streamer.Advance`.
- The flattening loop of `nextSamples`, with its allocation of the flat array, is `Wasm.Flatten`.

The caller runs them at the same point and in the same order as the Go code. Keeping them apart keeps the real-number arithmetic out of the loop proofs.

## Model

| member | source | states |
|---|---|---|
| `BrownNoise.CheckParams` | internal/brownnoise/brownnoise.go:21-30 | Returns no error exactly when `0 < damping <= 1`, `0 <= gain <= 1` and `stepSize > 0`. Bad damping always reports `InvalidDamping(damping)`. Good damping with bad gain reports `InvalidGain(gain)`. Only when both are good does a bad step size report `InvalidStepSize(stepSize)`. |
| `BrownNoise.CheckParamsExamples` | internal/brownnoise/brownnoise_test.go:15-49 | The unit-test table: (0.9, 0.5, 0.02) is accepted; damping 0.0 or 1.1, gain -0.1 and step size -0.01 are each rejected with the matching error. Bad damping together with bad gain reports the damping error. |
| `BrownNoise.NewBrownNoiseStreamer` | internal/brownnoise/brownnoise.go:21-38 | The error is `CheckParams` of the inputs. The streamer is null exactly when there is an error. Otherwise it is a fresh streamer with accumulator 0 and exactly the given damping, gain and step size, which lie in the valid ranges. |
| `BrownNoise.Streamer.Raw` | cmd/wasm/main.go:15-20 | The unvalidated struct-literal path: accumulator 0 and the three fields exactly as given, with no range check. |
| `BrownNoise.White` | internal/brownnoise/brownnoise.go:44 | The white increment `(2r - 1) * stepSize` is zero exactly when the draw is 1/2 or the step size is 0. For a positive step size it is negative exactly when the draw is below 1/2. |
| `BrownNoise.WhiteBounded` | internal/brownnoise/brownnoise.go:43-44 | For a draw in [0, 1) and a positive step size, the white increment lies in [-stepSize, stepSize). |
| `BrownNoise.Clamp` | internal/brownnoise/brownnoise.go:49-54 | The result is always in [-1, 1]. Values above 1 become 1, values below -1 become -1, and in-range values are unchanged. |
| `BrownNoise.Step` | internal/brownnoise/brownnoise.go:43-54 | One accumulator update always lands in [-1, 1], for any parameters and any draw. |
| `BrownNoise.Final` | internal/brownnoise/brownnoise.go:42-59 | The accumulator the loop leaves behind. With no draws it is the starting accumulator. After any non-empty batch, or from an in-range start, it is in [-1, 1]. |
| `BrownNoise.Output` | internal/brownnoise/brownnoise.go:56-58 | The frame written for one accumulator value has identical left and right channels. For an accumulator in [-1, 1], each channel has magnitude at most `abs(gain)`. |
| `BrownNoise.Frames` | internal/brownnoise/brownnoise.go:42-59 | The buffer contents after the loop: one frame per accumulator value, each with identical channels. A frame whose accumulator value is in [-1, 1] has magnitude at most `abs(gain)`. |
| `BrownNoise.Walk` | internal/brownnoise/brownnoise.go:42-54 | The trajectory has one accumulator value per draw, and every value is in [-1, 1]. This is the clamp invariant after every frame. |
| `BrownNoise.WalkAppend` | internal/brownnoise/brownnoise.go:42-54 | Walking `d1 + d2` equals walking `d1` and then walking `d2` from the accumulator that `d1` left behind. |
| `BrownNoise.FinalCons` | internal/brownnoise/brownnoise.go:42-54 | The accumulator after a non-empty batch equals the accumulator after its tail, started from the first step's value. |
| `BrownNoise.FinalAppend` | internal/brownnoise/brownnoise.go:42-54 | The accumulator after `d1 + d2` is the accumulator after `d2`, started from the one `d1` left behind. |
| `BrownNoise.WalkAt` | internal/brownnoise/brownnoise.go:44-54 | The step recurrence. The i-th accumulator value is `Step` applied to the accumulator after the first i draws and to draw i. It is also the accumulator after the first i + 1 draws. |
| `BrownNoise.FramesAppend` | internal/brownnoise/brownnoise.go:56-58 | The frames of a concatenated trajectory are the concatenation of the frames of its parts. |
| `BrownNoise.ScaledBounded` | internal/brownnoise/brownnoise.go:57-58 | A value in [-1, 1] scaled by the gain has magnitude at most `abs(gain)`. |
| `BrownNoise.FramesOfWalk` | internal/brownnoise/brownnoise.go:56-58 | There is one frame per draw. In each frame the left and right channels are equal, both equal the accumulator times the gain, and both have magnitude at most `abs(gain)`, so at most `gain` when `gain >= 0`. |
| `BrownNoise.BatchSplit` | internal/brownnoise/brownnoise.go:41-60 | Batching equivalence. Streaming `d1` and then `d2` gives the same final accumulator as streaming `d1 + d2` in one call, and writes the same frames in the same order. |
| `BrownNoise.FirstFrameNonZero` | internal/brownnoise/brownnoise_test.go:93-103 | From a zero accumulator, with positive gain and step size, the first frame is non-zero whenever the first draw is not 1/2. |
| `BrownNoise.Streamer.Advance` | internal/brownnoise/brownnoise.go:43-54 | The per-frame update: the new accumulator is `Step` of the old accumulator and the draw. |
| `BrownNoise.Streamer.Stream` | internal/brownnoise/brownnoise.go:41-61 | Returns `n == len(samples)` and `ok == true` for every length, 0 included. The parameters are unchanged. The accumulator becomes `Final` of the old accumulator and the draws, so an empty buffer leaves it unchanged. The buffer becomes exactly `Frames(Walk(...))`. After a non-empty call, or from an in-range start, the accumulator is in [-1, 1]. |
| `BrownNoise.Streamer.Err` | internal/brownnoise/brownnoise.go:63-66 | The error accessor always reports no error. Its result type is a plain message option, separate from the construction errors. |
| `Wasm.Interleave` | cmd/wasm/main.go:30-34 | The flat sequence is twice as long as the frame sequence. Entry 2i is frame i's narrowed left sample and entry 2i + 1 its narrowed right sample. |
| `Wasm.InterleaveMono` | cmd/wasm/main.go:31-34 | If every frame has equal channels, then entries 2i and 2i + 1 of the flat sequence are equal. |
| `Wasm.BatchOutput` | cmd/wasm/main.go:27-34 | For a batch streamed from any accumulator, the flat output has length `2 * count`. Entries 2i and 2i + 1 are equal, and both are the narrowed value of the i-th accumulator times the gain. |
| `Wasm.Flatten` | cmd/wasm/main.go:30-34 | Fills a fresh array of length `2 * len(buf)` that is exactly `Interleave` of the buffer. |
| `Wasm.Host.constructor` | cmd/wasm/main.go:11 | The global slot starts empty (nil). |
| `Wasm.Host.InitStreamer` | cmd/wasm/main.go:14-22 | Replaces the slot with a fresh streamer. It has accumulator 0 and exactly the given parameters, with no validation. The previous streamer object is not modified. |
| `Wasm.Host.NextSamples` | cmd/wasm/main.go:25-36 | Returns a fresh array of length exactly `2 * count`. The slot still holds the same streamer, and its state advances exactly as one `Stream` call over `count` frames would. The array is the interleaving of that call's frames, so `flat[2i] == flat[2i+1]`. With no streamer installed, only `count == 0` is allowed. |

## Left out

- HTTP serving, routing, the health check and graceful shutdown (internal/server/server.go): I/O and concurrency.
- Configuration from environment variables (internal/config/config.go): it relies on a foreign float parser, and its only logic is "keep the default when parsing fails".
- Native playback (internal/localspeaker/speaker.go): it calls a foreign audio driver and blocks forever.
- The uniform generator itself. Each call is an element of `draws`. `Stream` accepts any reals there, because the clamp, mono and gain-bound properties hold for every draw. Only `WhiteBounded` uses the [0, 1) range.
- IEEE-754 rounding, NaN and infinities of `float64`: values are exact `real`s. As a result, the "iff" of `CheckParams` and the clamp invariant of `Walk` and `Final` hold only for finite parameters and draws. In Go, every comparison with NaN is false, so the checks at internal/brownnoise/brownnoise.go:22, 25 and 28 all pass for NaN parameters. A step size of +Inf also passes. With a step size of +Inf and the draw 1/2, the white increment is `0 * Inf = NaN`. From then on the accumulator stays NaN, because the clamp at internal/brownnoise/brownnoise.go:50-54 never fires on NaN.
- The `float32` narrowing at the host boundary: it is the function parameter `narrow`, and nothing is assumed about it beyond being a function.
- The text of the error messages: each error is a constructor of `ConfigError` that carries the rejected value.
- Reading numbers out of host values (`args[i].Float()`, `args[0].Int()`), registering the two callbacks, and blocking in `main` (cmd/wasm/main.go:38-47). The host arguments are plain parameters, and `count` is a `nat`; a negative count would make the Go buffer allocation panic.
- `Wasm.Host.NextSamples`: calling it before `initStreamer` with `count > 0` dereferences a nil streamer in Go and panics. The model excludes this case with a precondition instead of modelling the panic. With `count == 0`, the Go loop touches no field, so the model serves that case and returns an empty array.
- Direct assignment to the streamer's exported fields by other code: the model's fields are changed only by `Stream` and the constructors.
- Concurrency: the model assumes one caller per streamer, as the Go code does; calls are never interleaved.
