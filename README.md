# KZG frame verifier of EigenDA, modelled in Dafny

This project models the verifier in `encoding/kzgrs/verifier/verifier.go`. A data-availability node receives erasure-coded chunks ("frames") of a blob, each with a KZG multi-reveal proof. The verifier:

- checks each frame against the blob's G1 commitment;
- checks the blob's length claim with a low-degree proof;
- decodes the blob from enough chunks.

The verifier holds a cache from `EncodingParams` to a `ParametrizedVerifier`. That is the context for one chunk shape: an FFT domain, KZG settings over the shared structured reference string (SRS), and a Reed-Solomon coder.

Modules:

- `Uints`: Go's `uint8`/`uint64`, wrapping subtraction and multiplication, and the integer log2 used for the FFT size.
- `Bn254`: the scalar field `Fr` modulo the BN254 order r, `MulModFr`, and the types of G1 and G2 points.
- `Encoding`: `EncodingParams`, `Frame`, `ChunkNumber`, `BlobCommitments`, `KzgConfig`, the errors, and `Outcome` (Go's `error` result).
- `Collaborators`: everything the verifier calls but does not contain, as fields of a `Library` record of functions. This covers `EncodingParams.Validate`, the SRS file readers, `kzg.NewSrs`/`NewFFTSettings`/`NewKZGSettings`, `rs.NewEncoder`/`GetLeadingCosetIndex`/`Decode`, and the BN254 generators, group operations and pairing check. Every property is proved for every behaviour of these collaborators.
- `KzgVerifier`: the code of `verifier.go`. `Verifier` is a class whose `parametrizedVerifiers` map is updated in place. `ParametrizedVerifier` is an immutable datatype. The scalar exponentiation loop, the batch loop and the two array-filling loops of `Decode` are methods, each proved against a specification function.

A Go runtime panic is modelled as the outcome `IndexOutOfRange`. It covers an index past the roots-of-unity table, an SRS slice longer than the G1 points, and a frame without a matching chunk index.

`Verifier` keeps a ghost log `Constructed`. It records the params of every construction that got past validation. The log is how the contracts say "no construction happens" on a cache hit.

## Model

| member | source | states |
|---|---|---|
| `Uints.Sub64` | encoding/kzgrs/verifier/verifier.go:170 | Go's uint64 `SRSOrder - length`: exact when length <= SRSOrder; otherwise it wraps to a value above SRSOrder (2^64 - (length - SRSOrder)) |
| `Uints.Mul64` | encoding/kzgrs/verifier/verifier.go:138 | the uint64 product behind `NumEvaluations()`: exact when it fits, congruent to the product modulo 2^64 otherwise |
| `Uints.Log2Floor` | encoding/kzgrs/verifier/verifier.go:138 | the FFT order taken from the evaluation count: the k with 2^k <= v < 2^(k+1), below 64, so the uint8 conversion never truncates |
| `Uints.Log2FloorOfPowerOfTwo` | encoding/kzgrs/verifier/verifier.go:138 | for an evaluation count that is a power of two, 2^log2 gives back exactly that count |
| `Bn254.MulModPow` | encoding/kzgrs/verifier/verifier.go:244-247 | one `MulModFr` by x takes x^i mod r to x^(i+1) mod r |
| `KzgVerifier.LoadSrs` | encoding/kzgrs/verifier/verifier.go:31-79 | SRSNumberToLoad > SRSOrder fails with SrsOrderTooSmall before anything is read; success implies the guard held, G1 points were read, and either G2Path is non-empty and the trailing section [SRSOrder - SRSNumberToLoad, SRSOrder) was read (no wrap), or G2PowerOf2Path is non-empty and there are no trailing points; the SRS is `newSrs` of the G1 points and the G2 points read (none when G2 points are not loaded); each error of the G1 read, the empty-path checks, the G2 read, the trailing-section read and `newSrs` is returned unchanged, in that order; when every step succeeds the load succeeds, with that SRS and the trailing points read |
| `KzgVerifier.Verifier.NewVerifier` | encoding/kzgrs/verifier/verifier.go:31-93 | fails exactly when LoadSrs fails, with its error; otherwise a fresh, valid verifier holding the config, the SRS and the trailing G2 points, with an empty cache |
| `KzgVerifier.Verifier.constructor` | encoding/kzgrs/verifier/verifier.go:83-89 | the new verifier holds the given fields, an empty cache and an empty construction log, and is valid |
| `KzgVerifier.Verifier.NewParametrizedVerifier` | encoding/kzgrs/verifier/verifier.go:132-159 | a validation failure is returned as is; a built context shares the verifier's config and SRS, its KZG settings and coder are the ones the library built, its FFT domain is `newFFTSettings` of the floor log2 of the evaluation count (for a power-of-two count, 2^n equals that count); after validation, an error of `NewKZGSettings` is returned unchanged, then an error of `rs.NewEncoder`, and when both succeed a context is built |
| `KzgVerifier.Verifier.CacheIsTransparent` | encoding/kzgrs/verifier/verifier.go:105-124 | with a coherent cache, the lookup returns what a fresh construction returns, and the cache stays coherent |
| `KzgVerifier.Verifier.GetOrCreateIdempotent` | encoding/kzgrs/verifier/verifier.go:113-123 | a second lookup with the same params returns the same result and leaves the cache as the first one left it |
| `KzgVerifier.Verifier.GetOrCreateFrame` | encoding/kzgrs/verifier/verifier.go:118-121 | a lookup adds at most the requested key and never changes an existing entry |
| `KzgVerifier.Verifier.GetKzgVerifier` | encoding/kzgrs/verifier/verifier.go:105-124 | invalid params: the validation error, cache and log unchanged; hit: exactly the stored context, cache and log unchanged; miss: the construction's result, and the cache gains params ↦ context only if construction succeeded; one construction is logged exactly on a miss; the cache invariant is kept |
| `KzgVerifier.Verifier.NewKzgVerifier` | encoding/kzgrs/verifier/verifier.go:126-136 | returns the construction's result and never changes the cache; nothing is constructed when validation fails |
| `KzgVerifier.ParametrizedVerifier.VerifyFrame` | encoding/kzgrs/verifier/verifier.go:215-236 | the outcome of the frame check, in source order: the coset index error, then the G2 read error, then a panic for an out-of-range root or SRS slice, then MultirevealProofFails unless the opening equation holds at the coset's root of unity |
| `KzgVerifier.VerifyFrame` | encoding/kzgrs/verifier/verifier.go:239-273 | the loop of n modular multiplications from ONE leaves xPow = x^n mod r (ONE when n = 0), and the result is the pairing check e(C - [I(s)], G2) == e(proof, [s^n] - x^n·G2) |
| `KzgVerifier.FirstFailurePassIff` | encoding/kzgrs/verifier/verifier.go:199-211 | the batch passes if and only if every frame has a chunk index and passes on its own |
| `KzgVerifier.FirstFailureAt` | encoding/kzgrs/verifier/verifier.go:199-209 | when frame k is the first not to pass, the batch returns that frame's error, or a panic when it has no index |
| `KzgVerifier.FirstFailureIgnoresLaterFrames` | encoding/kzgrs/verifier/verifier.go:206-208 | replacing the frames after the first failing one does not change the batch's result |
| `KzgVerifier.Verifier.VerifyFrames` | encoding/kzgrs/verifier/verifier.go:192-213 | the cache and log change exactly as in GetKzgVerifier; the getter's error is returned as is; otherwise the outcome of the first frame that does not pass, checking frames in order, or Pass |
| `KzgVerifier.Verifier.VerifyCommit` | encoding/kzgrs/verifier/verifier.go:166-190 | with its helper `VerifyLowDegreeProof`: passes exactly when the SRS G1 point at index SRSOrder - length (uint64) can be read and the pairing check e(challenge, lengthCommit) == e(G1 generator, proof) holds, the arguments in the source's order; a read error is returned as is; a failed pairing check returns LowDegreeProofFails |
| `KzgVerifier.Verifier.VerifyBlobLength` | encoding/kzgrs/verifier/verifier.go:161-164 | the same check on the blob's own length commitment, proof and claimed length: passes exactly when the challenge read at SRSOrder - length succeeds and the pairing holds; a read error is returned unchanged; a failed pairing returns LowDegreeProofFails |
| `KzgVerifier.ProofsStripped` | encoding/kzgrs/verifier/verifier.go:278-283 | one rs.Frame per chunk, in order, with frames[i].Coeffs = chunks[i].Coeffs |
| `KzgVerifier.AsUint64s` | encoding/kzgrs/verifier/verifier.go:292-298 | one uint64 per chunk number, in order, with equal values |
| `KzgVerifier.ToUint64Array` | encoding/kzgrs/verifier/verifier.go:292-298 | a newly allocated array of the same length whose i-th element is the i-th chunk number |
| `KzgVerifier.Verifier.Decode` | encoding/kzgrs/verifier/verifier.go:277-290 | the cache and log change as in GetKzgVerifier; the getter's error is returned as is; otherwise the coder's decode of the proof-stripped frames, the converted indices and maxInputSize, whatever that returns |

## Left out

- The SRS file readers (`ReadG1Points`, `ReadG2Points`, `ReadG2PointSection`, `ReadG1Point`, `ReadG2Point`) do file I/O. They are fallible fields of `Library`, and which indices they accept is unconstrained.
- BN254 group arithmetic and pairings (`MulG2`, `SubG2`, `SubG1`, `LinCombG1`, `PairingsVerify`) and `kzg.NewSrs`, `NewFFTSettings`, `NewKZGSettings` come from a foreign curve library. They are uninterpreted, so nothing is claimed about KZG soundness. For the same reason, the round-trip and corruption properties of an honest prover are out of reach.
- `EncodingParams.Validate` and `NumEvaluations` are defined in encoding/params.go, which is not part of this model. `Validate` is an uninterpreted fallible function. `NumEvaluations` is taken as the uint64 product of chunk count and chunk length.
- The Reed-Solomon coder (`rs.NewEncoder`, `rs.GetLeadingCosetIndex`, `Encoder.Decode`) is external. Trimming the output to `maxInputSize` happens inside `Encoder.Decode`, so it is left to the coder. The code passes the bound to the coder rather than truncating afterwards.
- `sync.Mutex`: the model is single-threaded, and each method is one atomic step. "One construction across concurrent callers" is stated only for sequential calls, through the `Constructed` log.
- `math.Log2(float64(...))` is floating point. `Log2Floor` is the integer floor log2. The two agree on powers of two, which are the counts the FFT needs. They can differ on other counts. For a count just below 2^k with k >= 49 (for example 2^49 - 1), the float result rounds to k, so Go yields k where `Log2Floor` yields k - 1. The model does not capture this rounding. For a count of 0 the Go conversion of -Inf to uint8 is platform-defined; the model takes 0.
- Pointer identity: a `*ParametrizedVerifier` is modelled as an immutable value. "Returns the same pointer" becomes "returns an equal value".
- Logging and printing (`log.Println`, `fmt.Println`, `runtime.GOMAXPROCS`) have no effect on results.
- Nil pointers (a nil frame or nil commitment) are not modelled.
- The SRS slice `G1[:n]` is bounded by its length, not its capacity.
- A Go runtime panic is an `IndexOutOfRange` outcome, not a crash of the process.
