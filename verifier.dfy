/**
 * The KZG verifier of encoding/kzgrs/verifier/verifier.go: a cache of
 * per-parameter verification contexts, the low-degree check, the
 * multi-reveal (frame) check and the decode entry point.
 */
module KzgVerifier {
  import opened Wrappers
  import opened Uints
  import opened Bn254
  import opened Encoding
  import opened Collaborators

  /** What NewVerifier obtains from the SRS files. */
  datatype Setup = Setup(srs: Srs, g2Trailing: seq<G2Point>)

  /**
   * The fallible part of NewVerifier: the order guard, then the G1 points,
   * then (depending on loadG2Points) the G2 points and their trailing
   * section or the G2PowerOf2Path check, then the SRS.
   */
  function LoadSrs(lib: Library, config: KzgConfig, loadG2Points: bool): (r: Result<Setup, Error>)
    ensures config.srsNumberToLoad > config.srsOrder ==> r == Failure(SrsOrderTooSmall)
    ensures r.Success? ==>
      && config.srsNumberToLoad <= config.srsOrder
      && lib.readG1Points(config.g1Path, config.srsNumberToLoad, config.numWorker).Success?
    ensures r.Success? && loadG2Points ==>
      && |config.g2Path| > 0
      && lib.readG2PointSection(config.g2Path, config.srsOrder - config.srsNumberToLoad,
                                config.srsOrder, config.numWorker) == Success(r.value.g2Trailing)
    ensures r.Success? && !loadG2Points ==> |config.g2PowerOf2Path| > 0 && r.value.g2Trailing == []
    ensures !loadG2Points && |config.g2PowerOf2Path| == 0 ==> r.Failure?
    // the SRS is the one built from the G1 points and (when loaded) the G2 points read
    ensures r.Success? ==>
      var g1 := lib.readG1Points(config.g1Path, config.srsNumberToLoad, config.numWorker);
      var g2 := if loadG2Points then lib.readG2Points(config.g2Path, config.srsNumberToLoad, config.numWorker)
                else Success([]);
      g1.Success? && g2.Success? && lib.newSrs(g1.value, g2.value) == Success(r.value.srs)
    // each step's error is passed back unchanged, in the order the steps run
    ensures config.srsNumberToLoad <= config.srsOrder ==>
      var g1 := lib.readG1Points(config.g1Path, config.srsNumberToLoad, config.numWorker);
      && (g1.Failure? ==> r == Failure(g1.error))
      && (g1.Success? && loadG2Points && |config.g2Path| == 0 ==> r == Failure(G2PathEmpty))
      && (g1.Success? && !loadG2Points && |config.g2PowerOf2Path| == 0 ==> r == Failure(G2PowerOf2PathEmpty))
    ensures config.srsNumberToLoad <= config.srsOrder && loadG2Points && |config.g2Path| > 0 ==>
      var g1 := lib.readG1Points(config.g1Path, config.srsNumberToLoad, config.numWorker);
      var g2 := lib.readG2Points(config.g2Path, config.srsNumberToLoad, config.numWorker);
      var trailing := lib.readG2PointSection(config.g2Path, config.srsOrder - config.srsNumberToLoad,
                                             config.srsOrder, config.numWorker);
      && (g1.Success? && g2.Failure? ==> r == Failure(g2.error))
      && (g1.Success? && g2.Success? && trailing.Failure? ==> r == Failure(trailing.error))
      && (g1.Success? && g2.Success? && trailing.Success? && lib.newSrs(g1.value, g2.value).Failure? ==>
            r == Failure(lib.newSrs(g1.value, g2.value).error))
    ensures config.srsNumberToLoad <= config.srsOrder && !loadG2Points && |config.g2PowerOf2Path| > 0 ==>
      var g1 := lib.readG1Points(config.g1Path, config.srsNumberToLoad, config.numWorker);
      g1.Success? && lib.newSrs(g1.value, []).Failure? ==> r == Failure(lib.newSrs(g1.value, []).error)
    // when every step succeeds, the load succeeds with the SRS built and the trailing points read
    ensures config.srsNumberToLoad <= config.srsOrder ==>
      var g1 := lib.readG1Points(config.g1Path, config.srsNumberToLoad, config.numWorker);
      var g2 := if loadG2Points then lib.readG2Points(config.g2Path, config.srsNumberToLoad, config.numWorker)
                else Success([]);
      var trailing := if loadG2Points
                      then lib.readG2PointSection(config.g2Path, config.srsOrder - config.srsNumberToLoad,
                                                  config.srsOrder, config.numWorker)
                      else Success([]);
      && g1.Success?
      && (if loadG2Points then |config.g2Path| > 0 else |config.g2PowerOf2Path| > 0)
      && g2.Success? && trailing.Success?
      && lib.newSrs(g1.value, g2.value).Success? ==>
        r == Success(Setup(lib.newSrs(g1.value, g2.value).value, trailing.value))
  {
    if config.srsNumberToLoad > config.srsOrder then Failure(SrsOrderTooSmall)
    else match lib.readG1Points(config.g1Path, config.srsNumberToLoad, config.numWorker)
      case Failure(e) => Failure(e)
      case Success(s1) =>
        var g2: Result<(seq<G2Point>, seq<G2Point>), Error> :=
          if loadG2Points then
            if |config.g2Path| == 0 then Failure(G2PathEmpty)
            else match lib.readG2Points(config.g2Path, config.srsNumberToLoad, config.numWorker)
              case Failure(e) => Failure(e)
              case Success(s2) =>
                // the guard above keeps this subtraction from wrapping
                match lib.readG2PointSection(config.g2Path, config.srsOrder - config.srsNumberToLoad,
                                             config.srsOrder, config.numWorker)
                case Failure(e) => Failure(e)
                case Success(trailing) => Success((s2, trailing))
          else if |config.g2PowerOf2Path| == 0 then Failure(G2PowerOf2PathEmpty)
          else Success(([], []));
        match g2
        case Failure(e) => Failure(e)
        case Success((s2, trailing)) =>
          match lib.newSrs(s1, s2)
          case Failure(e) => Failure(e)
          case Success(srs) => Success(Setup(srs, trailing))
  }

  /** Verification context for one EncodingParams; immutable once built. */
  datatype ParametrizedVerifier = ParametrizedVerifier(
    config: KzgConfig,
    srs: Srs,
    encoder: Encoder,
    fs: FFTSettings,
    ks: KzgSettings)
  {
    /** The chunk count of the params the coder was built for. */
    function NumChunks(): uint64 {
      encoder.params.numChunks
    }

    /**
     * Checks one frame: the coset of its chunk index, the SRS G2 point at
     * the frame's coefficient count, then the opening equation at the
     * coset's root of unity.
     */
    method VerifyFrame(lib: Library, commit: G1Point, f: Frame, index: uint64) returns (r: Outcome)
      ensures r == FrameOutcome(lib, this, commit, f, index)
      ensures r == Pass ==>
        && lib.leadingCosetIndex(index, NumChunks()).Success?
        && lib.leadingCosetIndex(index, NumChunks()).value < |ks.fs.expandedRootsOfUnity|
    {
      var j := lib.leadingCosetIndex(index, NumChunks());
      if j.Failure? {
        return Fail(j.error);
      }
      var g2Atn := lib.readG2Point(|f.coeffs|, config);
      if g2Atn.Failure? {
        return Fail(g2Atn.error);
      }
      // indexing the root table and slicing the SRS panic when out of range
      if j.value >= |ks.fs.expandedRootsOfUnity| || |f.coeffs| > |ks.srs.g1| {
        return Fail(IndexOutOfRange);
      }
      // `_default` is Dafny's name for the module's top-level scope; without it this
      // name would resolve to the member VerifyFrame of this datatype
      var ok := _default.VerifyFrame(lib, f, ks, commit, ks.fs.expandedRootsOfUnity[j.value], g2Atn.value);
      if !ok {
        return Fail(MultirevealProofFails);
      }
      return Pass;
    }
  }

  /**
   * The multi-reveal opening equation e(C - [I(s)]_1, G2) == e(proof, [s^n - x^n]_2)
   * for a frame with n coefficients at the evaluation point x, with x^n taken in Fr.
   */
  function OpeningHolds(lib: Library, f: Frame, ks: KzgSettings, commitment: G1Point, x: Fr, g2Atn: G2Point): bool
    requires |f.coeffs| <= |ks.srs.g1|
  {
    var n := |f.coeffs|;
    var xn2 := lib.mulG2(lib.genG2, Pow(x, n) % R);
    var interpolation := lib.linCombG1(ks.srs.g1[..n], f.coeffs);
    lib.pairingsVerify(lib.subG1(commitment, interpolation), lib.genG2, f.proof, lib.subG2(g2Atn, xn2))
  }

  /** What ParametrizedVerifier.VerifyFrame returns for one frame. */
  function FrameOutcome(lib: Library, pv: ParametrizedVerifier, commit: G1Point, f: Frame, index: uint64): Outcome {
    match lib.leadingCosetIndex(index, pv.NumChunks())
    case Failure(e) => Fail(e)
    case Success(j) =>
      match lib.readG2Point(|f.coeffs|, pv.config)
      case Failure(e) => Fail(e)
      case Success(g2Atn) =>
        if j >= |pv.ks.fs.expandedRootsOfUnity| || |f.coeffs| > |pv.ks.srs.g1| then Fail(IndexOutOfRange)
        else if OpeningHolds(lib, f, pv.ks, commit, pv.ks.fs.expandedRootsOfUnity[j], g2Atn) then Pass
        else Fail(MultirevealProofFails)
  }

  /**
   * The frame check with x^n computed as the source does: n modular
   * multiplications starting from the field's one.
   */
  method VerifyFrame(lib: Library, f: Frame, ks: KzgSettings, commitment: G1Point, x: Fr, g2Atn: G2Point)
    returns (ok: bool)
    requires |f.coeffs| <= |ks.srs.g1|
    ensures ok == OpeningHolds(lib, f, ks, commitment, x, g2Atn)
  {
    var xPow: Fr := ONE;
    var tmp: Fr;
    for i := 0 to |f.coeffs|
      invariant xPow == Pow(x, i) % R
    {
      tmp := MulModFr(xPow, x);
      MulModPow(x, i);
      xPow := tmp;
    }
    // x^n times the G2 generator
    var xn2 := lib.mulG2(lib.genG2, xPow);
    // the SRS G2 point for s^n, minus the point above
    var xnMinusYn := lib.subG2(g2Atn, xn2);
    // the frame's polynomial evaluated at the secret, in G1, from the SRS powers
    var is1 := lib.linCombG1(ks.srs.g1[..|f.coeffs|], f.coeffs);
    var commitMinusInterpolation := lib.subG1(commitment, is1);
    ok := lib.pairingsVerify(commitMinusInterpolation, lib.genG2, f.proof, xnMinusYn);
  }

  /**
   * The low-degree check: the challenge point is paired with the length
   * commitment and the G1 generator with the proof, e(challenge, lengthCommit) == e(G1, proof).
   */
  function VerifyLowDegreeProof(lib: Library, lengthCommit: G2Point, proof: G2Point, g1Challenge: G1Point): bool {
    lib.pairingsVerify(g1Challenge, lengthCommit, lib.genG1, proof)
  }

  /**
   * What VerifyFrames reports for frames[from..]: the outcome of the first
   * frame that does not pass, a panic when the indices run out first, or Pass.
   */
  function FirstFailure(lib: Library, pv: ParametrizedVerifier, commit: G1Point,
                        frames: seq<Frame>, indices: seq<ChunkNumber>, from: nat): Outcome
    requires from <= |frames|
    decreases |frames| - from
  {
    if from == |frames| then Pass
    else if from >= |indices| then Fail(IndexOutOfRange)
    else match FrameOutcome(lib, pv, commit, frames[from], indices[from] as int)
      case Fail(e) => Fail(e)
      case Pass => FirstFailure(lib, pv, commit, frames, indices, from + 1)
  }

  /** Frame i has an index and passes on its own. */
  predicate FramePasses(lib: Library, pv: ParametrizedVerifier, commit: G1Point,
                        frames: seq<Frame>, indices: seq<ChunkNumber>, i: nat)
    requires i < |frames|
  {
    i < |indices| && FrameOutcome(lib, pv, commit, frames[i], indices[i] as int) == Pass
  }

  /** The batch passes exactly when every frame has an index and passes on its own. */
  lemma {:induction false} FirstFailurePassIff(lib: Library, pv: ParametrizedVerifier, commit: G1Point,
                                               frames: seq<Frame>, indices: seq<ChunkNumber>, from: nat)
    requires from <= |frames|
    ensures FirstFailure(lib, pv, commit, frames, indices, from) == Pass <==>
      forall i :: from <= i < |frames| ==>
        FramePasses(lib, pv, commit, frames, indices, i)
    decreases |frames| - from
  {
    if from < |frames| {
      if from < |indices| {
        FirstFailurePassIff(lib, pv, commit, frames, indices, from + 1);
        if !FramePasses(lib, pv, commit, frames, indices, from) {
          assert FirstFailure(lib, pv, commit, frames, indices, from) != Pass;
        }
      } else {
        assert !FramePasses(lib, pv, commit, frames, indices, from);
      }
    }
  }

  /**
   * When frame k is the first that does not pass, the batch reports its
   * error (a panic when it has no index).
   */
  lemma {:induction false} FirstFailureAt(lib: Library, pv: ParametrizedVerifier, commit: G1Point,
                                          frames: seq<Frame>, indices: seq<ChunkNumber>, from: nat, k: nat)
    requires from <= k < |frames|
    requires forall i :: from <= i < k ==>
      FramePasses(lib, pv, commit, frames, indices, i)
    requires k < |indices| ==> FrameOutcome(lib, pv, commit, frames[k], indices[k] as int) != Pass
    ensures FirstFailure(lib, pv, commit, frames, indices, from) ==
      if k < |indices| then FrameOutcome(lib, pv, commit, frames[k], indices[k] as int)
      else Fail(IndexOutOfRange)
    decreases k - from
  {
    if from < k {
      assert FramePasses(lib, pv, commit, frames, indices, from);
      FirstFailureAt(lib, pv, commit, frames, indices, from + 1, k);
    }
  }

  /** Frames after the first failing one do not influence the batch's result. */
  lemma {:induction false} FirstFailureIgnoresLaterFrames(lib: Library, pv: ParametrizedVerifier, commit: G1Point,
                                       frames: seq<Frame>, later: seq<Frame>, indices: seq<ChunkNumber>, k: nat)
    requires k < |frames|
    requires forall i :: 0 <= i < k ==>
      FramePasses(lib, pv, commit, frames, indices, i)
    requires k < |indices| ==> FrameOutcome(lib, pv, commit, frames[k], indices[k] as int) != Pass
    ensures FirstFailure(lib, pv, commit, frames[..k + 1] + later, indices, 0) ==
            FirstFailure(lib, pv, commit, frames, indices, 0)
  {
    var other := frames[..k + 1] + later;
    forall i | 0 <= i < k
      ensures FramePasses(lib, pv, commit, other, indices, i)
    {
      assert other[i] == frames[i];
      assert FramePasses(lib, pv, commit, frames, indices, i);
    }
    assert other[k] == frames[k];
    FirstFailureAt(lib, pv, commit, frames, indices, 0, k);
    FirstFailureAt(lib, pv, commit, other, indices, 0, k);
  }

  /** rs.Frame values of the chunks, proofs dropped, in order. */
  function ProofsStripped(chunks: seq<Frame>): (frames: seq<RsFrame>)
    ensures |frames| == |chunks|
    ensures forall i :: 0 <= i < |chunks| ==> frames[i].coeffs == chunks[i].coeffs
  {
    if chunks == [] then [] else [RsFrame(chunks[0].coeffs)] + ProofsStripped(chunks[1..])
  }

  /** The chunk numbers as uint64 values, in order. */
  function AsUint64s(indices: seq<ChunkNumber>): (r: seq<uint64>)
    ensures |r| == |indices|
    ensures forall i :: 0 <= i < |indices| ==> r[i] == indices[i] as int
  {
    if indices == [] then [] else [indices[0] as int] + AsUint64s(indices[1..])
  }

  /** toUint64Array: a fresh array holding each chunk number as a uint64. */
  method ToUint64Array(chunkIndices: seq<ChunkNumber>) returns (res: array<uint64>)
    ensures fresh(res)
    ensures res.Length == |chunkIndices|
    ensures res[..] == AsUint64s(chunkIndices)
  {
    res := new uint64[|chunkIndices|];
    for i := 0 to |chunkIndices|
      invariant forall k :: 0 <= k < i ==> res[k] == chunkIndices[k] as int
    {
      res[i] := chunkIndices[i] as int;
    }
    assert res[..] == AsUint64s(chunkIndices);
  }

  /**
   * The top-level verifier: the SRS, and a cache of contexts keyed by
   * encoding parameters. The Go mutex is the atomicity of each method.
   */
  class Verifier {
    const lib: Library
    const config: KzgConfig
    const srs: Srs
    const g2Trailing: seq<G2Point>
    const loadG2Points: bool

    /** The cache: contexts built so far, by the params they were built for. */
    var parametrizedVerifiers: map<EncodingParams, ParametrizedVerifier>

    /** The params of every construction started so far, in order. */
    ghost var Constructed: seq<EncodingParams>

    ghost predicate Valid()
      reads this
    {
      && CacheCoherent(parametrizedVerifiers)
      && forall p :: p in parametrizedVerifiers ==> p in Constructed
    }

    /** Every cached context is exactly what construction yields for its key. */
    ghost predicate CacheCoherent(cache: map<EncodingParams, ParametrizedVerifier>) {
      forall p :: p in cache ==> NewParametrizedVerifier(p) == Success(cache[p])
    }

    constructor (lib: Library, config: KzgConfig, srs: Srs, g2Trailing: seq<G2Point>, loadG2Points: bool)
      ensures Valid()
      ensures this.lib == lib && this.config == config && this.srs == srs
      ensures this.g2Trailing == g2Trailing && this.loadG2Points == loadG2Points
      ensures parametrizedVerifiers == map[] && Constructed == []
    {
      this.lib := lib;
      this.config := config;
      this.srs := srs;
      this.g2Trailing := g2Trailing;
      this.loadG2Points := loadG2Points;
      parametrizedVerifiers := map[];
      Constructed := [];
    }

    /** NewVerifier: fails as LoadSrs does, otherwise a verifier with an empty cache. */
    static method NewVerifier(lib: Library, config: KzgConfig, loadG2Points: bool)
      returns (r: Result<Verifier, Error>)
      ensures config.srsNumberToLoad > config.srsOrder ==> r == Failure(SrsOrderTooSmall)
      ensures LoadSrs(lib, config, loadG2Points).Failure? ==>
        r == Failure(LoadSrs(lib, config, loadG2Points).error)
      ensures LoadSrs(lib, config, loadG2Points).Success? ==>
        && r.Success? && fresh(r.value) && r.value.Valid()
        && r.value.lib == lib && r.value.config == config && r.value.loadG2Points == loadG2Points
        && r.value.srs == LoadSrs(lib, config, loadG2Points).value.srs
        && r.value.g2Trailing == LoadSrs(lib, config, loadG2Points).value.g2Trailing
        && r.value.parametrizedVerifiers == map[]
    {
      var setup := LoadSrs(lib, config, loadG2Points);
      if setup.Failure? {
        return Failure(setup.error);
      }
      var v := new Verifier(lib, config, setup.value.srs, setup.value.g2Trailing, loadG2Points);
      return Success(v);
    }

    /**
     * newKzgVerifier: validate, build the FFT domain of log2(evaluations),
     * the KZG settings over the shared SRS, then the coder.
     */
    function NewParametrizedVerifier(params: EncodingParams): (r: Result<ParametrizedVerifier, Error>)
      ensures lib.validate(params).Some? ==> r == Failure(lib.validate(params).value)
      ensures r.Success? ==>
        && lib.validate(params).None?
        && r.value.config == config && r.value.srs == srs
        && lib.newKzgSettings(r.value.fs, srs) == Success(r.value.ks)
        && lib.newEncoder(params, config.verbose) == Success(r.value.encoder)
      ensures r.Success? && IsPowerOfTwo(params.NumEvaluations()) ==>
        exists n: uint8 :: Pow2(n) == params.NumEvaluations() && r.value.fs == lib.newFFTSettings(n)
      // after validation: the domain of order log2(evaluations), and the library's errors passed back unchanged
      ensures lib.validate(params).None? ==>
        var fs := lib.newFFTSettings(Log2Floor(params.NumEvaluations()));
        var ks := lib.newKzgSettings(fs, srs);
        var encoder := lib.newEncoder(params, config.verbose);
        && (ks.Failure? ==> r == Failure(ks.error))
        && (ks.Success? && encoder.Failure? ==> r == Failure(encoder.error))
        && (ks.Success? && encoder.Success? ==> r.Success?)
        && (r.Success? ==> r.value.fs == fs)
    {
      match lib.validate(params)
      case Some(e) => Failure(e)
      case None =>
        var n: uint8 := Log2Floor(params.NumEvaluations());
        var fs := lib.newFFTSettings(n);
        match lib.newKzgSettings(fs, srs)
        case Failure(e) => Failure(e)
        case Success(ks) =>
          match lib.newEncoder(params, config.verbose)
          case Failure(e) => Failure(e)
          case Success(encoder) =>
            assert IsPowerOfTwo(params.NumEvaluations()) ==> Pow2(n) == params.NumEvaluations() by {
              if IsPowerOfTwo(params.NumEvaluations()) { Log2FloorOfPowerOfTwo(params.NumEvaluations()); }
            }
            Success(ParametrizedVerifier(config, srs, encoder, fs, ks))
    }

    /** The result and the new cache of GetKzgVerifier on a given cache. */
    function GetOrCreate(cache: map<EncodingParams, ParametrizedVerifier>, params: EncodingParams)
      : (Result<ParametrizedVerifier, Error>, map<EncodingParams, ParametrizedVerifier>)
    {
      match lib.validate(params)
      case Some(e) => (Failure(e), cache)
      case None =>
        if params in cache then (Success(cache[params]), cache)
        else
          var ver := NewParametrizedVerifier(params);
          (ver, if ver.Success? then cache[params := ver.value] else cache)
    }

    /** The constructions GetKzgVerifier starts on a given cache: one on a miss, none otherwise. */
    ghost function Started(cache: map<EncodingParams, ParametrizedVerifier>, params: EncodingParams)
      : seq<EncodingParams>
    {
      if lib.validate(params).None? && params !in cache then [params] else []
    }

    /** With a coherent cache, a lookup returns what a fresh construction would, and keeps the cache coherent. */
    lemma CacheIsTransparent(cache: map<EncodingParams, ParametrizedVerifier>, params: EncodingParams)
      requires CacheCoherent(cache)
      ensures GetOrCreate(cache, params).0 == NewParametrizedVerifier(params)
      ensures CacheCoherent(GetOrCreate(cache, params).1)
    {
    }

    /** A second lookup with the same params returns the same result and changes nothing. */
    lemma GetOrCreateIdempotent(cache: map<EncodingParams, ParametrizedVerifier>, params: EncodingParams)
      ensures GetOrCreate(GetOrCreate(cache, params).1, params) == GetOrCreate(cache, params)
    {
    }

    /** A lookup only ever adds the key it was asked for. */
    lemma GetOrCreateFrame(cache: map<EncodingParams, ParametrizedVerifier>, params: EncodingParams)
      ensures cache.Keys <= GetOrCreate(cache, params).1.Keys <= cache.Keys + {params}
      ensures forall p :: p in cache ==> GetOrCreate(cache, params).1[p] == cache[p]
    {
    }

    /** GetKzgVerifier: validate, return the cached context, or build one and cache it if that succeeded. */
    method GetKzgVerifier(params: EncodingParams) returns (r: Result<ParametrizedVerifier, Error>)
      requires Valid()
      modifies this`parametrizedVerifiers, this`Constructed
      ensures Valid()
      ensures (r, parametrizedVerifiers) == GetOrCreate(old(parametrizedVerifiers), params)
      ensures Constructed == old(Constructed) + Started(old(parametrizedVerifiers), params)
      ensures lib.validate(params).Some? ==>
        r == Failure(lib.validate(params).value) && parametrizedVerifiers == old(parametrizedVerifiers)
      ensures lib.validate(params).None? && params in old(parametrizedVerifiers) ==>
        r == Success(old(parametrizedVerifiers)[params]) && parametrizedVerifiers == old(parametrizedVerifiers)
      ensures lib.validate(params).None? && params !in old(parametrizedVerifiers) ==>
        && r == NewParametrizedVerifier(params)
        && parametrizedVerifiers == if r.Success? then old(parametrizedVerifiers)[params := r.value]
                                    else old(parametrizedVerifiers)
      ensures r == NewParametrizedVerifier(params)
    {
      var err := lib.validate(params);
      if err.Some? {
        return Failure(err.value);
      }
      if params in parametrizedVerifiers {
        return Success(parametrizedVerifiers[params]);
      }
      r := NewParametrizedVerifier(params);
      Constructed := Constructed + [params];
      if r.Success? {
        parametrizedVerifiers := parametrizedVerifiers[params := r.value];
      }
    }

    /** NewKzgVerifier: a context built afresh; the cache is not consulted or changed. */
    method NewKzgVerifier(params: EncodingParams) returns (r: Result<ParametrizedVerifier, Error>)
      requires Valid()
      modifies this`Constructed
      ensures Valid()
      ensures r == NewParametrizedVerifier(params)
      ensures parametrizedVerifiers == old(parametrizedVerifiers)
      ensures Constructed == old(Constructed) + if lib.validate(params).None? then [params] else []
    {
      r := NewParametrizedVerifier(params);
      if lib.validate(params).None? {
        Constructed := Constructed + [params];
      }
    }

    /** VerifyCommit: the low-degree check against the SRS G1 point at SRSOrder - length. */
    function VerifyCommit(lengthCommit: G2Point, lowDegreeProof: G2Point, length: uint64): (r: Outcome)
      ensures var challenge := lib.readG1Point(Sub64(config.srsOrder, length), config);
        && (r == Pass <==>
             challenge.Success? && lib.pairingsVerify(challenge.value, lengthCommit, lib.genG1, lowDegreeProof))
        && (challenge.Failure? ==> r == Fail(challenge.error))
        && (challenge.Success? && !lib.pairingsVerify(challenge.value, lengthCommit, lib.genG1, lowDegreeProof) ==>
              r == Fail(LowDegreeProofFails))
    {
      match lib.readG1Point(Sub64(config.srsOrder, length), config)
      case Failure(e) => Fail(e)
      case Success(g1Challenge) =>
        if !VerifyLowDegreeProof(lib, lengthCommit, lowDegreeProof, g1Challenge) then Fail(LowDegreeProofFails)
        else Pass
    }

    /** VerifyBlobLength: the low-degree check on the blob's own length claim. */
    function VerifyBlobLength(commitments: BlobCommitments): (r: Outcome)
      ensures var challenge := lib.readG1Point(Sub64(config.srsOrder, commitments.length), config);
        && (r == Pass <==>
             && challenge.Success?
             && lib.pairingsVerify(challenge.value, commitments.lengthCommitment, lib.genG1, commitments.lengthProof))
        && (challenge.Failure? ==> r == Fail(challenge.error))
        && (challenge.Success? &&
            !lib.pairingsVerify(challenge.value, commitments.lengthCommitment, lib.genG1, commitments.lengthProof) ==>
              r == Fail(LowDegreeProofFails))
    {
      VerifyCommit(commitments.lengthCommitment, commitments.lengthProof, commitments.length)
    }

    /** VerifyFrames: get the context, then check the frames in order, stopping at the first failure. */
    method VerifyFrames(frames: seq<Frame>, indices: seq<ChunkNumber>, commitments: BlobCommitments,
                        params: EncodingParams) returns (r: Outcome)
      requires Valid()
      modifies this`parametrizedVerifiers, this`Constructed
      ensures Valid()
      ensures parametrizedVerifiers == GetOrCreate(old(parametrizedVerifiers), params).1
      ensures Constructed == old(Constructed) + Started(old(parametrizedVerifiers), params)
      ensures var got := NewParametrizedVerifier(params);
        r == if got.Failure? then Fail(got.error)
             else FirstFailure(lib, got.value, commitments.commitment, frames, indices, 0)
    {
      var verifier := GetKzgVerifier(params);
      if verifier.Failure? {
        return Fail(verifier.error);
      }
      for ind := 0 to |frames|
        modifies {}
        invariant FirstFailure(lib, verifier.value, commitments.commitment, frames, indices, ind) ==
                  FirstFailure(lib, verifier.value, commitments.commitment, frames, indices, 0)
      {
        if ind >= |indices| {
          return Fail(IndexOutOfRange);
        }
        r := verifier.value.VerifyFrame(lib, commitments.commitment, frames[ind], indices[ind] as int);
        if r.Fail? {
          return r;
        }
      }
      return Pass;
    }

    /** Decode: strip the proofs, get the context, and hand frames and indices to its coder. */
    method Decode(chunks: seq<Frame>, indices: seq<ChunkNumber>, params: EncodingParams, maxInputSize: uint64)
      returns (r: Result<seq<uint8>, Error>)
      requires Valid()
      modifies this`parametrizedVerifiers, this`Constructed
      ensures Valid()
      ensures parametrizedVerifiers == GetOrCreate(old(parametrizedVerifiers), params).1
      ensures Constructed == old(Constructed) + Started(old(parametrizedVerifiers), params)
      ensures var got := NewParametrizedVerifier(params);
        r == if got.Failure? then Failure(got.error)
             else lib.decode(got.value.encoder, ProofsStripped(chunks), AsUint64s(indices), maxInputSize)
    {
      var frames := new RsFrame[|chunks|];
      for i := 0 to |chunks|
        modifies frames
        invariant forall k :: 0 <= k < i ==> frames[k] == RsFrame(chunks[k].coeffs)
      {
        frames[i] := RsFrame(chunks[i].coeffs);
      }
      assert frames[..] == ProofsStripped(chunks);
      var encoder := GetKzgVerifier(params);
      if encoder.Failure? {
        return Failure(encoder.error);
      }
      var chunkIndices := ToUint64Array(indices);
      r := lib.decode(encoder.value.encoder, frames[..], chunkIndices[..], maxInputSize);
    }
  }
}
