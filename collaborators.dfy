/**
 * The code the verifier calls but does not contain: parameter validation,
 * SRS file readers, the KZG/FFT library, the Reed-Solomon coder and the
 * BN254 group and pairing operations. Each is a field of `Library`, so the
 * model proves its properties for every behaviour these collaborators
 * might have; only their data shapes are fixed here.
 */
module Collaborators {
  import opened Wrappers
  import opened Uints
  import opened Bn254
  import opened Encoding

  /** kzg.SRS: powers of the secret in G1 and in G2. */
  datatype Srs = Srs(g1: seq<G1Point>, g2: seq<G2Point>)

  /** kzg.FFTSettings: the evaluation domain; the table of its roots of unity. */
  datatype FFTSettings = FFTSettings(maxWidth: uint64, expandedRootsOfUnity: seq<Fr>)

  /** kzg.KZGSettings: an FFT domain bound to an SRS. */
  datatype KzgSettings = KzgSettings(fs: FFTSettings, srs: Srs)

  /** rs.Encoder: the erasure coder bound to one set of encoding parameters. */
  datatype Encoder = Encoder(params: EncodingParams, verbose: bool)

  /** rs.Frame: a chunk without its proof. */
  datatype RsFrame = RsFrame(coeffs: seq<Fr>)

  datatype Library = Library(
    // EncodingParams.Validate: None when the params are acceptable
    validate: EncodingParams -> Option<Error>,
    // kzgrs.ReadG1Points(path, n, workers) and kzgrs.ReadG2Points(path, n, workers)
    readG1Points: (string, uint64, uint64) -> Result<seq<G1Point>, Error>,
    readG2Points: (string, uint64, uint64) -> Result<seq<G2Point>, Error>,
    // kzgrs.ReadG2PointSection(path, from, to, workers)
    readG2PointSection: (string, uint64, uint64, uint64) -> Result<seq<G2Point>, Error>,
    // kzgrs.ReadG1Point(n, config) and kzgrs.ReadG2Point(n, config): one SRS point from file
    readG1Point: (uint64, KzgConfig) -> Result<G1Point, Error>,
    readG2Point: (uint64, KzgConfig) -> Result<G2Point, Error>,
    // kzg.NewSrs, kzg.NewFFTSettings (argument: log2 of the width), kzg.NewKZGSettings
    newSrs: (seq<G1Point>, seq<G2Point>) -> Result<Srs, Error>,
    newFFTSettings: uint8 -> FFTSettings,
    newKzgSettings: (FFTSettings, Srs) -> Result<KzgSettings, Error>,
    // rs.NewEncoder(params, verbose), rs.GetLeadingCosetIndex(index, numChunks), Encoder.Decode
    newEncoder: (EncodingParams, bool) -> Result<Encoder, Error>,
    leadingCosetIndex: (uint64, uint64) -> Result<uint64, Error>,
    decode: (Encoder, seq<RsFrame>, seq<uint64>, uint64) -> Result<seq<uint8>, Error>,
    // bn254 generators, group operations and the pairing check e(a, b) == e(c, d)
    genG1: G1Point,
    genG2: G2Point,
    mulG2: (G2Point, Fr) -> G2Point,
    subG2: (G2Point, G2Point) -> G2Point,
    linCombG1: (seq<G1Point>, seq<Fr>) -> G1Point,
    subG1: (G1Point, G1Point) -> G1Point,
    pairingsVerify: (G1Point, G2Point, G1Point, G2Point) -> bool)
}
