/**
 * The value types the verifier exchanges with its callers: encoding
 * parameters, frames, chunk numbers, blob commitments, the KZG
 * configuration, and the errors a call can end with.
 */
module Encoding {
  import opened Uints
  import opened Bn254

  /** Shape of one erasure coding: symbols per chunk and number of chunks. */
  datatype EncodingParams = EncodingParams(chunkLength: uint64, numChunks: uint64) {

    /** Total evaluation count, computed as a Go uint64 product. */
    function NumEvaluations(): uint64 {
      Mul64(numChunks, chunkLength)
    }
  }

  /** Position of a chunk; a Go `uint` on a 64-bit platform. */
  newtype ChunkNumber = x: int | 0 <= x < TWO_64

  /** One chunk: the coefficients of its coset's interpolating polynomial, and its opening proof. */
  datatype Frame = Frame(proof: G1Point, coeffs: Slice<Fr>)

  /** Public claims about a blob. */
  datatype BlobCommitments = BlobCommitments(
    commitment: G1Point,
    lengthCommitment: G2Point,
    lengthProof: G2Point,
    length: uint64)

  /** Where the structured reference string lives and how much of it to load. */
  datatype KzgConfig = KzgConfig(
    g1Path: string,
    g2Path: string,
    g2PowerOf2Path: string,
    srsOrder: uint64,
    srsNumberToLoad: uint64,
    numWorker: uint64,
    verbose: bool)

  datatype Error =
    | External(code: int)       // an error value handed back by a collaborator
    | SrsOrderTooSmall          // more SRS points requested than the SRS order provides
    | G2PathEmpty               // G2 points must be loaded but G2Path is empty
    | G2PowerOf2PathEmpty       // G2 points are not loaded and G2PowerOf2Path is empty
    | LowDegreeProofFails
    | MultirevealProofFails
    | IndexOutOfRange           // the Go runtime panics on an index or slice bound

  /** Go's `error` result: nil, or the error. */
  datatype Outcome = Pass | Fail(error: Error)
}
