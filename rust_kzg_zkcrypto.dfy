/**
 * `rust_kzg_zkcrypto.rs`: the `RustKzgZkcrypto` backend, which implements
 * the three operations of the backend interface over rust-kzg (zkcrypto)
 * with its own process-wide settings cell.
 *
 * The file repeats, word for word, `get_kzg_settings`, `init_kzg_settings`
 * and `g1_to_kzg_commitment_bytes` of `lib.rs` over its own static cell;
 * the model uses the one definition of each in `KzgBlend`, applied to this
 * backend's cell. Each operation fetches the settings first, then runs the
 * same steps as the `lib.rs` entry point, and is proved to return exactly
 * what that entry point returns from the same stored settings.
 */
module RustKzgZkcryptoBackend {
  import opened RustStd
  import opened Error
  import opened Stages
  import opened KzgLibrary
  import opened KzgBlend

  /**
   * `RustKzgZkcrypto`: a field-less struct. `lib` is the linked rust-kzg
   * library and `cell` this file's static `KZG_SETTINGS`; both are fixed, so
   * no operation changes the backend value itself (every operation takes
   * `&self`), only the settings cell.
   */
  class RustKzgZkcrypto {
    const lib: Library
    const cell: OnceLock<Result<Settings, string>>

    constructor (lib: Library, cell: OnceLock<Result<Settings, string>>)
      ensures this.lib == lib && this.cell == cell
    {
      this.lib := lib;
      this.cell := cell;
    }

    /** The settings this backend holds once its cell is filled. */
    ghost function Stored(): Result<Settings, string>
      reads cell
      requires cell.value.Some?
    {
      cell.value.value
    }

    /** `blob_to_commitment`: settings, then blob conversion, then the commitment primitive. */
    method BlobToCommitment(blob: seq<Byte>) returns (r: RaikoResult<Bytes48>)
      modifies cell
      ensures cell.value == Fill(old(cell.value), InitKzgSettings(lib))
      ensures r == BlobToCommitmentFrom(lib, Stored(), blob)
    {
      var settings :- GetKzgSettings(cell, lib);
      var fields :- lib.bytesToBlob(blob).MapErr(e => InvalidBlobOption(CONVERT_BLOB_FAILED + e));
      var commitment :- lib.blobToCommitment(fields, settings)
        .MapErr(e => InvalidBlobOption(COMPUTE_COMMITMENT_FAILED + e));
      r := Ok(G1ToKzgCommitmentBytes(lib, commitment));
    }

    /**
     * `blob_to_proof`: settings, blob conversion, commitment decoding, then
     * the proof primitive over the caller's commitment, which is trusted and
     * never recomputed.
     */
    method BlobToProof(blob: seq<Byte>, commitment: Bytes48) returns (r: RaikoResult<Bytes48>)
      modifies cell
      ensures cell.value == Fill(old(cell.value), InitKzgSettings(lib))
      ensures r == BlobToProofFrom(lib, Stored(), blob, commitment)
    {
      var settings :- GetKzgSettings(cell, lib);
      var fields :- lib.bytesToBlob(blob).MapErr(e => InvalidBlobOption(CONVERT_BLOB_FAILED + e));
      var point :- lib.g1FromBytes(commitment).MapErr(e => InvalidBlobOption(INVALID_COMMITMENT + e));
      var proof :- lib.computeProof(fields, point, settings)
        .MapErr(e => InvalidBlobOption(COMPUTE_PROOF_FAILED + e));
      r := Ok(G1ToKzgCommitmentBytes(lib, proof));
    }

    /**
     * `verify_blob_kzg_proof`: settings, blob, commitment and proof decoding,
     * then the predicate; `false` becomes the rejection error.
     */
    method VerifyBlobKzgProof(blob: seq<Byte>, commitment: Bytes48, proof: Bytes48) returns (r: RaikoResult<()>)
      modifies cell
      ensures cell.value == Fill(old(cell.value), InitKzgSettings(lib))
      ensures r == VerifyBlobKzgProofFrom(lib, Stored(), blob, commitment, proof)
      ensures r.Ok? <==> PredicateOutcome(lib, Stored(), blob, commitment, proof) == Some(Ok(true))
    {
      var settings :- GetKzgSettings(cell, lib);
      var fields :- lib.bytesToBlob(blob).MapErr(e => InvalidBlobOption(CONVERT_BLOB_FAILED + e));
      var commitmentPoint :- lib.g1FromBytes(commitment).MapErr(e => InvalidBlobOption(INVALID_COMMITMENT + e));
      var proofPoint :- lib.g1FromBytes(proof).MapErr(e => InvalidBlobOption(INVALID_PROOF + e));
      var isValid :- lib.verifyProof(fields, commitmentPoint, proofPoint, settings)
        .MapErr(e => InvalidBlobOption(VERIFICATION_ERROR + e));
      if !isValid {
        return Err(InvalidBlobOption(PROOF_REJECTED));
      }
      r := Ok(());
    }
  }
}
