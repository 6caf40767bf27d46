/**
 * The foreign kzg-rs (succinctlabs) API that `kzg_rs.rs` verifies with:
 * loading its bundled trusted setup, wrapping raw bytes as a `Blob` and as
 * `Bytes48`, and its blob-proof verification predicate. Internals are not
 * modelled; errors are the `{:?}` rendering of kzg-rs's `KzgError`.
 */
module KzgRsLibrary {
  import opened RustStd
  import KzgLibrary

  /** kzg-rs `KzgSettings`. */
  type RsSettings(!new)
  /** kzg-rs `Blob`. */
  type RsBlob(!new)
  /** kzg-rs `Bytes48`. */
  type RsBytes48(!new)

  datatype RsLibrary = RsLibrary(
    /** `KzgSettings::load_trusted_setup_file()`; deterministic, so one value. */
    loadTrustedSetupFile: Result<RsSettings, string>,
    /** `Blob::from_slice`. */
    blobFromSlice: seq<Byte> -> Result<RsBlob, string>,
    /** `Bytes48::from_slice`. */
    bytes48FromSlice: seq<Byte> -> Result<RsBytes48, string>,
    /** `KzgProof::verify_blob_kzg_proof`. */
    verifyBlobKzgProof: (RsBlob, RsBytes48, RsBytes48, RsSettings) -> Result<bool, string>
  )

  /**
   * ASSUMPTION about the foreign library, not proved from this crate's
   * code: `Blob::from_slice` rejects every byte string whose length is not
   * `BYTES_PER_BLOB` (EIP-4844 "Parameters").
   */
  ghost predicate RsChecksBlobLength(lib: RsLibrary)
  {
    forall bytes: seq<Byte> {:trigger lib.blobFromSlice(bytes)} ::
      |bytes| != KzgLibrary.BYTES_PER_BLOB ==> lib.blobFromSlice(bytes).Err?
  }
}

/**
 * `kzg_rs.rs`: the `KzgRs` backend. kzg-rs offers verification only, so
 * commitment and proof generation are forwarded to `RustKzgZkcrypto`, while
 * verification runs on kzg-rs with settings from a separate process-wide
 * cell, `KZG_RS_SETTINGS`.
 */
module KzgRsBackend {
  import opened RustStd
  import opened Error
  import opened Stages
  import opened SettingsCache
  import opened KzgRsLibrary
  import KzgLibrary
  import KzgBlend
  import opened RustKzgZkcryptoBackend

  const LOAD_FAILED: string := "Failed to load kzg-rs trusted setup: "

  /** The initialiser of `get_kzg_rs_settings`: load kzg-rs's trusted setup. */
  function InitKzgRsSettings(lib: RsLibrary): (loaded: Result<RsSettings, string>)
    ensures loaded.Ok? <==> lib.loadTrustedSetupFile.Ok?
    ensures loaded.Ok? ==> loaded.value == lib.loadTrustedSetupFile.value
    ensures loaded.Err? ==> loaded.error == LOAD_FAILED + lib.loadTrustedSetupFile.error
  {
    lib.loadTrustedSetupFile.MapErr(e => LOAD_FAILED + e)
  }

  /** `get_kzg_rs_settings`, over the process-wide cell `KZG_RS_SETTINGS`. */
  method GetKzgRsSettings(cell: OnceLock<Result<RsSettings, string>>, lib: RsLibrary)
    returns (r: RaikoResult<RsSettings>)
    modifies cell
    ensures cell.value == Fill(old(cell.value), InitKzgRsSettings(lib))
    ensures r == SettingsOutcome(cell.value.value)
  {
    r := GetSettings(cell, InitKzgRsSettings(lib));
  }

  /**
   * `KzgRs::verify_blob_kzg_proof`, once its cell holds `stored`: a settings
   * failure comes first, and otherwise verification accepts iff kzg-rs
   * accepts the blob, commitment and proof and its predicate answers `Ok(true)`.
   */
  function VerifyBlobKzgProofFrom(lib: RsLibrary, stored: Result<RsSettings, string>, blob: seq<Byte>, commitment: Bytes48, proof: Bytes48)
    : (r: RaikoResult<()>)
    ensures stored.Err? ==> r == Err(InvalidBlobOption(SETTINGS_INIT_FAILED + stored.error))
    ensures r.Ok? <==> PredicateOutcome(lib, stored, blob, commitment, proof) == Some(Ok(true))
  {
    var settings :- SettingsOutcome(stored);
    var blobObj :- lib.blobFromSlice(blob).MapErr(e => InvalidBlobOption(INVALID_BLOB + e));
    var commitmentBytes :- lib.bytes48FromSlice(commitment).MapErr(e => InvalidBlobOption(INVALID_COMMITMENT + e));
    var proofBytes :- lib.bytes48FromSlice(proof).MapErr(e => InvalidBlobOption(INVALID_PROOF + e));
    var isValid :- lib.verifyBlobKzgProof(blobObj, commitmentBytes, proofBytes, settings)
      .MapErr(e => InvalidBlobOption(VERIFICATION_ERROR + e));
    if !isValid then Err(InvalidBlobOption(PROOF_REJECTED)) else Ok(())
  }

  /** The outcome of the kzg-rs predicate, when every earlier step has succeeded. */
  function PredicateOutcome(lib: RsLibrary, stored: Result<RsSettings, string>, blob: seq<Byte>, commitment: Bytes48, proof: Bytes48)
    : Option<Result<bool, string>>
  {
    var blobObj := lib.blobFromSlice(blob);
    var commitmentBytes := lib.bytes48FromSlice(commitment);
    var proofBytes := lib.bytes48FromSlice(proof);
    if stored.Ok? && blobObj.Ok? && commitmentBytes.Ok? && proofBytes.Ok?
    then Some(lib.verifyBlobKzgProof(blobObj.value, commitmentBytes.value, proofBytes.value, stored.value))
    else None
  }

  /** The steps of kzg-rs verification, in chain order. */
  function VerifyChecks(lib: RsLibrary, stored: Result<RsSettings, string>, blob: seq<Byte>, commitment: Bytes48, proof: Bytes48)
    : seq<Check>
  {
    var answer := PredicateOutcome(lib, stored, blob, commitment, proof);
    [ StepCheck(SettingsLoad, stored, SETTINGS_INIT_FAILED),
      StepCheck(BlobDecode, lib.blobFromSlice(blob), INVALID_BLOB),
      StepCheck(CommitmentDecode, lib.bytes48FromSlice(commitment), INVALID_COMMITMENT),
      StepCheck(ProofDecode, lib.bytes48FromSlice(proof), INVALID_PROOF),
      if answer.Some? then StepCheck(VerifyPrimitive, answer.value, VERIFICATION_ERROR)
      else Check(VerifyPrimitive, None),
      Check(Rejected, if answer == Some(Ok(false)) then Some(InvalidBlobOption(PROOF_REJECTED)) else None) ]
  }

  /**
   * kzg-rs verification accepts iff the settings load, the blob, commitment
   * and proof are accepted by kzg-rs and its predicate answers `Ok(true)`;
   * otherwise the error is exactly that of the first failing step, in the
   * order settings, blob ("Invalid blob: ", not rust-kzg's "Failed to convert
   * blob: "), commitment, proof, predicate; `false` is reported as a
   * rejection, distinct from a predicate error.
   */
  lemma VerifyFirstFailureDecides(lib: RsLibrary, stored: Result<RsSettings, string>, blob: seq<Byte>, commitment: Bytes48, proof: Bytes48)
    ensures var r := VerifyBlobKzgProofFrom(lib, stored, blob, commitment, proof);
      var first := FirstFailure(VerifyChecks(lib, stored, blob, commitment, proof));
      && (r.Ok? <==> first.None?)
      && (r.Ok? <==> PredicateOutcome(lib, stored, blob, commitment, proof) == Some(Ok(true)))
      && (r.Err? ==> first.Some? && r.error == first.value.failure.value
                     && StageOf(r.error.msg) == Some(first.value.stage))
      && (PredicateOutcome(lib, stored, blob, commitment, proof) == Some(Ok(false)) ==>
            r == Err(InvalidBlobOption(PROOF_REJECTED)))
  {
    var checks := VerifyChecks(lib, stored, blob, commitment, proof);
    var blobObj := lib.blobFromSlice(blob);
    var commitmentBytes := lib.bytes48FromSlice(commitment);
    var proofBytes := lib.bytes48FromSlice(proof);
    if stored.Err? {
      StageOfFail(SettingsLoad, stored.error);
      FirstFailureAt(checks, 0);
    } else if blobObj.Err? {
      StageOfInvalidBlob(blobObj.error);
      FirstFailureAt(checks, 1);
    } else if commitmentBytes.Err? {
      StageOfFail(CommitmentDecode, commitmentBytes.error);
      FirstFailureAt(checks, 2);
    } else if proofBytes.Err? {
      StageOfFail(ProofDecode, proofBytes.error);
      FirstFailureAt(checks, 3);
    } else {
      var answer := lib.verifyBlobKzgProof(blobObj.value, commitmentBytes.value, proofBytes.value, stored.value);
      if answer.Err? {
        StageOfFail(VerifyPrimitive, answer.error);
        FirstFailureAt(checks, 4);
      } else if !answer.value {
        StageOfFail(Rejected, "");
        FirstFailureAt(checks, 5);
      }
    }
  }

  /**
   * Under the labelled assumption that kzg-rs checks the blob length, a blob
   * of any other length than `BYTES_PER_BLOB` is refused by kzg-rs
   * verification, with the settings error or, when the settings loaded, the
   * "Invalid blob: " error.
   */
  lemma WrongLengthBlobRefused(lib: RsLibrary, stored: Result<RsSettings, string>, blob: seq<Byte>, commitment: Bytes48, proof: Bytes48)
    requires RsChecksBlobLength(lib)
    requires |blob| != KzgLibrary.BYTES_PER_BLOB
    ensures lib.blobFromSlice(blob).Err?
    ensures VerifyBlobKzgProofFrom(lib, stored, blob, commitment, proof)
         == Err(if stored.Err? then InvalidBlobOption(SETTINGS_INIT_FAILED + stored.error)
                else InvalidBlobOption(INVALID_BLOB + lib.blobFromSlice(blob).error))
  {
    assert lib.blobFromSlice(blob).Err?;
  }

  /**
   * `KzgRs`: a field-less struct. `generator` is the `RustKzgZkcrypto` it
   * forwards generation to (with that backend's settings cell), `lib` the
   * linked kzg-rs library and `cell` the static `KZG_RS_SETTINGS`.
   */
  class KzgRs {
    const generator: RustKzgZkcrypto
    const lib: RsLibrary
    const cell: OnceLock<Result<RsSettings, string>>

    /** The two settings cells are two different statics. */
    predicate Valid()
    {
      cell as object != generator.cell as object
    }

    constructor (generator: RustKzgZkcrypto, lib: RsLibrary, cell: OnceLock<Result<RsSettings, string>>)
      requires cell as object != generator.cell as object
      ensures this.generator == generator && this.lib == lib && this.cell == cell
      ensures Valid()
    {
      this.generator := generator;
      this.lib := lib;
      this.cell := cell;
    }

    /** `blob_to_commitment`: forwarded to `RustKzgZkcrypto`, errors included. */
    method BlobToCommitment(blob: seq<Byte>) returns (r: RaikoResult<Bytes48>)
      requires Valid()
      modifies generator.cell
      ensures generator.cell.value == Fill(old(generator.cell.value), KzgBlend.InitKzgSettings(generator.lib))
      ensures r == KzgBlend.BlobToCommitmentFrom(generator.lib, generator.Stored(), blob)
      ensures unchanged(cell)
    {
      r := generator.BlobToCommitment(blob);
    }

    /** `blob_to_proof`: forwarded to `RustKzgZkcrypto`, errors included. */
    method BlobToProof(blob: seq<Byte>, commitment: Bytes48) returns (r: RaikoResult<Bytes48>)
      requires Valid()
      modifies generator.cell
      ensures generator.cell.value == Fill(old(generator.cell.value), KzgBlend.InitKzgSettings(generator.lib))
      ensures r == KzgBlend.BlobToProofFrom(generator.lib, generator.Stored(), blob, commitment)
      ensures unchanged(cell)
    {
      r := generator.BlobToProof(blob, commitment);
    }

    /**
     * `verify_blob_kzg_proof`: native kzg-rs verification, reading only this
     * backend's own settings cell, never the zkcrypto one.
     */
    method VerifyBlobKzgProof(blob: seq<Byte>, commitment: Bytes48, proof: Bytes48) returns (r: RaikoResult<()>)
      requires Valid()
      modifies cell
      ensures cell.value == Fill(old(cell.value), InitKzgRsSettings(lib))
      ensures r == VerifyBlobKzgProofFrom(lib, cell.value.value, blob, commitment, proof)
      ensures unchanged(generator.cell)
    {
      var settings :- GetKzgRsSettings(cell, lib);
      var blobObj :- lib.blobFromSlice(blob).MapErr(e => InvalidBlobOption(INVALID_BLOB + e));
      var commitmentBytes :- lib.bytes48FromSlice(commitment).MapErr(e => InvalidBlobOption(INVALID_COMMITMENT + e));
      var proofBytes :- lib.bytes48FromSlice(proof).MapErr(e => InvalidBlobOption(INVALID_PROOF + e));
      var isValid :- lib.verifyBlobKzgProof(blobObj, commitmentBytes, proofBytes, settings)
        .MapErr(e => InvalidBlobOption(VERIFICATION_ERROR + e));
      if !isValid {
        return Err(InvalidBlobOption(PROOF_REJECTED));
      }
      r := Ok(());
    }
  }
}
