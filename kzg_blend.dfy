/**
 * The crate root (`lib.rs`): the process-wide `KZG_SETTINGS` cache, the
 * commitment, proof and verification pipelines over the rust-kzg
 * (zkcrypto) library, and the EIP-4844 versioned hash of a commitment.
 *
 * Each pipeline is a chain of fallible steps joined by `?`; `:-` plays that
 * part here. The `...WithSettings` functions are the pipelines once settings
 * are at hand; the `...From` functions add the settings step in front, given
 * the outcome stored in the cell; the methods fetch that outcome from the
 * cell first, exactly as the public entry points do.
 */
module KzgBlend {
  import opened RustStd
  import opened Error
  import opened Stages
  import opened KzgLibrary
  import opened SettingsCache

  /** EIP-4844 `VERSIONED_HASH_VERSION_KZG`. */
  const VERSIONED_HASH_VERSION_KZG: Byte := 0x01

  const DESERIALIZE_FAILED: string := "bincode deserialize KZGSettings failed: "

  /** `init_kzg_settings`: decode the embedded trusted setup. */
  function InitKzgSettings(lib: Library): (loaded: Result<Settings, string>)
    ensures loaded.Ok? <==> lib.deserializeSettings.Ok?
    ensures loaded.Ok? ==> loaded.value == lib.deserializeSettings.value
    ensures loaded.Err? ==> loaded.error == DESERIALIZE_FAILED + lib.deserializeSettings.error
  {
    lib.deserializeSettings.MapErr(e => DESERIALIZE_FAILED + e)
  }

  /** `get_kzg_settings`, over the process-wide cell `KZG_SETTINGS`. */
  method GetKzgSettings(cell: OnceLock<Result<Settings, string>>, lib: Library)
    returns (r: RaikoResult<Settings>)
    modifies cell
    ensures cell.value == Fill(old(cell.value), InitKzgSettings(lib))
    ensures r == SettingsOutcome(cell.value.value)
  {
    r := GetSettings(cell, InitKzgSettings(lib));
  }

  /** `g1_to_kzg_commitment_bytes`: copy the point's 48 serialised bytes into a fresh `[u8; 48]`. */
  function G1ToKzgCommitmentBytes(lib: Library, point: G1): (result: Bytes48)
    ensures forall i | 0 <= i < 48 :: result[i] == lib.g1ToBytes(point)[i]
  {
    var bytes := lib.g1ToBytes(point);
    seq(48, i requires 0 <= i < 48 => bytes[i])
  }

  // ---------------------------------------------------------------- commitment

  /**
   * `blob_to_commitment_with_settings`: a commitment exists iff the blob
   * converts and the primitive commits to it, and it is then the serialised
   * commitment point.
   */
  function BlobToCommitmentWithSettings(lib: Library, blob: seq<Byte>, settings: Settings)
    : (r: RaikoResult<Bytes48>)
    ensures r.Ok? <==> lib.bytesToBlob(blob).Ok? && lib.blobToCommitment(lib.bytesToBlob(blob).value, settings).Ok?
    ensures r.Ok? ==> r.value == lib.g1ToBytes(lib.blobToCommitment(lib.bytesToBlob(blob).value, settings).value)
  {
    var fields :- lib.bytesToBlob(blob).MapErr(e => InvalidBlobOption(CONVERT_BLOB_FAILED + e));
    var commitment :- lib.blobToCommitment(fields, settings)
      .MapErr(e => InvalidBlobOption(COMPUTE_COMMITMENT_FAILED + e));
    Ok(G1ToKzgCommitmentBytes(lib, commitment))
  }

  /**
   * `blob_to_commitment`, once its cell holds `stored`: a settings failure is
   * reported before the blob is looked at.
   */
  function BlobToCommitmentFrom(lib: Library, stored: Result<Settings, string>, blob: seq<Byte>)
    : (r: RaikoResult<Bytes48>)
    ensures stored.Err? ==> r == Err(InvalidBlobOption(SETTINGS_INIT_FAILED + stored.error))
    ensures stored.Ok? ==> r == BlobToCommitmentWithSettings(lib, blob, stored.value)
  {
    var settings :- SettingsOutcome(stored);
    BlobToCommitmentWithSettings(lib, blob, settings)
  }

  /** `blob_to_commitment`. */
  method BlobToCommitment(cell: OnceLock<Result<Settings, string>>, lib: Library, blob: seq<Byte>)
    returns (r: RaikoResult<Bytes48>)
    modifies cell
    ensures cell.value == Fill(old(cell.value), InitKzgSettings(lib))
    ensures r == BlobToCommitmentFrom(lib, cell.value.value, blob)
  {
    var settings :- GetKzgSettings(cell, lib);
    r := BlobToCommitmentWithSettings(lib, blob, settings);
  }

  /** The steps of the commitment pipeline, in chain order. */
  function CommitmentChecks(lib: Library, stored: Result<Settings, string>, blob: seq<Byte>)
    : seq<Check>
  {
    var fields := lib.bytesToBlob(blob);
    [ StepCheck(SettingsLoad, stored, SETTINGS_INIT_FAILED),
      StepCheck(BlobDecode, fields, CONVERT_BLOB_FAILED),
      if stored.Ok? && fields.Ok?
      then StepCheck(CommitPrimitive, lib.blobToCommitment(fields.value, stored.value), COMPUTE_COMMITMENT_FAILED)
      else Check(CommitPrimitive, None) ]
  }

  /**
   * The commitment pipeline succeeds iff every step does, its output is then
   * the primitive's point serialised, and a failure is exactly the error of
   * the first failing step (its fixed message followed by the library's
   * cause), whose prefix names that step.
   */
  lemma CommitmentFirstFailureDecides(lib: Library, stored: Result<Settings, string>, blob: seq<Byte>)
    ensures var r := BlobToCommitmentFrom(lib, stored, blob);
      var first := FirstFailure(CommitmentChecks(lib, stored, blob));
      && (r.Ok? <==> first.None?)
      && (r.Ok? ==> r.value == lib.g1ToBytes(lib.blobToCommitment(lib.bytesToBlob(blob).value, stored.value).value))
      && (r.Err? ==> first.Some? && r.error == first.value.failure.value
                     && StageOf(r.error.msg) == Some(first.value.stage))
  {
    var r := BlobToCommitmentFrom(lib, stored, blob);
    var fields := lib.bytesToBlob(blob);
    var checks := CommitmentChecks(lib, stored, blob);
    if stored.Err? {
      StageOfFail(SettingsLoad, stored.error);
      FirstFailureAt(checks, 0);
    } else if fields.Err? {
      StageOfFail(BlobDecode, fields.error);
      FirstFailureAt(checks, 1);
    } else if lib.blobToCommitment(fields.value, stored.value).Err? {
      StageOfFail(CommitPrimitive, lib.blobToCommitment(fields.value, stored.value).error);
      FirstFailureAt(checks, 2);
    } else {
      assert r.value == lib.g1ToBytes(lib.blobToCommitment(fields.value, stored.value).value);
    }
  }

  /**
   * When the blob does not convert, the commitment primitive is not reached:
   * libraries that differ only in that primitive give the same result.
   */
  lemma CommitmentSkipsPrimitiveOnBadBlob(lib: Library, other: Library, stored: Result<Settings, string>, blob: seq<Byte>)
    requires lib.bytesToBlob(blob).Err?
    requires other == lib.(blobToCommitment := other.blobToCommitment)
    ensures BlobToCommitmentFrom(lib, stored, blob) == BlobToCommitmentFrom(other, stored, blob)
    ensures BlobToCommitmentFrom(lib, stored, blob).Err?
  {
  }

  // ---------------------------------------------------------------- proof

  /**
   * `blob_to_proof_with_settings`: the caller's commitment is decoded and
   * trusted, never recomputed. A proof exists iff the blob converts, the
   * commitment decodes and the primitive proves, and it is then the
   * serialised proof point.
   */
  function BlobToProofWithSettings(lib: Library, blob: seq<Byte>, commitment: Bytes48, settings: Settings)
    : (r: RaikoResult<Bytes48>)
    ensures r.Ok? <==> && lib.bytesToBlob(blob).Ok? && lib.g1FromBytes(commitment).Ok?
                       && lib.computeProof(lib.bytesToBlob(blob).value, lib.g1FromBytes(commitment).value, settings).Ok?
    ensures r.Ok? ==> r.value == lib.g1ToBytes(
      lib.computeProof(lib.bytesToBlob(blob).value, lib.g1FromBytes(commitment).value, settings).value)
  {
    var fields :- lib.bytesToBlob(blob).MapErr(e => InvalidBlobOption(CONVERT_BLOB_FAILED + e));
    var point :- lib.g1FromBytes(commitment).MapErr(e => InvalidBlobOption(INVALID_COMMITMENT + e));
    var proof :- lib.computeProof(fields, point, settings)
      .MapErr(e => InvalidBlobOption(COMPUTE_PROOF_FAILED + e));
    Ok(G1ToKzgCommitmentBytes(lib, proof))
  }

  /**
   * `blob_to_proof`, once its cell holds `stored`: a settings failure is
   * reported before the blob or the commitment is looked at.
   */
  function BlobToProofFrom(lib: Library, stored: Result<Settings, string>, blob: seq<Byte>, commitment: Bytes48)
    : (r: RaikoResult<Bytes48>)
    ensures stored.Err? ==> r == Err(InvalidBlobOption(SETTINGS_INIT_FAILED + stored.error))
    ensures stored.Ok? ==> r == BlobToProofWithSettings(lib, blob, commitment, stored.value)
  {
    var settings :- SettingsOutcome(stored);
    BlobToProofWithSettings(lib, blob, commitment, settings)
  }

  /** `blob_to_proof`. */
  method BlobToProof(cell: OnceLock<Result<Settings, string>>, lib: Library, blob: seq<Byte>, commitment: Bytes48)
    returns (r: RaikoResult<Bytes48>)
    modifies cell
    ensures cell.value == Fill(old(cell.value), InitKzgSettings(lib))
    ensures r == BlobToProofFrom(lib, cell.value.value, blob, commitment)
  {
    var settings :- GetKzgSettings(cell, lib);
    r := BlobToProofWithSettings(lib, blob, commitment, settings);
  }

  /** The steps of the proof pipeline, in chain order. */
  function ProofChecks(lib: Library, stored: Result<Settings, string>, blob: seq<Byte>, commitment: Bytes48)
    : seq<Check>
  {
    var fields := lib.bytesToBlob(blob);
    var point := lib.g1FromBytes(commitment);
    [ StepCheck(SettingsLoad, stored, SETTINGS_INIT_FAILED),
      StepCheck(BlobDecode, fields, CONVERT_BLOB_FAILED),
      StepCheck(CommitmentDecode, point, INVALID_COMMITMENT),
      if stored.Ok? && fields.Ok? && point.Ok?
      then StepCheck(ProofPrimitive, lib.computeProof(fields.value, point.value, stored.value), COMPUTE_PROOF_FAILED)
      else Check(ProofPrimitive, None) ]
  }

  /**
   * The proof pipeline succeeds iff every step does, its output is then the
   * proof point serialised, and a failure is exactly the error of the first
   * failing step: the blob is checked before the commitment.
   */
  lemma ProofFirstFailureDecides(lib: Library, stored: Result<Settings, string>, blob: seq<Byte>, commitment: Bytes48)
    ensures var r := BlobToProofFrom(lib, stored, blob, commitment);
      var first := FirstFailure(ProofChecks(lib, stored, blob, commitment));
      && (r.Ok? <==> first.None?)
      && (r.Ok? ==> r.value == lib.g1ToBytes(lib.computeProof(lib.bytesToBlob(blob).value,
                                  lib.g1FromBytes(commitment).value, stored.value).value))
      && (r.Err? ==> first.Some? && r.error == first.value.failure.value
                     && StageOf(r.error.msg) == Some(first.value.stage))
  {
    var r := BlobToProofFrom(lib, stored, blob, commitment);
    var fields := lib.bytesToBlob(blob);
    var point := lib.g1FromBytes(commitment);
    var checks := ProofChecks(lib, stored, blob, commitment);
    if stored.Err? {
      StageOfFail(SettingsLoad, stored.error);
      FirstFailureAt(checks, 0);
    } else if fields.Err? {
      StageOfFail(BlobDecode, fields.error);
      FirstFailureAt(checks, 1);
    } else if point.Err? {
      StageOfFail(CommitmentDecode, point.error);
      FirstFailureAt(checks, 2);
    } else if lib.computeProof(fields.value, point.value, stored.value).Err? {
      StageOfFail(ProofPrimitive, lib.computeProof(fields.value, point.value, stored.value).error);
      FirstFailureAt(checks, 3);
    } else {
      assert r.value == lib.g1ToBytes(lib.computeProof(fields.value, point.value, stored.value).value);
    }
  }

  /**
   * When the settings, the blob or the commitment fail, the proof primitive
   * is not reached: libraries that differ only in that primitive give the
   * same error.
   */
  lemma ProofSkipsPrimitiveOnBadInput(lib: Library, other: Library, stored: Result<Settings, string>, blob: seq<Byte>, commitment: Bytes48)
    requires other == lib.(computeProof := other.computeProof)
    requires stored.Err? || lib.bytesToBlob(blob).Err? || lib.g1FromBytes(commitment).Err?
    ensures BlobToProofFrom(lib, stored, blob, commitment) == BlobToProofFrom(other, stored, blob, commitment)
    ensures BlobToProofFrom(lib, stored, blob, commitment).Err?
  {
  }

  /**
   * The proof pipeline trusts the caller's commitment: it never calls the
   * commitment primitive, so libraries that differ only in that primitive
   * give the same proof, and a well-formed commitment of a DIFFERENT blob is
   * not rejected here.
   */
  lemma ProofTrustsCommitment(lib: Library, other: Library, stored: Result<Settings, string>, blob: seq<Byte>, commitment: Bytes48)
    requires other == lib.(blobToCommitment := other.blobToCommitment)
    ensures BlobToProofFrom(lib, stored, blob, commitment) == BlobToProofFrom(other, stored, blob, commitment)
  {
  }

  /**
   * Nor does it check that the commitment belongs to the blob: under the
   * labelled completeness assumption, a proof is produced even for the
   * commitment of another blob (which then fails verification downstream).
   */
  lemma ProofAcceptsForeignCommitment(lib: Library, blob: seq<Byte>, otherBlob: seq<Byte>, settings: Settings)
    requires Complete(lib)
    requires lib.bytesToBlob(blob).Ok? && lib.bytesToBlob(otherBlob).Ok?
    ensures var c := BlobToCommitmentWithSettings(lib, otherBlob, settings);
      && c.Ok?
      && BlobToProofWithSettings(lib, blob, c.value, settings).Ok?
  {
    var point := lib.blobToCommitment(lib.bytesToBlob(otherBlob).value, settings).value;
    var c := G1ToKzgCommitmentBytes(lib, point);
    assert c == lib.g1ToBytes(point);
    assert lib.g1FromBytes(c) == Ok(point);
    assert lib.computeProof(lib.bytesToBlob(blob).value, point, settings).Ok?;
  }

  // ---------------------------------------------------------------- verification

  /**
   * `verify_blob_kzg_proof_with_settings`: accepts iff the blob, commitment
   * and proof decode and the predicate answers `Ok(true)`.
   */
  function VerifyBlobKzgProofWithSettings(lib: Library, blob: seq<Byte>, commitment: Bytes48, proof: Bytes48, settings: Settings)
    : (r: RaikoResult<()>)
    ensures r.Ok? <==> PredicateOutcome(lib, Ok(settings), blob, commitment, proof) == Some(Ok(true))
  {
    var fields :- lib.bytesToBlob(blob).MapErr(e => InvalidBlobOption(CONVERT_BLOB_FAILED + e));
    var commitmentPoint :- lib.g1FromBytes(commitment).MapErr(e => InvalidBlobOption(INVALID_COMMITMENT + e));
    var proofPoint :- lib.g1FromBytes(proof).MapErr(e => InvalidBlobOption(INVALID_PROOF + e));
    var isValid :- lib.verifyProof(fields, commitmentPoint, proofPoint, settings)
      .MapErr(e => InvalidBlobOption(VERIFICATION_ERROR + e));
    if !isValid then Err(InvalidBlobOption(PROOF_REJECTED)) else Ok(())
  }

  /**
   * `verify_blob_kzg_proof`, once its cell holds `stored`: a settings failure
   * is reported before any input is looked at.
   */
  function VerifyBlobKzgProofFrom(lib: Library, stored: Result<Settings, string>, blob: seq<Byte>, commitment: Bytes48, proof: Bytes48)
    : (r: RaikoResult<()>)
    ensures stored.Err? ==> r == Err(InvalidBlobOption(SETTINGS_INIT_FAILED + stored.error))
    ensures stored.Ok? ==> r == VerifyBlobKzgProofWithSettings(lib, blob, commitment, proof, stored.value)
  {
    var settings :- SettingsOutcome(stored);
    VerifyBlobKzgProofWithSettings(lib, blob, commitment, proof, settings)
  }

  /** `verify_blob_kzg_proof`. */
  method VerifyBlobKzgProof(cell: OnceLock<Result<Settings, string>>, lib: Library, blob: seq<Byte>, commitment: Bytes48, proof: Bytes48)
    returns (r: RaikoResult<()>)
    modifies cell
    ensures cell.value == Fill(old(cell.value), InitKzgSettings(lib))
    ensures r == VerifyBlobKzgProofFrom(lib, cell.value.value, blob, commitment, proof)
  {
    var settings :- GetKzgSettings(cell, lib);
    r := VerifyBlobKzgProofWithSettings(lib, blob, commitment, proof, settings);
  }

  /** The outcome of the verification predicate, when every earlier step has succeeded. */
  function PredicateOutcome(lib: Library, stored: Result<Settings, string>, blob: seq<Byte>, commitment: Bytes48, proof: Bytes48)
    : Option<Result<bool, string>>
  {
    var fields := lib.bytesToBlob(blob);
    var commitmentPoint := lib.g1FromBytes(commitment);
    var proofPoint := lib.g1FromBytes(proof);
    if stored.Ok? && fields.Ok? && commitmentPoint.Ok? && proofPoint.Ok?
    then Some(lib.verifyProof(fields.value, commitmentPoint.value, proofPoint.value, stored.value))
    else None
  }

  /** The steps of the verification pipeline, in chain order. */
  function VerifyChecks(lib: Library, stored: Result<Settings, string>, blob: seq<Byte>, commitment: Bytes48, proof: Bytes48)
    : seq<Check>
  {
    var answer := PredicateOutcome(lib, stored, blob, commitment, proof);
    [ StepCheck(SettingsLoad, stored, SETTINGS_INIT_FAILED),
      StepCheck(BlobDecode, lib.bytesToBlob(blob), CONVERT_BLOB_FAILED),
      StepCheck(CommitmentDecode, lib.g1FromBytes(commitment), INVALID_COMMITMENT),
      StepCheck(ProofDecode, lib.g1FromBytes(proof), INVALID_PROOF),
      if answer.Some? then StepCheck(VerifyPrimitive, answer.value, VERIFICATION_ERROR)
      else Check(VerifyPrimitive, None),
      Check(Rejected, if answer == Some(Ok(false)) then Some(InvalidBlobOption(PROOF_REJECTED)) else None) ]
  }

  /**
   * Verification accepts iff the settings load, the blob, commitment and
   * proof all decode and the predicate answers `Ok(true)`; otherwise the
   * error is exactly that of the first failing step, in the order settings,
   * blob, commitment, proof, predicate. A `false` answer is reported as a
   * rejection, distinct from a predicate error.
   */
  lemma VerifyFirstFailureDecides(lib: Library, stored: Result<Settings, string>, blob: seq<Byte>, commitment: Bytes48, proof: Bytes48)
    ensures var r := VerifyBlobKzgProofFrom(lib, stored, blob, commitment, proof);
      var first := FirstFailure(VerifyChecks(lib, stored, blob, commitment, proof));
      && (r.Ok? <==> first.None?)
      && (r.Ok? <==> PredicateOutcome(lib, stored, blob, commitment, proof) == Some(Ok(true)))
      && (r.Err? ==> first.Some? && r.error == first.value.failure.value
                     && StageOf(r.error.msg) == Some(first.value.stage))
      && (PredicateOutcome(lib, stored, blob, commitment, proof) == Some(Ok(false)) ==>
            r == Err(InvalidBlobOption(PROOF_REJECTED)))
  {
    var r := VerifyBlobKzgProofFrom(lib, stored, blob, commitment, proof);
    var fields := lib.bytesToBlob(blob);
    var commitmentPoint := lib.g1FromBytes(commitment);
    var proofPoint := lib.g1FromBytes(proof);
    var checks := VerifyChecks(lib, stored, blob, commitment, proof);
    if stored.Err? {
      StageOfFail(SettingsLoad, stored.error);
      FirstFailureAt(checks, 0);
    } else if fields.Err? {
      StageOfFail(BlobDecode, fields.error);
      FirstFailureAt(checks, 1);
    } else if commitmentPoint.Err? {
      StageOfFail(CommitmentDecode, commitmentPoint.error);
      FirstFailureAt(checks, 2);
    } else if proofPoint.Err? {
      StageOfFail(ProofDecode, proofPoint.error);
      FirstFailureAt(checks, 3);
    } else {
      var answer := lib.verifyProof(fields.value, commitmentPoint.value, proofPoint.value, stored.value);
      if answer.Err? {
        StageOfFail(VerifyPrimitive, answer.error);
        FirstFailureAt(checks, 4);
      } else if !answer.value {
        StageOfFail(Rejected, "");
        FirstFailureAt(checks, 5);
      }
    }
  }

  /**
   * When an earlier step fails, the verification predicate is not reached:
   * libraries that differ only in the predicate give the same error.
   */
  lemma VerifySkipsPredicateOnBadInput(lib: Library, other: Library, stored: Result<Settings, string>, blob: seq<Byte>, commitment: Bytes48, proof: Bytes48)
    requires other == lib.(verifyProof := other.verifyProof)
    requires stored.Err? || lib.bytesToBlob(blob).Err? || lib.g1FromBytes(commitment).Err? || lib.g1FromBytes(proof).Err?
    ensures VerifyBlobKzgProofFrom(lib, stored, blob, commitment, proof)
         == VerifyBlobKzgProofFrom(other, stored, blob, commitment, proof)
    ensures VerifyBlobKzgProofFrom(lib, stored, blob, commitment, proof).Err?
  {
  }

  /** When the settings failed to load, every entry point reports that before looking at its inputs. */
  lemma SettingsFailureComesFirst(lib: Library, stored: Result<Settings, string>, blob: seq<Byte>, commitment: Bytes48, proof: Bytes48)
    requires stored.Err?
    ensures var e := InvalidBlobOption(SETTINGS_INIT_FAILED + stored.error);
      && BlobToCommitmentFrom(lib, stored, blob) == Err(e)
      && BlobToProofFrom(lib, stored, blob, commitment) == Err(e)
      && VerifyBlobKzgProofFrom(lib, stored, blob, commitment, proof) == Err(e)
  {
  }

  /**
   * Under the labelled assumption that the library checks the blob length,
   * a blob of any other length than `BYTES_PER_BLOB` is refused by every
   * `lib.rs` entry point, with the settings error or, when the settings
   * loaded, the blob-conversion error.
   */
  lemma WrongLengthBlobRefused(lib: Library, stored: Result<Settings, string>, blob: seq<Byte>, commitment: Bytes48, proof: Bytes48)
    requires ChecksBlobLength(lib)
    requires |blob| != BYTES_PER_BLOB
    ensures lib.bytesToBlob(blob).Err?
    ensures var e := if stored.Err? then InvalidBlobOption(SETTINGS_INIT_FAILED + stored.error)
                     else InvalidBlobOption(CONVERT_BLOB_FAILED + lib.bytesToBlob(blob).error);
      && BlobToCommitmentFrom(lib, stored, blob) == Err(e)
      && BlobToProofFrom(lib, stored, blob, commitment) == Err(e)
      && VerifyBlobKzgProofFrom(lib, stored, blob, commitment, proof) == Err(e)
  {
    assert lib.bytesToBlob(blob).Err?;
  }

  /**
   * Round trip, under the labelled completeness assumption on the
   * primitives: for a blob that converts, the commitment, then the proof for
   * that commitment, are computed, and together they verify.
   */
  lemma CommitProveVerifyRoundTrip(lib: Library, blob: seq<Byte>, settings: Settings)
    requires Complete(lib)
    requires lib.bytesToBlob(blob).Ok?
    ensures var c := BlobToCommitmentWithSettings(lib, blob, settings);
      && c.Ok?
      && var p := BlobToProofWithSettings(lib, blob, c.value, settings);
      && p.Ok?
      && VerifyBlobKzgProofWithSettings(lib, blob, c.value, p.value, settings) == Ok(())
  {
    var fields := lib.bytesToBlob(blob).value;
    var point := lib.blobToCommitment(fields, settings).value;
    var c := G1ToKzgCommitmentBytes(lib, point);
    assert c == lib.g1ToBytes(point);
    assert lib.g1FromBytes(c) == Ok(point);
    var proofPoint := lib.computeProof(fields, point, settings).value;
    var p := G1ToKzgCommitmentBytes(lib, proofPoint);
    assert p == lib.g1ToBytes(proofPoint);
    assert lib.g1FromBytes(p) == Ok(proofPoint);
    assert lib.verifyProof(fields, point, proofPoint, settings) == Ok(true);
  }

  // ---------------------------------------------------------------- versioned hash

  /** EIP-4844 `kzg_to_versioned_hash`: the version byte, then bytes 1..31 of the commitment's SHA-256. */
  function KzgToVersionedHash(lib: Library, commitment: Bytes48): (h: Bytes32)
    ensures h[0] == VERSIONED_HASH_VERSION_KZG
    ensures forall i | 1 <= i < 32 :: h[i] == lib.hash(commitment)[i]
  {
    [VERSIONED_HASH_VERSION_KZG] + lib.hash(commitment)[1..]
  }

  /**
   * `commitment_to_version_hash`: hash the commitment, then overwrite byte 0
   * of the digest with the version byte. This is EIP-4844's rule.
   */
  method CommitmentToVersionHash(lib: Library, commitment: Bytes48) returns (h: Bytes32)
    ensures h[0] == VERSIONED_HASH_VERSION_KZG
    ensures forall i | 1 <= i < 32 :: h[i] == lib.hash(commitment)[i]
    ensures h == KzgToVersionedHash(lib, commitment)
  {
    var digest := lib.hash(commitment);
    var out := new Byte[32](i requires 0 <= i < 32 => digest[i]);
    out[0] := VERSIONED_HASH_VERSION_KZG;
    h := out[..];
  }
}
