/**
 * The fixed error messages of the commit / prove / verify pipelines, the
 * stage each one belongs to, and a reading of messages back into stages.
 *
 * Every pipeline is a chain of fallible steps joined by `?`; each step wraps
 * its library error under a fixed prefix. Reading the prefix back tells a
 * caller which step stopped the chain, and `FirstFailure` is the reference
 * for which step that must be: the first one, in chain order, that fails.
 */
module Stages {
  import opened RustStd
  import opened Error

  // Message prefixes, each followed by the underlying library error.
  const SETTINGS_INIT_FAILED: string := "KZG settings initialization failed: "
  const CONVERT_BLOB_FAILED: string := "Failed to convert blob: "
  const INVALID_BLOB: string := "Invalid blob: "
  const INVALID_COMMITMENT: string := "Invalid commitment: "
  const INVALID_PROOF: string := "Invalid proof: "
  const COMPUTE_COMMITMENT_FAILED: string := "Failed to compute commitment: "
  const COMPUTE_PROOF_FAILED: string := "Failed to compute proof: "
  const VERIFICATION_ERROR: string := "Verification error: "
  /** The whole message when the verification predicate answers `false`. */
  const PROOF_REJECTED: string := "KZG proof verification failed"

  /** The steps a pipeline can stop at. */
  datatype Stage =
    | SettingsLoad        // the trusted setup could not be loaded
    | BlobDecode          // the blob bytes are not a valid blob
    | CommitmentDecode    // the commitment bytes are not a valid point
    | ProofDecode         // the proof bytes are not a valid point
    | CommitPrimitive     // the commitment primitive reported an error
    | ProofPrimitive      // the proof primitive reported an error
    | VerifyPrimitive     // the verification predicate reported an error
    | Rejected            // the verification predicate answered false

  /** Which stage produced a message, read from its prefix. */
  function StageOf(msg: string): Option<Stage>
  {
    if SETTINGS_INIT_FAILED <= msg then Some(SettingsLoad)
    else if CONVERT_BLOB_FAILED <= msg || INVALID_BLOB <= msg then Some(BlobDecode)
    else if INVALID_COMMITMENT <= msg then Some(CommitmentDecode)
    else if INVALID_PROOF <= msg then Some(ProofDecode)
    else if COMPUTE_COMMITMENT_FAILED <= msg then Some(CommitPrimitive)
    else if COMPUTE_PROOF_FAILED <= msg then Some(ProofPrimitive)
    else if VERIFICATION_ERROR <= msg then Some(VerifyPrimitive)
    else if msg == PROOF_REJECTED then Some(Rejected)
    else None
  }

  /** The prefix (or, for `Rejected`, the whole message) a stage reports with. */
  function PrefixOf(st: Stage): string
  {
    match st
    case SettingsLoad => SETTINGS_INIT_FAILED
    case BlobDecode => CONVERT_BLOB_FAILED
    case CommitmentDecode => INVALID_COMMITMENT
    case ProofDecode => INVALID_PROOF
    case CommitPrimitive => COMPUTE_COMMITMENT_FAILED
    case ProofPrimitive => COMPUTE_PROOF_FAILED
    case VerifyPrimitive => VERIFICATION_ERROR
    case Rejected => PROOF_REJECTED
  }

  /** The error a stage reports when its library call fails with `cause`. */
  function Fail(st: Stage, cause: string): RaikoError
  {
    if st == Rejected then InvalidBlobOption(PROOF_REJECTED)
    else InvalidBlobOption(PrefixOf(st) + cause)
  }

  /**
   * Messages identify their stage whatever the library's cause text is:
   * no prefix is a prefix of another stage's message.
   */
  lemma StageOfFail(st: Stage, cause: string)
    ensures StageOf(Fail(st, cause).msg) == Some(st)
  {
    match st
    case SettingsLoad => StageOfSettingsFailure(cause);
    case BlobDecode => StageOfConvertBlob(cause);
    case CommitmentDecode => StageOfInvalidPoint(INVALID_COMMITMENT, cause, CommitmentDecode);
    case ProofDecode => StageOfInvalidPoint(INVALID_PROOF, cause, ProofDecode);
    case CommitPrimitive => StageOfCompute(COMPUTE_COMMITMENT_FAILED, cause, CommitPrimitive);
    case ProofPrimitive => StageOfCompute(COMPUTE_PROOF_FAILED, cause, ProofPrimitive);
    case VerifyPrimitive => StageOfVerificationError(cause);
    case Rejected =>
      assert PROOF_REJECTED[4] == 'p';
  }

  /** The settings prefix is the first one tried, so it alone decides. */
  lemma StageOfSettingsFailure(cause: string)
    ensures StageOf(SETTINGS_INIT_FAILED + cause) == Some(SettingsLoad)
  {
    var m := SETTINGS_INIT_FAILED + cause;
    assert m[..|SETTINGS_INIT_FAILED|] == SETTINGS_INIT_FAILED;
  }

  lemma StageOfConvertBlob(cause: string)
    ensures StageOf(CONVERT_BLOB_FAILED + cause) == Some(BlobDecode)
  {
    var m := CONVERT_BLOB_FAILED + cause;
    assert m[0] == 'F';
    assert m[..|CONVERT_BLOB_FAILED|] == CONVERT_BLOB_FAILED;
  }

  /** "Invalid commitment: " and "Invalid proof: " differ from "Invalid blob: " and from each other at index 8. */
  lemma StageOfInvalidPoint(prefix: string, cause: string, st: Stage)
    requires (prefix == INVALID_COMMITMENT && st == CommitmentDecode) || (prefix == INVALID_PROOF && st == ProofDecode)
    ensures StageOf(prefix + cause) == Some(st)
  {
    var m := prefix + cause;
    assert m[0] == 'I' && m[8] == prefix[8];
    assert m[..|prefix|] == prefix;
  }

  /** "Failed to compute commitment: " and "Failed to compute proof: " differ from "Failed to convert blob: " at index 12 and from each other at index 18. */
  lemma StageOfCompute(prefix: string, cause: string, st: Stage)
    requires (prefix == COMPUTE_COMMITMENT_FAILED && st == CommitPrimitive) || (prefix == COMPUTE_PROOF_FAILED && st == ProofPrimitive)
    ensures StageOf(prefix + cause) == Some(st)
  {
    var m := prefix + cause;
    assert m[0] == 'F' && m[12] == 'm' && m[18] == prefix[18];
    assert m[..|prefix|] == prefix;
  }

  lemma StageOfVerificationError(cause: string)
    ensures StageOf(VERIFICATION_ERROR + cause) == Some(VerifyPrimitive)
  {
    var m := VERIFICATION_ERROR + cause;
    assert m[0] == 'V';
    assert m[..|VERIFICATION_ERROR|] == VERIFICATION_ERROR;
  }

  /** The kzg-rs verifier's blob message also reads as the blob stage. */
  lemma StageOfInvalidBlob(cause: string)
    ensures StageOf(INVALID_BLOB + cause) == Some(BlobDecode)
  {
    var m := INVALID_BLOB + cause;
    assert m[0] == 'I' && m[8] == 'b';
    assert m[..|INVALID_BLOB|] == INVALID_BLOB;
  }

  /** A rejection can never be mistaken for a predicate error, whatever that error says. */
  lemma RejectionIsNotAVerificationError(cause: string)
    ensures PROOF_REJECTED != VERIFICATION_ERROR + cause
  {
    assert (VERIFICATION_ERROR + cause)[0] == 'V';
  }

  /**
   * A step of a pipeline, in chain order, with the error it stops the chain
   * with: `None` when the step succeeds (or is never reached because an
   * earlier step already stopped the chain).
   */
  datatype Check = Check(stage: Stage, failure: Option<RaikoError>)
  {
    predicate Passes()
    {
      failure.None?
    }
  }

  /** A step whose library call has `outcome`, its error reported under `prefix`. */
  function StepCheck<T>(stage: Stage, outcome: Result<T, string>, prefix: string): (c: Check)
    ensures c.stage == stage
    ensures c.Passes() <==> outcome.Ok?
    ensures outcome.Err? ==> c.failure == Some(InvalidBlobOption(prefix + outcome.error))
  {
    match outcome
    case Ok(_) => Check(stage, None)
    case Err(e) => Check(stage, Some(InvalidBlobOption(prefix + e)))
  }

  /** The first step, in chain order, that does not pass. */
  function FirstFailure(checks: seq<Check>): (first: Option<Check>)
    ensures first.None? <==> forall i | 0 <= i < |checks| :: checks[i].Passes()
    ensures first.Some? ==> !first.value.Passes()
    ensures first.Some? ==> exists i | 0 <= i < |checks| ::
      && checks[i] == first.value
      && forall j | 0 <= j < i :: checks[j].Passes()
    decreases |checks|
  {
    if checks == [] then None
    else if !checks[0].Passes() then Some(checks[0])
    else
      var rest := FirstFailure(checks[1..]);
      assert forall i | 1 <= i < |checks| :: checks[i] == checks[1..][i - 1];
      if rest.Some? then
        ghost var k :| 0 <= k < |checks| - 1 && checks[1..][k] == rest.value
          && forall j | 0 <= j < k :: checks[1..][j].Passes();
        assert checks[k + 1] == rest.value;
        assert forall j | 0 <= j < k + 1 :: checks[j].Passes() by {
          forall j | 0 <= j < k + 1 ensures checks[j].Passes() {
            if j > 0 { assert checks[j] == checks[1..][j - 1]; }
          }
        }
        rest
      else
        rest
  }

  /** The first failing step is exactly the failing step all of whose predecessors pass. */
  lemma FirstFailureAt(checks: seq<Check>, i: nat)
    requires i < |checks| && !checks[i].Passes()
    requires forall j | 0 <= j < i :: checks[j].Passes()
    ensures FirstFailure(checks) == Some(checks[i])
  {
    var first := FirstFailure(checks);
    var k :| 0 <= k < |checks| && checks[k] == first.value
      && forall j | 0 <= j < k :: checks[j].Passes();
    assert k == i;
  }
}
