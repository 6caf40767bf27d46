/**
 * `traits.rs`: the backend interface `KzgImplementation`, exactly three
 * operations, all taking `&self`: `blob_to_commitment` and `blob_to_proof`
 * answer a 48-byte value or an error, `verify_blob_kzg_proof` answers unit
 * or an error (there is no boolean result).
 *
 * The interface is modelled as the closed set of its two implementors,
 * each operation dispatching to the chosen backend. Backends hold only
 * constant fields, so no operation can change the backend value; the only
 * state an operation touches is the settings cell it reads.
 */
module Traits {
  import opened RustStd
  import opened Error
  import opened KzgBlend
  import opened RustKzgZkcryptoBackend
  import KzgRsBackend

  datatype KzgImplementation =
    | UseRustKzgZkcrypto(zk: RustKzgZkcrypto)
    | UseKzgRs(rs: KzgRsBackend.KzgRs)
  {
    predicate Valid()
    {
      UseKzgRs? ==> rs.Valid()
    }

    /** The backend that actually computes commitments and proofs. */
    function Generator(): RustKzgZkcrypto
    {
      match this
      case UseRustKzgZkcrypto(zk) => zk
      case UseKzgRs(rs) => rs.generator
    }

    /** The frame of verification: the settings cell it reads and may fill. */
    function VerifierFrame(): set<object>
    {
      match this
      case UseRustKzgZkcrypto(zk) => {zk.cell}
      case UseKzgRs(rs) => {rs.cell}
    }

    /**
     * `blob_to_commitment`: whichever backend is chosen, the commitment is
     * the one rust-kzg (zkcrypto) computes, byte for byte and error for error.
     */
    method BlobToCommitment(blob: seq<Byte>) returns (r: RaikoResult<Bytes48>)
      requires Valid()
      modifies Generator().cell
      ensures Generator().cell.value == Fill(old(Generator().cell.value), InitKzgSettings(Generator().lib))
      ensures r == BlobToCommitmentFrom(Generator().lib, Generator().Stored(), blob)
    {
      match this
      case UseRustKzgZkcrypto(zk) =>
        r := zk.BlobToCommitment(blob);
      case UseKzgRs(rs) =>
        r := rs.BlobToCommitment(blob);
    }

    /** `blob_to_proof`: whichever backend is chosen, the proof is the one rust-kzg (zkcrypto) computes. */
    method BlobToProof(blob: seq<Byte>, commitment: Bytes48) returns (r: RaikoResult<Bytes48>)
      requires Valid()
      modifies Generator().cell
      ensures Generator().cell.value == Fill(old(Generator().cell.value), InitKzgSettings(Generator().lib))
      ensures r == BlobToProofFrom(Generator().lib, Generator().Stored(), blob, commitment)
    {
      match this
      case UseRustKzgZkcrypto(zk) =>
        r := zk.BlobToProof(blob, commitment);
      case UseKzgRs(rs) =>
        r := rs.BlobToProof(blob, commitment);
    }

    /** `verify_blob_kzg_proof`: each backend verifies with its own library and its own settings cell. */
    method VerifyBlobKzgProof(blob: seq<Byte>, commitment: Bytes48, proof: Bytes48) returns (r: RaikoResult<()>)
      requires Valid()
      modifies VerifierFrame()
      ensures match this
        case UseRustKzgZkcrypto(zk) =>
          && zk.cell.value == Fill(old(zk.cell.value), InitKzgSettings(zk.lib))
          && r == VerifyBlobKzgProofFrom(zk.lib, zk.Stored(), blob, commitment, proof)
        case UseKzgRs(rs) =>
          && rs.cell.value == Fill(old(rs.cell.value), KzgRsBackend.InitKzgRsSettings(rs.lib))
          && r == KzgRsBackend.VerifyBlobKzgProofFrom(rs.lib, rs.cell.value.value, blob, commitment, proof)
          && unchanged(rs.generator.cell)
    {
      match this
      case UseRustKzgZkcrypto(zk) =>
        r := zk.VerifyBlobKzgProof(blob, commitment, proof);
      case UseKzgRs(rs) =>
        r := rs.VerifyBlobKzgProof(blob, commitment, proof);
    }
  }

  /**
   * Determinism across calls: because the settings cell is sticky, two
   * successive commitments of the same blob by the same backend are equal,
   * whether the first call found the cell empty or not.
   */
  method CommitTwice(imp: KzgImplementation, blob: seq<Byte>) returns (first: RaikoResult<Bytes48>, second: RaikoResult<Bytes48>)
    requires imp.Valid()
    modifies imp.Generator().cell
    ensures first == second
  {
    first := imp.BlobToCommitment(blob);
    second := imp.BlobToCommitment(blob);
  }

  /**
   * Delegation: `KzgRs` and the `RustKzgZkcrypto` it forwards to give the
   * same commitment and the same proof for every input, errors included.
   */
  method DelegationAgrees(rs: KzgRsBackend.KzgRs, blob: seq<Byte>, commitment: Bytes48)
    returns (viaKzgRs: RaikoResult<Bytes48>, viaZkcrypto: RaikoResult<Bytes48>,
             proofViaKzgRs: RaikoResult<Bytes48>, proofViaZkcrypto: RaikoResult<Bytes48>)
    requires rs.Valid()
    modifies rs.generator.cell
    ensures viaKzgRs == viaZkcrypto
    ensures proofViaKzgRs == proofViaZkcrypto
  {
    viaKzgRs := rs.BlobToCommitment(blob);
    viaZkcrypto := rs.generator.BlobToCommitment(blob);
    proofViaKzgRs := rs.BlobToProof(blob, commitment);
    proofViaZkcrypto := rs.generator.BlobToProof(blob, commitment);
  }
}
