/**
 * The foreign rust-kzg (zkcrypto) API the crate calls: the EIP-4844 helpers
 * of `kzg_traits::eip_4844`, G1 point (de)serialisation, and bincode's
 * decoding of the embedded trusted setup. Their internals (field and curve
 * arithmetic, pairings, SHA-256, bincode) are not modelled: a `Library` is
 * any record of such functions, and every lemma about the pipelines holds
 * for all of them. Library errors are their `String` messages.
 */
module KzgLibrary {
  import opened RustStd

  /** `KZGSettings`: the trusted-setup parameters. */
  type Settings(!new)
  /** The `Vec<Fr>` that `bytes_to_blob` produces. */
  type BlobFields(!new)
  /** A point of G1 (a commitment or a proof, decoded). */
  type G1(!new)

  /** `kzg_traits::eip_4844::BYTES_PER_BLOB`. */
  const BYTES_PER_BLOB: nat := 131072

  datatype Library = Library(
    /** `bincode::deserialize` of the embedded `kzg_settings.bin`; deterministic, so one value. */
    deserializeSettings: Result<Settings, string>,
    /** `bytes_to_blob`. */
    bytesToBlob: seq<Byte> -> Result<BlobFields, string>,
    /** `G1::from_bytes`. */
    g1FromBytes: seq<Byte> -> Result<G1, string>,
    /** `G1::to_bytes`, the 48-byte compressed form. */
    g1ToBytes: G1 -> Bytes48,
    /** `blob_to_kzg_commitment_rust`. */
    blobToCommitment: (BlobFields, Settings) -> Result<G1, string>,
    /** `compute_blob_kzg_proof_rust`. */
    computeProof: (BlobFields, G1, Settings) -> Result<G1, string>,
    /** `verify_blob_kzg_proof_rust`. */
    verifyProof: (BlobFields, G1, G1, Settings) -> Result<bool, string>,
    /** `kzg_traits::eip_4844::hash`: SHA-256. */
    hash: seq<Byte> -> Bytes32
  )

  /**
   * ASSUMPTION about the foreign library, not proved from this crate's
   * code: the library rejects every byte string whose length is not
   * `BYTES_PER_BLOB` (EIP-4844 "Parameters"), as rust-kzg's `bytes_to_blob`
   * is documented to do.
   */
  ghost predicate ChecksBlobLength(lib: Library)
  {
    forall bytes: seq<Byte> {:trigger lib.bytesToBlob(bytes)} ::
      |bytes| != BYTES_PER_BLOB ==> lib.bytesToBlob(bytes).Err?
  }

  /**
   * ASSUMPTION about the foreign library, not proved from this crate's
   * code: the primitives are complete, as the KZG scheme promises:
   * commitment and proof computation
   * succeed on decoded blobs, a serialised point decodes to itself, and an
   * honestly computed proof for an honestly computed commitment verifies.
   */
  ghost predicate Complete(lib: Library)
  {
    && (forall f, s :: lib.blobToCommitment(f, s).Ok?)
    && (forall f, c, s :: lib.computeProof(f, c, s).Ok?)
    && (forall p :: lib.g1FromBytes(lib.g1ToBytes(p)) == Ok(p))
    && (forall f, s {:trigger lib.blobToCommitment(f, s)} ::
          var c := lib.blobToCommitment(f, s).value;
          lib.verifyProof(f, c, lib.computeProof(f, c, s).value, s) == Ok(true))
  }
}
