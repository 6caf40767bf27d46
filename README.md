# kzg-rs-blend orchestration model

A Dafny model of the orchestration layer of the `kzg-rs-blend` crate. The crate wraps the EIP-4844 KZG blob-commitment scheme. It computes a commitment for a 131072-byte blob and an opening proof for a blob and its commitment. It verifies a (blob, commitment, proof) triple, and derives the EIP-4844 versioned hash of a commitment.

The cryptography lives in foreign libraries: rust-kzg (zkcrypto) and succinctlabs' kzg-rs. They are modelled as records of uninterpreted functions over opaque types (`KzgLibrary.Library`, `KzgRsLibrary.RsLibrary`). Every lemma holds for every such record. Cryptographic soundness is never used. Three labelled assumptions appear only as `requires` of the lemmas that need them: `ChecksBlobLength` and `Complete` on rust-kzg, and `RsChecksBlobLength` on kzg-rs.

What is modelled, file by file:

- `lib.rs` → module `KzgBlend`. It has the process-wide `KZG_SETTINGS` once-cell, the three pipelines (`*WithSettings` as functions, the public entry points as methods over the cell), `g1_to_kzg_commitment_bytes` and `commitment_to_version_hash`. `*From` functions give each entry point's result once the cell holds a given outcome.
- `rust_kzg_zkcrypto.rs` → module `RustKzgZkcryptoBackend`, class `RustKzgZkcrypto`. Each method runs the same `?` chain as the Rust trait method. Each method is proved to return exactly what the matching `lib.rs` entry point returns from the same stored settings. The file's copies of `get_kzg_settings`, `init_kzg_settings` and `g1_to_kzg_commitment_bytes` are word for word those of `lib.rs`. The model reuses the `KzgBlend` definitions, applied to this backend's own cell.
- `kzg_rs.rs` → module `KzgRsBackend`, class `KzgRs`. Commitment and proof are forwarded to `RustKzgZkcrypto`. Verification runs natively, with settings from the separate `KZG_RS_SETTINGS` cell.
- `traits.rs` → module `Traits`. The interface is modelled as the closed datatype `KzgImplementation` over its two implementors. Its three member methods dispatch to the chosen backend.
- `error.rs` → module `Error`. It holds `RaikoError` (one kind, `InvalidBlobOption(msg)`), `RaikoResult` and `Display`.
- Shared pieces: `RustStd` holds `Result` with `map_err` and `?` (as `:-`), and `OnceLock` as a class with an `Option` field. `SettingsCache` holds the getter shape common to all three caches. `Stages` holds the fixed error messages, the pipeline stage each message belongs to, and `FirstFailure`, the reference for "the first failing step decides the error".

`lib.rs` line 1 declares only `mod error;`, so in this version of the crate the trait-based files are a parallel variant of the `lib.rs` pipelines. Both variants are modelled, and their agreement is proved.

Error precedence, as the code fixes it:

- Settings come first. Every entry point fetches the settings before it looks at the blob, because the arguments of `blob_to_commitment_with_settings(blob, get_kzg_settings()?)` are evaluated first.
- Verification decodes the blob before the commitment and the proof.
- There is one error kind. The stages differ only in their message prefixes, which `Stages.StageOf` reads back.

## Model

| member | source | states |
|---|---|---|
| RustStd.OnceLock.constructor | crates/kzg-rs-blend/src/lib.rs:18 | a settings cell starts empty |
| RustStd.OnceLock.GetOrInit | crates/kzg-rs-blend/src/lib.rs:28 | an empty cell is filled with the initialiser's outcome; a filled cell is returned unchanged and its initialiser is not used |
| RustStd.Fill | crates/kzg-rs-blend/src/lib.rs:28 | one `get_or_init` step: an empty cell is filled with the initialiser's outcome, and an already-filled cell is kept as it is |
| RustStd.OutcomesAreSticky | crates/kzg-rs-blend/src/lib.rs:26-36 | over any sequence of calls with any initialiser outcomes, every call returns the first stored outcome, so a failure is never retried |
| SettingsCache.SettingsOutcome | crates/kzg-rs-blend/src/lib.rs:28-33 | a stored `Ok(settings)` is handed out as is; a stored `Err(e)` becomes the settings-stage error "KZG settings initialization failed: " + e |
| SettingsCache.GetSettings | crates/kzg-rs-blend/src/lib.rs:26-36 | the getter fills the cell at most once; once the cell is filled it returns the stored outcome whatever the loader would give |
| SettingsCache.GetterIsSticky | crates/kzg-rs-blend/src/lib.rs:18 | every getter call in a sequence returns the outcome of the first load, whether that was a success or a failure |
| KzgBlend.InitKzgSettings | crates/kzg-rs-blend/src/lib.rs:39-45 | the loader succeeds iff bincode decoding of the embedded setup does, with the decoded settings; a failure is the decoder's error prefixed with "bincode deserialize KZGSettings failed: " |
| KzgBlend.GetKzgSettings | crates/kzg-rs-blend/src/lib.rs:26-45 | `get_kzg_settings` fills `KZG_SETTINGS` from the deterministic `init_kzg_settings`, with its "bincode deserialize KZGSettings failed: " message, and then never again |
| KzgBlend.G1ToKzgCommitmentBytes | crates/kzg-rs-blend/src/lib.rs:50-55 | the 48-byte output equals the point's serialisation byte for byte |
| KzgBlend.BlobToCommitmentWithSettings | crates/kzg-rs-blend/src/lib.rs:57-69 | a commitment exists iff the blob converts and the commitment primitive succeeds on it, and it is then that point's 48-byte serialisation |
| KzgBlend.BlobToCommitmentFrom | crates/kzg-rs-blend/src/lib.rs:72-74 | a settings failure is returned as the exact settings error before the blob is looked at; with settings, the result is that of `blob_to_commitment_with_settings` |
| KzgBlend.BlobToCommitment | crates/kzg-rs-blend/src/lib.rs:71-74 | the entry point fetches settings from the cell, then runs the commitment pipeline on that outcome |
| KzgBlend.CommitmentFirstFailureDecides | crates/kzg-rs-blend/src/lib.rs:57-69 | the commitment is Ok iff settings, blob conversion and the commitment primitive all succeed; it is then the primitive's point serialised; an error is exactly the first failing step's error, its fixed message followed by the library's cause ("Failed to convert blob: " + e, "Failed to compute commitment: " + e), and its prefix names that step |
| KzgBlend.CommitmentSkipsPrimitiveOnBadBlob | crates/kzg-rs-blend/src/lib.rs:61-66 | a blob that fails conversion gives an error, and the commitment primitive is never reached |
| KzgBlend.BlobToProofWithSettings | crates/kzg-rs-blend/src/lib.rs:76-91 | a proof exists iff the blob converts, the commitment decodes and the proof primitive succeeds, and it is then the proof point's 48-byte serialisation |
| KzgBlend.BlobToProofFrom | crates/kzg-rs-blend/src/lib.rs:119-124 | a settings failure is returned as the exact settings error before blob or commitment are looked at; with settings, the result is that of `blob_to_proof_with_settings` |
| KzgBlend.BlobToProof | crates/kzg-rs-blend/src/lib.rs:119-124 | the entry point fetches settings from the cell, then runs the proof pipeline on that outcome |
| KzgBlend.ProofFirstFailureDecides | crates/kzg-rs-blend/src/lib.rs:76-91 | the proof is Ok iff settings, blob, commitment decoding and the proof primitive succeed; it is then the proof point serialised; the blob is checked before the commitment; an error is exactly the first failing step's error ("Failed to convert blob: ", "Invalid commitment: " or "Failed to compute proof: " followed by the library's cause) |
| KzgBlend.ProofSkipsPrimitiveOnBadInput | crates/kzg-rs-blend/src/lib.rs:81-88 | when the settings, the blob or the commitment fail, proving fails and the proof primitive is never reached |
| KzgBlend.ProofTrustsCommitment | crates/kzg-rs-blend/src/lib.rs:103-105 | the proof pipeline never uses the commitment primitive, so the commitment is never recomputed or compared with the blob |
| KzgBlend.ProofAcceptsForeignCommitment | crates/kzg-rs-blend/src/lib.rs:84-90 | under the completeness assumption, a proof is produced even for the commitment of another blob |
| KzgBlend.VerifyBlobKzgProofWithSettings | crates/kzg-rs-blend/src/lib.rs:135-160 | with settings at hand, verification accepts iff blob, commitment and proof decode and the predicate answers Ok(true) |
| KzgBlend.VerifyBlobKzgProofFrom | crates/kzg-rs-blend/src/lib.rs:163-169 | a settings failure is returned as the exact settings error before any input is looked at; with settings, the result is that of `verify_blob_kzg_proof_with_settings` |
| KzgBlend.VerifyBlobKzgProof | crates/kzg-rs-blend/src/lib.rs:162-169 | the entry point fetches settings from the cell, then runs verification on that outcome |
| KzgBlend.VerifyFirstFailureDecides | crates/kzg-rs-blend/src/lib.rs:135-160 | verification is Ok(()) iff settings, blob, commitment and proof decoding succeed and the predicate answers Ok(true); otherwise the error is exactly the first failing step's error (fixed message followed by the library's cause) in the order settings, blob, commitment, proof, predicate; `false` becomes "KZG proof verification failed" |
| KzgBlend.VerifySkipsPredicateOnBadInput | crates/kzg-rs-blend/src/lib.rs:142-148 | when any earlier step fails, verification fails and the predicate is never reached |
| KzgBlend.SettingsFailureComesFirst | crates/kzg-rs-blend/src/lib.rs:72-74 | when settings failed to load, all three entry points return the settings error, whatever the blob, commitment and proof are |
| KzgBlend.WrongLengthBlobRefused | crates/kzg-rs-blend/src/lib.rs:61-62 | under the blob-length assumption on rust-kzg, a blob whose length is not 131072 is refused by every `lib.rs` entry point, with the settings error or else exactly "Failed to convert blob: " + cause |
| KzgBlend.CommitProveVerifyRoundTrip | crates/kzg-rs-blend/src/lib.rs:181-201 | under the completeness assumption, for a blob that converts: commit, then prove with that commitment, then verify succeeds |
| KzgBlend.KzgToVersionedHash | crates/kzg-rs-blend/src/lib.rs:129-133 | EIP-4844's `kzg_to_versioned_hash`: byte 0 is 0x01 and bytes 1..31 are those of the commitment's SHA-256 |
| KzgBlend.CommitmentToVersionHash | crates/kzg-rs-blend/src/lib.rs:126-133 | the 32-byte result has byte 0 equal to 0x01 and bytes 1..31 equal to those of the commitment's SHA-256; this is EIP-4844's `kzg_to_versioned_hash` |
| RustKzgZkcryptoBackend.RustKzgZkcrypto.BlobToCommitment | crates/kzg-rs-blend/src/rust_kzg_zkcrypto.rs:51-61 | the order is settings, then blob, then commitment; the backend's cell is filled at most once; the result equals the `lib.rs` `blob_to_commitment` result from the same stored settings |
| RustKzgZkcryptoBackend.RustKzgZkcrypto.BlobToProof | crates/kzg-rs-blend/src/rust_kzg_zkcrypto.rs:63-79 | the order is settings, blob, commitment decoding, proof; the result equals the `lib.rs` `blob_to_proof` result from the same stored settings |
| RustKzgZkcryptoBackend.RustKzgZkcrypto.VerifyBlobKzgProof | crates/kzg-rs-blend/src/rust_kzg_zkcrypto.rs:81-106 | the result equals the `lib.rs` verification result from the same stored settings; it is Ok iff every step succeeds and the predicate answers Ok(true) |
| KzgRsBackend.InitKzgRsSettings | crates/kzg-rs-blend/src/kzg_rs.rs:14-17 | the loader succeeds iff kzg-rs's trusted-setup loader does; a failure is its error prefixed with "Failed to load kzg-rs trusted setup: " |
| KzgRsBackend.GetKzgRsSettings | crates/kzg-rs-blend/src/kzg_rs.rs:11-24 | `KZG_RS_SETTINGS` is filled at most once, from kzg-rs's trusted-setup loader with its "Failed to load kzg-rs trusted setup: " message; a failure is sticky |
| KzgRsBackend.VerifyBlobKzgProofFrom | crates/kzg-rs-blend/src/kzg_rs.rs:51-83 | a settings failure is returned as the exact settings error first; otherwise kzg-rs verification accepts iff kzg-rs accepts blob, commitment and proof and its predicate answers Ok(true) |
| KzgRsBackend.VerifyFirstFailureDecides | crates/kzg-rs-blend/src/kzg_rs.rs:51-83 | kzg-rs verification is Ok(()) iff the settings, blob, commitment and proof steps pass and the predicate answers Ok(true); an error is exactly the first failing step's error, the blob step reporting "Invalid blob: " + cause (not rust-kzg's "Failed to convert blob: "); `false` gives the rejection message |
| KzgRsBackend.WrongLengthBlobRefused | crates/kzg-rs-blend/src/kzg_rs.rs:57-59 | under the blob-length assumption on kzg-rs, a blob whose length is not 131072 is refused by kzg-rs verification, with the settings error or else exactly "Invalid blob: " + cause |
| KzgRsBackend.KzgRs.BlobToCommitment | crates/kzg-rs-blend/src/kzg_rs.rs:33-38 | the result equals what `RustKzgZkcrypto` gives for every input, errors included; only the zkcrypto cell is touched |
| KzgRsBackend.KzgRs.BlobToProof | crates/kzg-rs-blend/src/kzg_rs.rs:40-49 | the result equals what `RustKzgZkcrypto` gives for every input, errors included |
| KzgRsBackend.KzgRs.VerifyBlobKzgProof | crates/kzg-rs-blend/src/kzg_rs.rs:51-83 | verification uses only kzg-rs and its own cell; the zkcrypto settings cell is left unchanged |
| Traits.KzgImplementation.BlobToCommitment | crates/kzg-rs-blend/src/traits.rs:6-7 | whichever backend is chosen, the commitment is the zkcrypto commitment: a 48-byte value or an error |
| Traits.KzgImplementation.BlobToProof | crates/kzg-rs-blend/src/traits.rs:9-14 | whichever backend is chosen, the proof is the zkcrypto proof: a 48-byte value or an error |
| Traits.KzgImplementation.VerifyBlobKzgProof | crates/kzg-rs-blend/src/traits.rs:16-22 | verification answers unit or an error, each backend with its own library and cell |
| Traits.CommitTwice | crates/kzg-rs-blend/src/traits.rs:7 | two successive commitments of one blob by one backend are equal |
| Traits.DelegationAgrees | crates/kzg-rs-blend/src/kzg_rs.rs:33-49 | `KzgRs` and `RustKzgZkcrypto`, called in turn, return equal commitments and equal proofs |
| Error.Display | crates/kzg-rs-blend/src/error.rs:8-14 | the rendering is "InvalidBlobOption: " followed by the message unchanged |
| Error.DisplayRoundTrip | crates/kzg-rs-blend/src/error.rs:11 | the message can be read back from the rendering |
| Error.DisplayInjective | crates/kzg-rs-blend/src/error.rs:4-6 | distinct errors render distinctly |
| Stages.StageOfFail | crates/kzg-rs-blend/src/lib.rs:142-156 | each fixed message prefix identifies its stage whatever cause text follows it, because no prefix starts another stage's message |
| Stages.StageOfInvalidBlob | crates/kzg-rs-blend/src/kzg_rs.rs:58-59 | kzg-rs's "Invalid blob: " message reads as the blob stage |
| Stages.RejectionIsNotAVerificationError | crates/kzg-rs-blend/src/lib.rs:150-156 | "KZG proof verification failed" differs from every "Verification error: …" message |
| Stages.FirstFailure | crates/kzg-rs-blend/src/lib.rs:142-152 | the `?` chain stops at the first failing step: the result is None iff every step passes, and otherwise it is a failing step, with its error, all of whose predecessors pass |
| Stages.FirstFailureAt | crates/kzg-rs-blend/src/lib.rs:142-148 | the first failing step is unique |

## Left out

- Elliptic-curve, pairing and field arithmetic, SHA-256, bincode decoding of `kzg_settings.bin` and kzg-rs's trusted-setup loader are foreign code. They are uninterpreted functions and values in `Library` and `RsLibrary`, and the embedded bytes are not modelled.
- Blob-length checks live inside `bytes_to_blob` and `Blob::from_slice`. They are stated only as the labelled assumptions `ChecksBlobLength` (rust-kzg) and `RsChecksBlobLength` (kzg-rs). Field-range checks are not stated.
- Only the `lib.rs` and kzg-rs verification entry points have a wrong-length lemma; the `RustKzgZkcrypto` methods inherit it, being proved equal to the `lib.rs` ones.
- Round trip and acceptance of foreign commitments rest on the labelled assumption `Complete`, because no scheme completeness is proved. A wrong proof being rejected needs the scheme's soundness, so it is not stated.
- Cross-backend verifier agreement (each backend's verifier accepting the other's artifacts) depends on how the two libraries relate internally, so it is not stated. Commitment and proof agreement, which the code guarantees by delegation, is proved.
- The concrete mainnet commitment fixture and the tests that read files or time deserialisation need the real primitives.
- `OnceLock` thread safety and blocking are not modelled. The cells are used sequentially.
- `println!` cycle-tracker lines are logging only.
- Library errors are modelled as their rendered text: the `Display` of rust-kzg's `String` errors and the `{:?}` of kzg-rs's `KzgError`.
- KzgBlend.G1ToKzgCommitmentBytes: modelled as a value copy of the point's 48 bytes, not as an in-place fill of a zeroed buffer, because the pipelines that call it are functions. `G1::to_bytes` is typed as 48 bytes, so `copy_from_slice` cannot panic.
- The backend interface is a datatype over the two implementors, not an open trait, because Dafny traits are not used in this model.
