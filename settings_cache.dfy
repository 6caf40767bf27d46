/**
 * The shape shared by all three settings getters (`get_kzg_settings` in
 * `lib.rs` and in `rust_kzg_zkcrypto.rs`, `get_kzg_rs_settings` in
 * `kzg_rs.rs`): a process-wide `OnceLock<Result<S, String>>` filled on first
 * access by a deterministic loader, whose stored outcome is then handed out
 * for ever, a failure wrapped as "KZG settings initialization failed: ...".
 */
module SettingsCache {
  import opened RustStd
  import opened Error
  import opened Stages

  /** What a getter returns for the outcome stored in its cell. */
  function SettingsOutcome<S>(stored: Result<S, string>): (r: RaikoResult<S>)
    ensures r.Ok? <==> stored.Ok?
    ensures stored.Ok? ==> r.value == stored.value
    ensures stored.Err? ==> r.error == Fail(SettingsLoad, stored.error)
  {
    match stored
    case Ok(s) => Ok(s)
    case Err(e) => Err(InvalidBlobOption(SETTINGS_INIT_FAILED + e))
  }

  /**
   * A settings getter over `cell`, whose loader yields `loaded`. The cell is
   * filled at most once; once filled, the getter returns what it holds and
   * never runs the loader again.
   */
  method GetSettings<S>(cell: OnceLock<Result<S, string>>, loaded: Result<S, string>)
    returns (r: RaikoResult<S>)
    modifies cell
    ensures cell.value == Fill(old(cell.value), loaded)
    ensures r == SettingsOutcome(cell.value.value)
    ensures old(cell.value).Some? ==> r == SettingsOutcome(old(cell.value).value)
  {
    var stored := cell.GetOrInit(() => loaded);
    r := SettingsOutcome(stored);
  }

  /**
   * Whatever the loader yields at each call, every call of a getter returns
   * the outcome of the first load (or of what the cell already held): a
   * failure is sticky.
   */
  lemma GetterIsSticky<S>(cell: Option<Result<S, string>>, loads: seq<Result<S, string>>)
    requires loads != []
    ensures forall i | 0 <= i < |loads| ::
      SettingsOutcome(Outcomes(cell, loads)[i])
        == SettingsOutcome(if cell.Some? then cell.value else loads[0])
  {
    OutcomesAreSticky(cell, loads);
  }
}
