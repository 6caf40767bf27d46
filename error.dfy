/**
 * The crate's single error type (`error.rs`): one kind, `InvalidBlobOption`,
 * carrying a human-readable message, and its `Display` rendering.
 */
module Error {
  import opened RustStd

  datatype RaikoError = InvalidBlobOption(msg: string)

  /** `RaikoResult<T> = Result<T, RaikoError>`. */
  type RaikoResult<T> = Result<T, RaikoError>

  const DISPLAY_PREFIX: string := "InvalidBlobOption: "

  /** `impl Display for RaikoError`: the kind's name, a colon, then the message. */
  function Display(e: RaikoError): (s: string)
    ensures |s| == |DISPLAY_PREFIX| + |e.msg|
    ensures DISPLAY_PREFIX <= s
    ensures s[|DISPLAY_PREFIX|..] == e.msg
  {
    match e
    case InvalidBlobOption(msg) => DISPLAY_PREFIX + msg
  }

  /** The message can be read back from the rendering: the suffix after the prefix. */
  function MessageOf(rendered: string): (m: Option<string>)
    ensures m.Some? <==> DISPLAY_PREFIX <= rendered
  {
    if DISPLAY_PREFIX <= rendered then Some(rendered[|DISPLAY_PREFIX|..]) else None
  }

  /** Rendering keeps the message unchanged, so it can be recovered exactly. */
  lemma DisplayRoundTrip(e: RaikoError)
    ensures MessageOf(Display(e)) == Some(e.msg)
  {
  }

  /** Distinct errors render distinctly. */
  lemma DisplayInjective(a: RaikoError, b: RaikoError)
    requires Display(a) == Display(b)
    ensures a == b
  {
    DisplayRoundTrip(a);
    DisplayRoundTrip(b);
  }
}
