/**
 * What both screens share: the `TextoExibido` display rule, the mount-time load of the
 * persisted mirror, and the outcome of an event handler.
 */
module Common {
  import opened Wrappers
  import opened JsString
  import opened Storage

  /** The text shown in place of an empty or missing value. */
  const Fallback: string := "Nenhum texto salvo"

  /**
   * How an event handler ends: it runs to its end, it raises an `alert` with a message,
   * or an awaited storage call rejects and the rest of the handler never runs.
   */
  datatype Outcome = Completed | Alerted(message: string) | Rejected

  /** `TextoExibido`: the title, a colon and a space, then the text, or the fallback when the text is falsy. */
  function TextoExibido(titulo: string, texto: Option<string>): (r: string)
    ensures |r| > |titulo| + 2 && r[..|titulo| + 2] == titulo + ": "
  {
    titulo + ": " + (if IsTruthy(texto) then texto.value else Fallback)
  }

  /** A present, non-empty text is shown verbatim after the title. */
  lemma ShowsTruthyText(titulo: string, texto: string)
    requires texto != ""
    ensures TextoExibido(titulo, Some(texto)) == titulo + ": " + texto
  {
  }

  /** An empty or missing text shows the fallback. */
  lemma ShowsFallback(titulo: string, texto: Option<string>)
    requires !IsTruthy(texto)
    ensures TextoExibido(titulo, texto) == titulo + ": " + Fallback
  {
  }

  /**
   * The fallback line appears exactly when the text is empty or missing, or when the text
   * is itself the fallback string, which the screen cannot tell apart from an empty value.
   */
  lemma {:induction false} FallbackShownIff(titulo: string, texto: Option<string>)
    ensures TextoExibido(titulo, texto) == titulo + ": " + Fallback
            <==> !IsTruthy(texto) || texto == Some(Fallback)
  {
    var prefix := titulo + ": ";
    if IsTruthy(texto) && TextoExibido(titulo, texto) == prefix + Fallback {
      assert texto.value == (prefix + texto.value)[|prefix|..];
      assert Fallback == (prefix + Fallback)[|prefix|..];
    }
  }

  /** Two present, non-empty texts under the same title render differently unless they are equal. */
  lemma {:induction false} TruthyDisplayInjective(titulo: string, a: string, b: string)
    requires a != "" && b != ""
    requires TextoExibido(titulo, Some(a)) == TextoExibido(titulo, Some(b))
    ensures a == b
  {
    var prefix := titulo + ": ";
    assert a == (prefix + a)[|prefix|..];
    assert b == (prefix + b)[|prefix|..];
  }

  /**
   * The mount effect of either screen, after its read of the store.
   * The mirror takes the stored value only when the read succeeds and the value is present and non-empty.
   */
  function LoadedMirror(mirror: string, read: Read): (r: string)
    ensures read.Loaded? && IsTruthy(read.value) ==> r == read.value.value
    ensures r != mirror ==> read.Loaded? && IsTruthy(read.value) && r == read.value.value
  {
    if read.Loaded? && IsTruthy(read.value) then read.value.value else mirror
  }

  /** The outcome of the mount effect: it completes unless the read rejects. */
  function LoadOutcome(read: Read): Outcome {
    if read.Unavailable? then Rejected else Completed
  }
}
