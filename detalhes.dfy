/**
 * The detail screen: it shows the snapshot it received through navigation next to its own
 * copy of the stored value, loaded independently at mount. It never writes the store.
 */
module Detalhes {
  import opened Wrappers
  import opened JsString
  import opened Storage
  import opened Common

  /** The titles of the two lines the screen renders. */
  const SnapshotTitle: string := "Sem persistência"
  const MirrorTitle: string := "Persistência"

  /** The navigation payload `{ textoNaoPersistido }`; the key may be missing. */
  datatype RouteParams = RouteParams(textoNaoPersistido: Option<string>)

  /** `const { textoNaoPersistido } = route.params || {}`: missing params give a missing snapshot. */
  function SnapshotFromRoute(params: Option<RouteParams>): (r: Option<string>)
    ensures r.Some? ==> params.Some? && r == params.value.textoNaoPersistido
  {
    if params.Some? then params.value.textoNaoPersistido else None
  }

  /** The snapshot shown is exactly the one passed at navigation; without params the fallback is shown. */
  lemma SnapshotShown(params: Option<RouteParams>)
    ensures params.None? ==> TextoExibido(SnapshotTitle, SnapshotFromRoute(params)) == SnapshotTitle + ": " + Fallback
    ensures params.Some? ==> SnapshotFromRoute(params) == params.value.textoNaoPersistido
  {
  }

  class DetalhesScreen {
    const store: SecureStore
    /** The snapshot taken from the route; the screen never changes it. */
    const textoNaoPersistido: Option<string>
    /** This screen's own mirror of the stored value. */
    var textoPersistido: string

    /** Mounting the screen: the snapshot comes from the route, the mirror starts as "". */
    constructor (store: SecureStore, params: Option<RouteParams>)
      ensures this.store == store
      ensures textoNaoPersistido == SnapshotFromRoute(params)
      ensures textoPersistido == ""
    {
      this.store := store;
      textoNaoPersistido := SnapshotFromRoute(params);
      textoPersistido := "";
    }

    /** The mount effect: reads the store and copies a present, non-empty value into the mirror. */
    method CarregarTextoPersistido(fault: bool) returns (outcome: Outcome)
      modifies this
      ensures store.slot == old(store.slot)
      ensures var read := if fault then Unavailable else Loaded(store.slot);
              textoPersistido == LoadedMirror(old(textoPersistido), read) && outcome == LoadOutcome(read)
    {
      var read := store.GetItem(fault);
      if read.Unavailable? {
        return Rejected;
      }
      if read.value.Some? && read.value.value != "" {
        textoPersistido := read.value.value;
      }
      outcome := Completed;
    }

    /** The two lines the screen renders: the snapshot, then the mirror; a missing or empty value falls back. */
    function Lines(): (lines: seq<string>)
      reads this
      ensures |lines| == 2
      ensures lines[0] == SnapshotTitle + ": " + (if IsTruthy(textoNaoPersistido) then textoNaoPersistido.value else Fallback)
      ensures lines[1] == MirrorTitle + ": " + (if textoPersistido != "" then textoPersistido else Fallback)
    {
      [TextoExibido(SnapshotTitle, textoNaoPersistido), TextoExibido(MirrorTitle, Some(textoPersistido))]
    }
  }
}
