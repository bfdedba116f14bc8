/**
 * Both screens over one store: the snapshot travels by value through navigation, while each
 * screen loads its own mirror of the store at mount. The methods below drive the screen classes
 * as the app does and state what the user then sees.
 */
module Scenarios {
  import opened Wrappers
  import opened JsString
  import opened Storage
  import opened Common
  import opened Detalhes
  import opened Home

  /**
   * Commit a draft, open the detail screen: it shows the committed text both as the snapshot
   * and as its freshly loaded mirror, and the store reads back the draft verbatim.
   */
  method CommitThenOpenDetail(initial: Option<string>, draft: string)
    returns (stored: Read, snapshot: Option<string>, persisted: string)
    requires !IsBlank(draft)
    ensures stored == Loaded(Some(draft))
    ensures snapshot == Some(draft) && persisted == draft
  {
    var store := new SecureStore(initial);
    var home := new HomeScreen(store);
    var _ := home.CarregarTextoPersistido(false);
    home.EditarTexto(draft);
    var _ := home.SalvarTexto(false);
    var params := home.Navegar();
    var detail := new DetalhesScreen(store, Some(params));
    var _ := detail.CarregarTextoPersistido(false);
    stored := store.GetItem(false);
    snapshot, persisted := detail.textoNaoPersistido, detail.textoPersistido;
  }

  /**
   * Commit a draft, then another session deletes the stored value, then open the detail
   * screen: its mirror is empty while the snapshot still holds the committed text. The home
   * screen, which does not re-read the store, still shows the text in both of its lines.
   */
  method DivergenceAfterExternalDelete(initial: Option<string>, draft: string)
    returns (homeLines: seq<string>, lines: seq<string>)
    requires !IsBlank(draft)
    ensures homeLines == [HomeSnapshotTitle + ": " + draft, HomeMirrorTitle + ": " + draft]
    ensures lines == [SnapshotTitle + ": " + draft, MirrorTitle + ": " + Fallback]
  {
    var store := new SecureStore(initial);
    var home := new HomeScreen(store);
    var _ := home.CarregarTextoPersistido(false);
    home.EditarTexto(draft);
    var _ := home.SalvarTexto(false);
    assert home.State() == HomeState("", draft, draft);
    var params := home.Navegar();
    var _ := store.DeleteItem(false);
    var detail := new DetalhesScreen(store, Some(params));
    assert detail.textoNaoPersistido == Some(draft);
    var _ := detail.CarregarTextoPersistido(false);
    assert detail.textoPersistido == "";
    assert draft != "";
    homeLines, lines := home.Lines(), detail.Lines();
  }

  /** The detail screen never writes: opening and loading it leaves the store as it was. */
  method DetailLeavesStore(initial: Option<string>, params: Option<RouteParams>, fault: bool)
    returns (before: Option<string>, after: Option<string>, persisted: string)
    ensures after == before == initial
    ensures persisted == (if !fault && IsTruthy(initial) then initial.value else "")
  {
    var store := new SecureStore(initial);
    before := store.slot;
    var detail := new DetalhesScreen(store, params);
    var _ := detail.CarregarTextoPersistido(fault);
    after, persisted := store.slot, detail.textoPersistido;
  }

  /**
   * The snapshot is a copy: after a commit and navigation, any later write or delete of the
   * store leaves the snapshot the detail screen receives unchanged, while its mirror follows
   * whatever the store then holds. `later` is the store's content after that change.
   */
  method SnapshotIndependentOfStore(initial: Option<string>, draft: string, later: Option<string>)
    returns (snapshot: Option<string>, persisted: string)
    requires !IsBlank(draft)
    ensures snapshot == Some(draft)
    ensures persisted == LoadedMirror("", Loaded(later))
  {
    var store := new SecureStore(initial);
    var home := new HomeScreen(store);
    var _ := home.CarregarTextoPersistido(false);
    home.EditarTexto(draft);
    var _ := home.SalvarTexto(false);
    var params := home.Navegar();
    if later.Some? {
      var _ := store.SetItem(later.value, false);
    } else {
      var _ := store.DeleteItem(false);
    }
    var detail := new DetalhesScreen(store, Some(params));
    var _ := detail.CarregarTextoPersistido(false);
    snapshot, persisted := detail.textoNaoPersistido, detail.textoPersistido;
  }
}
