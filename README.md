# Persistência e Navegação — a Dafny model of the two screens

The app has two React Native screens that share one entry of the device's secure store, the
key `meuTexto`. The home screen (`HomeScreen`) keeps three texts:

- the draft `texto`;
- `textoPersistido`, a mirror of the stored value;
- `textoSalvoSemPersistencia`, a snapshot kept in memory only.

Its handlers load the stored value at mount, replace the draft on every edit, commit the draft
(`salvarTexto`), delete the stored value (`limparTexto`) and navigate. Navigation hands the
snapshot to the detail screen (`DetalhesScreen`). That screen shows the snapshot next to its
own mirror, which it loads from the store at mount. It never writes.

The model:

- `wrappers.dfy`: `Option`, standing for a JavaScript value that may be `null` or `undefined`.
- `jsstring.dfy`: `String.prototype.trim` (`TrimStart`, `TrimEnd`, `Trim`) over the ECMAScript
  white-space and line-terminator code points, the blank test `!s.trim()`, and string truthiness.
- `storage.dfy`: the store as a class `SecureStore` with one field `slot: Option<string>`, the
  value under `meuTexto`. It has `GetItem`, `SetItem` and `DeleteItem`. Each call takes `fault`,
  the storage medium's verdict for that call; a failed call changes nothing.
- `common.dfy`: what both files define alike. This is `TextoExibido`, the mount-time rule
  `if (textoSalvo) setTextoPersistido(textoSalvo)` (`LoadedMirror`), and `Outcome`. An `Outcome`
  says how a handler ended: it ran to its end, it raised an `alert` with a message, or an awaited
  storage call rejected.
- `home.dfy`: each handler as a function on a `HomeState` value and the slot (`Carregar`,
  `Salvar`, `Limpar`, `Payload`), with lemmas about them. It also holds runs of user events
  (`Run`) with their invariants, and the class `HomeScreen`. The class performs the handlers step
  by step, and each method is proved to match its function.
- `detalhes.dfy`: the route payload, the snapshot extraction `route.params || {}`, and the
  class `DetalhesScreen`.
- `scenarios.dfy`: methods that drive both screen classes over one store, as the app does, and
  state what the user then sees.

## Model

| member | source | states |
|---|---|---|
| JsString.TrimStart | pages/Home.js:34 | the result is the suffix of the input after its leading white space; it is empty or starts with a non-space |
| JsString.TrimEnd | pages/Home.js:34 | the result is the prefix of the input before its trailing white space; it is empty or ends with a non-space |
| JsString.Trim | pages/Home.js:34 | `trim()` yields "" exactly when every character is white space; otherwise its first and last characters are not white space |
| JsString.NotBlankHasVisibleChar | pages/Home.js:34-38 | a draft that passes the `!texto.trim()` test is non-empty and holds a non-space character |
| Common.TextoExibido | pages/Home.js:9-13 | every rendered line starts with the title, a colon and a space, and shows a non-empty value after it |
| Common.ShowsTruthyText | pages/Home.js:9-13 | a non-empty text renders as `titulo + ": " + texto` |
| Common.ShowsFallback | pages/Detalhes.js:9-13 | an empty or missing text renders as `titulo + ": Nenhum texto salvo"` |
| Common.FallbackShownIff | pages/Home.js:11 | the fallback line appears if and only if the text is empty, missing, or literally the fallback string |
| Common.TruthyDisplayInjective | pages/Home.js:11 | two non-empty texts under one title render alike only when they are equal |
| Common.LoadedMirror | pages/Home.js:24-29 | the mirror takes the stored value when the read succeeds and the value is present and non-empty; in every other case it keeps its value |
| Storage.SecureStore.GetItem | pages/Home.js:25 | a read returns the slot, or rejects on a fault; the store is unchanged |
| Storage.SecureStore.SetItem | pages/Home.js:38 | a successful write overwrites the slot with the value; a failed one leaves it |
| Storage.SecureStore.DeleteItem | pages/Home.js:45 | a successful delete empties the slot, whether or not it held a value; a failed one leaves it |
| Home.Carregar | pages/Home.js:23-31 | the mount effect never writes the store, keeps the draft and the snapshot, and ends in `Rejected` exactly when the read fails |
| Home.Salvar | pages/Home.js:33-42 | a commit leaves the slot alone or writes the draft; the screen changes exactly when the commit completes; a commit that does not complete leaves the slot alone |
| Home.Limpar | pages/Home.js:44-48 | a delete never touches the draft, and leaves the slot absent unless it is rejected, which happens exactly on a storage failure |
| Home.Payload | pages/Home.js:74 | the detail screen extracts exactly the home snapshot from the navigation payload |
| Home.MountLoad | pages/Home.js:16-31 | after mount, the persisted mirror holds the stored value only when the read succeeds and the value is present and non-empty, and is "" otherwise; draft and snapshot stay "" |
| Home.SalvarRejectsBlank | pages/Home.js:34-37 | a commit raises "Por favor, insira algo." exactly when the draft is empty or white space only; it then changes neither the screen nor the slot |
| Home.SalvarCommits | pages/Home.js:38-41 | a successful commit leaves the slot holding the draft verbatim, both mirrors equal to the old draft and the draft "" |
| Home.SalvarFailureKeepsState | pages/Home.js:38-41 | when the write fails, draft, persisted mirror, snapshot and slot keep their values |
| Home.SalvarWritesVisibleText | pages/Home.js:34-38 | a commit either leaves the slot alone or writes the draft, which is non-empty and holds a non-space character |
| Home.LastWriteWins | pages/Home.js:38 | committing "a" then "b" leaves the slot holding "b" |
| Home.LimparResets | pages/Home.js:44-48 | a successful delete empties the slot and both mirrors, keeps the draft and raises "Texto apagado da persistência!" |
| Home.LimparIdempotent | pages/Home.js:44-48 | deleting twice gives the same state, slot and notice as deleting once |
| Home.LimparFailureKeepsState | pages/Home.js:45-48 | when the delete fails, the screen and the slot keep their values and no notice is raised |
| Home.HandleKeepsNoBlank | pages/Home.js:33-58 | every edit, commit, delete or navigation keeps two facts: the slot is absent or holds a non-space character, and the snapshot is "" or holds a non-space character |
| Home.RunKeepsNoBlank | pages/Home.js:33-48 | over any run of events, failed storage calls included, the slot stays absent or holding a non-space character, and the snapshot stays "" or holding a non-space character |
| Home.MountSynchronises | pages/Home.js:23-31 | a successful mount load leaves the persisted mirror equal to the stored text, with an absent slot read as "" |
| Home.RunKeepsMirrorSynchronised | pages/Home.js:33-48 | once the persisted mirror equals the stored text, it still does after any run of events, failed storage calls included |
| Home.HomeScreen.constructor | pages/Home.js:15-18 | the draft, the persisted mirror and the snapshot all start as "" |
| Home.HomeScreen.CarregarTextoPersistido | pages/Home.js:23-31 | the mount effect changes the screen as `Carregar` says and never writes the store |
| Home.HomeScreen.EditarTexto | pages/Home.js:58 | an edit replaces the draft and nothing else |
| Home.HomeScreen.SalvarTexto | pages/Home.js:33-42 | the commit handler changes the screen and the slot and ends as `Salvar` says |
| Home.HomeScreen.LimparTexto | pages/Home.js:44-49 | the delete handler changes the screen and the slot and ends as `Limpar` says |
| Home.HomeScreen.Navegar | pages/Home.js:74 | navigation returns `Payload` of the current state, which carries the snapshot, not the draft or the persisted mirror; it changes nothing |
| Home.HomeScreen.Lines | pages/Home.js:61-62 | the home screen shows the snapshot, then the persisted mirror, each after its title, with the fallback in place of "" |
| Detalhes.SnapshotFromRoute | pages/Detalhes.js:17 | a present snapshot is the one carried by the route params |
| Detalhes.SnapshotShown | pages/Detalhes.js:17 | with params the snapshot is the `textoNaoPersistido` passed; without params it is missing and the fallback is shown |
| Detalhes.DetalhesScreen.constructor | pages/Detalhes.js:15-19 | the snapshot comes from the route params and the detail mirror starts as "" |
| Detalhes.DetalhesScreen.Lines | pages/Detalhes.js:37-38 | the detail screen shows the snapshot, then its mirror, each after its title, with the fallback in place of a missing or empty value |
| Detalhes.DetalhesScreen.CarregarTextoPersistido | pages/Detalhes.js:22-32 | the detail mount load sets its mirror by the same rule as the home screen and leaves the store unchanged |
| Scenarios.CommitThenOpenDetail | pages/Detalhes.js:15-32 | after a commit, the store reads back the draft, and the detail screen shows it as both snapshot and mirror |
| Scenarios.DivergenceAfterExternalDelete | pages/Detalhes.js:17-38 | if another session deletes the value after a commit, the detail screen shows the fallback for its mirror but the committed text for its snapshot; the home screen still shows the text in both lines |
| Scenarios.DetailLeavesStore | pages/Detalhes.js:22-32 | opening and loading the detail screen leaves the store as it was, and sets its mirror only from a present, non-empty value |
| Scenarios.SnapshotIndependentOfStore | pages/Detalhes.js:17-32 | after a commit and navigation, any later write or delete of the store leaves the detail screen's snapshot equal to the committed text, while its mirror follows the store's new content |

## Notes on the code

- No handler catches a rejected `await`. The rejection goes unhandled, no `alert` is raised, and
  the assignments after the `await` never run. The model ends such a handler in
  `Outcome.Rejected`, with no message and with the state as it was before the call.
- The mirrors are strings. They start as "" and are reset to "", never to a missing value.

## Left out

- Layout and styles (the JSX tree and `StyleSheet` objects): presentation only. The two
  `TextoExibido` lines of each screen are kept, as `Lines`.
- The `expo-secure-store` library and the device medium. They are replaced by one in-memory slot
  plus a success or failure verdict per call. Other keys of the store are not modelled, because
  both screens use only `meuTexto`.
- React's `useState`/`useEffect` scheduling and asynchronous timing. Each handler is one atomic
  step. A handler started while another one's storage call is pending, and a result arriving
  after the screen is unmounted, are not modelled.
- The navigation library. Navigating is reduced to passing the route params value to the detail
  screen's constructor.
- `alert` as a user-interface effect. It is returned as `Outcome.Alerted(message)`.
- JavaScript strings are UTF-16 code units; the model's strings are Unicode scalar values. Every
  code point `trim` removes lies in the Basic Multilingual Plane, so the blank test is unaffected.
  The white-space set is the one of current ECMAScript; engines that predate Unicode 6.3 also
  strip U+180E, and the model does not.
- Any writer of `meuTexto` other than these two screens appears only as a direct store call in
  the scenarios.
