/**
 * The home screen: a draft (`texto`), a mirror of the stored value (`textoPersistido`) and a
 * snapshot kept in memory only (`textoSalvoSemPersistencia`), synchronised with the store by
 * four handlers. The handlers are specified as functions on a `HomeState` value and the store
 * slot; the `HomeScreen` class performs them step by step and is proved to follow them.
 */
module Home {
  import opened Wrappers
  import opened JsString
  import opened Storage
  import opened Common
  import opened Detalhes

  /** The alert raised when the draft is empty or white space only. */
  const EmptyDraftNotice: string := "Por favor, insira algo."
  /** The alert raised after the stored text is deleted. */
  const DeletedNotice: string := "Texto apagado da persistência!"

  /** The titles of the two lines the screen renders. */
  const HomeSnapshotTitle: string := "Sem persistência"
  const HomeMirrorTitle: string := "Texto persistido"

  datatype HomeState = HomeState(texto: string, textoPersistido: string, textoSalvoSemPersistencia: string)

  /** The three `useState("")` initial values. */
  const Initial := HomeState("", "", "")

  /** The screen state and the store slot after a handler, and how the handler ended. */
  datatype Step = Step(home: HomeState, slot: Option<string>, outcome: Outcome)

  /** The mount effect: it never writes the store and touches neither the draft nor the snapshot. */
  function Carregar(h: HomeState, slot: Option<string>, fault: bool): (r: Step)
    ensures r.slot == slot
    ensures r.home.texto == h.texto && r.home.textoSalvoSemPersistencia == h.textoSalvoSemPersistencia
    ensures r.outcome == Rejected <==> fault
    ensures r.outcome != Rejected ==> r.outcome == Completed
  {
    var read := if fault then Unavailable else Loaded(slot);
    Step(h.(textoPersistido := LoadedMirror(h.textoPersistido, read)), slot, LoadOutcome(read))
  }

  /**
   * `salvarTexto`: reject a blank draft, else write it, then copy it to both mirrors and clear it.
   * The slot either stays or receives the draft, and the screen changes exactly when the commit completes.
   */
  function Salvar(h: HomeState, slot: Option<string>, fault: bool): (r: Step)
    ensures r.slot == slot || r.slot == Some(h.texto)
    ensures r.outcome == Completed <==> r.home != h
    ensures r.outcome != Completed ==> r.slot == slot
  {
    if IsBlank(h.texto) then Step(h, slot, Alerted(EmptyDraftNotice))
    else if fault then Step(h, slot, Rejected)
    else Step(HomeState("", h.texto, h.texto), Some(h.texto), Completed)
  }

  /**
   * `limparTexto`: delete the slot, then reset both mirrors and confirm. The draft is never
   * touched, and the slot ends absent unless the delete is rejected.
   */
  function Limpar(h: HomeState, slot: Option<string>, fault: bool): (r: Step)
    ensures r.home.texto == h.texto
    ensures r.slot == None || (r.slot == slot && r.outcome == Rejected)
    ensures r.outcome == Rejected <==> fault
  {
    if fault then Step(h, slot, Rejected)
    else Step(h.(textoPersistido := "", textoSalvoSemPersistencia := ""), None, Alerted(DeletedNotice))
  }

  /** The payload of the "Detalhes" button: the detail screen extracts exactly the snapshot from it. */
  function Payload(h: HomeState): (r: RouteParams)
    ensures SnapshotFromRoute(Some(r)) == Some(h.textoSalvoSemPersistencia)
  {
    RouteParams(Some(h.textoSalvoSemPersistencia))
  }

  // ---------------------------------------------------------------------------
  // Properties of the individual handlers

  /** The mount effect fills the mirror only from a present, non-empty value; the snapshot and draft stay "". */
  lemma MountLoad(slot: Option<string>, fault: bool)
    ensures var r := Carregar(Initial, slot, fault);
            r.slot == slot
            && r.home.texto == "" && r.home.textoSalvoSemPersistencia == ""
            && r.home.textoPersistido == (if !fault && IsTruthy(slot) then slot.value else "")
            && (r.outcome == Rejected <==> fault)
  {
  }

  /** A blank draft is refused with a notice; nothing is written and nothing changes. */
  lemma SalvarRejectsBlank(h: HomeState, slot: Option<string>, fault: bool)
    ensures var r := Salvar(h, slot, fault);
            IsBlank(h.texto) <==> r.outcome == Alerted(EmptyDraftNotice)
    ensures IsBlank(h.texto) ==> Salvar(h, slot, fault) == Step(h, slot, Alerted(EmptyDraftNotice))
  {
  }

  /** A successful commit stores the draft verbatim, copies it to both mirrors and empties the draft. */
  lemma SalvarCommits(h: HomeState, slot: Option<string>)
    requires !IsBlank(h.texto)
    ensures var r := Salvar(h, slot, false);
            r.slot == Some(h.texto) && r.outcome == Completed
            && r.home.texto == "" && r.home.textoPersistido == h.texto && r.home.textoSalvoSemPersistencia == h.texto
  {
  }

  /** A failed write aborts the handler: the draft, both mirrors and the slot keep their values. */
  lemma SalvarFailureKeepsState(h: HomeState, slot: Option<string>)
    requires !IsBlank(h.texto)
    ensures Salvar(h, slot, true) == Step(h, slot, Rejected)
  {
  }

  /** Whatever the home screen writes to the store holds a character other than white space. */
  lemma SalvarWritesVisibleText(h: HomeState, slot: Option<string>, fault: bool)
    ensures var r := Salvar(h, slot, fault);
            r.slot == slot
            || (r.slot == Some(h.texto) && h.texto != "" && exists i :: 0 <= i < |h.texto| && !IsWhiteSpace(h.texto[i]))
  {
  }

  /** Last write wins: a second successful commit replaces the first one's value. */
  lemma LastWriteWins(h: HomeState, slot: Option<string>, a: string, b: string)
    requires !IsBlank(a) && !IsBlank(b)
    ensures var first := Salvar(h.(texto := a), slot, false);
            var second := Salvar(first.home.(texto := b), first.slot, false);
            first.slot == Some(a) && second.slot == Some(b)
  {
  }

  /** Deleting empties the slot and both mirrors, keeps the draft, and confirms with a notice. */
  lemma LimparResets(h: HomeState, slot: Option<string>)
    ensures var r := Limpar(h, slot, false);
            r.slot == None && r.outcome == Alerted(DeletedNotice)
            && r.home == HomeState(h.texto, "", "")
  {
  }

  /** Deleting twice leaves the same state as deleting once, and the second call succeeds too. */
  lemma LimparIdempotent(h: HomeState, slot: Option<string>)
    ensures var once := Limpar(h, slot, false);
            var twice := Limpar(once.home, once.slot, false);
            twice == once
  {
  }

  /** A failed delete leaves everything as it was. */
  lemma LimparFailureKeepsState(h: HomeState, slot: Option<string>)
    ensures Limpar(h, slot, true) == Step(h, slot, Rejected)
  {
  }

  // ---------------------------------------------------------------------------
  // Runs of user events after mount

  /** A user action on the mounted screen; `fault` is the storage medium's verdict for that call. */
  datatype Event = Edit(novo: string) | Save(fault: bool) | Clear(fault: bool) | Navigate

  function Handle(h: HomeState, slot: Option<string>, e: Event): Step {
    match e
    case Edit(novo) => Step(h.(texto := novo), slot, Completed)
    case Save(fault) => Salvar(h, slot, fault)
    case Clear(fault) => Limpar(h, slot, fault)
    case Navigate => Step(h, slot, Completed)
  }

  /** The state and slot after the events, in order; the outcome is that of the last event (`Completed` for none). */
  function Run(h: HomeState, slot: Option<string>, events: seq<Event>): Step
    decreases |events|
  {
    if events == [] then Step(h, slot, Completed)
    else
      var s := Handle(h, slot, events[0]);
      if |events| == 1 then s else Run(s.home, s.slot, events[1..])
  }

  /** The slot is absent or holds a visible character. */
  predicate StoreHasNoBlank(slot: Option<string>) {
    slot.None? || !IsBlank(slot.value)
  }

  /** The text a missing slot stands for on screen. */
  function StoredText(slot: Option<string>): string {
    if slot.Some? then slot.value else ""
  }

  /** The slot is absent or holds a non-space character; the snapshot is "" or holds a non-space character. */
  predicate NoBlank(h: HomeState, slot: Option<string>) {
    StoreHasNoBlank(slot) && (h.textoSalvoSemPersistencia == "" || !IsBlank(h.textoSalvoSemPersistencia))
  }

  /** Every single event keeps `NoBlank`. */
  lemma HandleKeepsNoBlank(h: HomeState, slot: Option<string>, e: Event)
    requires NoBlank(h, slot)
    ensures var s := Handle(h, slot, e); NoBlank(s.home, s.slot)
  {
  }

  /**
   * Nothing the home screen writes is blank: if `NoBlank` holds before a run, it holds after it,
   * whatever storage calls fail.
   */
  lemma {:induction false} RunKeepsNoBlank(h: HomeState, slot: Option<string>, events: seq<Event>)
    requires NoBlank(h, slot)
    ensures var r := Run(h, slot, events); NoBlank(r.home, r.slot)
    decreases |events|
  {
    if events != [] {
      var s := Handle(h, slot, events[0]);
      HandleKeepsNoBlank(h, slot, events[0]);
      if |events| > 1 {
        RunKeepsNoBlank(s.home, s.slot, events[1..]);
      }
    }
  }

  /** A successful mount load leaves the persisted mirror equal to the stored text. */
  lemma MountSynchronises(slot: Option<string>)
    ensures Carregar(Initial, slot, false).home.textoPersistido == StoredText(slot)
  {
  }

  /**
   * Once the persisted mirror shows the stored text, it keeps showing it through any run of
   * edits, commits, deletes and navigations, failed storage calls included.
   */
  lemma {:induction false} RunKeepsMirrorSynchronised(h: HomeState, slot: Option<string>, events: seq<Event>)
    requires h.textoPersistido == StoredText(slot)
    ensures var r := Run(h, slot, events);
            r.home.textoPersistido == StoredText(r.slot)
    decreases |events|
  {
    if |events| > 1 {
      var s := Handle(h, slot, events[0]);
      RunKeepsMirrorSynchronised(s.home, s.slot, events[1..]);
    }
  }

  // ---------------------------------------------------------------------------
  // The screen as the app runs it

  class HomeScreen {
    const store: SecureStore
    var texto: string
    var textoPersistido: string
    var textoSalvoSemPersistencia: string

    function State(): HomeState
      reads this
    {
      HomeState(texto, textoPersistido, textoSalvoSemPersistencia)
    }

    /** Mounting the screen: all three texts start as "". */
    constructor (store: SecureStore)
      ensures this.store == store
      ensures State() == Initial
    {
      this.store := store;
      texto, textoPersistido, textoSalvoSemPersistencia := "", "", "";
    }

    /** The mount effect: reads the store and copies a present, non-empty value into the mirror. */
    method CarregarTextoPersistido(fault: bool) returns (outcome: Outcome)
      modifies this
      ensures store.slot == old(store.slot)
      ensures Step(State(), store.slot, outcome) == Carregar(old(State()), old(store.slot), fault)
    {
      var read := store.GetItem(fault);
      if read.Unavailable? {
        return Rejected;
      }
      if read.value.Some? && read.value.value != "" {
        textoPersistido := read.value.value;
      }
      outcome := Completed;
    }

    /** `onChangeText={setTexto}`: the draft becomes the input's text, nothing else changes. */
    method EditarTexto(novo: string)
      modifies this
      ensures State() == old(State()).(texto := novo)
    {
      texto := novo;
    }

    /** `salvarTexto`. */
    method SalvarTexto(fault: bool) returns (outcome: Outcome)
      modifies this, store
      ensures Step(State(), store.slot, outcome) == Salvar(old(State()), old(store.slot), fault)
    {
      if Trim(texto) == "" {
        return Alerted(EmptyDraftNotice);
      }
      var ok := store.SetItem(texto, fault);
      if !ok {
        return Rejected;
      }
      textoPersistido := texto;
      textoSalvoSemPersistencia := texto;
      texto := "";
      outcome := Completed;
    }

    /** `limparTexto`. */
    method LimparTexto(fault: bool) returns (outcome: Outcome)
      modifies this, store
      ensures Step(State(), store.slot, outcome) == Limpar(old(State()), old(store.slot), fault)
    {
      var ok := store.DeleteItem(fault);
      if !ok {
        return Rejected;
      }
      textoPersistido := "";
      textoSalvoSemPersistencia := "";
      outcome := Alerted(DeletedNotice);
    }

    /** The "Detalhes" button: hands over the snapshot, not the draft or the mirror, and changes nothing. */
    method Navegar() returns (params: RouteParams)
      ensures params == Payload(State())
      ensures params.textoNaoPersistido == Some(textoSalvoSemPersistencia)
    {
      params := RouteParams(Some(textoSalvoSemPersistencia));
    }

    /** The two lines the screen renders: the snapshot, then the mirror, each falling back when "". */
    function Lines(): (lines: seq<string>)
      reads this
      ensures |lines| == 2
      ensures lines[0] == HomeSnapshotTitle + ": " + (if textoSalvoSemPersistencia != "" then textoSalvoSemPersistencia else Fallback)
      ensures lines[1] == HomeMirrorTitle + ": " + (if textoPersistido != "" then textoPersistido else Fallback)
    {
      [TextoExibido(HomeSnapshotTitle, Some(textoSalvoSemPersistencia)),
       TextoExibido(HomeMirrorTitle, Some(textoPersistido))]
    }
  }
}
