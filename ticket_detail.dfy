/**
 * TicketDetailView: the ticket page. Viewing it clears the viewer's own
 * notification flag; posting to it updates status fields with a history
 * line per change, closes or reopens the ticket, or sends a message, with
 * a gate that restricts what a Closed ("F") ticket accepts.
 *
 * Each operation is a method that updates the ticket field by field, as
 * the view does, and is proved equal to a function on `TicketState` (the
 * `After...` functions); the properties are lemmas about those functions.
 */
module TicketDetail {
  import opened Wrappers
  import opened Choices
  import opened PyStr
  import opened Tickets
  import opened Forms
  import opened Outcomes

  /** What a POST to the ticket page carries. */
  datatype PostData = PostData(
    action: Option<string>,   // request.POST.get('action')
    confirmarBtn: bool,       // 'confirmar_btn' in request.POST
    form: StatusFormInput,    // the status-form fields
    conclusao: Option<string>,
    enviarMensagem: bool,     // 'enviar_mensagem' in request.POST
    texto: Option<string>)

  const SaveFailedWarning: string := "Não foi possível salvar as alterações. Verifique os dados."
  const ClosedWarning: string := "Mensagens não podem ser enviadas para tickets fechados."
  const ClosedSuccess: string := "Ticket concluído com sucesso!"
  const ReopenedSuccess: string := "Ticket reativado com sucesso!"
  const MessageSuccess: string := "Mensagem enviada com sucesso!"
  const EmptyMessageWarning: string := "A mensagem não pode estar vazia."
  const ReopenedHistory: string := "Ticket reativado"
  const Delimiter: string := "-----------------"

  /** The page context: the ticket's messages and history, and whether it is Closed. */
  datatype DetailContext = DetailContext(ticketId: nat, isClosed: bool,
                                         mensagens: seq<Message>, historico: seq<HistoryEntry>)

  function ContextData(id: nat, s: TicketState): DetailContext
  {
    DetailContext(id, s.status == Closed, s.mensagens, s.historico)
  }

  // ---------------------------------------------------------------------
  // Viewing a ticket

  /** The state after the technician- or requester-viewer clears a flag. */
  function Acknowledge(s: TicketState, user: UserId): TicketState
  {
    if s.tecnico == Some(user) && s.atualizadoTecnico then s.(atualizadoTecnico := false)
    else if s.usuario == Some(user) && s.atualizadoColaborador then s.(atualizadoColaborador := false)
    else s
  }

  /**
   * Viewing never sets a flag and changes at most one: the technician
   * viewer ends with `atualizadoTecnico` clear; failing that, the requester
   * viewer ends with `atualizadoColaborador` clear; a flag of a party the
   * viewer is not stays as it was, and so does every other field.
   */
  lemma AcknowledgeClearsOwnFlag(s: TicketState, user: UserId)
    ensures var r := Acknowledge(s, user);
      && r == s.(atualizadoTecnico := r.atualizadoTecnico, atualizadoColaborador := r.atualizadoColaborador)
      && (r.atualizadoTecnico ==> s.atualizadoTecnico)
      && (r.atualizadoColaborador ==> s.atualizadoColaborador)
      && (r.atualizadoTecnico == s.atualizadoTecnico || r.atualizadoColaborador == s.atualizadoColaborador)
      && (s.tecnico == Some(user) ==> !r.atualizadoTecnico)
      && (s.tecnico != Some(user) ==> r.atualizadoTecnico == s.atualizadoTecnico)
      && (s.usuario == Some(user) && !(s.tecnico == Some(user) && s.atualizadoTecnico) ==> !r.atualizadoColaborador)
      && (s.usuario != Some(user) ==> r.atualizadoColaborador == s.atualizadoColaborador)
  {
  }

  /** `get`: clear the viewer's flag, save, and render the page. */
  method Get(ticket: Ticket, user: UserId) returns (out: Outcome, page: DetailContext)
    modifies ticket
    ensures ticket.State() == Acknowledge(old(ticket.State()), user)
    ensures page == ContextData(ticket.id, ticket.State())
    ensures out == Outcome(Render(DetailPage(ticket.id)), [])
  {
    if ticket.tecnico == Some(user) && ticket.atualizadoTecnico {
      ticket.atualizadoTecnico := false;
    } else if ticket.usuario == Some(user) && ticket.atualizadoColaborador {
      ticket.atualizadoColaborador := false;
    }
    page := DetailContext(ticket.id, ticket.status == Closed, ticket.mensagens, ticket.historico);
    out := Outcome(Render(DetailPage(ticket.id)), []);
  }

  // ---------------------------------------------------------------------
  // Status-form update with change logging

  /** The values captured before the form is applied. */
  datatype Prior = Prior(status: string, prioridade: string, nivelAtendimento: Option<string>, tecnico: Option<UserId>)

  function PriorOf(s: TicketState): Prior {
    Prior(s.status, s.prioridade, s.nivelAtendimento, s.tecnico)
  }

  /** The prior values as read after validation has copied `u` into the ticket. */
  function CopiedPrior(u: StatusUpdate): Prior {
    Prior(u.status, u.prioridade, u.nivelAtendimento, u.tecnico)
  }

  /** The four compared fields, in the order the view compares them. */
  datatype Field = StatusField | PriorityField | LevelField | TechnicianField

  function Rank(f: Field): nat {
    match f
    case StatusField => 0
    case PriorityField => 1
    case LevelField => 2
    case TechnicianField => 3
  }

  predicate Differs(f: Field, p: Prior, u: StatusUpdate) {
    match f
    case StatusField => p.status != u.status
    case PriorityField => p.prioridade != u.prioridade
    case LevelField => p.nivelAtendimento != u.nivelAtendimento
    case TechnicianField => p.tecnico != u.tecnico
  }

  /** `[x]` when the field changed, `[]` otherwise. */
  function When<T>(changed: bool, x: T): seq<T> {
    if changed then [x] else []
  }

  /** The fields whose value changed, in comparison order. */
  function ChangedFields(p: Prior, u: StatusUpdate): seq<Field>
  {
    When(Differs(StatusField, p, u), StatusField)
    + When(Differs(PriorityField, p, u), PriorityField)
    + When(Differs(LevelField, p, u), LevelField)
    + When(Differs(TechnicianField, p, u), TechnicianField)
  }

  /**
   * Exactly the fields whose value changed are listed, each once, in the
   * order status, priority, level, technician.
   */
  lemma ChangedFieldsExactly(p: Prior, u: StatusUpdate)
    ensures var r := ChangedFields(p, u);
      && (forall f :: f in r <==> Differs(f, p, u))
      && (forall i :: 0 <= i < |r| - 1 ==> Rank(r[i]) < Rank(r[i + 1]))
  {
    var a := When(Differs(StatusField, p, u), StatusField);
    var b := When(Differs(PriorityField, p, u), PriorityField);
    var c := When(Differs(LevelField, p, u), LevelField);
    var d := When(Differs(TechnicianField, p, u), TechnicianField);
    assert ChangedFields(p, u) == a + b + c + d;
  }

  /** How a user prints in an f-string: the username, or "None". */
  function UserText(user: Option<UserId>, username: UserId -> string): string {
    match user
    case None => "None"
    case Some(id) => username(id)
  }

  /** The display text of a field's old and new value. */
  function OldText(f: Field, p: Prior, username: UserId -> string): string {
    match f
    case StatusField => StatusLabel(p.status)
    case PriorityField => PriorityLabel(p.prioridade)
    case LevelField => LevelDisplay(p.nivelAtendimento)
    case TechnicianField => UserText(p.tecnico, username)
  }

  function NewText(f: Field, u: StatusUpdate, username: UserId -> string): string {
    match f
    case StatusField => StatusLabel(u.status)
    case PriorityField => PriorityLabel(u.prioridade)
    case LevelField => LevelDisplay(u.nivelAtendimento)
    case TechnicianField => UserText(u.tecnico, username)
  }

  function Subject(f: Field): string {
    match f
    case StatusField => "Status do ticket alterado"
    case PriorityField => "Prioridade do ticket alterada"
    case LevelField => "Nível de atendimento alterado"
    case TechnicianField => "Técnico responsável alterado"
  }

  /** The history line for one changed field. */
  function HistoryLine(f: Field, p: Prior, u: StatusUpdate, agora: string, username: UserId -> string): string {
    Subject(f) + " de \"" + OldText(f, p, username) + "\" para \"" + NewText(f, u, username) + "\" em " + agora
  }

  /** The confirmation shown for one changed field. */
  function NoticeLine(f: Field, u: StatusUpdate, username: UserId -> string): Notice {
    SuccessNote(Subject(f) + " para \"" + NewText(f, u, username) + "\".")
  }

  /** The `novo_historico` list: one line per changed field, in comparison order. */
  function ChangeLog(p: Prior, u: StatusUpdate, agora: string, username: UserId -> string): seq<string>
  {
    When(Differs(StatusField, p, u), HistoryLine(StatusField, p, u, agora, username))
    + When(Differs(PriorityField, p, u), HistoryLine(PriorityField, p, u, agora, username))
    + When(Differs(LevelField, p, u), HistoryLine(LevelField, p, u, agora, username))
    + When(Differs(TechnicianField, p, u), HistoryLine(TechnicianField, p, u, agora, username))
  }

  /** The confirmations shown, one per changed field, in the same order. */
  function ChangeNotices(p: Prior, u: StatusUpdate, username: UserId -> string): seq<Notice>
  {
    When(Differs(StatusField, p, u), NoticeLine(StatusField, u, username))
    + When(Differs(PriorityField, p, u), NoticeLine(PriorityField, u, username))
    + When(Differs(LevelField, p, u), NoticeLine(LevelField, u, username))
    + When(Differs(TechnicianField, p, u), NoticeLine(TechnicianField, u, username))
  }

  /** `ys` is `xs` mapped through `h`. */
  ghost predicate Mapped<X, Y>(xs: seq<X>, ys: seq<Y>, h: X -> Y) {
    |xs| == |ys| && forall i :: 0 <= i < |xs| ==> ys[i] == h(xs[i])
  }

  lemma MappedStep<X, Y>(xs: seq<X>, ys: seq<Y>, changed: bool, x: X, h: X -> Y)
    requires Mapped(xs, ys, h)
    ensures Mapped(xs + When(changed, x), ys + When(changed, h(x)), h)
  {
  }

  /**
   * The change log and the confirmations are the changed fields, each
   * mapped to its own history line and its own confirmation.
   */
  lemma {:induction false} ChangeLogFollowsFields(p: Prior, u: StatusUpdate, agora: string, username: UserId -> string)
    ensures Mapped(ChangedFields(p, u), ChangeLog(p, u, agora, username), f => HistoryLine(f, p, u, agora, username))
    ensures Mapped(ChangedFields(p, u), ChangeNotices(p, u, username), f => NoticeLine(f, u, username))
  {
    var h := f => HistoryLine(f, p, u, agora, username);
    var n := f => NoticeLine(f, u, username);
    var d1, d2, d3, d4 := Differs(StatusField, p, u), Differs(PriorityField, p, u),
                          Differs(LevelField, p, u), Differs(TechnicianField, p, u);
    var fs, ls, ns := When(d1, StatusField), When(d1, h(StatusField)), When(d1, n(StatusField));
    assert Mapped(fs, ls, h) && Mapped(fs, ns, n);
    MappedStep(fs, ls, d2, PriorityField, h);
    MappedStep(fs, ns, d2, PriorityField, n);
    fs, ls, ns := fs + When(d2, PriorityField), ls + When(d2, h(PriorityField)), ns + When(d2, n(PriorityField));
    MappedStep(fs, ls, d3, LevelField, h);
    MappedStep(fs, ns, d3, LevelField, n);
    fs, ls, ns := fs + When(d3, LevelField), ls + When(d3, h(LevelField)), ns + When(d3, n(LevelField));
    MappedStep(fs, ls, d4, TechnicianField, h);
    MappedStep(fs, ns, d4, TechnicianField, n);
  }

  /** The history entries `add_historico` writes for a list of texts. */
  function Entries(id: nat, texts: seq<string>, user: UserId, now: int): (r: seq<HistoryEntry>)
    ensures |r| == |texts|
    ensures forall i :: 0 <= i < |texts| ==> r[i] == HistoryEntry(id, texts[i], user, now)
  {
    seq(|texts|, i requires 0 <= i < |texts| => HistoryEntry(id, texts[i], user, now))
  }

  /** The party who did not act is notified: the requester when the technician acted, else the technician. */
  function Notify(s: TicketState, technicianActed: bool): TicketState {
    if technicianActed then s.(atualizadoColaborador := true) else s.(atualizadoTecnico := true)
  }

  /**
   * The saved state after a valid status form: the four fields take the
   * submitted values, one history entry per changed field, `atualizadoEm`
   * is `now`, and the party other than the (new) technician is notified.
   * The form's completion date is not among the saved fields.
   */
  function AfterFormValid(s: TicketState, id: nat, p: Prior, u: StatusUpdate, user: UserId, now: int,
                          agora: string, username: UserId -> string): (TicketState, Outcome)
  {
    var s1 := s.(status := u.status, prioridade := u.prioridade, nivelAtendimento := u.nivelAtendimento,
                 tecnico := u.tecnico, atualizadoEm := now,
                 historico := s.historico + Entries(id, ChangeLog(p, u, agora, username), user, now));
    (Notify(s1, u.tecnico == Some(user)), Outcome(Redirect(DetailPage(id)), ChangeNotices(p, u, username)))
  }

  /**
   * A status update appends exactly one history entry and one confirmation
   * per changed field, in the order status, priority, level, technician;
   * none when nothing changed.
   */
  lemma FormValidLogsEachChange(s: TicketState, id: nat, p: Prior, u: StatusUpdate, user: UserId, now: int,
                                agora: string, username: UserId -> string)
    ensures var (r, out) := AfterFormValid(s, id, p, u, user, now, agora, username);
      var fs := ChangedFields(p, u);
      && |r.historico| == |s.historico| + |fs|
      && r.historico[..|s.historico|] == s.historico
      && (forall i :: 0 <= i < |fs| ==>
            r.historico[|s.historico| + i] == HistoryEntry(id, HistoryLine(fs[i], p, u, agora, username), user, now))
      && |out.notices| == |fs|
      && (forall i :: 0 <= i < |fs| ==> out.notices[i] == NoticeLine(fs[i], u, username))
      && (fs == [] <==> p == Prior(u.status, u.prioridade, u.nivelAtendimento, u.tecnico))
  {
    ChangeLogFollowsFields(p, u, agora, username);
  }

  /**
   * After a status update the actor's counterpart is notified: the
   * requester's flag when the actor is the technician the form names,
   * otherwise the technician's; the other flag keeps its value.
   */
  lemma FormValidNotifiesOtherParty(s: TicketState, id: nat, p: Prior, u: StatusUpdate, user: UserId, now: int,
                                    agora: string, username: UserId -> string)
    ensures var r := AfterFormValid(s, id, p, u, user, now, agora, username).0;
      && r == s.(status := u.status, prioridade := u.prioridade, nivelAtendimento := u.nivelAtendimento,
                 tecnico := u.tecnico, atualizadoEm := now, historico := r.historico,
                 atualizadoColaborador := r.atualizadoColaborador, atualizadoTecnico := r.atualizadoTecnico)
      && (u.tecnico == Some(user) ==> r.atualizadoColaborador && r.atualizadoTecnico == s.atualizadoTecnico)
      && (u.tecnico != Some(user) ==> r.atualizadoTecnico && r.atualizadoColaborador == s.atualizadoColaborador)
  {
  }

  /**
   * A technician taking an unassigned ticket, with nothing else changed,
   * writes exactly one history entry naming the old technician "None" and
   * the new one by username, and notifies the requester.
   */
  lemma SelfAssignScenario(s: TicketState, id: nat, alice: UserId, now: int, agora: string,
                           username: UserId -> string)
    requires s.tecnico.None?
    ensures var u := StatusUpdate(s.status, s.prioridade, None, s.nivelAtendimento, Some(alice));
      var (r, out) := AfterFormValid(s, id, PriorOf(s), u, alice, now, agora, username);
      && r.historico == s.historico + [HistoryEntry(id,
           "Técnico responsável alterado de \"None\" para \"" + username(alice) + "\" em " + agora, alice, now)]
      && out.notices == [SuccessNote("Técnico responsável alterado para \"" + username(alice) + "\".")]
      && r.atualizadoColaborador
  {
    var u := StatusUpdate(s.status, s.prioridade, None, s.nivelAtendimento, Some(alice));
    var p := PriorOf(s);
    assert !Differs(StatusField, p, u) && !Differs(PriorityField, p, u) && !Differs(LevelField, p, u);
    assert Differs(TechnicianField, p, u);
    assert ChangeLog(p, u, agora, username) == [HistoryLine(TechnicianField, p, u, agora, username)];
    assert ChangeNotices(p, u, username) == [NoticeLine(TechnicianField, u, username)];
    assert HistoryLine(TechnicianField, p, u, agora, username)
        == Subject(TechnicianField) + " de \"" + "None" + "\" para \"" + username(alice) + "\" em " + agora;
    TechnicianLineText(agora, username(alice));
    TechnicianNoticeText(username(alice));
  }

  /** The technician line with an absent previous technician, spelled out. */
  lemma TechnicianLineText(agora: string, name: string)
    ensures Subject(TechnicianField) + " de \"" + "None" + "\" para \"" + name + "\" em " + agora
         == "Técnico responsável alterado de \"None\" para \"" + name + "\" em " + agora
  {
    assert Subject(TechnicianField) + " de \"" + "None" + "\" para \"" == "Técnico responsável alterado de \"None\" para \"";
  }

  /** The technician confirmation, spelled out. */
  lemma TechnicianNoticeText(name: string)
    ensures Subject(TechnicianField) + " para \"" + name + "\"." == "Técnico responsável alterado para \"" + name + "\"."
  {
    assert Subject(TechnicianField) + " para \"" == "Técnico responsável alterado para \"";
  }

  /**
   * One comparison of a form field with its prior value: when it changed,
   * a history line and a confirmation are appended.
   */
  method LogIfChanged(f: Field, p: Prior, u: StatusUpdate, agora: string, username: UserId -> string,
                      h: seq<string>, n: seq<Notice>)
    returns (h': seq<string>, n': seq<Notice>)
    ensures h' == h + When(Differs(f, p, u), HistoryLine(f, p, u, agora, username))
    ensures n' == n + When(Differs(f, p, u), NoticeLine(f, u, username))
  {
    h', n' := h, n;
    if Differs(f, p, u) {
      h' := h' + [HistoryLine(f, p, u, agora, username)];
      n' := n' + [NoticeLine(f, u, username)];
    }
  }

  /**
   * The `novo_historico` list and the confirmations, built by comparing
   * each field with its prior value in turn.
   */
  method BuildChangeLog(p: Prior, u: StatusUpdate, agora: string, username: UserId -> string)
    returns (novoHistorico: seq<string>, notices: seq<Notice>)
    ensures novoHistorico == ChangeLog(p, u, agora, username)
    ensures notices == ChangeNotices(p, u, username)
  {
    novoHistorico, notices := LogIfChanged(StatusField, p, u, agora, username, [], []);
    novoHistorico, notices := LogIfChanged(PriorityField, p, u, agora, username, novoHistorico, notices);
    novoHistorico, notices := LogIfChanged(LevelField, p, u, agora, username, novoHistorico, notices);
    novoHistorico, notices := LogIfChanged(TechnicianField, p, u, agora, username, novoHistorico, notices);
    assert [] + When(Differs(StatusField, p, u), HistoryLine(StatusField, p, u, agora, username))
        == When(Differs(StatusField, p, u), HistoryLine(StatusField, p, u, agora, username));
    assert [] + When(Differs(StatusField, p, u), NoticeLine(StatusField, u, username))
        == When(Differs(StatusField, p, u), NoticeLine(StatusField, u, username));
  }

  /** The loop over `novo_historico`: one `add_historico` call per text, in order. */
  method AddAll(ticket: Ticket, novoHistorico: seq<string>, user: UserId, now: int)
    modifies ticket`historico
    ensures ticket.historico == old(ticket.historico) + Entries(ticket.id, novoHistorico, user, now)
  {
    for i := 0 to |novoHistorico|
      invariant ticket.historico == old(ticket.historico) + Entries(ticket.id, novoHistorico[..i], user, now)
    {
      assert novoHistorico[..i + 1] == novoHistorico[..i] + [novoHistorico[i]];
      ticket.AddHistorico(novoHistorico[i], user, now);
    }
    assert novoHistorico[..|novoHistorico|] == novoHistorico;
  }

  /** `form.save(commit=False)`: the four form fields take the submitted values. */
  method ApplyStatusForm(ticket: Ticket, u: StatusUpdate)
    modifies ticket`status, ticket`prioridade, ticket`nivelAtendimento, ticket`tecnico
    ensures ticket.State() == old(ticket.State()).(status := u.status, prioridade := u.prioridade,
      nivelAtendimento := u.nivelAtendimento, tecnico := u.tecnico)
  {
    ticket.status := u.status;
    ticket.prioridade := u.prioridade;
    ticket.nivelAtendimento := u.nivelAtendimento;
    ticket.tecnico := u.tecnico;
  }

  /** The flag update every action ends with: the party who did not act is notified. */
  method NotifyOtherParty(ticket: Ticket, technicianActed: bool)
    modifies ticket`atualizadoColaborador, ticket`atualizadoTecnico
    ensures ticket.State() == Notify(old(ticket.State()), technicianActed)
  {
    if technicianActed {
      ticket.atualizadoColaborador := true;
    } else {
      ticket.atualizadoTecnico := true;
    }
  }

  /** `form_valid`: apply the form, log each change, notify, save. */
  method FormValid(ticket: Ticket, u: StatusUpdate, p: Prior, user: UserId, now: int, agora: string,
                   username: UserId -> string) returns (out: Outcome)
    modifies ticket
    ensures (ticket.State(), out) == AfterFormValid(old(ticket.State()), ticket.id, p, u, user, now, agora, username)
  {
    // form.save(commit=False); the completion date it also sets is not among
    // the saved fields, so the stored ticket keeps its own.
    ApplyStatusForm(ticket, u);

    var novoHistorico, notices := BuildChangeLog(p, u, agora, username);
    AddAll(ticket, novoHistorico, user, now);

    ticket.atualizadoEm := now;
    NotifyOtherParty(ticket, ticket.tecnico == Some(user));
    out := Outcome(Redirect(DetailPage(ticket.id)), notices);
  }

  // ---------------------------------------------------------------------
  // Close

  /** The conclusion block: delimiter line, bracketed time, comment, stripped. */
  function FormattedComment(agora: string, comment: string): string {
    Strip(Delimiter + "\n[" + agora + "]\n" + comment)
  }

  /**
   * The block keeps the delimiter line and the bracketed time as written;
   * only trailing whitespace of the comment is stripped.
   */
  lemma {:induction false} FormattedCommentShape(agora: string, comment: string)
    ensures FormattedComment(agora, comment) == Delimiter + "\n[" + agora + "]" + RStrip("\n" + comment)
    ensures FormattedComment(agora, comment)[..|Delimiter|] == Delimiter
  {
    var p := Delimiter + "\n[" + agora + "]";
    assert Delimiter + "\n[" + agora + "]\n" + comment == p + ("\n" + comment);
    StripAfterSolidPrefix(p, "\n" + comment);
  }

  /** `ticket.conclusao or ''`, extended by a new block on a new line. */
  function AppendConclusion(previous: Option<string>, block: string): string {
    var anterior := if previous.Some? then previous.value else "";
    if anterior != "" then anterior + "\n" + block else block
  }

  /** Python truthiness of an optional POST value: present and not "". */
  predicate Given(v: Option<string>) {
    v.Some? && v.value != ""
  }

  function AfterEncerrar(s: TicketState, id: nat, conclusao: Option<string>, user: UserId, isTecnico: bool,
                         now: int, agora: string): (TicketState, Outcome)
  {
    if Given(conclusao) then
      var s1 := s.(conclusao := Some(AppendConclusion(s.conclusao, FormattedComment(agora, conclusao.value))),
                   historico := s.historico + [HistoryEntry(id, "Conclusão: " + conclusao.value, user, now)],
                   dataConclusao := Some(now), ativo := false, status := Completed);
      (Notify(s1, isTecnico), Outcome(Redirect(DashboardPage), [SuccessNote(ClosedSuccess)]))
    else
      (s, Outcome(Redirect(DashboardPage), []))
  }

  /** Closing without a comment changes nothing and says nothing. */
  lemma EncerrarEmptyIsNoop(s: TicketState, id: nat, conclusao: Option<string>, user: UserId, isTecnico: bool,
                            now: int, agora: string)
    requires !Given(conclusao)
    ensures AfterEncerrar(s, id, conclusao, user, isTecnico, now, agora) == (s, Outcome(Redirect(DashboardPage), []))
  {
  }

  /**
   * Closing with a comment: status Completed, inactive, completion date
   * set, the comment block appended to the conclusion log (after a newline
   * when the log was non-empty), exactly one history entry, and the other
   * party notified; messages and the remaining fields are untouched.
   */
  lemma EncerrarEffects(s: TicketState, id: nat, c: string, user: UserId, isTecnico: bool, now: int, agora: string)
    requires c != ""
    ensures var r := AfterEncerrar(s, id, Some(c), user, isTecnico, now, agora).0;
      var block := Delimiter + "\n[" + agora + "]" + RStrip("\n" + c);
      && r.status == Completed && !r.ativo && r.dataConclusao == Some(now)
      && r.conclusao == Some(if s.conclusao.Some? && s.conclusao.value != "" then s.conclusao.value + "\n" + block else block)
      && r.historico == s.historico + [HistoryEntry(id, "Conclusão: " + c, user, now)]
      && (isTecnico ==> r.atualizadoColaborador && r.atualizadoTecnico == s.atualizadoTecnico)
      && (!isTecnico ==> r.atualizadoTecnico && r.atualizadoColaborador == s.atualizadoColaborador)
      && r == s.(conclusao := r.conclusao, historico := r.historico, dataConclusao := Some(now), ativo := false,
                 status := "C", atualizadoColaborador := r.atualizadoColaborador,
                 atualizadoTecnico := r.atualizadoTecnico)
  {
    FormattedCommentShape(agora, c);
  }

  /** Extends the conclusion log with one comment block. */
  method AppendToConclusion(ticket: Ticket, formatado: string)
    modifies ticket`conclusao
    ensures ticket.State() == old(ticket.State()).(conclusao := Some(AppendConclusion(old(ticket.conclusao), formatado)))
  {
    var anterior := if ticket.conclusao.Some? then ticket.conclusao.value else "";
    if anterior != "" {
      ticket.conclusao := Some(anterior + "\n" + formatado);
    } else {
      ticket.conclusao := Some(formatado);
    }
  }

  /** Completion date, inactive, status Completed. */
  method MarkCompleted(ticket: Ticket, now: int)
    modifies ticket`dataConclusao, ticket`ativo, ticket`status
    ensures ticket.State() == old(ticket.State()).(dataConclusao := Some(now), ativo := false, status := Completed)
  {
    ticket.dataConclusao := Some(now);
    ticket.ativo := false;
    ticket.status := Completed;
  }

  /** `encerrar_ticket`. */
  method EncerrarTicket(ticket: Ticket, conclusao: Option<string>, user: UserId, isTecnico: bool,
                        now: int, agora: string) returns (out: Outcome)
    modifies ticket
    ensures (ticket.State(), out) == AfterEncerrar(old(ticket.State()), ticket.id, conclusao, user, isTecnico, now, agora)
  {
    if conclusao.Some? && conclusao.value != "" {
      var novoComentario := conclusao.value;
      AppendToConclusion(ticket, FormattedComment(agora, novoComentario));
      ticket.AddHistorico("Conclusão: " + novoComentario, user, now);
      MarkCompleted(ticket, now);
      NotifyOtherParty(ticket, isTecnico);
      out := Outcome(Redirect(DashboardPage), [SuccessNote(ClosedSuccess)]);
    } else {
      out := Outcome(Redirect(DashboardPage), []);
    }
  }

  // ---------------------------------------------------------------------
  // Reopen

  function AfterAtivar(s: TicketState, id: nat, user: UserId, isTecnico: bool, now: int): (TicketState, Outcome)
  {
    var s1 := s.(dataConclusao := None, ativo := true, status := Reopened,
                 historico := s.historico + [HistoryEntry(id, ReopenedHistory, user, now)]);
    (Notify(s1, isTecnico), Outcome(Redirect(DashboardPage), [SuccessNote(ReopenedSuccess)]))
  }

  /**
   * Reopening, from any status: no completion date, active, status
   * Reopened, exactly one "Ticket reativado" entry, the other party
   * notified, nothing else changed.
   */
  lemma AtivarEffects(s: TicketState, id: nat, user: UserId, isTecnico: bool, now: int)
    ensures var (r, out) := AfterAtivar(s, id, user, isTecnico, now);
      && r == s.(dataConclusao := None, ativo := true, status := "R",
                 historico := s.historico + [HistoryEntry(id, "Ticket reativado", user, now)],
                 atualizadoColaborador := r.atualizadoColaborador, atualizadoTecnico := r.atualizadoTecnico)
      && (isTecnico ==> r.atualizadoColaborador && r.atualizadoTecnico == s.atualizadoTecnico)
      && (!isTecnico ==> r.atualizadoTecnico && r.atualizadoColaborador == s.atualizadoColaborador)
      && out == Outcome(Redirect(DashboardPage), [SuccessNote("Ticket reativado com sucesso!")])
  {
  }

  /** `ativar_ticket`. */
  method AtivarTicket(ticket: Ticket, user: UserId, isTecnico: bool, now: int) returns (out: Outcome)
    modifies ticket
    ensures (ticket.State(), out) == AfterAtivar(old(ticket.State()), ticket.id, user, isTecnico, now)
  {
    ticket.dataConclusao := None;
    ticket.ativo := true;
    ticket.status := Reopened;
    ticket.AddHistorico(ReopenedHistory, user, now);
    NotifyOtherParty(ticket, isTecnico);
    out := Outcome(Redirect(DashboardPage), [SuccessNote(ReopenedSuccess)]);
  }

  // ---------------------------------------------------------------------
  // Message send

  function AfterEnviarMensagem(s: TicketState, id: nat, texto: Option<string>, user: UserId, now: int): (TicketState, Outcome)
  {
    if Given(texto) then
      var s1 := s.(mensagens := s.mensagens + [Message(id, user, texto.value, now, None)],
                   atualizadoEm := now, recentlyUpdated := true);
      var s2 :=
        if Some(user) == s.tecnico then s1.(atualizadoColaborador := true, atualizadoTecnico := false)
        else if Some(user) == s.usuario then s1.(atualizadoTecnico := true, atualizadoColaborador := false)
        else s1;
      (s2, Outcome(Redirect(DetailPage(id)), [SuccessNote(MessageSuccess)]))
    else
      (s, Outcome(Redirect(DetailPage(id)), [WarningNote(EmptyMessageWarning)]))
  }

  /**
   * An empty text changes nothing and warns. Otherwise exactly one message
   * is appended and the ticket is marked recently updated; the technician
   * sender leaves exactly the requester's flag set, the requester sender
   * the mirror, and anyone else leaves both flags as they were.
   */
  lemma EnviarMensagemEffects(s: TicketState, id: nat, texto: Option<string>, user: UserId, now: int)
    ensures var (r, out) := AfterEnviarMensagem(s, id, texto, user, now);
      && (!Given(texto) ==> r == s && out.notices == [WarningNote(EmptyMessageWarning)])
      && (Given(texto) ==>
            && r == s.(mensagens := s.mensagens + [Message(id, user, texto.value, now, None)],
                       atualizadoEm := now, recentlyUpdated := true,
                       atualizadoColaborador := r.atualizadoColaborador, atualizadoTecnico := r.atualizadoTecnico)
            && (s.tecnico == Some(user) ==> r.atualizadoColaborador && !r.atualizadoTecnico)
            && (s.tecnico != Some(user) && s.usuario == Some(user) ==> r.atualizadoTecnico && !r.atualizadoColaborador)
            && (s.tecnico != Some(user) && s.usuario != Some(user) ==>
                  r.atualizadoTecnico == s.atualizadoTecnico && r.atualizadoColaborador == s.atualizadoColaborador))
  {
  }

  /** `enviar_mensagem`. */
  method EnviarMensagem(ticket: Ticket, texto: Option<string>, user: UserId, now: int) returns (out: Outcome)
    modifies ticket
    ensures (ticket.State(), out) == AfterEnviarMensagem(old(ticket.State()), ticket.id, texto, user, now)
  {
    if texto.Some? && texto.value != "" {
      ticket.mensagens := ticket.mensagens + [Message(ticket.id, user, texto.value, now, None)];
      ticket.atualizadoEm := now;
      ticket.recentlyUpdated := true;
      if Some(user) == ticket.tecnico {
        ticket.atualizadoColaborador := true;
        ticket.atualizadoTecnico := false;
      } else if Some(user) == ticket.usuario {
        ticket.atualizadoTecnico := true;
        ticket.atualizadoColaborador := false;
      }
      out := Outcome(Redirect(DetailPage(ticket.id)), [SuccessNote(MessageSuccess)]);
    } else {
      out := Outcome(Redirect(DetailPage(ticket.id)), [WarningNote(EmptyMessageWarning)]);
    }
  }

  // ---------------------------------------------------------------------
  // Action dispatch and the Closed gate

  function AfterHandleActions(s: TicketState, id: nat, req: PostData, user: UserId, now: int, agora: string,
                              username: UserId -> string): (TicketState, Outcome)
  {
    var isTecnico := Some(user) == s.tecnico;
    if s.status == Closed then
      if req.action == Some("encerrar") || req.action == Some("ativar") then
        AfterAtivar(s, id, user, isTecnico, now)
      else if req.confirmarBtn then
        match ValidateStatusForm(req.form)
        case Success(u) => AfterFormValid(s, id, CopiedPrior(u), u, user, now, agora, username)
        case Failure(_) => (s, Outcome(Redirect(DetailPage(id)), [WarningNote(SaveFailedWarning)]))
      else
        (s, Outcome(Redirect(DetailPage(id)), [WarningNote(ClosedWarning)]))
    else if req.action == Some("encerrar") then
      AfterEncerrar(s, id, req.conclusao, user, isTecnico, now, agora)
    else if req.action == Some("ativar") then
      AfterAtivar(s, id, user, isTecnico, now)
    else if req.enviarMensagem then
      AfterEnviarMensagem(s, id, req.texto, user, now)
    else
      (s, Outcome(Redirect(DetailPage(id)), []))
  }

  /** A submitted, valid status form. */
  predicate StatusFormAccepted(req: PostData) {
    req.confirmarBtn && ValidateStatusForm(req.form).Success?
  }

  /** `post`: a valid status form first; every other request through `handle_ticket_actions`. */
  function AfterPost(s: TicketState, id: nat, req: PostData, user: UserId, now: int, agora: string,
                     username: UserId -> string): (TicketState, Outcome)
  {
    if StatusFormAccepted(req) then
      AfterFormValid(s, id, PriorOf(s), ValidateStatusForm(req.form).value, user, now, agora, username)
    else
      AfterHandleActions(s, id, req, user, now, agora, username)
  }

  /**
   * On a Closed ticket, unless a valid status form was submitted, both
   * `encerrar` and `ativar` reopen it, and any other request changes
   * nothing (no message, no history) and produces one warning.
   */
  lemma ClosedGate(s: TicketState, id: nat, req: PostData, user: UserId, now: int, agora: string,
                   username: UserId -> string)
    requires s.status == Closed && !StatusFormAccepted(req)
    ensures var (r, out) := AfterPost(s, id, req, user, now, agora, username);
      && (req.action == Some("encerrar") || req.action == Some("ativar") ==>
            (r, out) == AfterAtivar(s, id, user, s.tecnico == Some(user), now) && r.status == Reopened)
      && (req.action != Some("encerrar") && req.action != Some("ativar") ==>
            r == s && |out.notices| == 1 && out.notices[0].WarningNote?)
  {
  }

  /**
   * In particular a message sent to a Closed ticket creates no message and
   * warns. Without `confirmar_btn` no form is built, so this holds of the
   * code as written too (`AfterPostAsWritten`).
   */
  lemma ClosedTicketRejectsMessage(s: TicketState, id: nat, req: PostData, user: UserId, now: int, agora: string,
                                   username: UserId -> string)
    requires s.status == Closed && req.enviarMensagem && !req.confirmarBtn && req.action.None?
    ensures var (r, out) := AfterPost(s, id, req, user, now, agora, username);
      r.mensagens == s.mensagens && out.notices == [WarningNote(ClosedWarning)]
    ensures var (r, out) := AfterPostAsWritten(s, id, req, user, now, agora, username);
      r.mensagens == s.mensagens && out.notices == [WarningNote(ClosedWarning)]
  {
  }

  /**
   * A valid status form that reaches the Closed branch of
   * `handle_ticket_actions` is applied but logs nothing: its "previous"
   * values are read after validation copied the new ones in. `post` never
   * gets there, since it handles a valid form itself (`ClosedGate`).
   */
  lemma ClosedBranchFormLogsNothing(s: TicketState, id: nat, req: PostData, user: UserId, now: int,
                                    agora: string, username: UserId -> string)
    requires s.status == Closed && req.action != Some("encerrar") && req.action != Some("ativar")
    requires StatusFormAccepted(req)
    ensures var (r, out) := AfterHandleActions(s, id, req, user, now, agora, username);
      var u := ValidateStatusForm(req.form).value;
      && r.historico == s.historico && out.notices == []
      && r.status == u.status && r.prioridade == u.prioridade && r.tecnico == u.tecnico
  {
    var u := ValidateStatusForm(req.form).value;
    assert AfterHandleActions(s, id, req, user, now, agora, username)
        == AfterFormValid(s, id, CopiedPrior(u), u, user, now, agora, username);
    assert ChangeLog(CopiedPrior(u), u, agora, username) == [];
    assert ChangeNotices(CopiedPrior(u), u, username) == [];
    assert Entries(id, [], user, now) == [];
  }

  /** On any other status, the action decides: close, reopen, message, or nothing. */
  lemma OpenDispatch(s: TicketState, id: nat, req: PostData, user: UserId, now: int, agora: string,
                     username: UserId -> string)
    requires s.status != Closed && !StatusFormAccepted(req)
    ensures var isTecnico := s.tecnico == Some(user);
      AfterPost(s, id, req, user, now, agora, username) ==
        if req.action == Some("encerrar") then AfterEncerrar(s, id, req.conclusao, user, isTecnico, now, agora)
        else if req.action == Some("ativar") then AfterAtivar(s, id, user, isTecnico, now)
        else if req.enviarMensagem then AfterEnviarMensagem(s, id, req.texto, user, now)
        else (s, Outcome(Redirect(DetailPage(id)), []))
  {
  }

  // ---------------------------------------------------------------------
  // An invalid status form, as the code handles it

  /**
   * What `is_valid()` leaves in the ticket held in memory when the status
   * form is invalid: Django's `construct_instance` still copies every field
   * whose own checks passed, and the others keep their loaded values.
   */
  function CopyCleanedFields(s: TicketState, f: StatusFormInput): TicketState
  {
    var status := CleanRequiredChoice("status", StatusChoices, f.status, CleanStatus);
    var prioridade := CleanRequiredChoice("prioridade", PriorityChoices, f.prioridade, CleanPrioridade);
    var nivel := CleanOptionalLevel(f.nivelAtendimento);
    s.(status := if status.Success? then status.value else s.status,
       prioridade := if prioridade.Success? then prioridade.value else s.prioridade,
       dataConclusao := f.dataConclusao,
       nivelAtendimento := if nivel.Success? then nivel.value else s.nivelAtendimento,
       tecnico := f.tecnico)
  }

  /**
   * `post` as written: a submitted but invalid status form has already
   * changed the ticket in memory when `handle_ticket_actions` reads its
   * status and technician. The state is the ticket in memory at the end of
   * the request; a message is a row of its own and is stored in any case.
   */
  function AfterPostAsWritten(s: TicketState, id: nat, req: PostData, user: UserId, now: int, agora: string,
                              username: UserId -> string): (TicketState, Outcome)
  {
    if StatusFormAccepted(req) then AfterPost(s, id, req, user, now, agora, username)
    else if req.confirmarBtn then AfterHandleActions(CopyCleanedFields(s, req.form), id, req, user, now, agora, username)
    else AfterHandleActions(s, id, req, user, now, agora, username)
  }

  /**
   * As written, a Closed ticket takes a message: the request also carries
   * `confirmar_btn` with status "A" and no priority, the invalid form still
   * copies "A" into the ticket, and the gate no longer sees "F". With the
   * invalid form leaving the ticket as loaded (`AfterPost`), the same
   * request changes nothing and warns that the changes were not saved.
   */
  lemma ClosedTicketTakesMessageAsWritten(s: TicketState, id: nat, user: UserId, now: int, agora: string,
                                          username: UserId -> string)
    requires s.status == Closed
    ensures var req := PostData(None, true, StatusFormInput("A", "", None, "", s.tecnico), None, true, Some("oi"));
      var (r, out) := AfterPostAsWritten(s, id, req, user, now, agora, username);
      var (fixed, warned) := AfterPost(s, id, req, user, now, agora, username);
      && !StatusFormAccepted(req)
      && r.mensagens == s.mensagens + [Message(id, user, "oi", now, None)]
      && out.notices == [SuccessNote(MessageSuccess)]
      && fixed == s && warned.notices == [WarningNote(SaveFailedWarning)]
  {
    var req := PostData(None, true, StatusFormInput("A", "", None, "", s.tecnico), None, true, Some("oi"));
    CodeListsMatchTables();
    assert IsStatusCode("A");
    var m := CopyCleanedFields(s, req.form);
    assert m.status == "A" && m.tecnico == s.tecnico;
    assert AfterPostAsWritten(s, id, req, user, now, agora, username)
        == AfterEnviarMensagem(m, id, req.texto, user, now);
    assert !StatusFormAccepted(req);
    var (r, out) := AfterPostAsWritten(s, id, req, user, now, agora, username);
    assert r.mensagens == s.mensagens + [Message(id, user, "oi", now, None)];
    assert out.notices == [SuccessNote(MessageSuccess)];
    var (fixed, warned) := AfterPost(s, id, req, user, now, agora, username);
    assert fixed == s;
    assert warned.notices == [WarningNote(SaveFailedWarning)];
  }

  lemma FormValidPreservesValid(s: TicketState, id: nat, p: Prior, u: StatusUpdate, user: UserId, now: int,
                                agora: string, username: UserId -> string)
    requires ValidState(s, id)
    requires IsStatusCode(u.status) && IsPriorityCode(u.prioridade)
    requires u.nivelAtendimento.Some? ==> IsLevelCode(u.nivelAtendimento.value)
    ensures ValidState(AfterFormValid(s, id, p, u, user, now, agora, username).0, id)
  {
    var added := Entries(id, ChangeLog(p, u, agora, username), user, now);
    var r := AfterFormValid(s, id, p, u, user, now, agora, username).0;
    assert r.historico == s.historico + added && r.mensagens == s.mensagens;
    assert r.status == u.status && r.prioridade == u.prioridade && r.nivelAtendimento == u.nivelAtendimento;
    forall i | 0 <= i < |r.historico| ensures r.historico[i].ticket == id {
      if i >= |s.historico| {
        assert r.historico[i] == added[i - |s.historico|];
      }
    }
  }

  lemma EncerrarPreservesValid(s: TicketState, id: nat, conclusao: Option<string>, user: UserId, isTecnico: bool,
                               now: int, agora: string)
    requires ValidState(s, id)
    ensures ValidState(AfterEncerrar(s, id, conclusao, user, isTecnico, now, agora).0, id)
  {
    assert StatusChoices[3].code == Completed;
  }

  lemma AtivarPreservesValid(s: TicketState, id: nat, user: UserId, isTecnico: bool, now: int)
    requires ValidState(s, id)
    ensures ValidState(AfterAtivar(s, id, user, isTecnico, now).0, id)
  {
    assert StatusChoices[5].code == Reopened;
  }

  lemma EnviarMensagemPreservesValid(s: TicketState, id: nat, texto: Option<string>, user: UserId, now: int)
    requires ValidState(s, id)
    ensures ValidState(AfterEnviarMensagem(s, id, texto, user, now).0, id)
  {
    if Given(texto) {
      var r := AfterEnviarMensagem(s, id, texto, user, now).0;
      var m := Message(id, user, texto.value, now, None);
      assert r.mensagens == s.mensagens + [m];
      assert r == r.(status := s.status, prioridade := s.prioridade, nivelAtendimento := s.nivelAtendimento,
                     historico := s.historico);
      forall i | 0 <= i < |r.mensagens| ensures r.mensagens[i].ticket == id {
        if i == |s.mensagens| {
          assert r.mensagens[i] == m;
        }
      }
    }
  }

  /**
   * Every request keeps the ticket invariant: the status stays a status
   * code, the priority a code (or the default), the level absent or a
   * level code, and all history entries and messages belong to the ticket.
   */
  lemma {:induction false} PostPreservesValid(s: TicketState, id: nat, req: PostData, user: UserId, now: int,
                                              agora: string, username: UserId -> string)
    requires ValidState(s, id)
    ensures ValidState(AfterPost(s, id, req, user, now, agora, username).0, id)
  {
    var isTecnico := Some(user) == s.tecnico;
    var v := ValidateStatusForm(req.form);
    if StatusFormAccepted(req) {
      FormValidPreservesValid(s, id, PriorOf(s), v.value, user, now, agora, username);
    } else if s.status == Closed {
      if req.action == Some("encerrar") || req.action == Some("ativar") {
        AtivarPreservesValid(s, id, user, isTecnico, now);
      }
    } else if req.action == Some("encerrar") {
      EncerrarPreservesValid(s, id, req.conclusao, user, isTecnico, now, agora);
    } else if req.action == Some("ativar") {
      AtivarPreservesValid(s, id, user, isTecnico, now);
    } else if req.enviarMensagem {
      EnviarMensagemPreservesValid(s, id, req.texto, user, now);
    }
  }

  lemma AcknowledgePreservesValid(s: TicketState, id: nat, user: UserId)
    requires ValidState(s, id)
    ensures ValidState(Acknowledge(s, user), id)
  {
  }

  /** `handle_ticket_actions`. */
  method HandleTicketActions(ticket: Ticket, req: PostData, user: UserId, now: int, agora: string,
                             username: UserId -> string) returns (out: Outcome)
    modifies ticket
    ensures (ticket.State(), out) == AfterHandleActions(old(ticket.State()), ticket.id, req, user, now, agora, username)
  {
    var isTecnico := Some(user) == ticket.tecnico;
    if ticket.status == Closed {
      if req.action == Some("encerrar") || req.action == Some("ativar") {
        out := AtivarTicket(ticket, user, isTecnico, now);
      } else if req.confirmarBtn {
        var form := ValidateStatusForm(req.form);
        if form.Success? {
          // `is_valid()` has already copied the cleaned values into the
          // ticket, so the "previous" values read here are the new ones.
          ApplyStatusForm(ticket, form.value);
          var p := Prior(ticket.status, ticket.prioridade, ticket.nivelAtendimento, ticket.tecnico);
          out := FormValid(ticket, form.value, p, user, now, agora, username);
        } else {
          out := Outcome(Redirect(DetailPage(ticket.id)), [WarningNote(SaveFailedWarning)]);
        }
      } else {
        out := Outcome(Redirect(DetailPage(ticket.id)), [WarningNote(ClosedWarning)]);
      }
      return;
    }
    if req.action == Some("encerrar") {
      out := EncerrarTicket(ticket, req.conclusao, user, isTecnico, now, agora);
    } else if req.action == Some("ativar") {
      out := AtivarTicket(ticket, user, isTecnico, now);
    } else if req.enviarMensagem {
      out := EnviarMensagem(ticket, req.texto, user, now);
    } else {
      out := Outcome(Redirect(DetailPage(ticket.id)), []);
    }
  }

  /** `post`. */
  method Post(ticket: Ticket, req: PostData, user: UserId, now: int, agora: string,
              username: UserId -> string) returns (out: Outcome)
    modifies ticket
    ensures (ticket.State(), out) == AfterPost(old(ticket.State()), ticket.id, req, user, now, agora, username)
  {
    var p := Prior(ticket.status, ticket.prioridade, ticket.nivelAtendimento, ticket.tecnico);
    if req.confirmarBtn {
      var form := ValidateStatusForm(req.form);
      if form.Success? {
        out := FormValid(ticket, form.value, p, user, now, agora, username);
        return;
      }
    }
    out := HandleTicketActions(ticket, req, user, now, agora, username);
  }

  // ---------------------------------------------------------------------
  // The view's entry points, with the ticket looked up by id

  /** GET /ticket/<id>: not found, or the page after the viewer's acknowledgement. */
  method ViewTicket(store: TicketStore, ticketId: nat, user: UserId) returns (out: Outcome, page: Option<DetailContext>)
    requires store.Valid()
    modifies store.tickets
    ensures store.Valid()
    ensures (forall t :: t in store.tickets ==> t.id != ticketId) ==> out.response == NotFound && page.None?
    ensures forall t :: t in store.tickets && t.id != ticketId ==> t.State() == old(t.State())
    ensures forall t :: t in store.tickets && t.id == ticketId ==>
      t.State() == Acknowledge(old(t.State()), user) && page == Some(ContextData(t.id, t.State()))
  {
    var found := store.Lookup(ticketId);
    if found.None? {
      return Outcome(NotFound, []), None;
    }
    var ticket := found.value;
    AcknowledgePreservesValid(ticket.State(), ticket.id, user);
    var context;
    out, context := Get(ticket, user);
    page := Some(context);
    forall t | t in store.tickets && t != ticket ensures t.id != ticketId && t.State() == old(t.State()) {
      assert t.id != ticket.id;
    }
    forall t | t in store.tickets ensures t.Valid() {
      if t != ticket {
        assert old(t.Valid());
      }
    }
  }

  /** POST /ticket/<id>: not found, or the ticket after `post`. */
  method PostTicket(store: TicketStore, ticketId: nat, req: PostData, user: UserId, now: int, agora: string,
                    username: UserId -> string) returns (out: Outcome)
    requires store.Valid()
    modifies store.tickets
    ensures store.Valid()
    ensures (forall t :: t in store.tickets ==> t.id != ticketId) ==> out.response == NotFound
    ensures forall t :: t in store.tickets && t.id != ticketId ==> t.State() == old(t.State())
    ensures forall t :: t in store.tickets && t.id == ticketId ==>
      (t.State(), out) == AfterPost(old(t.State()), t.id, req, user, now, agora, username)
  {
    var found := store.Lookup(ticketId);
    if found.None? {
      return Outcome(NotFound, []);
    }
    var ticket := found.value;
    PostPreservesValid(ticket.State(), ticket.id, req, user, now, agora, username);
    out := Post(ticket, req, user, now, agora, username);
    forall t | t in store.tickets && t != ticket ensures t.id != ticketId && t.State() == old(t.State()) {
      assert t.id != ticket.id;
    }
    forall t | t in store.tickets ensures t.Valid() {
      if t != ticket {
        assert old(t.Valid());
      }
    }
  }
}
