/**
 * The Ticket record, its history entries (HistoricoTicket) and messages
 * (Mensagem), and the table of tickets the views look tickets up in.
 */
module Tickets {
  import opened Wrappers
  import opened Choices

  /** Users are referred to by id only. */
  type UserId = nat

  /** One history line: ticket, text, author, creation time. */
  datatype HistoryEntry = HistoryEntry(ticket: nat, mensagem: string, usuario: UserId, dataCriacao: int)

  /** One message of a ticket's conversation. */
  datatype Message = Message(ticket: nat, autor: UserId, texto: string, criadoEm: int, anexo: Option<string>)

  /** Every field of a ticket that can change after creation, as one value. */
  datatype TicketState = TicketState(
    usuario: Option<UserId>,
    status: string,
    prioridade: string,
    nivelAtendimento: Option<string>,
    tecnico: Option<UserId>,
    ativo: bool,
    dataConclusao: Option<int>,
    conclusao: Option<string>,
    atualizadoEm: int,
    recentlyUpdated: bool,
    atualizadoColaborador: bool,
    atualizadoTecnico: bool,
    historico: seq<HistoryEntry>,
    mensagens: seq<Message>,
    anexo: Option<string>,
    url: Option<string>)

  /**
   * The ticket invariant: the status is a status code, the priority a
   * priority code or the default "Novo", the level absent or a level code,
   * and every history entry and message belongs to ticket `id`.
   */
  ghost predicate ValidState(s: TicketState, id: nat) {
    && IsStatusCode(s.status)
    && (IsPriorityCode(s.prioridade) || s.prioridade == DefaultPriority)
    && (s.nivelAtendimento.Some? ==> IsLevelCode(s.nivelAtendimento.value))
    && (forall i :: 0 <= i < |s.historico| ==> s.historico[i].ticket == id)
    && (forall i :: 0 <= i < |s.mensagens| ==> s.mensagens[i].ticket == id)
  }

  /** The field defaults of a ticket saved at time `now` with attachment `anexo`. */
  function InitialState(usuario: Option<UserId>, tecnico: Option<UserId>, now: int, anexo: Option<string>): (s: TicketState)
    ensures s.status == Open && s.prioridade == "Novo" && s.ativo
    ensures s.anexo == anexo && s.url.None?
    ensures !s.recentlyUpdated && !s.atualizadoColaborador && !s.atualizadoTecnico
    ensures s.nivelAtendimento.None? && s.conclusao.None? && s.dataConclusao.None?
    ensures s.historico == [] && s.mensagens == []
    ensures forall id: nat :: ValidState(s, id)
  {
    assert StatusChoices[0].code == DefaultStatus;
    TicketState(usuario, DefaultStatus, DefaultPriority, None, tecnico, true, None, None,
                now, false, false, false, [], [], anexo, None)
  }

  class Ticket {
    const id: nat
    /** `criado_em` is set once, when the ticket is first saved. */
    const criadoEm: int
    const titulo: string
    const descricao: string
    const tipo: string
    const subtipo: Option<string>
    /** The stored attachment name and its copy in `url`; the creation view sets both after the first save. */
    var anexo: Option<string>
    var url: Option<string>
    /** The requester. */
    const usuario: Option<UserId>

    var status: string
    var prioridade: string
    var nivelAtendimento: Option<string>
    var tecnico: Option<UserId>
    var ativo: bool
    var dataConclusao: Option<int>
    var conclusao: Option<string>
    var atualizadoEm: int
    var recentlyUpdated: bool
    var atualizadoColaborador: bool
    var atualizadoTecnico: bool
    var historico: seq<HistoryEntry>
    var mensagens: seq<Message>

    function State(): TicketState
      reads this
    {
      TicketState(usuario, status, prioridade, nivelAtendimento, tecnico, ativo, dataConclusao,
                  conclusao, atualizadoEm, recentlyUpdated, atualizadoColaborador,
                  atualizadoTecnico, historico, mensagens, anexo, url)
    }

    ghost predicate Valid()
      reads this
    {
      ValidState(State(), id)
    }

    /** A ticket created from the creation form, with the model defaults elsewhere. */
    constructor (id: nat, now: int, usuario: Option<UserId>, descricao: string,
                 anexo: Option<string>, tipo: string, subtipo: Option<string>, tecnico: Option<UserId>)
      ensures this.id == id && criadoEm == now && titulo == ""
      ensures this.descricao == descricao && this.tipo == tipo && this.subtipo == subtipo
      ensures State() == InitialState(usuario, tecnico, now, anexo)
      ensures Valid()
    {
      this.id := id;
      criadoEm := now;
      titulo := "";
      this.descricao := descricao;
      this.tipo := tipo;
      this.subtipo := subtipo;
      this.anexo := anexo;
      url := None;
      this.usuario := usuario;
      status := DefaultStatus;
      prioridade := DefaultPriority;
      nivelAtendimento := None;
      this.tecnico := tecnico;
      ativo := true;
      dataConclusao := None;
      conclusao := None;
      atualizadoEm := now;
      recentlyUpdated := false;
      atualizadoColaborador := false;
      atualizadoTecnico := false;
      historico := [];
      mensagens := [];
    }

    /**
     * `add_historico`: records one entry for this ticket with the given
     * text and author; earlier entries stay as they are.
     */
    method AddHistorico(message: string, usuario: UserId, now: int)
      modifies this`historico
      ensures historico == old(historico) + [HistoryEntry(id, message, usuario, now)]
    {
      historico := historico + [HistoryEntry(id, message, usuario, now)];
    }

    /** `__str__`: the title, " - ", and the status code. */
    function ToString(): (r: string)
      reads this
      ensures |r| == |titulo| + 3 + |status|
      ensures r[..|titulo|] == titulo && r[|titulo|..|titulo| + 3] == " - "
      ensures r[|titulo| + 3..] == status
    {
      titulo + " - " + status
    }
  }

  /** `Mensagem.__str__`: the author's e-mail, ": ", and the first 20 characters of the text. */
  function MessageToString(email: string, m: Message): (r: string)
    ensures |email| + 2 <= |r| <= |email| + 2 + 20 && |r| - |email| - 2 <= |m.texto|
    ensures r == email + ": " + m.texto[..|r| - |email| - 2]
    ensures |m.texto| >= 20 ==> |r| == |email| + 2 + 20
    ensures |m.texto| < 20 ==> r == email + ": " + m.texto
  {
    email + ": " + (if |m.texto| <= 20 then m.texto else m.texto[..20])
  }

  /**
   * The ticket table. Ids are distinct and below `nextId`, the next
   * primary key the database hands out; every stored ticket is valid.
   */
  class TicketStore {
    var tickets: seq<Ticket>
    var nextId: nat

    ghost predicate Valid()
      reads this, tickets
    {
      && nextId >= 1
      && (forall i, j :: 0 <= i < j < |tickets| ==> tickets[i].id != tickets[j].id)
      && (forall t :: t in tickets ==> 0 < t.id < nextId && t.Valid())
    }

    constructor ()
      ensures Valid() && tickets == [] && nextId == 1
    {
      tickets := [];
      nextId := 1;
    }

    /** `get_object_or_404` without the 404: the ticket with id `id`, if any. */
    method Lookup(id: nat) returns (r: Option<Ticket>)
      ensures r.Some? ==> r.value in tickets && r.value.id == id
      ensures r.None? ==> forall t :: t in tickets ==> t.id != id
    {
      r := None;
      var i := 0;
      while i < |tickets|
        invariant 0 <= i <= |tickets|
        invariant forall k :: 0 <= k < i ==> tickets[k].id != id
      {
        if tickets[i].id == id {
          return Some(tickets[i]);
        }
        i := i + 1;
      }
    }

    /** Saves a new ticket under the next primary key. */
    method Create(now: int, usuario: Option<UserId>, descricao: string, anexo: Option<string>,
                  tipo: string, subtipo: Option<string>, tecnico: Option<UserId>) returns (t: Ticket)
      requires Valid()
      modifies this
      ensures Valid() && fresh(t)
      ensures tickets == old(tickets) + [t] && nextId == old(nextId) + 1
      ensures t.id == old(nextId) && t.criadoEm == now
      ensures t.descricao == descricao && t.tipo == tipo && t.subtipo == subtipo
      ensures t.State() == InitialState(usuario, tecnico, now, anexo)
    {
      t := new Ticket(nextId, now, usuario, descricao, anexo, tipo, subtipo, tecnico);
      tickets := tickets + [t];
      nextId := nextId + 1;
    }
  }
}
