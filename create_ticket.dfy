/**
 * CreateTicketView: the ticket creation page. A session flag makes a
 * submission save at most one ticket until the form is fetched again; an
 * uploaded attachment is renamed after the ticket's primary key, the
 * requester's slug and a timestamp, keeping its extension. With
 * `CustomUser` as the requester that rename raises instead, since the user
 * has no full name to slug; `FormValidAsWritten` models that run.
 */
module CreateTicket {
  import opened Wrappers
  import opened PyStr
  import opened TemplateTags
  import opened Tickets
  import opened Forms
  import opened Outcomes

  const CreatedSuccess: string := "Ticket criado com sucesso!"

  /** The one session key the view uses, `ticket_saved`. */
  class Session {
    var ticketSaved: bool

    constructor ()
      ensures !ticketSaved
    {
      ticketSaved := false;
    }
  }

  /**
   * The new attachment name: primary key, `_`, the slug of the requester's
   * full name, `_`, the timestamp, and the extension of the uploaded name.
   */
  function AttachmentName(pk: nat, slug: string, stamp: string, uploaded: string): string {
    NatToString(pk) + "_" + slug + "_" + stamp + SplitExt(uploaded).1
  }

  /** The new name starts with the decimal primary key followed by `_`. */
  lemma AttachmentNameStartsWithKey(pk: nat, slug: string, stamp: string, uploaded: string)
    ensures var n := AttachmentName(pk, slug, stamp, uploaded);
      var key := NatToString(pk);
      |n| > |key| && n[..|key|] == key && n[|key|] == '_'
  {
    var key := NatToString(pk);
    var rest := "_" + slug + "_" + stamp + SplitExt(uploaded).1;
    assert AttachmentName(pk, slug, stamp, uploaded) == key + rest;
  }

  /** Names that end in the same '.'-led, dot-free extension have the same `file_extension`. */
  lemma SameExtension(head: string, root: string, ext: string)
    requires ext != "" && ext[0] == '.' && '.' !in ext[1..]
    ensures FileExtension(head + ext) == FileExtension(root + ext)
  {
    var e := ext[1..];
    assert ext == "." + e;
    assert head + ext == head + "." + e;
    assert root + ext == root + "." + e;
    ExtensionOfSuffix(head, e);
    ExtensionOfSuffix(root, e);
  }

  /**
   * The new name ends in the uploaded name's extension; when there is one,
   * the template filter `file_extension` reads the same extension off both
   * names.
   */
  lemma AttachmentNameKeepsExtension(pk: nat, slug: string, stamp: string, uploaded: string)
    ensures var n := AttachmentName(pk, slug, stamp, uploaded);
      && EndsWith(n, SplitExt(uploaded).1)
      && (SplitExt(uploaded).1 != "" ==> FileExtension(n) == FileExtension(uploaded))
  {
    var head := NatToString(pk) + "_" + slug + "_" + stamp;
    var (root, ext) := SplitExt(uploaded);
    assert AttachmentName(pk, slug, stamp, uploaded) == head + ext;
    assert (head + ext)[|head|..] == ext;
    SplitExtParts(uploaded);
    if ext != "" {
      SameExtension(head, root, ext);
    }
  }

  /** The attachment name stored for an upload, if there was one. */
  function StoredAttachment(pk: nat, slug: string, stamp: string, anexo: Option<string>): Option<string> {
    if anexo.Some? then Some(AttachmentName(pk, slug, stamp, anexo.value)) else None
  }

  /**
   * The ticket saved for a valid form: model defaults, the form's values,
   * and the given `anexo` and `url`.
   */
  ghost predicate CreatedWith(t: Ticket, pk: nat, data: TicketFormData, user: UserId, now: int,
                              anexo: Option<string>, url: Option<string>)
    reads t
  {
    && t.id == pk && t.criadoEm == now
    && t.descricao == data.descricao && t.tipo == data.tipo && t.subtipo == data.subtipo
    && t.State() == InitialState(Some(user), data.tecnico, now, data.anexo).(anexo := anexo, url := url)
  }

  /** The ticket saved for a valid form, with the renamed attachment. */
  ghost predicate CreatedFrom(t: Ticket, pk: nat, data: TicketFormData, user: UserId, now: int,
                              slug: string, stamp: string)
    reads t
  {
    var stored := StoredAttachment(pk, slug, stamp, data.anexo);
    CreatedWith(t, pk, data, user, now, stored, stored)
  }

  /** The table grew by exactly that ticket, under primary key `pk`. */
  ghost predicate SavedOnce(store: TicketStore, before: seq<Ticket>, pk: nat, data: TicketFormData, user: UserId,
                            now: int, slug: string, stamp: string)
    reads store, store.tickets
  {
    && |store.tickets| == |before| + 1 && store.tickets[..|before|] == before
    && store.nextId == pk + 1
    && CreatedFrom(store.tickets[|before|], pk, data, user, now, slug, stamp)
  }

  /** `get`: fetching the form re-arms the guard. */
  method Get(session: Session) returns (out: Outcome)
    modifies session
    ensures !session.ticketSaved
    ensures out == Outcome(Render(CreatePage), [])
  {
    session.ticketSaved := false;
    out := Outcome(Render(CreatePage), []);
  }

  /** Stores the renamed upload as the attachment and copies it into `url`. */
  method RenameAttachment(ticket: Ticket, name: string)
    modifies ticket`anexo, ticket`url
    ensures ticket.State() == old(ticket.State()).(anexo := Some(name), url := Some(name))
  {
    ticket.anexo := Some(name);
    ticket.url := ticket.anexo;
  }

  /**
   * `form_valid`: a repeated submission saves nothing; otherwise exactly one
   * ticket is saved with the requester set, the attachment renamed, and the
   * guard set. Both paths redirect to the dashboard.
   */
  method FormValid(session: Session, store: TicketStore, data: TicketFormData, user: UserId, now: int,
                   slug: string, stamp: string) returns (out: Outcome)
    requires store.Valid()
    modifies session, store
    ensures store.Valid() && session.ticketSaved
    ensures out.response == Redirect(DashboardPage)
    ensures old(session.ticketSaved) ==>
      store.tickets == old(store.tickets) && store.nextId == old(store.nextId) && out.notices == []
    ensures !old(session.ticketSaved) ==>
      && SavedOnce(store, old(store.tickets), old(store.nextId), data, user, now, slug, stamp)
      && fresh(store.tickets[|old(store.tickets)|])
      && out.notices == [SuccessNote(CreatedSuccess)]
  {
    if session.ticketSaved {
      return Outcome(Redirect(DashboardPage), []);
    }
    var ticket := store.Create(now, Some(user), data.descricao, data.anexo, data.tipo, data.subtipo, data.tecnico);
    if data.anexo.Some? {
      RenameAttachment(ticket, AttachmentName(ticket.id, slug, stamp, data.anexo.value));
    }
    session.ticketSaved := true;
    out := Outcome(Redirect(DashboardPage), [SuccessNote(CreatedSuccess)]);
    assert store.tickets[|old(store.tickets)|] == ticket;
  }

  /**
   * A POST to the page: an invalid form is shown again and nothing
   * changes; a valid one goes through `FormValid`.
   */
  method Post(session: Session, store: TicketStore, input: TicketFormInput, user: UserId, now: int,
              slug: string, stamp: string) returns (out: Outcome)
    requires store.Valid()
    modifies session, store
    ensures store.Valid()
    ensures ValidateTicketForm(input).Failure? ==>
      && out == Outcome(Render(CreatePage), [])
      && session.ticketSaved == old(session.ticketSaved)
      && store.tickets == old(store.tickets) && store.nextId == old(store.nextId)
    ensures ValidateTicketForm(input).Success? ==>
      var data := ValidateTicketForm(input).value;
      && session.ticketSaved && out.response == Redirect(DashboardPage)
      && (old(session.ticketSaved) ==>
            store.tickets == old(store.tickets) && store.nextId == old(store.nextId) && out.notices == [])
      && (!old(session.ticketSaved) ==>
            SavedOnce(store, old(store.tickets), old(store.nextId), data, user, now, slug, stamp)
            && out.notices == [SuccessNote(CreatedSuccess)])
  {
    match ValidateTicketForm(input)
    case Failure(_) =>
      out := Outcome(Render(CreatePage), []);
    case Success(data) =>
      out := FormValid(session, store, data, user, now, slug, stamp);
  }

  /**
   * The guard across requests: after `get`, the first valid submission
   * saves one ticket and a second one saves nothing.
   */
  method GetThenSubmitTwice(session: Session, store: TicketStore, data: TicketFormData, user: UserId, now: int,
                            slug: string, stamp: string) returns (first: Outcome, second: Outcome)
    requires store.Valid()
    modifies session, store
    ensures store.Valid()
    ensures |store.tickets| == |old(store.tickets)| + 1 && store.nextId == old(store.nextId) + 1
    ensures SavedOnce(store, old(store.tickets), old(store.nextId), data, user, now, slug, stamp)
    ensures first.notices == [SuccessNote(CreatedSuccess)] && second.notices == []
  {
    var page := Get(session);
    first := FormValid(session, store, data, user, now, slug, stamp);
    ghost var afterFirst := store.tickets;
    second := FormValid(session, store, data, user, now, slug, stamp);
    assert store.tickets == afterFirst;
  }

  // `form_valid` as written, with `CustomUser` as the request user

  /**
   * `form_valid` as the code runs it: `CustomUser` defines no
   * `get_full_name` (nor does Django's `AbstractBaseUser`), so a submission
   * with an upload raises `AttributeError` at the rename. By then the ticket
   * has been saved under the uploaded name with no `url`, and the success
   * notice queued; the guard is never set. Without an upload the view ends
   * as `FormValid` does.
   */
  method FormValidAsWritten(session: Session, store: TicketStore, data: TicketFormData, user: UserId, now: int)
    returns (out: Outcome)
    requires store.Valid()
    modifies session, store
    ensures store.Valid()
    ensures old(session.ticketSaved) ==>
      && session.ticketSaved && out == Outcome(Redirect(DashboardPage), [])
      && store.tickets == old(store.tickets) && store.nextId == old(store.nextId)
    ensures !old(session.ticketSaved) ==>
      && |store.tickets| == |old(store.tickets)| + 1 && store.tickets[..|old(store.tickets)|] == old(store.tickets)
      && store.nextId == old(store.nextId) + 1
      && CreatedWith(store.tickets[|old(store.tickets)|], old(store.nextId), data, user, now, data.anexo, None)
      && out.notices == [SuccessNote(CreatedSuccess)]
      && (data.anexo.Some? ==> out.response == ServerError && !session.ticketSaved)
      && (data.anexo.None? ==> out.response == Redirect(DashboardPage) && session.ticketSaved)
  {
    if session.ticketSaved {
      return Outcome(Redirect(DashboardPage), []);
    }
    var ticket := store.Create(now, Some(user), data.descricao, data.anexo, data.tipo, data.subtipo, data.tecnico);
    assert store.tickets[|old(store.tickets)|] == ticket;
    if data.anexo.Some? {
      return Outcome(ServerError, [SuccessNote(CreatedSuccess)]);
    }
    session.ticketSaved := true;
    out := Outcome(Redirect(DashboardPage), [SuccessNote(CreatedSuccess)]);
  }

  /**
   * As written, the guard does not hold for uploads: after `get`, two
   * submissions with an attachment both save a ticket, each under the
   * uploaded name with no `url`, and both answer with a server error.
   */
  method UploadSubmitTwiceAsWritten(session: Session, store: TicketStore, data: TicketFormData, user: UserId,
                                    now: int) returns (first: Outcome, second: Outcome)
    requires store.Valid() && data.anexo.Some?
    modifies session, store
    ensures store.Valid()
    ensures |store.tickets| == |old(store.tickets)| + 2 && store.nextId == old(store.nextId) + 2
    ensures store.tickets[..|old(store.tickets)|] == old(store.tickets)
    ensures CreatedWith(store.tickets[|old(store.tickets)|], old(store.nextId), data, user, now, data.anexo, None)
    ensures CreatedWith(store.tickets[|old(store.tickets)| + 1], old(store.nextId) + 1, data, user, now, data.anexo, None)
    ensures first == Outcome(ServerError, [SuccessNote(CreatedSuccess)]) && second == first
    ensures !session.ticketSaved
  {
    var page := Get(session);
    ghost var before := store.tickets;
    first := FormValidAsWritten(session, store, data, user, now);
    ghost var afterFirst := store.tickets;
    second := FormValidAsWritten(session, store, data, user, now);
    assert afterFirst[..|before|] == before;
    assert store.tickets[..|afterFirst|] == afterFirst;
    assert store.tickets[|before|] == afterFirst[|before|];
    assert store.tickets[..|before|] == before;
  }
}
