/**
 * The two ticket forms: the status form on the detail page and the
 * creation form. A form here is its submitted values in, and either the
 * cleaned values or the list of field errors out.
 */
module Forms {
  import opened Wrappers
  import opened Choices
  import opened PyStr
  import opened Tickets

  /** The model fields each form carries. */
  const StatusFormFields: seq<string> := ["status", "prioridade", "data_conclusao", "nivel_atendimento", "tecnico"]
  const TicketFormFields: seq<string> := ["descricao", "anexo", "tipo", "subtipo", "tecnico"]

  /** Why a field was rejected. */
  datatype ErrorKind = Required | InvalidChoice | TooLong | NullCharacter | Custom(message: string)
  datatype FieldError = FieldError(field: string, kind: ErrorKind)

  const StatusRequiredMessage: string := "O campo situação é obrigatório."
  const PriorityRequiredMessage: string := "O campo prioridade é obrigatório."

  /** `clean_status`: an empty status is an error, any other is kept as it is. */
  function CleanStatus(status: string): (r: Result<string, string>)
    ensures r.Failure? <==> status == ""
    ensures r.Failure? ==> r.error == StatusRequiredMessage
    ensures r.Success? ==> r.value == status
  {
    if status == "" then Failure(StatusRequiredMessage) else Success(status)
  }

  /** `clean_prioridade`: an empty priority is an error, any other is kept as it is. */
  function CleanPrioridade(prioridade: string): (r: Result<string, string>)
    ensures r.Failure? <==> prioridade == ""
    ensures r.Failure? ==> r.error == PriorityRequiredMessage
    ensures r.Success? ==> r.value == prioridade
  {
    if prioridade == "" then Failure(PriorityRequiredMessage) else Success(prioridade)
  }

  /** The values a status-form submission carries; "" is an unselected choice. */
  datatype StatusFormInput = StatusFormInput(
    status: string, prioridade: string, dataConclusao: Option<int>,
    nivelAtendimento: string, tecnico: Option<UserId>)

  /** The cleaned values of a valid status form. */
  datatype StatusUpdate = StatusUpdate(
    status: string, prioridade: string, dataConclusao: Option<int>,
    nivelAtendimento: Option<string>, tecnico: Option<UserId>)

  /**
   * A required choice field: the field's own check (required, then one of
   * the choices), then the form's `clean_<field>` method.
   */
  function CleanRequiredChoice(field: string, table: seq<Choice>, value: string,
                               clean: string -> Result<string, string>): (r: Result<string, FieldError>)
    ensures r.Success? <==> value != "" && IsCode(table, value) && clean(value).Success?
    ensures r.Success? ==> r.value == clean(value).value
  {
    if value == "" then Failure(FieldError(field, Required))
    else if !IsCode(table, value) then Failure(FieldError(field, InvalidChoice))
    else match clean(value)
      case Failure(msg) => Failure(FieldError(field, Custom(msg)))
      case Success(v) => Success(v)
  }

  /** The optional level choice: "" stands for no level. */
  function CleanOptionalLevel(value: string): (r: Result<Option<string>, FieldError>)
    ensures r.Success? <==> value == "" || IsLevelCode(value)
    ensures r.Success? ==> r.value == (if value == "" then None else Some(value))
  {
    if value == "" then Success(None)
    else if IsLevelCode(value) then Success(Some(value))
    else Failure(FieldError("nivel_atendimento", InvalidChoice))
  }

  function ErrorsOf<T>(r: Result<T, FieldError>): seq<FieldError> {
    if r.Failure? then [r.error] else []
  }

  /**
   * `TicketStatusForm.is_valid()`: valid exactly when status and priority
   * are codes of their tables and the level is empty or a level code; the
   * cleaned values are then the submitted ones.
   */
  function ValidateStatusForm(f: StatusFormInput): (r: Result<StatusUpdate, seq<FieldError>>)
    ensures r.Success? <==>
      && IsStatusCode(f.status) && IsPriorityCode(f.prioridade)
      && (f.nivelAtendimento == "" || IsLevelCode(f.nivelAtendimento))
    ensures r.Success? ==>
      && r.value.status == f.status && r.value.prioridade == f.prioridade
      && r.value.dataConclusao == f.dataConclusao && r.value.tecnico == f.tecnico
      && r.value.nivelAtendimento == (if f.nivelAtendimento == "" then None else Some(f.nivelAtendimento))
    ensures r.Failure? ==> r.error != []
  {
    CodeListsMatchTables();
    var status := CleanRequiredChoice("status", StatusChoices, f.status, CleanStatus);
    var prioridade := CleanRequiredChoice("prioridade", PriorityChoices, f.prioridade, CleanPrioridade);
    var nivel := CleanOptionalLevel(f.nivelAtendimento);
    if status.Success? && prioridade.Success? && nivel.Success? then
      Success(StatusUpdate(status.value, prioridade.value, f.dataConclusao, nivel.value, f.tecnico))
    else
      Failure(ErrorsOf(status) + ErrorsOf(prioridade) + ErrorsOf(nivel))
  }

  /** The values a creation-form submission carries. */
  datatype TicketFormInput = TicketFormInput(
    descricao: string, anexo: Option<string>, tipo: string, subtipo: string, tecnico: Option<UserId>)

  /** The cleaned values of a valid creation form. */
  datatype TicketFormData = TicketFormData(
    descricao: string, anexo: Option<string>, tipo: string, subtipo: Option<string>, tecnico: Option<UserId>)

  /** `tipo` and `subtipo` are declared with `max_length=50`. */
  const TypeMaxLength: nat := 50

  /**
   * `TicketForm.is_valid()`: text fields are stripped; the description and
   * the type are required, type and subtype are at most 50 characters, no
   * text field holds a NUL character (every form `CharField` refuses one),
   * and an empty subtype is stored as null.
   */
  function ValidateTicketForm(f: TicketFormInput): (r: Result<TicketFormData, seq<FieldError>>)
    ensures r.Success? <==>
      Strip(f.descricao) != "" && Strip(f.tipo) != "" && |Strip(f.tipo)| <= TypeMaxLength
      && |Strip(f.subtipo)| <= TypeMaxLength
      && '\0' !in Strip(f.descricao) && '\0' !in Strip(f.tipo) && '\0' !in Strip(f.subtipo)
    ensures r.Success? ==>
      && r.value.descricao == Strip(f.descricao) && r.value.tipo == Strip(f.tipo)
      && r.value.subtipo == (if Strip(f.subtipo) == "" then None else Some(Strip(f.subtipo)))
      && r.value.anexo == f.anexo && r.value.tecnico == f.tecnico
  {
    var descricao := Strip(f.descricao);
    var tipo := Strip(f.tipo);
    var subtipo := Strip(f.subtipo);
    var errors :=
      (if descricao == "" then [FieldError("descricao", Required)]
       else if '\0' in descricao then [FieldError("descricao", NullCharacter)] else [])
      + (if tipo == "" then [FieldError("tipo", Required)]
         else (if |tipo| > TypeMaxLength then [FieldError("tipo", TooLong)] else [])
              + (if '\0' in tipo then [FieldError("tipo", NullCharacter)] else []))
      + (if |subtipo| > TypeMaxLength then [FieldError("subtipo", TooLong)] else [])
      + (if '\0' in subtipo then [FieldError("subtipo", NullCharacter)] else []);
    if errors == [] then
      Success(TicketFormData(descricao, f.anexo, tipo, if subtipo == "" then None else Some(subtipo), f.tecnico))
    else
      Failure(errors)
  }

  /**
   * The creation form carries neither status nor priority, so a created
   * ticket takes the model defaults for both; the status form carries
   * both, plus completion date, level and technician, and nothing else.
   */
  lemma FormFieldLists()
    ensures "status" !in TicketFormFields && "prioridade" !in TicketFormFields
    ensures forall f :: f in StatusFormFields <==>
      f in {"status", "prioridade", "data_conclusao", "nivel_atendimento", "tecnico"}
  {
  }
}
