# Helpdesk ticket workflow, modelled in Dafny

The system is a Django helpdesk. A requester opens a ticket through a creation form. The
ticket then moves through the statuses Aberto, Em Análise, Em Execução, Concluído, Fechado
and Reaberto. On the ticket page the requester and the assigned technician can:

- update the status, priority, support level and technician through a status form, with one
  history line per changed field;
- close the ticket with a conclusion comment;
- reopen it;
- exchange messages.

Two flags, `atualizado_tecnico` and `atualizado_colaborador`, tell each party that the other
one acted. Viewing the page clears the viewer's own flag. A Closed (`F`) ticket accepts only
reopening and a valid status form. The dashboard lists tickets filtered by status, newest
first, and recomputes each listed ticket's `recently_updated` flag.

The model has one module per unit of the program:

- `Choices`: the choice tables, defaults and label lookup of the `Ticket` model.
- `Tickets`: the `Ticket` class, history entries, messages, and a `TicketStore` for the ticket
  table.
- `Users`: `CustomUserManager`.
- `Forms`: the two forms.
- `TemplateTags`: the template filters `file_extension` and `endswith_custom`.
- `PyStr`: the Python string built-ins these rely on.
- `Outcomes`: redirect, render, not-found or server error, plus the queued notifications.
- `CreateTicket`, `Dashboard`, `TicketDetail`: one module per view class.

The views change the ticket field by field, so each view method is a method on the `Ticket`
object with a `modifies` clause. Each is proved to leave `ticket.State()` equal to a function
of the old state (`AfterFormValid`, `AfterEncerrar`, `AfterAtivar`, `AfterEnviarMensagem`,
`AfterHandleActions`, `AfterPost`). The workflow properties are lemmas about those functions.

Some inputs stay abstract:

- Timestamps are integers, one `now` per request.
- The `strftime` text is the parameter `agora`, and the creation timestamp is the parameter `stamp`.
- `slugify(get_full_name())` is the parameter `slug`, for a user model that defines `get_full_name`.
  `CustomUser` does not define it; what the code then does is `CreateTicket.FormValidAsWritten`.
- Users are integer ids. How a user prints is the function parameter `username`.

Behaviour of the code worth knowing:

- On a Closed ticket the `encerrar` action reopens it, exactly as `ativar` does
  (views.py:232-233). It does not close it.
- `form_valid` saves no completion date, because `data_conclusao` is not in its `update_fields`
  (views.py:207-215).
- `post` handles every valid status form itself (views.py:144-146), so the Closed branch of
  `handle_ticket_actions` never receives one from it. Were a valid form to reach that branch, it
  would read its "previous" values after validation had copied the new ones in, and log nothing
  (views.py:234-237).
- An absent technician prints as `None` in the history line.
- `url` stays empty unless a file is uploaded (views.py:47-53).
- A dashboard request computes the queryset twice (views.py:96).
- A status form submitted with `confirmar_btn` but invalid has still copied its valid fields
  into the ticket in memory (views.py:144-145). The main model treats such a form as changing
  nothing; the code's behaviour is `TicketDetail.AfterPostAsWritten` (see Findings).

## Model

| member | source | states |
|---|---|---|
| Choices.CodeListsMatchTables | apps/ticket/models.py:102-124 | a key is a status, priority or level code exactly when the matching choice table pairs it with a label |
| Choices.TablesHaveDistinctCodes | apps/ticket/models.py:102-124 | none of the three choice tables has the same code twice |
| Choices.EachCodeHasOneLabel | apps/ticket/models.py:102-124 | in a table with distinct codes, two positions with the same code are the same position; the code's lookup gives that position's label |
| Choices.LookupOfCode | apps/ticket/views.py:162-164 | `dict(table).get(code, code)` returns the label paired with a code of the table |
| Choices.LookupOfNonCode | apps/ticket/views.py:162-164 | for a key that is not a code of the table, the lookup falls back to the key itself |
| Choices.LabelOfTable | apps/ticket/views.py:162-164 | a function whose result is the label on each code and the key itself elsewhere equals the table lookup on every key |
| Choices.DefaultsAndLabels | apps/ticket/models.py:131-135 | the default status `A` is a status code labelled "Aberto"; the default priority "Novo" is not a priority code, so its lookup returns "Novo" itself |
| Choices.StatusLabelMatchesTable | apps/ticket/views.py:156-162 | `get_status_display` and the status-table lookup agree on every key |
| Choices.PriorityLabelMatchesTable | apps/ticket/views.py:157-163 | `get_prioridade_display` and the priority-table lookup agree on every key |
| Choices.LevelLabelMatchesTable | apps/ticket/views.py:158-164 | `get_nivel_atendimento_display` and the level-table lookup agree on every key |
| PyStr.RStripSpec | apps/ticket/views.py:260 | `rstrip` keeps a prefix, which is empty or ends in a non-space; every dropped character is whitespace |
| PyStr.LStripSpec | apps/ticket/views.py:260 | `lstrip` keeps a suffix, which is empty or starts with a non-space; every dropped character is whitespace |
| PyStr.StripAfterSolidPrefix | apps/ticket/views.py:260 | stripping a text that starts with a block beginning and ending in non-spaces keeps the block whole and right-strips only the rest |
| PyStr.RStripAfterSolidPrefix | apps/ticket/views.py:260 | right-stripping after a block that ends in a non-space strips only the part after it |
| PyStr.RFind | apps/ticket/templatetags/file_extension.py:9 | the result is -1 or an index holding the character, and no later index holds it |
| PyStr.Split | apps/ticket/templatetags/file_extension.py:9 | `split` on a one-character separator gives at least one piece, and the last piece is the text after the last separator (the whole string when there is none) |
| PyStr.JoinSplit | apps/ticket/templatetags/file_extension.py:9 | joining the pieces of a split with the same separator gives back the string |
| PyStr.SplitPiecesAvoidSeparator | apps/ticket/templatetags/file_extension.py:9 | no character of any piece of a split is the separator |
| PyStr.TailAfterLast | apps/ticket/templatetags/file_extension.py:9 | when the separator occurs, the text after its last occurrence holds none, and the string from that occurrence on is the separator followed by that text |
| PyStr.RFindBeforeFreeTail | apps/ticket/templatetags/file_extension.py:9 | in `p`, separator, `e` with no separator in `e`, the last separator is the one right after `p`, and the text after it is `e` |
| PyStr.EndsWithIff | apps/ticket/templatetags/file_extension.py:14 | `endswith` holds exactly when the value is some text followed by the suffix |
| PyStr.SplitExtParts | apps/ticket/views.py:48 | `os.path.splitext` loses no text (root + extension is the path); the extension is empty, or one '.' followed by text with no '.' and no '/'; it is non-empty exactly when the last '.' comes after the last '/' and some non-'.' character lies between them, and it is then the text from the last '.' on |
| PyStr.NatToString | apps/ticket/views.py:49 | `str(pk)` is a non-empty string of decimal digits |
| PyStr.NatToStringValue | apps/ticket/views.py:49 | the digits of `str(pk)` read back as decimal give `pk`, and only 0 is written with a leading '0' |
| TemplateTags.NoDotNoExtension | apps/ticket/templatetags/file_extension.py:9 | a filename without '.' has the empty extension |
| TemplateTags.ExtensionAfterLastDot | apps/ticket/templatetags/file_extension.py:9 | with a '.', the extension is the text after the last '.'; it has no '.', and the filename ends with '.' followed by it |
| TemplateTags.ExtensionOfSuffix | apps/ticket/templatetags/file_extension.py:9 | any name ending in '.' + e, where e has no '.', has extension e |
| TemplateTags.EndswithCustomIff | apps/ticket/templatetags/file_extension.py:14 | `endswith_custom(v, s)` holds exactly when `v` is some text followed by `s` |
| TemplateTags.EndswithCustomTrivial | apps/ticket/templatetags/file_extension.py:14 | every value ends with the empty suffix and with itself |
| Forms.CleanStatus | apps/ticket/forms.py:61-65 | an empty status is refused with the required-status message; any other status is returned unchanged |
| Forms.CleanPrioridade | apps/ticket/forms.py:67-71 | an empty priority is refused with the required-priority message; any other priority is returned unchanged |
| Forms.CleanRequiredChoice | apps/ticket/forms.py:61-71 | a required choice field passes exactly when it is non-empty, a code of its table, and accepted by the form's own clean method; it then yields that method's value |
| Forms.CleanOptionalLevel | apps/ticket/models.py:142 | the level passes exactly when it is empty (becoming NULL) or a level code |
| Forms.ValidateStatusForm | apps/ticket/forms.py:22-71 | the status form is valid exactly when status and priority are codes and the level is empty or a code; the cleaned values are then the submitted ones; an invalid form reports at least one error |
| Forms.ValidateTicketForm | apps/ticket/forms.py:80-83 | the creation form is valid exactly when the stripped description and type are non-empty, type and subtype fit 50 characters, and none of the three stripped texts holds a NUL character; the cleaned values are the stripped inputs, with an empty subtype stored as NULL |
| Forms.FormFieldLists | apps/ticket/forms.py:27-83 | the creation form carries neither status nor priority; the status form carries exactly status, priority, completion date, level and technician |
| Tickets.InitialState | apps/ticket/models.py:131-146 | a new ticket has status `A`, priority "Novo", is active, has all three flags false, no level, no conclusion, no completion date and empty history and messages, and satisfies the ticket invariant |
| Tickets.Ticket.constructor | apps/ticket/models.py:126-146 | a created ticket has the given id, time, description, type and subtype, and the initial state: the given attachment, an empty `url` and the model defaults |
| Tickets.Ticket.AddHistorico | apps/ticket/models.py:155-156 | exactly one entry, for this ticket with the given text, author and time, is appended; earlier entries stay as they were |
| Tickets.Ticket.ToString | apps/ticket/models.py:152-153 | the title, " - ", then the status code |
| Tickets.MessageToString | apps/ticket/models.py:166-167 | the author's e-mail, ": ", then the first 20 characters of the text (all of it when shorter) |
| Tickets.TicketStore.Lookup | apps/ticket/views.py:120 | the returned ticket is in the table with the requested id; None only when no ticket has that id |
| Tickets.TicketStore.Create | apps/ticket/views.py:41-43 | the table grows by one fresh ticket under the next primary key, with the model defaults and the form's values; the table stays valid |
| Users.LowerAscii | apps/ticket/models.py:10 | lower-casing keeps the length and maps each ASCII capital to its small letter, leaving the rest alone |
| Users.LowerDomain | apps/ticket/models.py:10 | keeping the text up to an '@' and lower-casing the rest keeps the length and that prefix, and leaves no capital after the '@' |
| Users.NormalizeEmailWithAt | apps/ticket/models.py:10 | for an address with '@', the normalised address has the stripped address's length, keeps it up to the last '@', and has no capital after it |
| Users.NormalizeEmailCases | apps/ticket/models.py:10 | `normalize_email(None)` is ""; an address without '@' is kept; otherwise the part up to the last '@' is kept and the domain has no capitals |
| Users.SuperuserExtrasSpec | apps/ticket/models.py:17-23 | the superuser flags pass exactly when each is absent or exactly True; passed flags are both True; a non-True `is_staff` is reported first, then a non-True `is_superuser` |
| Users.User.constructor | apps/ticket/models.py:11 | a new user has the given username and e-mail, the passed flags as the boolean column converts them or False, is active, and has no usable password yet |
| Users.User.SetPassword | apps/ticket/models.py:12 | the password becomes the hash of the given text, or unusable for None |
| Users.UserManager.Insert | apps/ticket/models.py:11-13 | the save succeeds exactly when both flags convert to booleans and neither the username nor a non-NULL e-mail is taken; a failure reports an unconvertible flag first, then the taken field, and stores nothing; a success appends the new user under the next id with the given values |
| Users.UserManager.CreateUserAsWritten | apps/ticket/models.py:7-14 | an empty username is refused before anything else; otherwise the user is saved, with the normalised e-mail, the converted flags and the password hash, exactly when the flags convert and neither the username nor that e-mail is taken; a missing e-mail is stored as "" |
| Users.UserManager.CreateUser | apps/ticket/models.py:7-14 | the corrected `create_user`: as above, except that a missing or empty e-mail is stored as NULL and never collides |
| Users.UserManager.CreateSuperuserAsWritten | apps/ticket/models.py:16-25 | flags that fail the superuser check refuse the request with that check's message and store nothing; otherwise `create_user` as written runs, so the superuser is created exactly when neither the username nor the normalised e-mail ("" when missing) is taken, and a failure stores nothing and keeps the next id; a created superuser is appended under the next id with both flags True, active, with the given username, that e-mail and the password hash |
| Users.UserManager.CreateSuperuser | apps/ticket/models.py:16-25 | the corrected `create_superuser`, over the corrected `create_user`: the same flag checks; the e-mail is stored as NULL when missing, so a superuser without e-mail fails only on a taken username |
| Users.NonBooleanFlags | apps/ticket/models.py:11-13 | a flag passed as a string "0" is stored as False; one the column cannot convert makes the save fail |
| Users.NoEmailUsersCollideAsWritten | apps/ticket/models.py:7-30 | as written, a second user and a superuser created without e-mail both fail on the unique e-mail column |
| Users.NoEmailUsersCoexist | apps/ticket/models.py:7-30 | with NULL for a missing e-mail, two users and a superuser without e-mail are all created |
| CreateTicket.AttachmentNameStartsWithKey | apps/ticket/views.py:49-50 | the new attachment name starts with the decimal primary key followed by '_' |
| CreateTicket.SameExtension | apps/ticket/views.py:48-50 | two names ending in the same '.'-led, dot-free extension have the same `file_extension` |
| CreateTicket.AttachmentNameKeepsExtension | apps/ticket/views.py:48-50 | the new name ends with the uploaded name's extension; when there is one, `file_extension` reads the same text off both names |
| CreateTicket.Get | apps/ticket/views.py:64-66 | fetching the form clears the one-shot guard and renders the creation page |
| CreateTicket.RenameAttachment | apps/ticket/views.py:51-53 | the attachment and `url` both become the new name; every other field of the ticket is unchanged |
| CreateTicket.FormValid | apps/ticket/views.py:37-57 | the corrected `form_valid`, for a requester whose full name can be read: with the guard set, nothing is saved and no notice is queued; otherwise exactly one fresh ticket is added with the requester, defaults and renamed attachment, and "Ticket criado com sucesso!" is queued; the guard ends set and the response redirects to the dashboard |
| CreateTicket.Post | apps/ticket/views.py:31-57 | an invalid creation form re-renders the page with nothing changed; a valid one behaves as `form_valid`: with the guard already set the table and the next key are unchanged and no notice is queued |
| CreateTicket.GetThenSubmitTwice | apps/ticket/views.py:37-66 | with the corrected `form_valid`, after `get`, two valid submissions save exactly one ticket and confirm only the first |
| CreateTicket.FormValidAsWritten | apps/ticket/views.py:37-57 | `form_valid` with `CustomUser` as the requester: with the guard set, nothing is saved; otherwise one ticket is saved with the defaults, the form's values and the uploaded name, `url` empty, and the success notice queued; with an upload the response is a server error and the guard stays unset, without one it is set and the dashboard follows |
| CreateTicket.UploadSubmitTwiceAsWritten | apps/ticket/views.py:37-66 | as written, after `get`, two submissions with an attachment save two tickets, both under the uploaded name with no `url`, and both answer with a server error |
| Dashboard.FilterByStatusKeepsShown | apps/ticket/views.py:78-81 | the filter keeps exactly the tickets with the chosen status, none more often than the table holds them; with "T" it keeps the whole table |
| Dashboard.PrependNewest | apps/ticket/views.py:82 | a ticket no younger than every ticket of a newest-first list can lead it |
| Dashboard.HeadBoundsRest | apps/ticket/views.py:82 | the head of a non-empty newest-first list is no younger than any ticket after it |
| Dashboard.InsertByCreatedSorted | apps/ticket/views.py:82 | inserting by creation time keeps a list newest first and adds exactly that ticket |
| Dashboard.OrderByCreatedDescSorts | apps/ticket/views.py:82 | `order_by('-criado_em')` yields the same tickets, newest first |
| Dashboard.RecentlyUpdatedIsFree | apps/ticket/views.py:86-88 | rewriting `recently_updated` keeps a ticket valid |
| Dashboard.MarkRecent | apps/ticket/views.py:85-88 | after the loop, each listed ticket is flagged exactly when it was updated no earlier than seven days ago |
| Dashboard.MarkListed | apps/ticket/views.py:84-88 | the listed tickets get the seven-day flag, saving only that field: unlisted flags, all other fields and the status filter's result are unchanged |
| Dashboard.Select | apps/ticket/views.py:78-82 | the query is newest first, draws only from the table, and lists exactly the tickets with the chosen status |
| Dashboard.GetQueryset | apps/ticket/views.py:76-90 | the returned list is the filtered, ordered table; each listed ticket's flag says whether it was updated within the week; unlisted tickets and all other fields are unchanged; filtering again gives the same list |
| Dashboard.GetContextData | apps/ticket/views.py:92-113 | the context pages the recomputed query six at a time, keeps the status filter (default "T") in `&status=`, and uses the referer or "/" |
| Dashboard.Get | apps/ticket/views.py:70-113 | computing the query twice, once for the list and once for the context, ends as one pass would |
| TicketDetail.AcknowledgeClearsOwnFlag | apps/ticket/views.py:121-125 | viewing sets no flag and changes at most one; the technician viewer ends with `atualizado_tecnico` clear; failing that, the requester viewer ends with `atualizado_colaborador` clear; a non-viewer's flag and every other field stay as they were |
| TicketDetail.AcknowledgePreservesValid | apps/ticket/views.py:119-125 | viewing keeps the ticket invariant |
| TicketDetail.Get | apps/ticket/views.py:119-132 | the ticket ends in the acknowledged state, and the page shows its messages, history and whether it is Closed |
| TicketDetail.ChangedFieldsExactly | apps/ticket/views.py:171-193 | exactly the fields whose value changed are listed, each once, in the order status, priority, level, technician |
| TicketDetail.ChangeLogFollowsFields | apps/ticket/views.py:171-193 | the new history texts and the confirmations are the changed fields, each mapped to its own line |
| TicketDetail.Entries | apps/ticket/views.py:196-197 | one entry per text, in order, each for this ticket, author and time |
| TicketDetail.FormValidLogsEachChange | apps/ticket/views.py:171-197 | a status update appends one history entry and one confirmation per changed field, in the fixed order; none exactly when nothing changed; earlier entries stay as they were |
| TicketDetail.FormValidNotifiesOtherParty | apps/ticket/views.py:200-215 | the requester's flag is set when the actor is the technician the form names, and the technician's flag otherwise; the other flag keeps its value; the four fields take the new values, `atualizado_em` is now, history grows by the change log, and every other field (completion date, conclusion, messages, active flag, attachment, `url`, …) stays unchanged |
| TicketDetail.SelfAssignScenario | apps/ticket/views.py:189-204 | a technician taking an unassigned ticket writes exactly the line `Técnico responsável alterado de "None" para "<name>"…` and notifies the requester |
| TicketDetail.TechnicianLineText | apps/ticket/views.py:191 | the technician history line, spelled out |
| TicketDetail.TechnicianNoticeText | apps/ticket/views.py:193 | the technician confirmation, spelled out |
| TicketDetail.LogIfChanged | apps/ticket/views.py:171-175 | one field comparison appends a history line and a confirmation exactly when that field changed, and nothing otherwise |
| TicketDetail.BuildChangeLog | apps/ticket/views.py:167-193 | the `novo_historico` list and the confirmations built field by field are the change log and the notices |
| TicketDetail.AddAll | apps/ticket/views.py:196-197 | the loop appends one entry per text, in order |
| TicketDetail.ApplyStatusForm | apps/ticket/views.py:153 | only the four form fields take the submitted values |
| TicketDetail.NotifyOtherParty | apps/ticket/views.py:200-204 | sets the flag of the party who did not act and changes nothing else |
| TicketDetail.FormValid | apps/ticket/views.py:152-217 | the whole ticket state and the outcome are those given by `AfterFormValid` |
| TicketDetail.FormValidPreservesValid | apps/ticket/views.py:152-215 | a status update with valid codes keeps the ticket invariant |
| TicketDetail.FormattedCommentShape | apps/ticket/views.py:259-260 | the conclusion block starts with the delimiter line and the bracketed time; only trailing whitespace of the comment is stripped |
| TicketDetail.EncerrarEmptyIsNoop | apps/ticket/views.py:256-289 | closing with a missing or empty comment changes nothing and queues nothing |
| TicketDetail.EncerrarEffects | apps/ticket/views.py:258-287 | closing with a comment gives status `C`, inactive, completion date now; the block is appended to the conclusion, after a newline when there was one; exactly one "Conclusão: …" entry; the other party notified; every other field unchanged |
| TicketDetail.AppendToConclusion | apps/ticket/views.py:263-267 | the conclusion becomes the old text, a newline and the block, or only the block when there was none |
| TicketDetail.MarkCompleted | apps/ticket/views.py:273-275 | completion date now, inactive, status `C`; nothing else |
| TicketDetail.EncerrarTicket | apps/ticket/views.py:256-289 | the whole ticket state and the outcome are those given by `AfterEncerrar` |
| TicketDetail.EncerrarPreservesValid | apps/ticket/views.py:256-284 | closing keeps the ticket invariant |
| TicketDetail.AtivarEffects | apps/ticket/views.py:293-311 | reopening, from any status, clears the completion date, activates, sets status `R`, appends exactly one "Ticket reativado" entry, notifies the other party, and changes nothing else |
| TicketDetail.AtivarTicket | apps/ticket/views.py:293-313 | the whole ticket state and the outcome are those given by `AfterAtivar` |
| TicketDetail.AtivarPreservesValid | apps/ticket/views.py:293-308 | reopening keeps the ticket invariant |
| TicketDetail.EnviarMensagemEffects | apps/ticket/views.py:317-340 | an empty text changes nothing and warns; otherwise exactly one message is appended and the ticket marked recently updated; `atualizado_em` becomes now; a technician sender leaves only the requester's flag set, a requester sender the mirror, and anyone else leaves both flags as they were; every other field is unchanged |
| TicketDetail.EnviarMensagem | apps/ticket/views.py:316-342 | the whole ticket state and the outcome are those given by `AfterEnviarMensagem` |
| TicketDetail.EnviarMensagemPreservesValid | apps/ticket/views.py:316-338 | sending a message keeps the ticket invariant |
| TicketDetail.ClosedGate | apps/ticket/views.py:231-243 | on a Closed ticket without a valid status form, `encerrar` and `ativar` both reopen it; any other request changes nothing and produces exactly one warning |
| TicketDetail.ClosedTicketRejectsMessage | apps/ticket/views.py:241-243 | a message sent to a Closed ticket without `confirmar_btn` is not stored, and the closed-ticket warning is shown; this holds both under `AfterPost` and for the code as written (`AfterPostAsWritten`) |
| TicketDetail.ClosedBranchFormLogsNothing | apps/ticket/views.py:234-237 | a valid form reaching the Closed branch of `handle_ticket_actions` (which `post` never hands one) is applied but writes no history and no confirmation |
| TicketDetail.OpenDispatch | apps/ticket/views.py:245-252 | on any other status, the action picks close, reopen, message, or nothing, in that order |
| TicketDetail.HandleTicketActions | apps/ticket/views.py:227-252 | the whole ticket state and the outcome are those given by `AfterHandleActions` |
| TicketDetail.PostPreservesValid | apps/ticket/views.py:134-149 | every POST keeps the ticket invariant |
| TicketDetail.Post | apps/ticket/views.py:134-149 | a valid status form is handled first, against the values read before validation; otherwise dispatch |
| TicketDetail.ViewTicket | apps/ticket/views.py:119-132 | an unknown id gives not-found; otherwise that ticket's whole state becomes its acknowledged state and the page shows it; every other ticket's state, which holds all of its mutable fields, is unchanged |
| TicketDetail.PostTicket | apps/ticket/views.py:134-149 | an unknown id gives not-found; otherwise that ticket's whole state becomes the one `AfterPost` gives; every other ticket's state is unchanged, and the table stays valid |
| TicketDetail.ClosedTicketTakesMessageAsWritten | apps/ticket/views.py:144-149 | as written, a Closed ticket with a request carrying `confirmar_btn`, status "A", no priority and a message stores the message and confirms it; with an invalid form changing nothing, the same request changes nothing and warns that the changes were not saved |

## Left out

- Templates, `render` and `redirect`: a view returns a target page and a list of notices.
- Django's `messages` framework beyond that list.
- Django's `Paginator`: only the page size of 6 is modelled, not which page is shown. `ListView`'s own `get_context_data` (views.py:93) paginates as well: a `page` that is neither an integer nor "last", or lies past the last page, makes it raise Http404. That happens after the first `get_queryset` pass (views.py:90) and before the second (views.py:96), so the stored state ends as one pass leaves it; only the response differs, and the model does not give that 404.
- `strftime`, the locale, `timezone.now`, `datetime.now` and `slugify(get_full_name())` are parameters.
- CreateTicket.FormValid, CreateTicket.Post, CreateTicket.GetThenSubmitTwice: they assume the requester has a `get_full_name` method. `CustomUser` (models.py:28-57) defines none, and Django's `AbstractBaseUser` has none, so in the code the upload path raises (`FormValidAsWritten`, and a Findings row).
- File storage: the `upload_to` prefix and the first save under the uploaded name.
- Django ModelForm internals beyond the copy of the cleaned fields (`TicketDetail.CopyCleanedFields`).
- TicketDetail.Post: an invalid status form is treated as changing nothing. Django has then already copied its valid fields into the ticket in memory; `ClosedGate` holds only because of this choice; `ClosedTicketRejectsMessage`, which is about requests without `confirmar_btn`, holds of the code as written too. The code's behaviour is `AfterPostAsWritten`, and the difference is a Findings row.
- Forms.ValidateStatusForm: does not check that `tecnico` names an existing user, nor that `data_conclusao` is a valid date; both are taken as given.
- Forms.ValidateTicketForm: does not check that `tecnico` names an existing user, nor the upload checks of the file field (an empty file, or a name longer than 100 characters, is refused by Django).
- TicketDetail.EncerrarEffects: `data_conclusao` is a `DateField` (models.py:139), and `encerrar` assigns `timezone.now()` (views.py:273), which is saved as its date. The model stores the instant `now`.
- Password hashing: a password is an uninterpreted `HashOf(text)`.
- Users.NormalizeEmailCases: the domain is lower-cased for ASCII letters only; Unicode case folding is not modelled.
- Users.UserManager.CreateUser: `username` is a string. The `None` username case falls under "empty" in the source and is not modelled separately.
- Users.User.constructor: which non-boolean values Django's `BooleanField` converts is not computed. A `PyOther` value carries its conversion: True for 1, "t", "True", "1"; False for 0, "f", "False", "0"; refused for anything else, which makes the save raise `ValidationError` (`InvalidBoolean`).
- `CreateTicketView.get_context_data` (the referer for the creation page): it has no effect on state.
- Dashboard.OrderByCreatedDesc: tickets with equal creation times are ordered by insertion. The database promises no order among them, and the contracts state only newest-first and the same tickets.
- Authentication and login (`resolve_user`, `CustomLoginView`, `CustomAuthenticationForm`): library wrappers.
- URL routing and the landing page: configuration and glue.
- `DadoAnalise`, `Porcentagem`, `DadoAnaliseForm`: no logic, and a float field.
- `HistoricoTicket.__str__`: it needs date formatting, which is a parameter here.
- Concurrency between requester and technician: the last write wins.

## Findings

| source | as written | input that shows it | evidently intended | confidence | as-written member | corrected member |
|---|---|---|---|---|---|---|
| apps/ticket/models.py:10 | `create_user` stores `normalize_email(email)`, which turns a missing e-mail into "" | `create_user("ana")` then `create_user("bia")`: the second save fails on the `unique=True` e-mail column (models.py:30), which is `null=True` for exactly this case | a missing e-mail is stored as NULL, so users without e-mail can coexist | not executed | Users.NoEmailUsersCollideAsWritten | Users.NoEmailUsersCoexist |
| apps/ticket/models.py:25 | `create_superuser` hands the e-mail to the same `create_user` | `create_user("ana")` then `create_superuser("root")`: the superuser's "" e-mail collides with the first user's | as for `create_user`: a superuser without e-mail is stored with NULL | not executed | Users.NoEmailUsersCollideAsWritten | Users.NoEmailUsersCoexist |
| apps/ticket/views.py:144-149 | an invalid status form has already copied its valid fields into the ticket in memory when `handle_ticket_actions` reads the status | a Closed ticket, POST with `confirmar_btn`, status "A", an empty priority, `enviar_mensagem` and text "oi": the gate sees "A", so the message is stored and confirmed | an invalid form leaves the ticket as loaded, so the Closed gate applies | not executed | TicketDetail.ClosedTicketTakesMessageAsWritten | TicketDetail.ClosedGate |
| apps/ticket/views.py:49 | the new attachment name calls `ticket.usuario.get_full_name()`, which `CustomUser` does not define | `get`, then two submissions of a valid form with an attachment: each saves a ticket under the uploaded name with `url` empty, queues the success notice and raises `AttributeError` before `ticket_saved` is set, so the second saves a second ticket | the attachment is renamed, the guard set and the dashboard shown, so one ticket is saved | not executed | CreateTicket.UploadSubmitTwiceAsWritten | CreateTicket.GetThenSubmitTwice |
