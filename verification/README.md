# Clinic patient registry, modelled in Dafny

The application is a small Next.js front end over a Firestore collection of
patients (`paciente`). This project models its core:

- **Validation and formatting** (`src/lib/validations.ts`):
  - `validarPaciente`, the nine-check form validator that collects its messages in check order;
  - the regular expressions of `validarEmail` and `validarTelefone`, written out as explicit predicates;
  - `formatarTelefone`, which regroups 10 or 11 digits into the Brazilian display form;
  - `calcularIdade`, with today's date as a parameter.
- **The data-access service** (`src/lib/paciente-service.ts`):
  - the store is a map from document id to document;
  - a document is a map from field name to value, so `updateDoc` is a map union in which the payload wins;
  - `buscarPaciente` yields `null` (`None`) or the stored fields plus `id`;
  - the create, update and soft-delete payloads;
  - the list-item projection with its `'N/A'` defaults, then the in-place sort by name;
  - the one fixed message each operation rethrows its failures as.
- **The patient list page** (`src/app/pacientes/page.tsx`):
  - the case-insensitive search filter over name, city and neighbourhood;
  - the count label;
  - the loading, empty-state and card views;
  - the page state as a class. Its load handler and its confirm-gated delete handler replace that state.
- **The patient form** (`src/components/PacienteForm.tsx`):
  - a class holding `formData`, `errors` and `loading`;
  - its initial state and the edit-mode load;
  - the phone and e-mail row handlers;
  - `handleSubmit`, which validates, strips blank rows, calls the service and ends with `loading` off.

The modules and their files:

| module | file | contents |
|---|---|---|
| `Sequencias` | `sequencias.dfy` | `filter` and the order it keeps; sortedness; the in-place insertion sort standing for `Array.prototype.sort` |
| `Texto` | `texto.dfy` | `trim`, `\s`, `\d`, `replace(/\D/g, '')`, ASCII `toLowerCase`, `includes` and the name order |
| `Tipos` | `tipos.dfy` | the records; stored field values; the list item; the effects a UI handler causes |
| `Validacoes` | `validacoes.dfy` | `validations.ts` |
| `PacienteServico` | `pacienteservico.dfy` | `paciente-service.ts` |
| `ListaDePacientes` | `listadepacientes.dfy` | `pacientes/page.tsx` |
| `Formulario` | `formulario.dfy` | `PacienteForm.tsx` |

Nothing is executed here. Several things become parameters:
- whether a service or store call throws;
- the id `addDoc` picks and the instants `Timestamp.now()` returns;
- today's date;
- the user's answer to `confirm`.

A UI handler returns the dialogs, service calls and navigation it causes as a list of `Efeito` values.

## Model

| member | source | states |
|---|---|---|
| Sequencias.Filtro | src/app/pacientes/page.tsx:58-62 | `filter` keeps only elements that pass, and never more than it was given |
| Sequencias.FiltroSubsequencia | src/app/pacientes/page.tsx:58-62 | what `filter` keeps is a subsequence of its input: the order is kept |
| Sequencias.FiltroMultiset | src/components/PacienteForm.tsx:71-72 | `filter` keeps every occurrence of each element that passes and drops every one that does not |
| Sequencias.FiltroVazioSse | src/lib/validations.ts:35-41 | `filter` returns `[]` exactly when no element passes |
| Sequencias.FiltroTodos | src/app/pacientes/page.tsx:58-62 | a filter every element passes returns its input |
| Sequencias.FiltroExtensional | src/app/pacientes/page.tsx:58-62 | two predicates that agree on the elements filter alike |
| Sequencias.Trocar | src/lib/paciente-service.ts:51-52 | the sort's step: exchanges two neighbours, and the contents stay a permutation |
| Sequencias.Inserir | src/lib/paciente-service.ts:51-52 | moves one element into place: the prefix up to it is then in comparator order and holds what it held before, and the rest of the array is untouched |
| Sequencias.Ordenar | src/lib/paciente-service.ts:51-52 | in-place sort under a total-preorder comparator: the result is a permutation of the array, and every pair is in comparator order |
| Texto.AparaInicio | src/lib/validations.ts:7 | the leading part of `trim`: removes exactly the longest all-white-space prefix |
| Texto.AparaFim | src/lib/validations.ts:7 | the trailing part of `trim`: removes exactly the longest all-white-space suffix |
| Texto.Aparar | src/lib/validations.ts:7 | `trim` returns a piece no longer than its input that neither starts nor ends with white space; exact characterisation in `Texto.AparaInicio`, `Texto.AparaFim` and `Texto.ApararVazioSse` |
| Texto.ApararVazioSse | src/lib/validations.ts:7 | `s.trim() === ''` exactly when every character of `s` is white space |
| Texto.ApararDaVazia | src/components/PacienteForm.tsx:71 | trimming `''` gives `''`, so a blank row is dropped |
| Texto.NaoVazios | src/lib/validations.ts:35 | the filtered list is no longer than its input and holds only entries that do not trim to `''`; which entries it keeps is in `Validacoes.NaoVaziosVaziaSse` and `Formulario.LimparMantem` |
| Texto.Digitos | src/lib/validations.ts:60 | `replace(/\D/g, '')` leaves only digits and never grows the string; `Texto.DigitosConcat`, `Texto.DigitosDeDigitos` and `Texto.DigitosSemDigitos` say which |
| Texto.DigitosConcat | src/lib/validations.ts:60 | stripping non-digits distributes over concatenation |
| Texto.DigitosDeDigitos | src/lib/validations.ts:60 | stripping non-digits leaves an all-digit string unchanged |
| Texto.DigitosSemDigitos | src/lib/validations.ts:60 | stripping non-digits from a digit-free string gives `''` |
| Texto.Minusculas | src/app/pacientes/page.tsx:59-61 | `toLowerCase` keeps the length, leaves no upper-case ASCII letter, and changes a character only by taking an upper-case letter to its lower-case one |
| Texto.MinusculasIdempotente | src/app/pacientes/page.tsx:59-61 | lower-casing twice equals lower-casing once |
| Texto.ContemVazio | src/app/pacientes/page.tsx:59-61 | every string `includes('')` |
| Texto.Contem | src/app/pacientes/page.tsx:59-61 | `includes`: the term occurs at some index; `Texto.ContemVazio` states the empty-term case |
| Texto.LexicoTotal | src/lib/paciente-service.ts:52 | any two names are comparable |
| Texto.LexicoTransitivo | src/lib/paciente-service.ts:52 | the name order is transitive |
| Texto.LexicoReflexivo | src/lib/paciente-service.ts:52 | the name order is reflexive |
| Texto.NomeAntesPreordemTotal | src/lib/paciente-service.ts:52 | the order the names are sorted by is a total preorder |
| Validacoes.Posicao | src/lib/validations.ts:7-41 | each check has one position among the nine, in source order |
| Validacoes.Viola | src/lib/validations.ts:7-41 | the nine failure conditions, one per `if`; `Validacoes.MensagemPresenteSse` ties each to its message |
| Validacoes.Erros | src/lib/validations.ts:4-44 | the list `validarPaciente` returns; its meaning is in `Validacoes.ErrosComoFalhas`, `Validacoes.ErrosEmOrdem` and `Validacoes.ErrosVaziosSse` |
| Validacoes.VerificarDadosPessoais | src/lib/validations.ts:5-21 | the name, birth date, weight and height checks push exactly the messages of the first four checks that fail, in order |
| Validacoes.VerificarEndereco | src/lib/validations.ts:23-33 | the street, city and state checks extend that list to the first seven checks |
| Validacoes.VerificarContatos | src/lib/validations.ts:35-41 | the phone and e-mail checks extend it to all nine |
| Validacoes.ValidarPaciente | src/lib/validations.ts:4-44 | `validarPaciente` returns the messages of exactly the checks the data fails, in check order |
| Validacoes.MensagemInjetiva | src/lib/validations.ts:8-40 | the nine messages are all different |
| Validacoes.RegrasSemRepeticao | src/lib/validations.ts:7-41 | the nine checks are nine different checks |
| Validacoes.ErrosAteComoFiltro | src/lib/validations.ts:7-41 | the errors of the first n checks are the messages of the failed checks among them |
| Validacoes.ErrosComoFalhas | src/lib/validations.ts:4-44 | the error list is the messages of the failed checks, in check order |
| Validacoes.ErrosEmOrdem | src/lib/validations.ts:4-44 | errors come in check order, each message at most once, so there are at most nine |
| Validacoes.MensagemPresenteSse | src/lib/validations.ts:7-41 | a check's message is in the result exactly when that check fails |
| Validacoes.NaoVaziosVaziaSse | src/lib/validations.ts:35-41 | there are no non-blank entries exactly when every entry trims to `''` |
| Validacoes.AceitoSse | src/lib/validations.ts:7-41 | the acceptance conditions, in the source's own terms, hold exactly when no check fails |
| Validacoes.ErrosVaziosSse | src/lib/validations.ts:4-44 | `validarPaciente` returns `[]` exactly when: `nome` is not blank; `dataNascimento` is not empty; 0 < `peso` ≤ 999; 0 < `altura` ≤ 3; `rua` and `cidade` are not blank; `estado` has length 2; at least one phone and one e-mail are not blank |
| Validacoes.Limites | src/lib/validations.ts:15-33 | 999 kg and 3 m pass; 0 fails both; 0.05 kg passes although the message names 0.1; a state of two spaces passes |
| Validacoes.ErrosAteIguais | src/lib/validations.ts:7-41 | two records that fail the same checks get the same errors |
| Validacoes.ErrosDependemDe | src/lib/validations.ts:4-44 | validation reads only name, birth date, weight, height, street, city and state, and whether each list has a non-blank entry |
| Validacoes.CamposNaoVerificados | src/lib/validations.ts:4-44 | `numero`, `bairro` and `tipoSanguineo` never change the result |
| Validacoes.ValidarEmail | src/lib/validations.ts:47-50 | the e-mail regex written out; `Validacoes.ValidarEmailSse` characterises it |
| Validacoes.ValidarEmailSse | src/lib/validations.ts:47-50 | `validarEmail` accepts exactly the strings that have no white space, one `@` that is not first, and after it a `.` that neither follows it directly nor ends the string |
| Validacoes.EmailAceitoTemForma | src/lib/validations.ts:48 | an accepted address has that shape |
| Validacoes.FormaDeEmailAceita | src/lib/validations.ts:48 | a string of that shape is accepted |
| Validacoes.ValidarTelefone | src/lib/validations.ts:53-56 | the phone regex written out; `Validacoes.TelefoneValidoComprimento` and `Validacoes.FormatarTelefoneValido` state what it accepts |
| Validacoes.TelefoneValidoComprimento | src/lib/validations.ts:53-56 | an accepted phone has length 14 or 15 |
| Validacoes.FormatarTelefone | src/lib/validations.ts:59-69 | `formatarTelefone`; its contract is carried by `Validacoes.FormatarTelefoneValido`, `Validacoes.FormatarTelefoneInalterado` and `Validacoes.FormatarTelefoneIdempotente` |
| Validacoes.MontarDigitos | src/lib/validations.ts:62-66 | the display form holds exactly the digits, in order |
| Validacoes.MontarValido | src/lib/validations.ts:53-66 | the display form of 10 or 11 digits is an accepted phone, four characters longer |
| Validacoes.FormatarTelefoneValido | src/lib/validations.ts:59-69 | with 10 or 11 digits the output is accepted by `validarTelefone` and keeps the digits in order |
| Validacoes.FormatarTelefoneInalterado | src/lib/validations.ts:68 | with any other digit count the input comes back unchanged |
| Validacoes.FormatarTelefoneIdempotente | src/lib/validations.ts:59-69 | formatting twice equals formatting once |
| Validacoes.TelefoneValidoEhFixo | src/lib/validations.ts:53-69 | an accepted phone is left unchanged by formatting |
| Validacoes.CalcularIdade | src/lib/validations.ts:72-83 | the age is the number of completed years: that birthday has passed and the next has not; on the birthday itself it is the year difference |
| Validacoes.IdadeUnica | src/lib/validations.ts:75-80 | only one number of years meets that description |
| PacienteServico.MensagensErroDistintas | src/lib/paciente-service.ts:63-155 | each operation has its own failure message |
| PacienteServico.CamposDoServico | src/lib/paciente-service.ts:73-94 | `id`, `criadoEm` and `atualizadoEm` are not form fields |
| PacienteServico.ParaDocumento | src/lib/paciente-service.ts:91 | spreading the form data writes exactly the eight form fields |
| PacienteServico.LerFormularioGravado | src/lib/paciente-service.ts:73-94 | a document holding the written form fields reads back as the form data, whatever else it holds |
| PacienteServico.PayloadCriacao | src/lib/paciente-service.ts:90-94 | the create payload is the form fields plus `criadoEm` and `atualizadoEm` from their own instants, nothing more |
| PacienteServico.PayloadAtualizacao | src/lib/paciente-service.ts:109-112 | the update payload is the form fields plus `atualizadoEm`, with no `criadoEm` |
| PacienteServico.PayloadExclusao | src/lib/paciente-service.ts:126-128 | the delete payload holds only `atualizadoEm` |
| PacienteServico.Atualizado | src/lib/paciente-service.ts:107-128 | `updateDoc`: fails on a missing document, and otherwise each payload field replaces the stored one whole; its contract is carried by `PacienteServico.AtualizarCorreto` and `PacienteServico.ExcluirCorreto` |
| PacienteServico.BuscarPaciente | src/lib/paciente-service.ts:68-85 | `buscarPaciente`; its contract is carried by `PacienteServico.BuscarPacienteCorreto` and `PacienteServico.FalhasTemMensagemFixa` |
| PacienteServico.CriarPaciente | src/lib/paciente-service.ts:88-102 | `criarPaciente`; its contract is carried by `PacienteServico.CriarPacienteCorreto`, `PacienteServico.CriarEntaoBuscar` and `PacienteServico.CriarEntaoListar` |
| PacienteServico.AtualizarPaciente | src/lib/paciente-service.ts:105-117 | `atualizarPaciente`; its contract is carried by `PacienteServico.AtualizarCorreto` |
| PacienteServico.ExcluirPaciente | src/lib/paciente-service.ts:120-133 | `excluirPaciente`; its contract is carried by `PacienteServico.ExcluirCorreto` and `PacienteServico.ExcluirEntaoListar` |
| PacienteServico.BuscarPacienteCorreto | src/lib/paciente-service.ts:68-85 | `null` exactly when there is no document; otherwise the stored fields plus `id`, where a stored `id` field wins over the document id |
| PacienteServico.CriarPacienteCorreto | src/lib/paciente-service.ts:88-102 | a successful create returns the new id, adds exactly that document and changes no other |
| PacienteServico.CriarEntaoBuscar | src/lib/paciente-service.ts:73-97 | fetching under the returned id gives back the form data |
| PacienteServico.CriarEntaoBuscarMetadados | src/lib/paciente-service.ts:73-97 | ... and the new id and the two creation instants |
| PacienteServico.AtualizarCorreto | src/lib/paciente-service.ts:105-117 | updating a missing document fails and changes nothing; updating an existing one sets each of the eight form fields to exactly the written value, so `endereco` is replaced whole, and sets `atualizadoEm`; every other field, `criadoEm` among them, and every other document stays |
| PacienteServico.ExcluirCorreto | src/lib/paciente-service.ts:120-133 | delete is a soft delete: the document stays, only `atualizadoEm` changes, and a missing document fails |
| PacienteServico.FalhasTemMensagemFixa | src/lib/paciente-service.ts:81-132 | a failed store call becomes the operation's fixed message and leaves the store alone |
| PacienteServico.ProjetarItem | src/lib/paciente-service.ts:42-48 | the list item keeps the document id, `nome` and `dataNascimento` as stored; `bairro` and `cidade` come from the address |
| PacienteServico.CampoEndereco | src/lib/paciente-service.ts:46-47 | the address field, or `'N/A'` when it is falsy; its contract is carried by `PacienteServico.CampoEnderecoPadrao` |
| PacienteServico.CampoEnderecoPadrao | src/lib/paciente-service.ts:46-47 | `bairro`/`cidade` are `'N/A'` when the address, the field or its text is missing, and the stored text otherwise |
| PacienteServico.ExcluidoSegueListado | src/lib/paciente-service.ts:120-133 | a deleted patient's list item is the same as before the delete, since the listing does not read `atualizadoEm` |
| PacienteServico.Projetar | src/lib/paciente-service.ts:42-48 | the mapping projects every document in snapshot order, and fails exactly when some `nome` is not text |
| PacienteServico.ItemAntesPreordemTotal | src/lib/paciente-service.ts:52 | the list-item comparator is a total preorder |
| PacienteServico.InstantaneoTamanho | src/lib/paciente-service.ts:30 | a snapshot that lists every stored document once has as many entries as the store |
| PacienteServico.ListavelSse | src/lib/paciente-service.ts:42-52 | a snapshot of the store projects exactly when every stored `nome` is text |
| PacienteServico.ListagemDaColecao | src/lib/paciente-service.ts:30-48 | the projected snapshot has one item per stored document: each stored document's item is in it, and each item in it is a stored document's |
| PacienteServico.DocumentoListado | src/lib/paciente-service.ts:42-48 | a stored document's item is in the projected snapshot |
| PacienteServico.ItemVemDaColecao | src/lib/paciente-service.ts:42-48 | every item of the projected snapshot is the item of the stored document with its id |
| PacienteServico.ItemDoCriado | src/lib/paciente-service.ts:42-48 | a created document lists as its id, the form's name and birth date, and its neighbourhood and city or `'N/A'` when they are empty |
| PacienteServico.CriarEntaoListar | src/lib/paciente-service.ts:21-102 | after a create, the next listing has one more item, and the new patient's item is among them |
| PacienteServico.ExcluirEntaoListar | src/lib/paciente-service.ts:21-133 | after a soft delete, the next listing keeps its size and still shows the deleted patient, as the same item |
| PacienteServico.ListarPacientes | src/lib/paciente-service.ts:21-65 | given a snapshot of the store, the listing holds exactly the projected documents, sorted by name; a failed query, or a stored `nome` that is not text, becomes `'Erro ao carregar pacientes'` |
| PacienteServico.ListagemCompleta | src/lib/paciente-service.ts:21-65 | so the listing has exactly one item per stored document: every stored document's item, and nothing else |
| ListaDePacientes.Filtrar | src/app/pacientes/page.tsx:58-62 | the filtered list is no longer than the loaded one and holds only items that match; which items and in what order is in the lemmas below |
| ListaDePacientes.Corresponde | src/app/pacientes/page.tsx:58-62 | the search predicate: the lower-cased term occurs in the lower-cased `nome`, `cidade` or `bairro`; its contract is carried by `ListaDePacientes.FiltrarMantemSse` and `ListaDePacientes.FiltrarIgnoraCaixa` |
| ListaDePacientes.FiltrarSubsequencia | src/app/pacientes/page.tsx:58-62 | the filtered list is an order-preserving subsequence of the loaded list |
| ListaDePacientes.FiltrarMantemSse | src/app/pacientes/page.tsx:58-62 | an item is kept exactly when the lower-cased term occurs in its lower-cased `nome`, `cidade` or `bairro` |
| ListaDePacientes.FiltrarTermoVazio | src/app/pacientes/page.tsx:58-62 | an empty term keeps every item |
| ListaDePacientes.FiltrarIgnoraCaixa | src/app/pacientes/page.tsx:59-61 | terms that lower-case alike select the same items |
| ListaDePacientes.FiltrarMinusculas | src/app/pacientes/page.tsx:59-61 | the case of the term does not change the result |
| ListaDePacientes.Decimal | src/app/pacientes/page.tsx:84 | the count is rendered as a non-empty string of digits, with no leading zero |
| ListaDePacientes.DecimalIda | src/app/pacientes/page.tsx:84 | the rendered count reads back as the count |
| ListaDePacientes.RotuloContagem | src/app/pacientes/page.tsx:84 | the label starts with the count |
| ListaDePacientes.RotuloPluralSse | src/app/pacientes/page.tsx:84 | the label ends in `s`, two letters longer, exactly when the count is not 1 |
| ListaDePacientes.RotuloSingular | src/app/pacientes/page.tsx:84 | one patient reads `1 paciente cadastrado` |
| ListaDePacientes.RotuloNenhum | src/app/pacientes/page.tsx:84 | zero reads `0 pacientes cadastrados` |
| ListaDePacientes.Renderizar | src/app/pacientes/page.tsx:107-137 | the spinner shows exactly while loading; once loaded, the empty state shows exactly when the filtered list is empty, and it offers the first-patient link exactly when there is no term; cards are never empty and are the filtered list; the headings are in `ListaDePacientes.VaziaComTermo` and `ListaDePacientes.SemTermo` |
| ListaDePacientes.VaziaComTermo | src/app/pacientes/page.tsx:112-124 | with a term and no match, the heading is `Nenhum paciente encontrado` and no link is offered |
| ListaDePacientes.SemTermo | src/app/pacientes/page.tsx:112-134 | with no term, the heading is `Nenhum paciente cadastrado` exactly when nothing is loaded; otherwise every loaded patient is shown |
| ListaDePacientes.CorrespondenciaMostraCartoes | src/app/pacientes/page.tsx:112-136 | once loaded, any loaded patient that matches the term (with or without a term) puts the cards of the filtered list on screen, that patient's card among them |
| ListaDePacientes.CartoesCorrespondem | src/app/pacientes/page.tsx:134-136 | the cards are the whole filtered list: matching loaded patients, in loaded order, never none; with `FiltrarMantemSse` every matching patient gets a card |
| ListaDePacientes.PaginaPacientes.constructor | src/app/pacientes/page.tsx:9-11 | starts with no patients, loading, and an empty term |
| ListaDePacientes.PaginaPacientes.Pesquisar | src/app/pacientes/page.tsx:105 | typing replaces only the term |
| ListaDePacientes.PaginaPacientes.Rotulo | src/app/pacientes/page.tsx:84 | the count line counts every loaded patient, not the filtered ones, and is plural unless exactly one is loaded |
| ListaDePacientes.PaginaPacientes.Tela | src/app/pacientes/page.tsx:107-137 | the page body is `Renderizar` of the current list, loading flag and term; see `ListaDePacientes.Renderizar` and the lemmas after it |
| ListaDePacientes.PaginaPacientes.CarregarPacientes | src/app/pacientes/page.tsx:18-40 | a successful load replaces the list; a failed one keeps it and alerts; loading ends either way |
| ListaDePacientes.PaginaPacientes.ExcluirPaciente | src/app/pacientes/page.tsx:42-55 | declining makes no service call and changes nothing; a failed delete alerts and changes nothing; a successful one gives exactly the confirm, the delete call, the success alert and the reload, plus the load alert when the reload fails, and the list becomes the reloaded one |
| Formulario.InicialTipoOferecido | src/components/PacienteForm.tsx:14-26 | the initial blood type `O+` is one of the offered options |
| Formulario.InicialViolaTudo | src/components/PacienteForm.tsx:21-36 | the initial form fails every check |
| Formulario.InicialFalhaTudo | src/components/PacienteForm.tsx:21-36 | submitting the untouched form reports all nine messages, in check order |
| Formulario.ComLinhaMesmosPreenchidos | src/components/PacienteForm.tsx:48-49 | a loaded list has at least one row; a non-empty one is kept as it is; the non-blank entries are unchanged |
| Formulario.Carregado | src/components/PacienteForm.tsx:41-50 | the form data the edit load builds; its contract is carried by `Formulario.CarregadoPreservaValidacao` and `Formulario.ComLinhaMesmosPreenchidos` |
| Formulario.CarregadoPreservaValidacao | src/components/PacienteForm.tsx:41-50 | the load copies every other field as stored and does not change what validation reports |
| Formulario.SemIndiceCorreto | src/components/PacienteForm.tsx:99-118 | filtering out index i removes exactly that element and keeps the order; an index outside the list removes nothing |
| Formulario.SemIndice | src/components/PacienteForm.tsx:102 | `filter((_, i) => i !== index)`; its contract is carried by `Formulario.SemIndiceCorreto` |
| Formulario.Aplicar | src/components/PacienteForm.tsx:92-118 | the row handlers' effect on the form data; its contract is carried by `Formulario.AplicarSoNaPropriaLista`, `Formulario.AdicionarAcrescenta`, `Formulario.RemoverApaga` and `Formulario.AlterarSubstitui` |
| Formulario.AplicarSoNaPropriaLista | src/components/PacienteForm.tsx:92-118 | a row action changes only its own list |
| Formulario.AdicionarAcrescenta | src/components/PacienteForm.tsx:92-111 | adding appends one `''` at the end and leaves the existing entries unchanged |
| Formulario.RemoverApaga | src/components/PacienteForm.tsx:99-118 | removing row i deletes exactly index i and keeps the order of the rest |
| Formulario.AlterarSubstitui | src/components/PacienteForm.tsx:367-413 | editing row i replaces only entry i |
| Formulario.AcaoMantemLinhas | src/components/PacienteForm.tsx:361-427 | with remove offered only while a list has more than one row, an available action keeps a row in each list |
| Formulario.AcoesMantemLinhas | src/components/PacienteForm.tsx:361-427 | any sequence of available add, remove and edit actions keeps at least one row in each list |
| Formulario.LinhasDesdeOInicio | src/components/PacienteForm.tsx:34-49 | the initial form and every loaded record start with a row in each list |
| Formulario.Substituir | src/components/PacienteForm.tsx:368-369 | the copied array differs from the original only at the edited index, which holds the new value |
| Formulario.Limpar | src/components/PacienteForm.tsx:69-73 | `dadosLimpos`; its contract is carried by `Formulario.LimparMantem`, `Formulario.LimparEstavel` and `Formulario.LimparAceito` |
| Formulario.LimparMantem | src/components/PacienteForm.tsx:69-73 | cleaning keeps every non-blank phone and e-mail, in order, drops every blank one, and changes no other field |
| Formulario.LimparEstavel | src/components/PacienteForm.tsx:69-73 | cleaning is idempotent, and validation reports the same errors for the cleaned data |
| Formulario.LimparAceito | src/components/PacienteForm.tsx:58-73 | once validation has passed, the cleaned lists are non-empty and hold no blank entry |
| Formulario.EfeitosSalvar | src/components/PacienteForm.tsx:75-86 | in create mode, and in edit mode with a record id, the service is called first with the cleaned data; create is called exactly in create mode, and an update is of the record's own id; a call that succeeds is followed by the mode's success alert and the navigation to `/pacientes`; one that throws is followed by the mode's error alert alone; edit mode without a record id only navigates; no effect after the first calls the service |
| Formulario.SalvoEhValido | src/components/PacienteForm.tsx:58-81 | what a submit sends to the service passes validation and has a phone and an e-mail |
| Formulario.PacienteForm.constructor | src/components/PacienteForm.tsx:18-36 | starts with the empty form, `telefones = ['']`, `emails = ['']`, `O+`, zero weight and height, no errors, not loading |
| Formulario.PacienteForm.CarregarEdicao | src/components/PacienteForm.tsx:39-52 | in edit mode with a record, the form becomes the record with an empty list replaced by `['']`; otherwise nothing changes |
| Formulario.PacienteForm.AddTelefone | src/components/PacienteForm.tsx:92-97 | the form becomes the add-phone action's result; nothing else changes |
| Formulario.PacienteForm.RemoveTelefone | src/components/PacienteForm.tsx:99-104 | the form becomes the remove-phone action's result; nothing else changes |
| Formulario.PacienteForm.AddEmail | src/components/PacienteForm.tsx:106-111 | the form becomes the add-e-mail action's result; nothing else changes |
| Formulario.PacienteForm.RemoveEmail | src/components/PacienteForm.tsx:113-118 | the form becomes the remove-e-mail action's result; nothing else changes |
| Formulario.PacienteForm.EditarTelefone | src/components/PacienteForm.tsx:367-371 | the form becomes the edit-phone action's result; nothing else changes |
| Formulario.PacienteForm.EditarEmail | src/components/PacienteForm.tsx:409-413 | the form becomes the edit-e-mail action's result; nothing else changes |
| Formulario.PacienteForm.HandleSubmit | src/components/PacienteForm.tsx:54-90 | with validation errors they are stored and there is no service call; otherwise the errors are cleared, the cleaned data is saved in the mode's way with its alerts and navigation, and `loading` ends false |

## Left out

- Firestore itself is not modelled: `getDocs`, `getDoc`, `addDoc`, `updateDoc` and `Timestamp.now` are foreign calls. The store is a map, and whether a call throws, the new id and the instants are parameters.
- `CriarPaciente` requires a fresh id, standing for `addDoc`'s choice of one.
- `buscarPorCidade`: the query runs inside the store (`where`/`orderBy`), so only its failure message is modelled.
- `calcularIMC` is not part of this model.
- The type declarations in `src/lib/types.ts` are not part of this model. The record shapes follow how the modelled files build and read them.
- Weight and height are reals. JavaScript's double rounding and the text-to-number conversion of the form inputs are not modelled.
- `calcularIdade`: parsing the birth-date string and time zones are left out; the dates arrive as year, month and day.
- Strings are sequences of code points, not UTF-16 units. `toLowerCase` is modelled for ASCII letters only.
- `localeCompare` is modelled as the lexicographic order of the ASCII-lower-cased code points. This is a total preorder, but not ICU collation.
- PacienteServico.ListarPacientes: the snapshot `getDocs` returns is a parameter, required to list every stored document once; its order is not modelled. A document whose `nome` is not text fails the whole listing. In JavaScript, whether `localeCompare` throws depends on which comparisons the engine makes.
- PacienteServico.ListarPacientes: the sort is proved to give a permutation in name order. Stability is not proved; the insertion sort used is stable, but the contract does not say so.
- `validarPaciente` is one function in the source. The model splits it into three methods by field group and chains them.
- Not modelled:
  - the rendering (JSX, styling);
  - the router's navigation itself, beyond the `Navegar` effect;
  - `console` logging;
  - the interleaving of asynchronous handlers.
- `carregarPacientes` after a delete is not awaited. The model runs it to completion in order.
- The row edit handlers copy `formData` from the render rather than from `prev`. Two edits that race within one render are not modelled.
- The form's other field inputs are not modelled. Most are plain setters, but three transform their value. `estado` is upper-cased and limited to two characters. `peso` and `altura` store `parseFloat(value) || 0`, so unparsable input becomes 0, which validation rejects. The model takes the form data as these handlers leave it.
- Formulario.PacienteForm.CarregarEdicao: the edit record is typed here. In the source it is a stored document cast without checks. A record missing `telefones` or `emails` throws in the edit load, and one missing `endereco` throws in `validarPaciente`. Such records are not modelled.
