# Clientes e notas — a verified model

The application is a desktop back office for a small shop. It keeps two collections:

- customers (`clientes`), each a natural person identified by a CPF or a company identified by a CNPJ;
- purchase notes (`notas`), each for one customer, with product lines, a purchase date, a due date and a status of `pendente` or `paga`.

A note is *overdue* (`vencida`) when it is still pending and its due date has passed. This is never stored; it is worked out whenever a page needs it.

This project models, in Dafny:

- the record store of the back end (`public/database.js`): create, update, delete and search customers; the notes with their customer joined in; the status setter; backup and restore of the whole store;
- the CPF, CNPJ, phone and e-mail validators (`src/utils/validators.js`), with the Receita Federal mod-11 check digits;
- the document and phone display masks (`src/utils/formatters.js`);
- the decision logic of the pages and components that show notes:
  - the home page's customer filter, the overdue-per-customer map and when it searches (`Dashboard.jsx`);
  - the note table's status filter, badge and toggle (`NotaList.jsx`);
  - the note card (`NotaCard.jsx`);
- form validation and line-item editing on the customer and note forms, and the password and backup rules of the settings page.

Modules follow the source files:

| module | file |
|---|---|
| `Records` | the shared record types and rules |
| `Database` | the store |
| `Validators` | the validators |
| `Formatters` | the masks |
| `Dashboard` | the home page |
| `NotaList` | the note table |
| `NotaCard` | the note card |
| `CadastroCliente` | the customer form |
| `CadastroNota` | the note form |
| `Configuracoes` | the settings page |

`Text`, `Sequences` and `Wrappers` hold helpers for strings, sequence filters and options.

Code that changes state is modelled as classes and methods:

- `Database.Database` holds both collections as `seq` fields. Each mutator is a method stating its whole new state.
- The settings page and the home page are classes whose fields are the page's React state.

Loop-based code keeps its loops:

- the CPF and CNPJ sums;
- the overdue map;
- the per-line checks of the note form.

Each of those methods is proved against a specification function or predicate.

The pure code is modelled as functions and lemmas:

- the masks, as leftmost-match models of each regular-expression replace;
- the filters, labels, toggles and totals.

## Model

| member | source | states |
|---|---|---|
| Database.Database.constructor | public/database.js:14-25 | a new store has no customers and no notes |
| Database.Database.GetAllClientes | public/database.js:28-30 | the whole stored list, element by element in insertion order; every listed customer is found by its id, and every customer found by an id is listed; `CreateCliente` extends it by the new record and `DeleteCliente` filters it |
| Database.Database.GetClienteById | public/database.js:32-35 | `None` exactly when no customer has the id; otherwise the first customer with that id |
| Database.Database.CreateCliente | public/database.js:37-50 | appends exactly one customer: the input's fields, the fresh id and the creation time; earlier customers and all notes unchanged; ids stay distinct; the new id now finds that customer; `GetAllClientes` gains exactly that record at the end |
| Database.MergeClienteFields | public/database.js:52-65 | an empty patch leaves a customer as it was; a patch with `dataCadastro` overwrites it; the id is always the argument's |
| Database.MergeClienteIdempotent | public/database.js:60 | applying the same update twice gives the same record as applying it once |
| Database.Database.UpdateCliente | public/database.js:52-65 | fails with "not found" and changes nothing when no customer has the id; otherwise only the first match is replaced by the merge, with the same length and notes unchanged |
| Database.ClientesSem | public/database.js:69 | keeps exactly the customers with another id, in order |
| Database.NotasSemCliente | public/database.js:73 | keeps exactly the notes of other customers, in order |
| Database.NotasDoClienteAposExclusao | public/database.js:67-79 | after the cascade no note of the deleted customer is left |
| Database.Database.DeleteCliente | public/database.js:67-79 | removes the customer and every one of its notes, keeps the others in order, and returns true even when the id was absent; afterwards the id finds no customer and no note |
| Records.FilterClientes | public/database.js:89-92 | in-order subsequence of the customers whose lower-cased name contains the lower-cased term or whose document contains the raw term; each match kept with its multiplicity |
| Records.FilterClientesEmpty | public/database.js:89-92 | the empty term matches every customer |
| Database.Database.SearchClientes | public/database.js:81-93 | the empty term returns the whole list; any other term, whitespace included, returns the filtered subsequence |
| Database.Anotar | public/database.js:101-108 | the joined note holds the note unchanged; the name and document are absent exactly when no customer matches, and come from the first matching customer otherwise |
| Database.Database.GetAllNotas | public/database.js:96-109 | one joined entry per stored note, same order |
| Database.Database.GetNotaById | public/database.js:111-127 | `None` exactly when no note has the id; otherwise the first such note, joined |
| Records.NotasDoCliente | public/database.js:129-132 | exactly the notes of that customer, in store order |
| Database.Database.GetNotasByCliente | public/database.js:129-132 | exactly the notes of that customer, in store order |
| Database.Normalizar | public/database.js:138-141 | a list is serialised, text is kept as it is, and nothing stored is a raw list |
| Database.NormalizarIdempotent | public/database.js:138-141 | normalising twice is normalising once |
| Database.Database.CreateNota | public/database.js:134-153 | appends exactly one note with the fresh id and serialised lines; the customer is not checked; ids stay distinct |
| Database.MergeNotaProdutos | public/database.js:163-169 | an update without lines leaves the field undefined; one with a list stores it serialised; the id is the argument's |
| Database.Database.UpdateNota | public/database.js:155-174 | fails and changes nothing when no note has the id; otherwise only the first match is replaced by the merge; lines are never stored raw |
| Database.NotasSem | public/database.js:178 | keeps exactly the notes with another id, in order |
| Database.Database.DeleteNota | public/database.js:176-182 | removes every note with the id, leaves customers alone, returns true; afterwards the id finds nothing |
| Database.Database.UpdateNotaStatus | public/database.js:184-196 | fails and changes nothing when no note has the id; otherwise only that note's status changes, to any value given |
| Database.Database.CreateBackup | public/database.js:199-218 | the text written is the serialised snapshot of both collections; the store does not change |
| Database.Restaurar | public/database.js:220-237 | success is reported exactly when the file was read and parsed; a parsed backup with neither collection reports success and changes nothing |
| Database.RestaurarFalhaNaoMuda | public/database.js:220-237 | a file that cannot be read or parsed changes nothing and reports failure |
| Database.RestaurarIndependente | public/database.js:224-232 | each collection is replaced only when the backup carries it, independently; an empty array still replaces |
| Database.RestoreOfBackup | public/database.js:199-237 | restoring a backup the store wrote gives back exactly the saved collections |
| Database.Database.RestoreBackup | public/database.js:220-237 | the new contents and the result are those of `Restaurar` on the parsed file; on failure nothing changes |
| Validators.ValidarCPF | src/utils/validators.js:6-40 | true exactly when the digits are 11, not one repeated digit, and both check digits match |
| Validators.CpfRuleIsMod11 | src/utils/validators.js:21-37 | the CPF rule `(sum·10) mod 11`, with 10 mapped to 0, is the usual mod-11 check digit |
| Validators.CpfCheckDigitsDetermined | src/utils/validators.js:20-39 | the first nine digits fix the last two: changing only the check digits of a valid CPF makes it invalid |
| Validators.RepeatedDigitsPassCpfChecksum | src/utils/validators.js:14-39 | eleven copies of one digit pass both check-digit tests, so only the repeated-digit test rejects them |
| Validators.CnpjPosMatchesTables | src/utils/validators.js:62-82 | the post-decremented `pos` counter that wraps to 9 gives the weights 5,4,3,2,9..2 and 6,5,4,3,2,9..2 |
| Validators.ValidarCNPJ | src/utils/validators.js:47-88 | true exactly when the digits are 14, not one repeated digit, and both weighted mod-11 check digits match |
| Validators.CnpjCheckDigitsDetermined | src/utils/validators.js:58-87 | the first twelve digits fix the last two: changing only the check digits of a valid CNPJ makes it invalid |
| Validators.ValidarEmail | src/utils/validators.js:95-98 | true exactly when the address matches the e-mail regular expression: non-empty local part, `@`, non-empty domain, `.`, at least two letters to the end |
| Formatters.FormatarDocumento | src/utils/formatters.js:34-54 | the masks only insert punctuation: the digits of the output are the digits of the input; an empty document gives `''` |
| Formatters.MascaraCpfOnze | src/utils/formatters.js:42-45 | 11 digits masked as `ddd.ddd.ddd-dd` |
| Formatters.FormatarDocumentoOnzeDigitos | src/utils/formatters.js:40-45 | any document with 11 digits, whatever the `tipo`, is shown as `ddd.ddd.ddd-dd` |
| Formatters.MascaraCnpjQuatorze | src/utils/formatters.js:48-52 | 14 digits masked as `dd.ddd.ddd/dddd-dd` |
| Formatters.FormatarDocumentoQuatorzeDigitos | src/utils/formatters.js:46-52 | 14 digits and a `tipo` other than `fisica` are shown as `dd.ddd.ddd/dddd-dd` |
| Formatters.FormatarDocumentoKeepsValidity | src/utils/formatters.js:34-54 | formatting neither makes nor breaks a valid CPF or CNPJ |
| Validators.ValidarTelefone | src/utils/validators.js:105-111 | valid exactly when the string, non-digits removed, has 10 or 11 digits; so a valid phone has at least 10 characters, and a digits-only string is valid exactly when it has 10 or 11 of them |
| Formatters.FormatarTelefone | src/utils/formatters.js:61-80 | the phone masks only insert punctuation: the digits of the output are the digits of the input; an empty phone gives `''` |
| Formatters.FormatarTelefoneOnzeDigitos | src/utils/formatters.js:67-71 | 11 digits are shown as `(dd) ddddd-dddd` |
| Formatters.FormatarTelefoneDezDigitos | src/utils/formatters.js:72-76 | 10 digits are shown as `(dd) dddd-dddd` |
| Formatters.FormatarTelefoneOutros | src/utils/formatters.js:62-79 | any other digit count gives the bare digits, and an empty phone gives `''` |
| Formatters.ValidarTelefoneIffMascara | src/utils/formatters.js:61-80 | a phone passes `validarTelefone` exactly when it is shown with a mask |
| Dashboard.FiltrarClientes | src/pages/Dashboard.jsx:21-32 | a blank trimmed term shows every customer in order; any other shows the search filter's subsequence |
| Dashboard.VencidasDoCliente | src/pages/Dashboard.jsx:40-51 | exactly that customer's overdue notes, in order |
| Dashboard.NotasVencidasPorCliente | src/pages/Dashboard.jsx:38-51 | a customer is a key exactly when one of its notes is overdue; its list is its overdue notes in order, never empty and never holding a paid note |
| Dashboard.Dashboard.EfeitoFiltro | src/pages/Dashboard.jsx:21-32 | the filtered list becomes the filter of the customers by the current term |
| Dashboard.Dashboard.EfeitoVencidas | src/pages/Dashboard.jsx:34-55 | while loading or with no notes the old map is kept; otherwise it becomes the exact overdue map |
| Dashboard.Dashboard.constructor | src/pages/Dashboard.jsx:15-19 | the page starts with an empty term, no filtered customers, no overdue map and no search sent |
| Dashboard.Dashboard.HandleSearch | src/pages/Dashboard.jsx:57-66 | stores the term; searches with it when the trimmed term is 3 or more UTF-16 code units long, as `.length` counts, with `''` when blank, and not at all for 1 or 2 |
| Records.EstaVencidaRegras | src/components/nota/NotaList.jsx:72 | the overdue rule shared with NotaCard.jsx:14 and Dashboard.jsx:41-44: a paid note is never overdue, a pending one is overdue exactly when its due date is past, and it stays overdue as time goes on |
| NotaList.FiltrarNotas | src/components/nota/NotaList.jsx:16-20 | the in-order subsequence of the notes that pass the filter, each with its multiplicity |
| NotaList.FiltrarNotasCasos | src/components/nota/NotaList.jsx:16-20 | `pagas` keeps only paid notes, `pendentes` only pending ones, any other value keeps all |
| NotaList.StatusLabel | src/components/nota/NotaList.jsx:95 | `Paga` exactly when paid, `Vencida` exactly when not paid and overdue, `Pendente` otherwise |
| NotaList.ToggleTarget | src/components/nota/NotaList.jsx:102-117 | `paga` exactly for a pending note, `pendente` for every other status |
| NotaList.ToggleTargetFlips | src/components/nota/NotaList.jsx:102-117 | on the two known statuses the toggle flips, and toggling twice returns the status |
| NotaList.Render | src/components/nota/NotaList.jsx:22-120 | the empty message exactly when there are no notes, whatever the filter; otherwise one row per filtered note with its overdue mark and badge; a row has the toggle exactly when `onUpdateStatus` was passed, and it then targets the table's toggle status |
| NotaList.RenderFiltroVazio | src/components/nota/NotaList.jsx:16-28 | when notes exist but none passes the filter, an empty table is shown, not the message |
| NotaCard.ProdutosExibidos | src/components/nota/NotaCard.jsx:16-25 | stored text is parsed; a parse failure or a non-array shows no lines; a list shows as it is |
| NotaCard.ProdutosExibidosRoundTrip | src/components/nota/NotaCard.jsx:16-25 | lines the store serialised with a codec that reads them back are shown exactly |
| NotaCard.ShortId | src/components/nota/NotaCard.jsx:36 | the first eight characters of the id, upper-cased; this matches the source for uuid ids, which are ASCII, where characters, UTF-16 code units and ASCII case mapping coincide |
| NotaCard.ToggleTarget | src/components/nota/NotaCard.jsx:127 | `pendente` exactly for a paid note, `paga` for every other status |
| NotaCard.TogglesAgreeOnKnownStatuses | src/components/nota/NotaCard.jsx:127 | the card and the table agree on `paga` and `pendente` and disagree on every other status |
| NotaCard.Render | src/components/nota/NotaCard.jsx:8-136 | nothing for a missing note; otherwise the short-id title, the customer name or `''`, the overdue mark, the table's badge and the parsed lines; the button exists exactly when `onUpdateStatus` was passed, and it then targets the card's toggle status |
| CadastroCliente.CheckNome | src/pages/CadastroCliente.jsx:70-72 | a name error exactly when the trimmed name is empty |
| CadastroCliente.CheckDocumento | src/pages/CadastroCliente.jsx:74-86 | a blank document gets the required message and skips the counts; otherwise 11 digits for `fisica` and 14 for `juridica`; no other key changes |
| CadastroCliente.CheckTelefone | src/pages/CadastroCliente.jsx:88-90 | a given phone must have 10 or 11 digits; a blank one is accepted; no other key changes |
| CadastroCliente.ValidateForm | src/pages/CadastroCliente.jsx:66-94 | one message per failing field, exactly; the result is true exactly when no key was added, which is when the form is valid |
| CadastroCliente.RepeatedCpfPassesForm | src/pages/CadastroCliente.jsx:78-80 | eleven copies of one digit pass the form's CPF rule though `validarCPF` rejects them |
| CadastroCliente.ValidDocumentsPassForm | src/pages/CadastroCliente.jsx:74-86 | every CPF and CNPJ the validators accept passes the form's document rule |
| CadastroCliente.TelefoneAceitoIsValidarTelefone | src/pages/CadastroCliente.jsx:88-90 | the form's phone rule is `validarTelefone` for a given phone and nothing for a blank one |
| CadastroNota.AddItemError | src/pages/CadastroNota.jsx:180-191 | creates the per-line map if needed and adds one keyed message; no other key changes |
| CadastroNota.CheckCampo | src/pages/CadastroNota.jsx:179-192 | one field of one line checked: the per-line messages stay exactly the failing fields among the checks done |
| CadastroNota.ValidarItens | src/pages/CadastroNota.jsx:178-193 | the per-line messages are exactly the failing fields of all lines, each with its message; the entry exists exactly when some line fails |
| CadastroNota.ValidateForm | src/pages/CadastroNota.jsx:160-198 | an error per missing customer or date, the "at least one product" error for an empty list, otherwise per-line errors exactly; true exactly when no key was added |
| CadastroNota.AdicionarProduto | src/pages/CadastroNota.jsx:142-147 | appends the empty line and leaves earlier lines unchanged |
| CadastroNota.AdicionarProdutoInvalida | src/pages/CadastroNota.jsx:142-147 | a just-added line makes the form invalid until it is filled in |
| CadastroNota.SpliceStart | src/pages/CadastroNota.jsx:151 | `splice`'s start index: an index within the list is used as it is; a negative one counts from the end |
| CadastroNota.RemoverProduto | src/pages/CadastroNota.jsx:149-157 | removes exactly line `i` and keeps the others in order; an index past the end changes nothing |
| CadastroNota.RemoverProdutoNaoEsvazia | src/pages/CadastroNota.jsx:149-157 | removing from a list of two or more lines never empties it |
| CadastroNota.HandleProdutoChange | src/pages/CadastroNota.jsx:126-140 | only the named field of the named line changes; an unparsable number becomes 0 |
| CadastroNota.TotalAppend | src/pages/CadastroNota.jsx:93-95 | the total of two lists is the sum of their totals |
| CadastroNota.TotalAdicionar | src/pages/CadastroNota.jsx:91-101 | adding the empty line leaves the total unchanged |
| CadastroNota.TotalRemover | src/pages/CadastroNota.jsx:91-101 | removing a line lowers the total by that line's subtotal |
| CadastroNota.TotalChange | src/pages/CadastroNota.jsx:91-101 | editing a line changes the total by the difference of its subtotals |
| CadastroNota.TotalNaoNegativo | src/pages/CadastroNota.jsx:93-95 | lines with non-negative subtotals give a non-negative total |
| CadastroNota.TotalPositivo | src/pages/CadastroNota.jsx:93-95 | a non-empty list of valid lines has a positive total |
| CadastroNota.CalcularValorTotal | src/pages/CadastroNota.jsx:91-101 | `valor` becomes the sum of value × quantity over the lines, and nothing else changes |
| CadastroNota.ValidoTemValorPositivo | src/pages/CadastroNota.jsx:91-198 | a form that passes validation has a positive computed total, over real numbers; in doubles a product such as `1e-200 * 1e-200` underflows to 0 |
| Configuracoes.ErroDeValidacao | src/pages/Configuracoes.jsx:34-42 | no message exactly when the passwords match and are at least 6 UTF-16 code units long, as `.length` counts; a mismatch's message takes precedence over the length's |
| Configuracoes.SenhaForaDoBmp | src/pages/Configuracoes.jsx:39-42 | three emoji, six code units, pass the length rule, while five ASCII letters do not |
| Configuracoes.Configuracoes.constructor | src/pages/Configuracoes.jsx:16-21 | the page starts with empty fields, no messages and nothing sent |
| Configuracoes.Configuracoes.SetSenha | src/pages/Configuracoes.jsx:136-139 | stores the typed text and clears the error |
| Configuracoes.Configuracoes.SetConfirmaSenha | src/pages/Configuracoes.jsx:149-152 | stores the typed text and clears the error |
| Configuracoes.Configuracoes.HandleChangeSenha | src/pages/Configuracoes.jsx:30-57 | a rejected password sets its message and sends nothing; an accepted one is sent, then success clears both fields and the error, a throw sets the change error; loading ends off |
| Configuracoes.Configuracoes.HandleCreateBackup | src/pages/Configuracoes.jsx:60-73 | the status becomes the success line with the path, or the error line on a throw; loading ends off |
| Configuracoes.Configuracoes.HandleRestoreBackup | src/pages/Configuracoes.jsx:82-98 | no file changes nothing; otherwise the path is restored, success sets its line and leaves loading on, a throw sets the error line and turns loading off |
| Configuracoes.CorStatus | src/pages/Configuracoes.jsx:196-197 | no line for an empty status; red exactly when it contains `Erro`; green exactly when it does not |
| Configuracoes.BackupCriadoCor | src/pages/Configuracoes.jsx:66-197 | the success line after a backup is red exactly when the path contains `Erro` |
| Configuracoes.MensagensDeErroCor | src/pages/Configuracoes.jsx:69-197 | both backup failure lines are shown in red |

## Left out

- Persistence: the electron-store instances (public/database.js:1-11) are not modelled. Each store is a `seq` field. `initDatabase` is modelled only by the constructor, for stores that have neither collection yet.
- The file system in `createBackup`: the directory creation, the file write and the timestamped file name are left out. `CreateBackup` returns the text that would be written.
- On restore, a file that cannot be read is the `None` argument.
- The restore file picker (src/pages/Configuracoes.jsx:76-80) admits only `.sqlite` files, while `createBackup` names its file `backup-<date>.json` (public/database.js:207-208). A backup the application just wrote is therefore not offered by that dialog. File selection is not modelled; `RestoreOfBackup` is about the file's contents.
- `uuidv4`: the fresh id is a parameter, required to differ from the stored ids.
- The creation time is a parameter too.
- `JSON.stringify` and `JSON.parse` are an abstract pair of functions. No JSON round trip is claimed except under a stated assumption about the pair.
- Dates and clocks: `new Date()`, date-fns and ISO strings are not modelled. Dates are integer timestamps, and "now" is an input.
- The note form's date fields are strings, and only their emptiness matters.
- Floating point: amounts are reals. `parseFloat(v) || 0` is an abstract parser returning `None` where the result is `NaN` or 0.
- The `Intl` currency and date formatters (formatarMoeda, formatarData) are left out; they are display only.
- The IPC layer (public/electron.js, public/preload.js, src/services/dbService.js) is left out; it only passes calls through. This includes the password compare in the main process.
- The React contexts (NotaContext, ClienteContext, ConfigContext, AuthContext) are left out: their toasts, `localStorage`, navigation and `window.location.reload`.
- The page methods take the outcome of each awaited context call as a parameter.
- `changePassword` in AuthContext.jsx:52-62 catches its own errors and never throws. Because of that, the error branch of `HandleChangeSenha` is kept only for the page's own code.
- Configuracoes.Configuracoes.HandleCreateBackup: `createBackup` in ConfigContext.jsx:47-57 catches its own errors and returns `null`, so the page's error branch never runs with that context. A failed backup then shows `Backup criado com sucesso: null` in green. The model keeps the page's own branches and does not compose it with the context.
- Configuracoes.Configuracoes.HandleRestoreBackup: `restoreBackup` in ConfigContext.jsx:60-77 catches its own errors and returns `false`, so the page's error branch never runs with that context. A failed restore then shows `Backup restaurado com sucesso`, leaves loading on with the buttons disabled, and no reload follows. The model keeps the page's own branches and does not compose it with the context.
- PerfilCliente.jsx, App.jsx, the login pages and the presentational components are not part of this model.
- `ToLower` maps only ASCII and Latin-1 capital letters; JavaScript's full Unicode case mapping is not modelled.
- `ToUpper` maps only ASCII letters; `NotaCard.ShortId` relies on ids being uuids.
- Lengths in the password and search rules count UTF-16 code units, as JavaScript does. Elsewhere `|s|` counts characters; the other length checks apply to digit strings, where the two agree.
- Object spreads are modelled over the fields the records declare. Extra keys a caller adds are not kept, and a field explicitly set to `undefined` counts as absent.
- A backup field that is truthy but not an array is not modelled: a parsed backup carries a list or nothing.
- `handleProdutoChange` assigns into the line object that the old and new arrays share. The model builds a new sequence, so the aliasing of the previous state's line is not captured.
- The note form's error keys `${index}-campo` are modelled as a pair of index and field.
- The handlers that clear errors while typing in the forms (`handleChange`, `handleClienteChange`) are not modelled.
- The green messages of the backup handlers (`Gerando backup...`, `Restaurando backup...`, `Backup restaurado com sucesso`) are not proved green; only the failure lines and the success line with a path are.
- The store accepts whatever its callers send, as the code does:
  - empty names and documents;
  - any status value;
  - a `clienteId` that matches no customer;
  - a `dataCadastro` in an update, which overwrites the stored one.

  The store does not check these fields, and nothing stops `dataCadastro` from being overwritten.
- The customer form checks only digit counts, not CPF or CNPJ check digits. `CadastroCliente.RepeatedCpfPassesForm` shows a document the validators reject that the form accepts.
- The table's toggle and the card's toggle disagree on statuses other than `paga` and `pendente`. Each is modelled as written.
- Configuracoes.Configuracoes.HandleChangeSenha: records the password sent instead of modelling the context's store write.
- CadastroNota.RemoverProduto: for a negative index, states only that one line is removed, not which one.
