# EnvioRapido: shipment creation (`EnviosController.CadastrarEnvio`)

This project models the shipment-creation action of the EnvioRapido API and
proves properties about it. The action handles `POST api/envios`. It runs a
first-failure-wins chain:

1. the model-state check;
2. the caller's id, read from the NameIdentifier claim;
3. validation of the origin CEP (`remetenteCep`);
4. validation of the destination CEP (`destinatarioCep`);
5. a freight quote from the gateway;
6. one `Envio` record added to the database;
7. an `EnvioCadastroResponse` projected from that record.

Each stage either ends the request with a specific result or passes to the next stage.

Files:

- `wrappers.dfy`: `Option`, which stands for C#'s nullable references. `GetOr` is `??`.
- `dominio.dfy`: the request, the record and the response. It also holds the
  collaborators' outcomes: `(ok, msg)` from `ValidarCepAsync` and
  `(ok, msg, valor, prazoDias)` from `CalcularAsync`. `Guid` is a 128-bit
  value whose `Empty` is zero. `DateTime` is a tick count.
- `envios_controller.dfy`: module `Controllers`.
  - `GetUserId` is the helper of the same name.
  - `Cadastro` states one run of the action as a function. It returns the
    result and the ordered interactions (`Chamada`): the identity lookup,
    each CEP validation, the gateway call and the store write.
  - The class `EnviosController` holds the injected collaborators as
    constants. It holds the store (`_db.Envios`) as the field `envios` and
    the history of interactions as the ghost field `chamadas`.
  - `CadastrarEnvio` is the early-return chain, run step by step. It is
    proved to return `Cadastro`'s result, to extend the history with
    `Cadastro`'s interactions, and to append exactly the success-path record
    to `envios`.
  - The object invariant `Valid()` says that the store holds its initial
    contents plus every record written in the history.
- `propriedades.dfy`: module `Propriedades`. It holds the lemmas about `Cadastro`.

## Model

| member | source | states |
|---|---|---|
| `Controllers.GetUserId` | Controllers/EnviosController.cs:115-119 | the id is `Guid.Empty` when the claim is absent or does not parse, and is the parsed Guid otherwise |
| `Propriedades.UserIdVazio` | Controllers/EnviosController.cs:115-119 | the id is Empty exactly when the claim is absent, unparseable, or parses to the all-zero Guid |
| `Controllers.EnviosController.constructor` | Controllers/EnviosController.cs:20-28 | the collaborators are the injected ones; the store starts with the database's contents and the invariant holds |
| `Controllers.EnviosController.CadastrarEnvio` | Controllers/EnviosController.cs:31-113 | the result and interactions are those of `Cadastro`; the store gains exactly the success-path record (`NovoEnvio` of the resolved id, the request, the gateway's answer and the clock) and nothing on any other path; the store invariant is kept |
| `Controllers.ConsultaDe` | Controllers/EnviosController.cs:67-74 | the gateway receives the request's two CEPs and four measurements unchanged |
| `Controllers.NovoEnvio` | Controllers/EnviosController.cs:84-96 | the record is owned by the resolved id, copies the request's CEPs and measurements, carries the quote's `valor`/`prazoDias` and the clock reading |
| `Dominio.Resposta` | Controllers/EnviosController.cs:101-110 | every response field equals the record's field of the same name |
| `Propriedades.RespostaOmiteDonoEData` | Controllers/EnviosController.cs:101-110 | the response does not depend on the record's `UserId` or `CriadoEm` |
| `Propriedades.ModelStateInvalido` | Controllers/EnviosController.cs:33-34 | BadRequest(ModelState) exactly when the model state is invalid, and then no identity lookup, collaborator call or write happens |
| `Propriedades.SemUsuarioNaoAutoriza` | Controllers/EnviosController.cs:37-39 | Unauthorized exactly when the model state is valid and the id is Empty, and then only the identity lookup happened |
| `Propriedades.RemetenteRecusado` | Controllers/EnviosController.cs:42-52 | origin rejected: BadRequest with `campo = "remetenteCep"` and the validator's text, or "CEP de remetente inválido." when it is null; the destination is never validated; no gateway call or write |
| `Propriedades.RemetenteRecusadoIgnoraDestino` | Controllers/EnviosController.cs:42-56 | when the origin is rejected, the run is the same whatever the destination's validity and whatever the gateway would answer |
| `Propriedades.DestinatarioRecusado` | Controllers/EnviosController.cs:55-65 | origin accepted, destination rejected: BadRequest with `campo = "destinatarioCep"` and the validator's text, or "CEP de destinatário inválido." when it is null; no gateway call or write |
| `Propriedades.DestinatarioRecusadoIgnoraGateway` | Controllers/EnviosController.cs:55-74 | when the destination is rejected, the run is the same whatever the gateway would answer |
| `Propriedades.GatewayChamadoUmaVez` | Controllers/EnviosController.cs:67-74 | the gateway is called exactly once when both CEPs are accepted and never otherwise; the call comes right after the two validations and carries the request's values unchanged |
| `Propriedades.FreteRecusado` | Controllers/EnviosController.cs:76-82 | gateway refusal: BadRequest without `campo`, with the gateway's text or "Não foi possível calcular o frete." when it is null; nothing written |
| `Propriedades.SucessoGravaUmEnvio` | Controllers/EnviosController.cs:84-99 | Ok exactly when every stage passes; then exactly one record is written with the resolved id, the request's CEPs and measurements, the quote's price and lead time and the clock reading, and the response is its projection |
| `Propriedades.FalhaNaoGrava` | Controllers/EnviosController.cs:33-82 | every non-Ok run writes nothing |
| `Propriedades.RespostaEcoaPedidoEFrete` | Controllers/EnviosController.cs:101-112 | the Ok response echoes the request's CEPs and measurements and the quote's price and lead time |
| `Propriedades.MensagemVaziaNaoESubstituida` | Controllers/EnviosController.cs:47-51 | the fallback replaces only a null text: an empty text from the validator reaches the caller as an empty message |
| `Propriedades.RastroAcumulado` | Controllers/EnviosController.cs:67-99 | over the controller's whole history, one more run adds exactly one record if it succeeds and none otherwise, and one gateway call if both CEPs were accepted and none otherwise |
| `Propriedades.RepetirCadastro` | Controllers/EnviosController.cs:31-113 | repeating a request gives the same result again; after a failure the store is unchanged |
| `Propriedades.CenarioSucesso` | Controllers/EnviosController.cs:84-112 | origin "01310-100", destination "20040-020", 2.5 kg, 30×20×15 cm, quote 34.90 in 5 days: the confirmation echoes all of these |
| `Propriedades.CenarioCepInexistente` | Controllers/EnviosController.cs:42-52 | origin "00000-000" rejected with "CEP inexistente": that message on `remetenteCep`, no gateway call, no write |
| `Propriedades.CenarioFreteSemMotivo` | Controllers/EnviosController.cs:76-82 | gateway refusal without a reason: the fixed fallback message |

Notes on behaviour:

- Failure messages can be empty. The fallback texts replace only a null
  collaborator text (`??`), so an empty string from a collaborator reaches
  the caller unchanged (`MensagemVaziaNaoESubstituida`). A requirement that
  every failure message be non-empty is not what the code does. The model
  follows the code.
- A NameIdentifier claim that parses to the all-zero Guid is treated like a
  missing one: the result is Unauthorized (`UserIdVazio`).

## Left out

- ASP.NET plumbing is not modelled: `[ApiController]`, `[Route]`, `[Authorize]`, `IActionResult` and HTTP status codes. Results are the `Resultado` datatype, one constructor per `return`.
- Propriedades.ModelStateInvalido: the body of `BadRequest(ModelState)` (the validation error dictionary) is not modelled. `ModelState.IsValid` is a boolean input because the DTO annotations that decide it are not part of this model.
- The implementations of `IEnderecoService.ValidarCepAsync` and `IFreteGateway.CalcularAsync` are not part of this model. They are pure function inputs, so a CEP validated twice gets the same answer both times. A network service need not behave that way.
- The claim lookup (`User.FindFirst`) is an optional string input. `Guid.TryParse` is a function input because its format rules are framework code.
- `DateTime.UtcNow` is an input (`agora`).
- `_db.Envios.Add` followed by `SaveChangesAsync` is one append to `envios`. An exception from `SaveChangesAsync` is not modelled: the controller does not catch it, so it propagates. The database-generated key of `Envio` is not modelled either.
- `async`/`await` is modelled as sequential code. The method has no concurrency of its own.
- The declarations of `Envio`, `EnvioCreateRequest` and `EnvioCadastroResponse` are not part of this model. Their fields come from how the controller uses them. Weight, measurements and price are `real` (C# `decimal`), and `PrazoDias` is `int`. They are passed through without arithmetic.
