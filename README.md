# Produtos e categorias: validation, services, models and response envelope

A Dafny model of the core of `web-services-project`, a Flask CRUD backend for product
categories (`Categoria`) and products (`Produto`). The model covers four parts of the backend.

- **Validation.** The four request DTOs and their `validar` methods
  (`src/dto/produto_dto.py`). Each becomes a specification function that returns the list of
  violations. A method builds the same list by appending, as the Python does. Lemmas state
  which message appears for which input, that only the check's own messages appear, and that
  they come in check order.
- **Services.** `ProdutoService` and `CategoriaService` (`src/services/produto_service.py`),
  over a `Database` class that holds the two tables as maps keyed by primary key. Reads are
  functions over the tables. Writes are methods that `modify` the database. Each write states:
  - the whole new state on success;
  - that nothing changes on failure;
  - that the class invariant `Valid` is kept. `Valid` requires unique category names and that
    every product's category exists.
- **Models.** The `StatusProduto` enum, the column defaults and constraints, and both
  `to_dict` serialisers (`src/models/produto.py`).
- **Response envelope.** `ResponseUtils` (`src/utils/response_utils.py`): the dictionary
  handed to `jsonify`, plus the status code.

Modules, leaves first:
- `Wrappers`: `Option`, `Result` and `Arg`, a keyword argument that may be omitted.
- `Text`: Python's `isspace` and `strip`.
- `JsonValue`: the values a JSON body holds.
- `Model`: the enum, the records, the defaults, the table invariants and `to_dict`.
- `Dto`: the four validators.
- `ResponseUtils`: the envelope helpers.
- `Store`: the tables, the failure kinds and the `Database` class.
- `ProdutoService` and `CategoriaService`: the service operations.
- `Cenarios`: two verified client sequences of service calls on a fresh database.

Modelling choices:
- A `ValueError` raised by a service is an `Err` carrying a `Falha`.
- A `TypeError` raised by a validator is `Err(LenDeNone)`.
- The integrity error raised at commit when a NOT NULL column is empty is `Err(ColunaNula)`.
- A failed call leaves both tables unchanged, because the session is rolled back.
- Prices are whole numbers of cents.
- Timestamps are an abstract clock reading `agora`, passed in by the caller.
- Ids come from one counter per table.
- `data_atualizacao` (`onupdate`, `src/models/produto.py:43`) is stamped only when the UPDATE
  carries a net change of some column.
- The name length checks measure the untrimmed name, and the services store the name untrimmed.
- Update and delete on an unknown id return `None` and `False`; the HTTP 404 is produced by the
  routes.
- A create payload without a name makes both create validators raise `TypeError`, because
  `len(None)` is evaluated (see Findings).
- The product-update validator lets the empty status string through; the service then rejects it
  (see Findings).

## Model

| member | source | states |
|---|---|---|
| Text.Strip | web-services-project/src/dto/produto_dto.py:13 | `str.strip()`: the result is empty exactly when the string is all whitespace, and never longer than the input |
| Text.StripBordas | web-services-project/src/dto/produto_dto.py:13 | a non-empty stripped string neither starts nor ends with whitespace |
| Model.StatusValue | web-services-project/src/models/produto.py:5-8 | each enum member's value is one of the three wire strings |
| Model.ParseStatus | web-services-project/src/models/produto.py:5-8 | `StatusProduto(s)` succeeds exactly for the three values, case-sensitively, and gives the member whose value is `s` |
| Model.StatusRoundTrip | web-services-project/src/models/produto.py:5-8 | reading a member's value back gives the same member, and distinct members have distinct values |
| Model.NovoProduto | web-services-project/src/models/produto.py:35-43 | a new product row takes `estoque` 0 and status ATIVO when those keywords are omitted, and the insert time for both timestamps |
| Model.RemoverCategoriaLivrePreservaReferencias | web-services-project/src/models/produto.py:41 | removing a category that no product refers to keeps every product's foreign key valid |
| Model.GravarNomeLivrePreservaUnicidade | web-services-project/src/models/produto.py:14 | writing a category under a name no other row holds keeps names unique |
| Model.CategoriaToDict | web-services-project/src/models/produto.py:24-30 | exactly the keys id, nome, descricao and data_criacao, with the first three copied unchanged |
| Model.ProdutoToDict | web-services-project/src/models/produto.py:48-60 | ten keys. The status is its string value, which parses back to the member. `categoria` is the category's name, or null when it is missing. The price is null exactly when it is 0. Both timestamps are the row's own |
| Model.PrecoZeroSerializadoComoNulo | web-services-project/src/models/produto.py:53 | a product priced 0 is serialised with a null price |
| Model.ProdutoToDictCorrigido | web-services-project/src/models/produto.py:53 | corrected serialiser: the price is always emitted, and every other key is as in `to_dict` |
| Dto.TextoInjetivo | web-services-project/src/dto/produto_dto.py:14-93 | each violation has its own message text, as appended by `validar`: two violations with the same text are the same |
| Dto.Textos | web-services-project/src/dto/produto_dto.py:10-95 | the strings `validar` returns: one text per violation, in the same order |
| Dto.MensagemEmTextos | web-services-project/src/dto/produto_dto.py:10-95 | a message string is in the returned list exactly when its violation is, so each "appears iff" lemma below holds of the strings |
| Dto.TextosInjetivo | web-services-project/src/dto/produto_dto.py:10-95 | two violation lists that read the same as strings are the same list, so the list equalities below hold of the strings |
| Dto.ErrosCriarCategoria | web-services-project/src/dto/produto_dto.py:10-19 | category-create validation raises exactly when the name is missing; otherwise at most two messages |
| Dto.ErrosCriarCategoriaMensagens | web-services-project/src/dto/produto_dto.py:13-17 | "obrigatório" iff the name is all whitespace and "máximo 100" iff the untrimmed length exceeds 100. Both can appear, in that order, and nothing else does |
| Dto.ValidarCriarCategoria | web-services-project/src/dto/produto_dto.py:10-19 | the appending implementation returns exactly the specified list, or raises on a missing name |
| Dto.ErrosCriarCategoriaCorrigido | web-services-project/src/dto/produto_dto.py:13-16 | corrected check: a missing name is reported as "obrigatório", and for a present name the result is the as-written one |
| Dto.CriarCategoriaSemNomeLevanta | web-services-project/src/dto/produto_dto.py:13-16 | a payload without a name raises as written, and the corrected check reports only "obrigatório" |
| Dto.CategoriaValidaCabeNaColuna | web-services-project/src/dto/produto_dto.py:13-17 | a payload that passes the corrected check has a present, non-blank name of at most 100 characters |
| Dto.ErrosAtualizarCategoria | web-services-project/src/dto/produto_dto.py:26-35 | category-update validation gives the empty list when the name is `None`, and at most two messages |
| Dto.ErrosAtualizarCategoriaMensagens | web-services-project/src/dto/produto_dto.py:29-33 | "não pode ser vazio" iff the name is present and all whitespace (the empty string included). "máximo 100" iff it is present and longer than 100. Nothing else, in order |
| Dto.ValidarAtualizarCategoria | web-services-project/src/dto/produto_dto.py:26-35 | the appending implementation returns exactly the specified list |
| Dto.ErrosCriarProduto | web-services-project/src/dto/produto_dto.py:45-63 | product-create validation raises exactly when the name is missing; otherwise at most five messages |
| Dto.ErrosCriarProdutoMensagens | web-services-project/src/dto/produto_dto.py:48-61 | each message iff its condition: blank name; name over 200; price missing or negative (0 accepted); category id missing or at most 0; stock present and negative (`None` accepted) |
| Dto.ErrosCriarProdutoEmOrdem | web-services-project/src/dto/produto_dto.py:45-63 | only the five product-create messages occur, in check order |
| Dto.ValidarCriarProduto | web-services-project/src/dto/produto_dto.py:45-63 | the appending implementation returns exactly the specified list, or raises on a missing name |
| Dto.CriarProdutoNaoParaNoPrimeiroErro | web-services-project/src/dto/produto_dto.py:48-58 | a blank name, a negative price and a category id at most 0 yield all three messages, in check order |
| Dto.ErrosCriarProdutoCorrigido | web-services-project/src/dto/produto_dto.py:48-52 | corrected check: a missing name is reported as "obrigatório", and for a present name the result is the as-written one |
| Dto.CriarProdutoSemNomeLevanta | web-services-project/src/dto/produto_dto.py:48-51 | a payload without a name raises as written, and the corrected check reports it exactly as it reports an empty name |
| Dto.ProdutoValidoCabeNasColunas | web-services-project/src/dto/produto_dto.py:48-61 | a payload that passes the corrected check has a non-blank name of at most 200, a price of at least 0, a category id above 0, and a stock that is missing or at least 0 |
| Dto.ErrosAtualizarProduto | web-services-project/src/dto/produto_dto.py:74-95 | product-update validation gives the empty list for an all-`None` payload, and at most six messages |
| Dto.ErrosAtualizarProdutoMensagens | web-services-project/src/dto/produto_dto.py:77-93 | each present field is checked with the create bounds. A status is rejected iff it is non-empty and outside the three values |
| Dto.ErrosAtualizarProdutoEmOrdem | web-services-project/src/dto/produto_dto.py:74-95 | only the six product-update messages occur, in check order |
| Dto.ValidarAtualizarProduto | web-services-project/src/dto/produto_dto.py:74-95 | the appending implementation returns exactly the specified list |
| Dto.StatusVazioPassaNaValidacao | web-services-project/src/dto/produto_dto.py:92-93 | the empty status passes validation, although `StatusProduto("")` fails |
| Dto.ErrosAtualizarProdutoCorrigido | web-services-project/src/dto/produto_dto.py:92-93 | corrected check: the status message appears iff the status is present and not a member value. Any other payload gets the as-written list |
| Dto.ErrosAtualizarProdutoCorrigidoEmOrdem | web-services-project/src/dto/produto_dto.py:92-93 | the corrected list is still in check order |
| ResponseUtils.Sucesso | web-services-project/src/utils/response_utils.py:7-14 | keys sucesso, mensagem and dados. `sucesso` is true and `dados` is the data unchanged (null when omitted). Default message and code 200 |
| ResponseUtils.Erro | web-services-project/src/utils/response_utils.py:17-24 | keys sucesso, mensagem and detalhes. `sucesso` is false; `detalhes` is `[]` for `None`, the given list otherwise. Default code 400 |
| ResponseUtils.DetalhesVaziosComoAusentes | web-services-project/src/utils/response_utils.py:22 | passing no details and passing an empty list give the same response |
| ResponseUtils.ErroValidacao | web-services-project/src/utils/response_utils.py:27-33 | code 422 and "Dados inválidos"; `detalhes` lists the given messages in order |
| ResponseUtils.NaoEncontrado | web-services-project/src/utils/response_utils.py:36-41 | code 404, "<recurso> não encontrado" ("Recurso" by default), empty details |
| ResponseUtils.ErroInterno | web-services-project/src/utils/response_utils.py:44-49 | code 500 with the message passed through verbatim ("Erro interno do servidor" by default), empty details |
| ResponseUtils.Criado | web-services-project/src/utils/response_utils.py:52-58 | `sucesso` with code 201, carrying the data unchanged |
| ResponseUtils.SemConteudo | web-services-project/src/utils/response_utils.py:61-67 | code 204 and a body with only sucesso (true) and mensagem, with no `dados` |
| ResponseUtils.FlagConcordaComCodigo | web-services-project/src/utils/response_utils.py:7-67 | for every data, message and details argument, with default codes, the success helpers answer 2xx with `sucesso` true and the error helpers answer 4xx/5xx with `sucesso` false |
| Store.Falha.Mensagem | web-services-project/src/services/produto_service.py:35-157 | the `ValueError` text of each business failure; the integrity error has none of its own |
| Store.GravarProdutoPreservaConsistencia | web-services-project/src/models/produto.py:35-41 | writing a product under an existing id and an existing category keeps the tables consistent |
| Store.Database.constructor | web-services-project/src/models/produto.py:10-43 | empty tables, ids starting at 1, invariant established |
| ProdutoService.FiltroStatus | web-services-project/src/services/produto_service.py:15-20 | the status filter applies exactly to a non-empty member value, and any other string is ignored |
| ProdutoService.ListarProdutos | web-services-project/src/services/produto_service.py:8-22 | the result is a sub-table of the products. A product is listed iff it passes each filter that applies. A falsy category id adds no filter |
| ProdutoService.StatusInvalidoIgnorado | web-services-project/src/services/produto_service.py:15-20 | an invalid status lists the same products as no status |
| ProdutoService.SemFiltroListaTudo | web-services-project/src/services/produto_service.py:12-13 | with no status and a falsy category id, every product is listed |
| ProdutoService.FiltrosIndependentes | web-services-project/src/services/produto_service.py:10-22 | both filters together equal the category filter followed by the status filter |
| ProdutoService.ObterProdutoPorId | web-services-project/src/services/produto_service.py:25-27 | the row under that key, or `None` exactly when there is none |
| ProdutoService.FalhaCriarProduto | web-services-project/src/services/produto_service.py:33-47 | fails with "Categoria não encontrada" iff the category id is missing or unknown; otherwise fails at commit iff the name or the price is missing |
| ProdutoService.ValidoSoFalhaPorCategoria | web-services-project/src/services/produto_service.py:33-47 | a payload that passes validation fails only on an unknown category |
| ProdutoService.CriarProduto | web-services-project/src/services/produto_service.py:30-48 | on success exactly one product is added, under a fresh id, with status ATIVO and `estoque = dto.estoque or 0`. Nothing else changes, and on failure nothing changes |
| ProdutoService.FalhaAtualizarProduto | web-services-project/src/services/produto_service.py:69-79 | an unknown new category fails first. Otherwise a status outside the three values fails, "" included |
| ProdutoService.Campos | web-services-project/src/services/produto_service.py:57-79 | each field with a present payload value is overwritten; every other field is kept |
| ProdutoService.Atualizado | web-services-project/src/models/produto.py:43 | the updated row has the columns of `Campos`. It is the old row when no column changed; otherwise `data_atualizacao` is the update time |
| ProdutoService.AtualizacaoIdempotente | web-services-project/src/services/produto_service.py:57-81 | applying the same update twice changes nothing the second time, not even the timestamp |
| ProdutoService.AtualizacaoVaziaNadaMuda | web-services-project/src/services/produto_service.py:57-81 | an all-`None` payload passes validation and leaves the product as it is |
| ProdutoService.StatusVazioRejeitadoPeloServico | web-services-project/src/services/produto_service.py:75-79 | the empty status passes validation, yet the service rejects it with "Status inválido" |
| ProdutoService.StatusValidadoAceitoPeloServico | web-services-project/src/services/produto_service.py:75-79 | a status that passes the corrected validation is never rejected by the service |
| ProdutoService.AtribuirCampos | web-services-project/src/services/produto_service.py:57-67 | the four unconditional assignments, each applied only when its value is present |
| ProdutoService.AtualizarProduto | web-services-project/src/services/produto_service.py:51-82 | an unknown id gives `None` and changes nothing. A failure changes nothing. Otherwise only that product changes, to `Atualizado`, and the invariant is kept |
| ProdutoService.ExcluirProduto | web-services-project/src/services/produto_service.py:85-93 | true with the row removed iff it exists; false and nothing changed otherwise |
| CategoriaService.ListarCategorias | web-services-project/src/services/produto_service.py:98-100 | every row of the category table, as stored |
| CategoriaService.ObterCategoriaPorId | web-services-project/src/services/produto_service.py:103-105 | the row under that key, or `None` exactly when there is none |
| CategoriaService.FalhaCriarCategoria | web-services-project/src/services/produto_service.py:111-121 | a duplicate iff some row has the identical name. A missing name gets past that check and fails at commit |
| CategoriaService.ValidaSoFalhaPorNome | web-services-project/src/services/produto_service.py:111-121 | a payload that passes validation fails only on a duplicate name |
| CategoriaService.CriarCategoria | web-services-project/src/services/produto_service.py:108-122 | on success exactly one category is added, under a fresh id, and names stay unique; on failure nothing changes |
| CategoriaService.FalhaAtualizarCategoria | web-services-project/src/services/produto_service.py:131-138 | fails iff the new name is held by a different id |
| CategoriaService.RenomearParaOMesmoNome | web-services-project/src/services/produto_service.py:133-136 | renaming a category to its current name succeeds |
| CategoriaService.CategoriaAtualizada | web-services-project/src/services/produto_service.py:131-143 | a present name or description replaces the old one, and id and creation time are kept |
| CategoriaService.AtualizarCategoria | web-services-project/src/services/produto_service.py:125-146 | an unknown id gives `None` and changes nothing; a name held by another row fails and changes nothing. Otherwise only that category changes, and the invariant is kept |
| CategoriaService.ExcluirCategoria | web-services-project/src/services/produto_service.py:149-161 | false for an unknown id; a failure while a product refers to the category; otherwise true with only that category removed, references still valid |

## Left out

- HTTP routes, request parsing and the error handlers (`src/routes/produto.py`,
  `src/error_handlers.py`): the glue around the modelled validators, services and envelope.
- `jsonify` and the JSON text. Timestamps are rendered as an abstract `JTime`, not ISO-8601 text.
- Floating point and `Numeric(10, 2)` rounding: prices are whole cents, so a price with more
  than two decimals is not modelled.
- The order of `query.all()` results: listings are maps keyed by id.
- Id reuse: the database engine may be configured to hand out a deleted maximum id again; the
  model's counters never reuse ids.
- Column length limits: the model's store does not enforce `String(100)`/`String(200)`, on the
  assumption that the database engine need not either. The lemmas relate the validators to those limits instead.
- Payload fields of the wrong JSON type (a string price, say): DTO fields are typed.
- Concurrency: two requests racing on the same category name are not modelled. Each call runs
  to completion.
- ResponseUtils.SemConteudo: the model keeps the body built for code 204, which the HTTP layer
  drops on the wire.
- The `__repr__` methods of the models, which only format text for debugging.

## Findings

| source | as written | input that shows it | evidently intended | confidence | as-written member | corrected member |
|---|---|---|---|---|---|---|
| web-services-project/src/dto/produto_dto.py:13-16 | `len(self.nome)` runs even when `nome` is `None`, so validation raises `TypeError` instead of reporting | `CriarCategoriaDTO(nome=None)` | report "Nome da categoria é obrigatório" | not executed | Dto.CriarCategoriaSemNomeLevanta | Dto.ErrosCriarCategoriaCorrigido |
| web-services-project/src/dto/produto_dto.py:48-51 | the same `len(None)` in the product-create check | `CriarProdutoDTO(nome=None, preco=10, categoria_id=1)` | report "Nome do produto é obrigatório" | not executed | Dto.CriarProdutoSemNomeLevanta | Dto.ErrosCriarProdutoCorrigido |
| web-services-project/src/models/produto.py:53 | `float(self.preco) if self.preco else None` tests truthiness, so a price of 0 is serialised as null | a product with `preco = 0`, which validation accepts | emit 0.0 | not executed | Model.PrecoZeroSerializadoComoNulo | Model.ProdutoToDictCorrigido |
| web-services-project/src/dto/produto_dto.py:92-93 | `if self.status and ...` lets `""` pass validation, and the service then rejects it with a 400 | `AtualizarProdutoDTO(status="")` | report "Status deve ser ATIVO, INATIVO ou DESCONTINUADO" as a validation error | not executed | ProdutoService.StatusVazioRejeitadoPeloServico | Dto.ErrosAtualizarProdutoCorrigido |
