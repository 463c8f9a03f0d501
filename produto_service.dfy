/** `ProdutoService`: the product queries and the product create, update and delete operations,
    over the two tables of a `Database`. */
module ProdutoService {
  import opened Wrappers
  import opened Model
  import opened Dto
  import opened Store

  // ----- listar_produtos -----

  /** `if categoria_id:`: the category filter applies only to a present, non-zero id. */
  predicate FiltraCategoria(categoriaId: Option<int>) {
    categoriaId.Some? && categoriaId.value != 0
  }

  /** `if status:` followed by `StatusProduto(status)`: the status filter applies only to a
      non-empty string naming a member; any other string is swallowed and filters nothing. */
  function FiltroStatus(status: Option<string>): (f: Option<Status>)
    ensures f.Some? <==> status.Some? && status.value in StatusValues
    ensures f.Some? ==> StatusValue(f.value) == status.value
  {
    if status.Some? && status.value != "" then ParseStatus(status.value) else None
  }

  /** A product passes the filters that apply. */
  predicate Passa(p: Produto, categoriaId: Option<int>, status: Option<string>) {
    && (FiltraCategoria(categoriaId) ==> p.categoriaId == categoriaId.value)
    && (FiltroStatus(status).Some? ==> p.status == FiltroStatus(status).value)
  }

  /** `listar_produtos(categoria_id, status)`: the rows of the product table that pass the
      filters, keyed by id. The rows are returned as stored. */
  function ListarProdutos(produtos: map<int, Produto>, categoriaId: Option<int>, status: Option<string>): (r: map<int, Produto>)
    ensures forall id :: id in r ==> id in produtos && r[id] == produtos[id]
    ensures forall id :: id in produtos && Passa(produtos[id], categoriaId, None) && Passa(produtos[id], None, status) ==> id in r
    ensures forall id :: id in r ==> Passa(r[id], categoriaId, None) && Passa(r[id], None, status)
  {
    map id | id in produtos && Passa(produtos[id], categoriaId, status) :: produtos[id]
  }

  /** A status that is not one of the three values lists the same products as no status. */
  lemma StatusInvalidoIgnorado(produtos: map<int, Produto>, categoriaId: Option<int>, status: string)
    requires status !in StatusValues
    ensures ListarProdutos(produtos, categoriaId, Some(status)) == ListarProdutos(produtos, categoriaId, None)
  {
    assert FiltroStatus(Some(status)) == None;
  }

  /** Without filters, and with a falsy category id, every product is listed. */
  lemma SemFiltroListaTudo(produtos: map<int, Produto>, categoriaId: Option<int>)
    requires !FiltraCategoria(categoriaId)
    ensures ListarProdutos(produtos, categoriaId, None) == produtos
  {
    var r := ListarProdutos(produtos, categoriaId, None);
    assert forall id :: id in produtos ==> Passa(produtos[id], categoriaId, None) && Passa(produtos[id], None, None);
    assert r.Keys == produtos.Keys;
  }

  /** The two filters are independent: filtering by both is filtering by category, then by status. */
  lemma FiltrosIndependentes(produtos: map<int, Produto>, categoriaId: Option<int>, status: Option<string>)
    ensures ListarProdutos(produtos, categoriaId, status)
         == ListarProdutos(ListarProdutos(produtos, categoriaId, None), None, status)
  {
    var porCategoria := ListarProdutos(produtos, categoriaId, None);
    assert forall id :: id in porCategoria ==> Passa(porCategoria[id], categoriaId, None);
  }

  // ----- obter_produto_por_id -----

  /** `obter_produto_por_id`: the row under that primary key, or `None`. */
  function ObterProdutoPorId(produtos: map<int, Produto>, id: int): (r: Option<Produto>)
    ensures r.Some? <==> id in produtos
    ensures r.Some? ==> r.value == produtos[id] && r.value in produtos.Values
  {
    if id in produtos then Some(produtos[id]) else None
  }

  // ----- criar_produto -----

  /** Why `criar_produto` fails, if it does. The category lookup comes first, and
      `Categoria.query.get(None)` finds nothing; past it, the commit fails when `nome` or
      `preco`, both NOT NULL, is missing. */
  function FalhaCriarProduto(categorias: map<int, Categoria>, dto: CriarProdutoDto): (f: Option<Falha>)
    ensures f == Some(CategoriaNaoEncontrada) <==> dto.categoriaId.None? || dto.categoriaId.value !in categorias
    ensures f == Some(ColunaNula) <==> dto.categoriaId.Some? && dto.categoriaId.value in categorias && (dto.nome.None? || dto.preco.None?)
    ensures f.None? ==> dto.nome.Some? && dto.preco.Some? && dto.categoriaId.Some? && dto.categoriaId.value in categorias
  {
    if dto.categoriaId.None? || dto.categoriaId.value !in categorias then Some(CategoriaNaoEncontrada)
    else if dto.nome.None? || dto.preco.None? then Some(ColunaNula)
    else None
  }

  /** A payload that passes validation can only fail on an unknown category. */
  lemma ValidoSoFalhaPorCategoria(categorias: map<int, Categoria>, dto: CriarProdutoDto)
    requires ErrosCriarProduto(dto) == Ok([])
    ensures FalhaCriarProduto(categorias, dto) != Some(ColunaNula)
    ensures dto.categoriaId.Some? && (dto.categoriaId.value in categorias <==> FalhaCriarProduto(categorias, dto).None?)
  {
    ErrosCriarProdutoMensagens(dto);
  }

  /** `criar_produto`: on success exactly one product is added, under a fresh id, with status
      ATIVO and `estoque = dto.estoque or 0`, and nothing else changes; on failure nothing changes. */
  method CriarProduto(db: Database, dto: CriarProdutoDto, agora: Timestamp) returns (r: Result<Produto, Falha>)
    requires db.Valid()
    modifies db
    ensures db.Valid()
    ensures r.Err? <==> FalhaCriarProduto(old(db.categorias), dto).Some?
    ensures r.Err? ==> Some(r.error) == FalhaCriarProduto(old(db.categorias), dto) && unchanged(db)
    ensures r.Ok? ==>
      && r.value == NovoProduto(old(db.proximoIdProduto), dto.nome.value, dto.descricao, dto.preco.value,
                                Given(dto.estoque.GetOr(0)), Given(Ativo), dto.categoriaId.value, agora)
      && r.value.id !in old(db.produtos)
      && db.produtos == old(db.produtos)[r.value.id := r.value]
      && db.categorias == old(db.categorias)
      && db.proximoIdProduto == old(db.proximoIdProduto) + 1
      && db.proximoIdCategoria == old(db.proximoIdCategoria)
  {
    if dto.categoriaId.None? || dto.categoriaId.value !in db.categorias {
      return Err(CategoriaNaoEncontrada);
    }
    if dto.nome.None? || dto.preco.None? {
      return Err(ColunaNula);
    }
    var p := NovoProduto(db.proximoIdProduto, dto.nome.value, dto.descricao, dto.preco.value,
                         Given(dto.estoque.GetOr(0)), Given(Ativo), dto.categoriaId.value, agora);
    db.produtos := db.produtos[p.id := p];
    db.proximoIdProduto := db.proximoIdProduto + 1;
    r := Ok(p);
  }

  // ----- atualizar_produto -----

  /** Why `atualizar_produto` fails on an existing product, if it does: an unknown new category is
      checked first, then a status that is not one of the three values, the empty string included. */
  function FalhaAtualizarProduto(categorias: map<int, Categoria>, dto: AtualizarProdutoDto): (f: Option<Falha>)
    ensures f == Some(CategoriaNaoEncontrada) <==> dto.categoriaId.Some? && dto.categoriaId.value !in categorias
    ensures f == Some(StatusInvalido) <==>
      (dto.categoriaId.None? || dto.categoriaId.value in categorias) && dto.status.Some? && dto.status.value !in StatusValues
    ensures f.None? || f == Some(CategoriaNaoEncontrada) || f == Some(StatusInvalido)
  {
    if dto.categoriaId.Some? && dto.categoriaId.value !in categorias then Some(CategoriaNaoEncontrada)
    else if dto.status.Some? && ParseStatus(dto.status.value).None? then Some(StatusInvalido)
    else None
  }

  /** Two versions of a product agree on every column except `data_atualizacao`. */
  predicate MesmasColunas(p: Produto, q: Produto) {
    p.(dataAtualizacao := 0) == q.(dataAtualizacao := 0)
  }

  /** The session's copy after the assignments of `atualizar_produto`: each field whose payload
      value is present is overwritten and every other field is kept. */
  function Campos(p: Produto, dto: AtualizarProdutoDto): (c: Produto)
    requires dto.status.Some? ==> dto.status.value in StatusValues
    ensures c.id == p.id && c.dataCriacao == p.dataCriacao && c.dataAtualizacao == p.dataAtualizacao
    ensures c.nome == dto.nome.GetOr(p.nome)
    ensures c.descricao == (if dto.descricao.Some? then dto.descricao else p.descricao)
    ensures c.preco == dto.preco.GetOr(p.preco)
    ensures c.estoque == dto.estoque.GetOr(p.estoque)
    ensures c.categoriaId == dto.categoriaId.GetOr(p.categoriaId)
    ensures dto.status.Some? ==> StatusValue(c.status) == dto.status.value
    ensures dto.status.None? ==> c.status == p.status
  {
    p.(nome := dto.nome.GetOr(p.nome),
       descricao := if dto.descricao.Some? then dto.descricao else p.descricao,
       preco := dto.preco.GetOr(p.preco),
       estoque := dto.estoque.GetOr(p.estoque),
       categoriaId := dto.categoriaId.GetOr(p.categoriaId),
       status := if dto.status.Some? then ParseStatus(dto.status.value).value else p.status)
  }

  /** The product after a successful update: its columns are those of `Campos`, and
      `data_atualizacao` is stamped only when some column actually changed, since the `onupdate`
      default fires only with an UPDATE. */
  function Atualizado(p: Produto, dto: AtualizarProdutoDto, agora: Timestamp): (q: Produto)
    requires dto.status.Some? ==> dto.status.value in StatusValues
    ensures MesmasColunas(q, Campos(p, dto))
    ensures MesmasColunas(p, q) ==> q == p
    ensures !MesmasColunas(p, q) ==> q.dataAtualizacao == agora
  {
    var c := Campos(p, dto);
    if MesmasColunas(p, c) then p else c.(dataAtualizacao := agora)
  }

  /** Applying the same update twice changes nothing the second time, not even the timestamp. */
  lemma AtualizacaoIdempotente(p: Produto, dto: AtualizarProdutoDto, t1: Timestamp, t2: Timestamp)
    requires dto.status.Some? ==> dto.status.value in StatusValues
    ensures Atualizado(Atualizado(p, dto, t1), dto, t2) == Atualizado(p, dto, t1)
  {
    var q := Atualizado(p, dto, t1);
    if dto.status.Some? {
      StatusRoundTrip(q.status, q.status);
      assert ParseStatus(dto.status.value) == Some(q.status);
    }
    assert MesmasColunas(q, Atualizado(q, dto, t2));
  }

  /** An update payload with every field `None` passes validation and leaves the product as it is. */
  lemma AtualizacaoVaziaNadaMuda(p: Produto, dto: AtualizarProdutoDto, agora: Timestamp)
    requires AtualizacaoVazia(dto)
    ensures ErrosAtualizarProduto(dto) == []
    ensures Atualizado(p, dto, agora) == p
  {
  }

  /** The empty status passes validation, yet the service rejects it with "Status inválido". */
  lemma StatusVazioRejeitadoPeloServico(categorias: map<int, Categoria>, dto: AtualizarProdutoDto)
    requires dto.status == Some("")
    requires dto.categoriaId.None? || dto.categoriaId.value in categorias
    ensures StatusForaDoEnum !in ErrosAtualizarProduto(dto)
    ensures FalhaAtualizarProduto(categorias, dto) == Some(StatusInvalido)
  {
    StatusVazioPassaNaValidacao(dto);
  }

  /** With the corrected validation, a payload whose status passes is never rejected by the
      service for its status. */
  lemma StatusValidadoAceitoPeloServico(categorias: map<int, Categoria>, dto: AtualizarProdutoDto)
    requires StatusForaDoEnum !in ErrosAtualizarProdutoCorrigido(dto)
    ensures FalhaAtualizarProduto(categorias, dto) != Some(StatusInvalido)
  {
  }

  /** The first four assignments of `atualizar_produto` to the session's copy: `nome`,
      `descricao`, `preco` and `estoque`, each only when its payload value is present. */
  method AtribuirCampos(antes: Produto, dto: AtualizarProdutoDto) returns (p: Produto)
    ensures p == antes.(nome := dto.nome.GetOr(antes.nome),
                        descricao := if dto.descricao.Some? then dto.descricao else antes.descricao,
                        preco := dto.preco.GetOr(antes.preco),
                        estoque := dto.estoque.GetOr(antes.estoque))
  {
    p := antes;
    if dto.nome.Some? {
      p := p.(nome := dto.nome.value);
    }
    if dto.descricao.Some? {
      p := p.(descricao := dto.descricao);
    }
    if dto.preco.Some? {
      p := p.(preco := dto.preco.value);
    }
    if dto.estoque.Some? {
      p := p.(estoque := dto.estoque.value);
    }
  }

  /** `atualizar_produto`: an unknown id gives `None` and changes nothing; a failure changes
      nothing; otherwise only that product changes, to `Atualizado`, and every other record is kept.
      The fields are assigned to the session's copy one by one, and the checks run in between, as
      in the source; the copy reaches the table only at the commit. */
  method AtualizarProduto(db: Database, id: int, dto: AtualizarProdutoDto, agora: Timestamp)
      returns (r: Result<Option<Produto>, Falha>)
    requires db.Valid()
    modifies db
    ensures db.Valid()
    ensures id !in old(db.produtos) ==> r == Ok(None) && unchanged(db)
    ensures id in old(db.produtos) ==> (r.Err? <==> FalhaAtualizarProduto(old(db.categorias), dto).Some?)
    ensures r.Err? ==> Some(r.error) == FalhaAtualizarProduto(old(db.categorias), dto) && unchanged(db)
    ensures id in old(db.produtos) && r.Ok? ==>
      && r.value.Some?
      && r.value.value == Atualizado(old(db.produtos[id]), dto, agora)
      && db.produtos == old(db.produtos)[id := r.value.value]
      && db.categorias == old(db.categorias)
      && db.proximoIdProduto == old(db.proximoIdProduto)
      && db.proximoIdCategoria == old(db.proximoIdCategoria)
  {
    if id !in db.produtos {
      return Ok(None);
    }
    var antes := db.produtos[id];  // the committed state the session compares against at the flush
    var p := AtribuirCampos(antes, dto);
    if dto.categoriaId.Some? {
      if dto.categoriaId.value !in db.categorias {
        return Err(CategoriaNaoEncontrada);
      }
      p := p.(categoriaId := dto.categoriaId.value);
    }
    assert p.categoriaId in db.categorias;
    if dto.status.Some? {
      var s := ParseStatus(dto.status.value);
      if s.None? {
        return Err(StatusInvalido);
      }
      p := p.(status := s.value);
    }
    assert p == Campos(antes, dto);
    // The flush emits an UPDATE, and with it the `onupdate` stamp, only for a net change.
    if !MesmasColunas(antes, p) {
      p := p.(dataAtualizacao := agora);
    }
    GravarProdutoPreservaConsistencia(db.categorias, db.produtos, db.proximoIdCategoria, db.proximoIdProduto, p);
    db.produtos := db.produtos[id := p];
    r := Ok(Some(p));
  }

  // ----- excluir_produto -----

  /** `excluir_produto`: `True` and the row removed when it exists, `False` and nothing changed
      otherwise. No other record changes. */
  method ExcluirProduto(db: Database, id: int) returns (r: bool)
    requires db.Valid()
    modifies db
    ensures db.Valid()
    ensures r <==> id in old(db.produtos)
    ensures !r ==> unchanged(db)
    ensures db.produtos == old(db.produtos) - {id}
    ensures db.categorias == old(db.categorias)
    ensures db.proximoIdProduto == old(db.proximoIdProduto) && db.proximoIdCategoria == old(db.proximoIdCategoria)
  {
    if id !in db.produtos {
      return false;
    }
    db.produtos := db.produtos - {id};
    r := true;
  }
}
