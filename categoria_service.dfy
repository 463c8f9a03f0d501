/** `CategoriaService`: the category queries and the category create, update and delete
    operations, over the two tables of a `Database`. */
module CategoriaService {
  import opened Wrappers
  import opened Model
  import opened Dto
  import opened Store

  // ----- listar_categorias, obter_categoria_por_id -----

  /** `listar_categorias`: every row of the category table, as stored. */
  function ListarCategorias(categorias: map<int, Categoria>): (r: map<int, Categoria>)
    ensures r.Keys == categorias.Keys
    ensures forall id :: id in r ==> r[id] == categorias[id]
  {
    categorias
  }

  /** `obter_categoria_por_id`: the row under that primary key, or `None`. */
  function ObterCategoriaPorId(categorias: map<int, Categoria>, id: int): (r: Option<Categoria>)
    ensures r.Some? <==> id in categorias
    ensures r.Some? ==> r.value == categorias[id] && r.value in categorias.Values
  {
    if id in categorias then Some(categorias[id]) else None
  }

  // ----- criar_categoria -----

  /** Why `criar_categoria` fails, if it does. Any row with the identical name is a duplicate.
      A missing name matches no row (`nome IS NULL`), so it gets past the check and fails at the
      commit, the column being NOT NULL. */
  function FalhaCriarCategoria(categorias: map<int, Categoria>, dto: CriarCategoriaDto): (f: Option<Falha>)
    ensures f == Some(ColunaNula) <==> dto.nome.None?
    ensures f == Some(NomeDuplicado) <==> dto.nome.Some? && exists id :: id in categorias && categorias[id].nome == dto.nome.value
    ensures f.None? || f == Some(ColunaNula) || f == Some(NomeDuplicado)
  {
    if dto.nome.None? then Some(ColunaNula)
    else if NomeEmUso(categorias, dto.nome.value, None) then Some(NomeDuplicado)
    else None
  }

  /** A payload that passes validation can only fail on a duplicate name. */
  lemma ValidaSoFalhaPorNome(categorias: map<int, Categoria>, dto: CriarCategoriaDto)
    requires ErrosCriarCategoria(dto) == Ok([])
    ensures FalhaCriarCategoria(categorias, dto) != Some(ColunaNula)
  {
  }

  /** `criar_categoria`: on success exactly one category is added, under a fresh id, and nothing
      else changes, so names stay unique; on failure nothing changes. */
  method CriarCategoria(db: Database, dto: CriarCategoriaDto, agora: Timestamp) returns (r: Result<Categoria, Falha>)
    requires db.Valid()
    modifies db
    ensures db.Valid()
    ensures r.Err? <==> FalhaCriarCategoria(old(db.categorias), dto).Some?
    ensures r.Err? ==> Some(r.error) == FalhaCriarCategoria(old(db.categorias), dto) && unchanged(db)
    ensures r.Ok? ==>
      && r.value == Categoria(old(db.proximoIdCategoria), dto.nome.value, dto.descricao, agora)
      && r.value.id !in old(db.categorias)
      && db.categorias == old(db.categorias)[r.value.id := r.value]
      && db.produtos == old(db.produtos)
      && db.proximoIdCategoria == old(db.proximoIdCategoria) + 1
      && db.proximoIdProduto == old(db.proximoIdProduto)
  {
    if dto.nome.Some? && NomeEmUso(db.categorias, dto.nome.value, None) {
      return Err(NomeDuplicado);
    }
    if dto.nome.None? {
      return Err(ColunaNula);
    }
    var c := Categoria(db.proximoIdCategoria, dto.nome.value, dto.descricao, agora);
    GravarNomeLivrePreservaUnicidade(db.categorias, c);
    db.categorias := db.categorias[c.id := c];
    db.proximoIdCategoria := db.proximoIdCategoria + 1;
    r := Ok(c);
  }

  // ----- atualizar_categoria -----

  /** Why `atualizar_categoria` fails on an existing category, if it does: the new name is held by
      a different row. */
  function FalhaAtualizarCategoria(categorias: map<int, Categoria>, id: int, dto: AtualizarCategoriaDto): (f: Option<Falha>)
    ensures f.None? || f == Some(NomeDuplicado)
    ensures f.Some? <==> dto.nome.Some? && exists outro :: outro in categorias && outro != id && categorias[outro].nome == dto.nome.value
  {
    if dto.nome.Some? && NomeEmUso(categorias, dto.nome.value, Some(id)) then Some(NomeDuplicado) else None
  }

  /** Renaming a category to the name it already has succeeds: the only row holding that name is
      the category itself. */
  lemma RenomearParaOMesmoNome(categorias: map<int, Categoria>, id: int, dto: AtualizarCategoriaDto)
    requires NomesUnicos(categorias)
    requires id in categorias && dto.nome == Some(categorias[id].nome)
    ensures FalhaAtualizarCategoria(categorias, id, dto).None?
  {
  }

  /** The category after a successful update: a present name or description replaces the old
      one; the id and the creation time are kept. */
  function CategoriaAtualizada(c: Categoria, dto: AtualizarCategoriaDto): (d: Categoria)
    ensures d.id == c.id && d.dataCriacao == c.dataCriacao
    ensures d.nome == dto.nome.GetOr(c.nome)
    ensures d.descricao == (if dto.descricao.Some? then dto.descricao else c.descricao)
    ensures dto.nome.None? && dto.descricao.None? ==> d == c
  {
    c.(nome := dto.nome.GetOr(c.nome), descricao := if dto.descricao.Some? then dto.descricao else c.descricao)
  }

  /** `atualizar_categoria`: an unknown id gives `None` and changes nothing; a name held by another
      row fails and changes nothing; otherwise only that category changes, names stay unique and
      its products keep pointing at it. */
  method AtualizarCategoria(db: Database, id: int, dto: AtualizarCategoriaDto)
      returns (r: Result<Option<Categoria>, Falha>)
    requires db.Valid()
    modifies db
    ensures db.Valid()
    ensures id !in old(db.categorias) ==> r == Ok(None) && unchanged(db)
    ensures id in old(db.categorias) ==> (r.Err? <==> FalhaAtualizarCategoria(old(db.categorias), id, dto).Some?)
    ensures r.Err? ==> Some(r.error) == FalhaAtualizarCategoria(old(db.categorias), id, dto) && unchanged(db)
    ensures id in old(db.categorias) && r.Ok? ==>
      && r.value.Some?
      && r.value.value == CategoriaAtualizada(old(db.categorias[id]), dto)
      && db.categorias == old(db.categorias)[id := r.value.value]
      && db.produtos == old(db.produtos)
      && db.proximoIdCategoria == old(db.proximoIdCategoria)
      && db.proximoIdProduto == old(db.proximoIdProduto)
  {
    if id !in db.categorias {
      return Ok(None);
    }
    var c := db.categorias[id];
    if dto.nome.Some? {
      if NomeEmUso(db.categorias, dto.nome.value, Some(id)) {
        return Err(NomeDuplicado);
      }
      c := c.(nome := dto.nome.value);
    }
    if dto.descricao.Some? {
      c := c.(descricao := dto.descricao);
    }
    GravarNomeLivrePreservaUnicidade(db.categorias, c);
    db.categorias := db.categorias[id := c];
    r := Ok(Some(c));
  }

  // ----- excluir_categoria -----

  /** `excluir_categoria`: `False` for an unknown id; a failure while some product refers to the
      category; otherwise `True` with only that category removed. Nothing changes unless it is
      removed, and the products' references stay valid. */
  method ExcluirCategoria(db: Database, id: int) returns (r: Result<bool, Falha>)
    requires db.Valid()
    modifies db
    ensures db.Valid()
    ensures id !in old(db.categorias) ==> r == Ok(false)
    ensures id in old(db.categorias) && TemProdutos(old(db.produtos), id) ==> r == Err(CategoriaComProdutos)
    ensures id in old(db.categorias) && !TemProdutos(old(db.produtos), id) ==> r == Ok(true)
    ensures r != Ok(true) ==> unchanged(db)
    ensures r == Ok(true) ==>
      && db.categorias == old(db.categorias) - {id}
      && db.produtos == old(db.produtos)
      && db.proximoIdCategoria == old(db.proximoIdCategoria)
      && db.proximoIdProduto == old(db.proximoIdProduto)
  {
    if id !in db.categorias {
      return Ok(false);
    }
    if TemProdutos(db.produtos, id) {
      return Err(CategoriaComProdutos);
    }
    RemoverCategoriaLivrePreservaReferencias(db.produtos, db.categorias, id);
    db.categorias := db.categorias - {id};
    r := Ok(true);
  }
}
