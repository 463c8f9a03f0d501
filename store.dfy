/** The database the services work on: the `categorias` and `produtos` tables, each keyed by
    its primary key, and the next value of each autoincrement id. */
module Store {
  import opened Wrappers
  import opened Model

  /** Why a service call fails. The first four are the `ValueError`s the services raise;
      `ColunaNula` is the integrity error the commit raises when a NOT NULL column is left empty. */
  datatype Falha = CategoriaNaoEncontrada | StatusInvalido | NomeDuplicado | CategoriaComProdutos | ColunaNula
  {
    /** The text of the `ValueError`; the integrity error carries the driver's own text. */
    function Mensagem(): (m: Option<string>)
      ensures m.None? <==> this == ColunaNula
    {
      match this
      case CategoriaNaoEncontrada => Some("Categoria não encontrada")
      case StatusInvalido => Some("Status inválido")
      case NomeDuplicado => Some("Já existe uma categoria com este nome")
      case CategoriaComProdutos => Some("Não é possível excluir categoria com produtos associados")
      case ColunaNula => None
    }
  }

  /** The two tables agree with their schema: every row sits under its own id, below the next id
      to hand out; category names are unique; every product's category exists. */
  ghost predicate Consistente(
    categorias: map<int, Categoria>, produtos: map<int, Produto>,
    proximoIdCategoria: int, proximoIdProduto: int)
  {
    && 0 < proximoIdCategoria && 0 < proximoIdProduto
    && (forall id :: id in categorias ==> categorias[id].id == id && 0 < id < proximoIdCategoria)
    && (forall id :: id in produtos ==> produtos[id].id == id && 0 < id < proximoIdProduto)
    && NomesUnicos(categorias)
    && ReferenciasValidas(produtos, categorias)
  }

  /** Writing a product row under an id already handed out, pointing at an existing category,
      keeps the tables consistent. */
  lemma GravarProdutoPreservaConsistencia(
    categorias: map<int, Categoria>, produtos: map<int, Produto>,
    proximoIdCategoria: int, proximoIdProduto: int, p: Produto)
    requires Consistente(categorias, produtos, proximoIdCategoria, proximoIdProduto)
    requires 0 < p.id < proximoIdProduto && p.categoriaId in categorias
    ensures Consistente(categorias, produtos[p.id := p], proximoIdCategoria, proximoIdProduto)
  {
  }

  /** The two tables. A failed service call rolls its session back, so it leaves them as they were. */
  class Database {
    var categorias: map<int, Categoria>
    var produtos: map<int, Produto>
    var proximoIdCategoria: int
    var proximoIdProduto: int

    /** The tables are consistent. */
    ghost predicate Valid()
      reads this
    {
      Consistente(categorias, produtos, proximoIdCategoria, proximoIdProduto)
    }

    /** `db.create_all()` on a fresh file: both tables empty, ids starting at 1. */
    constructor ()
      ensures Valid()
      ensures categorias == map[] && produtos == map[]
      ensures proximoIdCategoria == 1 && proximoIdProduto == 1
    {
      categorias := map[];
      produtos := map[];
      proximoIdCategoria := 1;
      proximoIdProduto := 1;
    }
  }
}
