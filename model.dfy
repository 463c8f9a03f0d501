/** The records of the two tables, the product status enum, the column defaults and
    constraints, and the `to_dict` serialisers. */
module Model {
  import opened Wrappers
  import opened JsonValue

  /** An abstract clock reading; `datetime.utcnow()` becomes a parameter. */
  type Timestamp = nat

  /** `StatusProduto`: three members, each member's value equal to its name. */
  datatype Status = Ativo | Inativo | Descontinuado

  /** The wire strings of the enum, which are also its member names. */
  const StatusValues: set<string> := {"ATIVO", "INATIVO", "DESCONTINUADO"}

  /** `status.value`: the string a member stands for, one of the three wire strings. */
  function StatusValue(s: Status): (v: string)
    ensures v in StatusValues
  {
    match s
    case Ativo => "ATIVO"
    case Inativo => "INATIVO"
    case Descontinuado => "DESCONTINUADO"
  }

  /** `StatusProduto(s)`: the member whose value is `s`; any other string raises ValueError
      (here `None`). The lookup is exact and case-sensitive. */
  function ParseStatus(s: string): (r: Option<Status>)
    ensures r.Some? <==> s in StatusValues
    ensures r.Some? ==> StatusValue(r.value) == s
  {
    if s == "ATIVO" then Some(Ativo)
    else if s == "INATIVO" then Some(Inativo)
    else if s == "DESCONTINUADO" then Some(Descontinuado)
    else None
  }

  /** Reading a member's value back with `StatusProduto(...)` gives the same member, so distinct
      members have distinct values. */
  lemma StatusRoundTrip(s: Status, t: Status)
    ensures ParseStatus(StatusValue(s)) == Some(s)
    ensures s != t ==> StatusValue(s) != StatusValue(t)
  {
  }

  /** `String(100)` on `categorias.nome` and `String(200)` on `produtos.nome`. */
  const MaxNomeCategoria: nat := 100
  const MaxNomeProduto: nat := 200

  /** A row of `categorias`. */
  datatype Categoria = Categoria(
    id: int,
    nome: string,
    descricao: Option<string>,
    dataCriacao: Timestamp)

  /** A row of `produtos`. The price is `Numeric(10, 2)`, carried here as a whole number of cents. */
  datatype Produto = Produto(
    id: int,
    nome: string,
    descricao: Option<string>,
    preco: int,
    estoque: int,
    status: Status,
    categoriaId: int,
    dataCriacao: Timestamp,
    dataAtualizacao: Timestamp)

  /** `Produto(...)` followed by the insert: a column whose keyword is omitted takes its
      default (`estoque` 0, `status` ATIVO), both timestamps take the insert time. */
  function NovoProduto(
    id: int, nome: string, descricao: Option<string>, preco: int,
    estoque: Arg<int>, status: Arg<Status>, categoriaId: int, agora: Timestamp): (p: Produto)
    ensures estoque.Omitted? ==> p.estoque == 0
    ensures estoque.Given? ==> p.estoque == estoque.value
    ensures status.Omitted? ==> p.status == Ativo
    ensures status.Given? ==> p.status == status.value
    ensures p.id == id && p.nome == nome && p.descricao == descricao && p.preco == preco
    ensures p.categoriaId == categoriaId
    ensures p.dataCriacao == agora && p.dataAtualizacao == agora
  {
    Produto(id, nome, descricao, preco, estoque.Or(0), status.Or(Ativo), categoriaId, agora, agora)
  }

  /** The `unique=True` constraint on `categorias.nome`: no two rows share a name. */
  ghost predicate NomesUnicos(categorias: map<int, Categoria>) {
    forall i, j :: i in categorias && j in categorias && i != j ==> categorias[i].nome != categorias[j].nome
  }

  /** The foreign key `produtos.categoria_id -> categorias.id`: every product's category exists. */
  ghost predicate ReferenciasValidas(produtos: map<int, Produto>, categorias: map<int, Categoria>) {
    forall id :: id in produtos ==> produtos[id].categoriaId in categorias
  }

  /** Some product refers to the category `categoriaId` (`categoria.produtos` is not empty). */
  predicate TemProdutos(produtos: map<int, Produto>, categoriaId: int) {
    exists id :: id in produtos && produtos[id].categoriaId == categoriaId
  }

  /** Some category other than `exceto` is named `nome`. */
  predicate NomeEmUso(categorias: map<int, Categoria>, nome: string, exceto: Option<int>) {
    exists id :: id in categorias && categorias[id].nome == nome && exceto != Some(id)
  }

  /** Removing a category that no product refers to keeps the foreign key satisfied. */
  lemma RemoverCategoriaLivrePreservaReferencias(
    produtos: map<int, Produto>, categorias: map<int, Categoria>, id: int)
    requires ReferenciasValidas(produtos, categorias)
    requires !TemProdutos(produtos, id)
    ensures ReferenciasValidas(produtos, categorias - {id})
  {
    forall pid | pid in produtos ensures produtos[pid].categoriaId in categorias - {id} {
      assert produtos[pid].categoriaId != id;
    }
  }

  /** Adding a category under a name no row holds, or renaming a row to a name no other row holds,
      keeps names unique. */
  lemma GravarNomeLivrePreservaUnicidade(categorias: map<int, Categoria>, c: Categoria)
    requires NomesUnicos(categorias)
    requires !NomeEmUso(categorias, c.nome, Some(c.id))
    ensures NomesUnicos(categorias[c.id := c])
  {
  }

  /** `Categoria.to_dict`: exactly the keys id, nome, descricao and data_criacao, with the first
      three copied unchanged. */
  function CategoriaToDict(c: Categoria): (d: map<string, Json>)
    ensures d.Keys == {"id", "nome", "descricao", "data_criacao"}
    ensures d["id"] == JNum(c.id) && d["nome"] == JStr(c.nome) && d["descricao"] == OptStr(c.descricao)
    ensures d["data_criacao"] == JTime(c.dataCriacao)
  {
    map["id" := JNum(c.id),
        "nome" := JStr(c.nome),
        "descricao" := OptStr(c.descricao),
        "data_criacao" := JTime(c.dataCriacao)]
  }

  /** The ten keys `Produto.to_dict` emits. */
  const ChavesProduto: set<string> :=
    {"id", "nome", "descricao", "preco", "estoque", "status", "categoria_id", "categoria",
     "data_criacao", "data_atualizacao"}

  /** `Produto.to_dict`, with the category table standing in for the `categoria_ref` relationship.
      The status is its string value; `categoria` is the referenced category's name, or null when
      there is none; the price is null exactly when it is 0, because the guard is a truthiness test. */
  function ProdutoToDict(p: Produto, categorias: map<int, Categoria>): (d: map<string, Json>)
    ensures d.Keys == ChavesProduto
    ensures d["id"] == JNum(p.id) && d["nome"] == JStr(p.nome) && d["descricao"] == OptStr(p.descricao)
    ensures d["preco"] == JNull <==> p.preco == 0
    ensures p.preco != 0 ==> d["preco"] == JNum(p.preco)
    ensures d["estoque"] == JNum(p.estoque)
    ensures d["status"] == JStr(StatusValue(p.status)) && ParseStatus(d["status"].s) == Some(p.status)
    ensures d["categoria_id"] == JNum(p.categoriaId)
    ensures d["categoria"] == JNull <==> p.categoriaId !in categorias
    ensures p.categoriaId in categorias ==> d["categoria"] == JStr(categorias[p.categoriaId].nome)
    ensures d["data_criacao"] == JTime(p.dataCriacao) && d["data_atualizacao"] == JTime(p.dataAtualizacao)
  {
    map["id" := JNum(p.id),
        "nome" := JStr(p.nome),
        "descricao" := OptStr(p.descricao),
        "preco" := if p.preco != 0 then JNum(p.preco) else JNull,
        "estoque" := JNum(p.estoque),
        "status" := JStr(StatusValue(p.status)),
        "categoria_id" := JNum(p.categoriaId),
        "categoria" := if p.categoriaId in categorias then JStr(categorias[p.categoriaId].nome) else JNull,
        "data_criacao" := JTime(p.dataCriacao),
        "data_atualizacao" := JTime(p.dataAtualizacao)]
  }

  /** A free product (price 0, which validation accepts) is serialised with a null price. */
  lemma PrecoZeroSerializadoComoNulo(p: Produto, categorias: map<int, Categoria>)
    requires p.preco == 0
    ensures ProdutoToDict(p, categorias)["preco"] == JNull
  {
  }

  /** `Produto.to_dict` as evidently intended: the price is emitted whenever it is set, so every
      non-negative price, 0 included, survives serialisation. Otherwise identical to ProdutoToDict. */
  function ProdutoToDictCorrigido(p: Produto, categorias: map<int, Categoria>): (d: map<string, Json>)
    ensures d.Keys == ChavesProduto
    ensures d["preco"] == JNum(p.preco)
    ensures forall k :: k in d && k != "preco" ==> d[k] == ProdutoToDict(p, categorias)[k]
  {
    ProdutoToDict(p, categorias)["preco" := JNum(p.preco)]
  }
}
