/** The request payloads and their `validar` checks. Each check that fails adds one violation;
    none of them stops the others, so the list holds every violation in check order. */
module Dto {
  import opened Wrappers
  import opened Text
  import opened Model

  /** A violation message. `Texto` is the exact message text; `Etapa` is the position of its
      check inside `validar` (messages that share a position never come from the same payload). */
  datatype Violacao =
    | NomeCategoriaObrigatorio
    | NomeCategoriaVazio
    | NomeCategoriaLongo
    | NomeProdutoObrigatorio
    | NomeProdutoVazio
    | NomeProdutoLongo
    | PrecoNegativo
    | CategoriaObrigatoria
    | CategoriaIdInvalido
    | EstoqueNegativo
    | StatusForaDoEnum
  {
    function Texto(): string {
      match this
      case NomeCategoriaObrigatorio => "Nome da categoria é obrigatório"
      case NomeCategoriaVazio => "Nome da categoria não pode ser vazio"
      case NomeCategoriaLongo => "Nome da categoria deve ter no máximo 100 caracteres"
      case NomeProdutoObrigatorio => "Nome do produto é obrigatório"
      case NomeProdutoVazio => "Nome do produto não pode ser vazio"
      case NomeProdutoLongo => "Nome do produto deve ter no máximo 200 caracteres"
      case PrecoNegativo => "Preço deve ser um valor positivo"
      case CategoriaObrigatoria => "Categoria é obrigatória"
      case CategoriaIdInvalido => "ID da categoria deve ser válido"
      case EstoqueNegativo => "Estoque não pode ser negativo"
      case StatusForaDoEnum => "Status deve ser ATIVO, INATIVO ou DESCONTINUADO"
    }

    function Etapa(): nat {
      match this
      case NomeCategoriaObrigatorio | NomeCategoriaVazio | NomeProdutoObrigatorio | NomeProdutoVazio => 0
      case NomeCategoriaLongo | NomeProdutoLongo => 1
      case PrecoNegativo => 2
      case CategoriaObrigatoria | CategoriaIdInvalido => 3
      case EstoqueNegativo => 4
      case StatusForaDoEnum => 5
    }
  }

  /** The texts of a list of violations, as `validar` returns them. */
  function Textos(vs: seq<Violacao>): (ts: seq<string>)
    ensures |ts| == |vs| && forall i :: 0 <= i < |vs| ==> ts[i] == vs[i].Texto()
  {
    seq(|vs|, i requires 0 <= i < |vs| => vs[i].Texto())
  }

  /** The length of each message text. Only two pairs of messages share a length. */
  function Tamanho(v: Violacao): nat {
    match v
    case NomeCategoriaObrigatorio => 31
    case NomeCategoriaVazio => 36
    case NomeCategoriaLongo => 51
    case NomeProdutoObrigatorio => 29
    case NomeProdutoVazio => 34
    case NomeProdutoLongo => 49
    case PrecoNegativo => 32
    case CategoriaObrigatoria => 23
    case CategoriaIdInvalido => 31
    case EstoqueNegativo => 29
    case StatusForaDoEnum => 47
  }

  /** Each message text has the length `Tamanho` gives. */
  lemma TamanhoDoTexto(v: Violacao)
    ensures |v.Texto()| == Tamanho(v)
  {
    match v
    case NomeCategoriaObrigatorio =>
    case NomeCategoriaVazio =>
    case NomeCategoriaLongo =>
    case NomeProdutoObrigatorio =>
    case NomeProdutoVazio =>
    case NomeProdutoLongo =>
    case PrecoNegativo =>
    case CategoriaObrigatoria =>
    case CategoriaIdInvalido =>
    case EstoqueNegativo =>
    case StatusForaDoEnum =>
  }

  /** Distinct violations have distinct texts, so the caller can tell every violation from the
      string it receives. */
  lemma TextoInjetivo(a: Violacao, b: Violacao)
    ensures a.Texto() == b.Texto() ==> a == b
  {
    if a.Texto() == b.Texto() {
      TamanhoDoTexto(a);
      TamanhoDoTexto(b);
      assert NomeCategoriaObrigatorio.Texto() != CategoriaIdInvalido.Texto();
      assert NomeProdutoObrigatorio.Texto() != EstoqueNegativo.Texto();
    }
  }

  /** A message text occurs in the returned strings exactly when its violation occurs in the list:
      every "appears iff" fact about a list of violations is a fact about the strings. */
  lemma {:induction false} MensagemEmTextos(vs: seq<Violacao>, v: Violacao)
    ensures v.Texto() in Textos(vs) <==> v in vs
  {
    if v.Texto() in Textos(vs) {
      var i :| 0 <= i < |vs| && Textos(vs)[i] == v.Texto();
      TextoInjetivo(vs[i], v);
    }
  }

  /** Two lists of violations that read the same as strings are the same list. */
  lemma {:induction false} TextosInjetivo(vs: seq<Violacao>, ws: seq<Violacao>)
    ensures Textos(vs) == Textos(ws) ==> vs == ws
  {
    if Textos(vs) == Textos(ws) {
      forall i | 0 <= i < |vs|
        ensures vs[i] == ws[i]
      {
        TextoInjetivo(vs[i], ws[i]);
      }
    }
  }

  /** The violations appear in strictly increasing check order (hence none twice). */
  predicate EmOrdem(vs: seq<Violacao>) {
    forall i, j :: 0 <= i < j < |vs| ==> vs[i].Etapa() < vs[j].Etapa()
  }

  /** One `if ...: erros.append(v)`: `[v]` when the check fails, nothing otherwise. */
  function Se(falhou: bool, v: Violacao): (r: seq<Violacao>)
    ensures |r| <= 1
    ensures forall x :: x in r <==> falhou && x == v
  {
    if falhou then [v] else []
  }

  /** Appending the outcome of a later check keeps the list in check order, and the list then
      holds nothing later than that check. */
  lemma {:induction false} EmOrdemAnexa(vs: seq<Violacao>, falhou: bool, v: Violacao)
    requires EmOrdem(vs)
    requires forall x :: x in vs ==> x.Etapa() < v.Etapa()
    ensures EmOrdem(vs + Se(falhou, v))
    ensures forall x :: x in vs + Se(falhou, v) ==> x.Etapa() <= v.Etapa()
  {
    var r := vs + Se(falhou, v);
    forall i, j | 0 <= i < j < |r| ensures r[i].Etapa() < r[j].Etapa() {
      if j < |vs| {
        assert r[i] == vs[i] && r[j] == vs[j];
      } else {
        assert r[i] == vs[i] && r[i] in vs;
      }
    }
  }

  /** Two checks run in check order report in check order, and report nothing but their own
      violations. */
  lemma EmOrdemDois(c1: bool, v1: Violacao, c2: bool, v2: Violacao)
    requires v1.Etapa() < v2.Etapa()
    ensures EmOrdem(Se(c1, v1) + Se(c2, v2))
    ensures forall x :: x in Se(c1, v1) + Se(c2, v2) ==> x in {v1, v2}
  {
    var r := Se(c1, v1) + Se(c2, v2);
    assert |r| == 2 ==> r[0] == v1 && r[1] == v2;
  }

  /** Five checks run in check order report in check order, and report nothing but their own
      violations. */
  lemma EmOrdemCinco(c1: bool, v1: Violacao, c2: bool, v2: Violacao, c3: bool, v3: Violacao,
                     c4: bool, v4: Violacao, c5: bool, v5: Violacao)
    requires v1.Etapa() < v2.Etapa() < v3.Etapa() < v4.Etapa() < v5.Etapa()
    ensures EmOrdem(Se(c1, v1) + Se(c2, v2) + Se(c3, v3) + Se(c4, v4) + Se(c5, v5))
    ensures forall x :: x in Se(c1, v1) + Se(c2, v2) + Se(c3, v3) + Se(c4, v4) + Se(c5, v5) ==>
      x in {v1, v2, v3, v4, v5}
  {
    var a := Se(c1, v1);
    EmOrdemAnexa([], c1, v1);
    assert [] + a == a;
    var b := a + Se(c2, v2);
    EmOrdemAnexa(a, c2, v2);
    var c := b + Se(c3, v3);
    EmOrdemAnexa(b, c3, v3);
    var d := c + Se(c4, v4);
    EmOrdemAnexa(c, c4, v4);
    EmOrdemAnexa(d, c5, v5);
  }

  /** Six checks run in check order report in check order, and report nothing but their own
      violations. */
  lemma EmOrdemSeis(c1: bool, v1: Violacao, c2: bool, v2: Violacao, c3: bool, v3: Violacao,
                    c4: bool, v4: Violacao, c5: bool, v5: Violacao, c6: bool, v6: Violacao)
    requires v1.Etapa() < v2.Etapa() < v3.Etapa() < v4.Etapa() < v5.Etapa() < v6.Etapa()
    ensures EmOrdem(Se(c1, v1) + Se(c2, v2) + Se(c3, v3) + Se(c4, v4) + Se(c5, v5) + Se(c6, v6))
    ensures forall x :: x in Se(c1, v1) + Se(c2, v2) + Se(c3, v3) + Se(c4, v4) + Se(c5, v5) + Se(c6, v6) ==>
      x in {v1, v2, v3, v4, v5, v6}
  {
    var e := Se(c1, v1) + Se(c2, v2) + Se(c3, v3) + Se(c4, v4) + Se(c5, v5);
    EmOrdemCinco(c1, v1, c2, v2, c3, v3, c4, v4, c5, v5);
    EmOrdemAnexa(e, c6, v6);
  }

  /** A violation is in the outcome of a run of checks iff one of the checks reporting it fails. */
  lemma PertenceSeis(c1: bool, v1: Violacao, c2: bool, v2: Violacao, c3: bool, v3: Violacao,
                     c4: bool, v4: Violacao, c5: bool, v5: Violacao, c6: bool, v6: Violacao)
    ensures forall x :: x in Se(c1, v1) + Se(c2, v2) + Se(c3, v3) + Se(c4, v4) + Se(c5, v5) + Se(c6, v6) <==>
      (c1 && x == v1) || (c2 && x == v2) || (c3 && x == v3) || (c4 && x == v4) || (c5 && x == v5) || (c6 && x == v6)
  {
  }

  /** `len(None)`: the TypeError raised when a create payload has no name. */
  datatype TypeError = LenDeNone

  datatype CriarCategoriaDto = CriarCategoriaDto(nome: Option<string>, descricao: Option<string>)
  datatype AtualizarCategoriaDto = AtualizarCategoriaDto(nome: Option<string>, descricao: Option<string>)
  /** Prices are whole numbers of cents. */
  datatype CriarProdutoDto = CriarProdutoDto(
    nome: Option<string>, preco: Option<int>, categoriaId: Option<int>,
    descricao: Option<string>, estoque: Option<int>)
  datatype AtualizarProdutoDto = AtualizarProdutoDto(
    nome: Option<string>, descricao: Option<string>, preco: Option<int>,
    estoque: Option<int>, categoriaId: Option<int>, status: Option<string>)

  /** `not nome or len(nome.strip()) == 0` for a name that is present: the name is all whitespace. */
  predicate SemNome(nome: string)
    ensures SemNome(nome) <==> AllSpace(nome)
  {
    nome == "" || |Strip(nome)| == 0
  }

  /** `len(nome.strip()) == 0`: the name is all whitespace. */
  predicate StripVazio(nome: string)
    ensures StripVazio(nome) <==> AllSpace(nome)
  {
    |Strip(nome)| == 0
  }

  /** Python truthiness of an optional string: present and not empty. */
  predicate Verdadeiro(s: Option<string>) {
    s.Some? && s.value != ""
  }

  /** `status not in ['ATIVO', 'INATIVO', 'DESCONTINUADO']`: outside the enum's values. */
  predicate ForaDoEnum(status: string)
    ensures ForaDoEnum(status) <==> status !in StatusValues
  {
    status !in ["ATIVO", "INATIVO", "DESCONTINUADO"]
  }

  // ----- CriarCategoriaDTO.validar -----

  /** The violations of a category-create payload: the two checks of `validar`, in order. A
      missing name raises, because the length check calls `len(None)`. */
  function ErrosCriarCategoria(dto: CriarCategoriaDto): (r: Result<seq<Violacao>, TypeError>)
    ensures r.Err? <==> dto.nome.None?
    ensures r.Ok? ==> |r.value| <= 2
  {
    match dto.nome
    case None => Err(LenDeNone)
    case Some(nome) =>
      Ok(Se(SemNome(nome), NomeCategoriaObrigatorio) + Se(|nome| > MaxNomeCategoria, NomeCategoriaLongo))
  }

  /** For a payload with a name, "obrigatório" is reported iff the name is all whitespace and
      "máximo 100" iff the untrimmed name is longer than 100; nothing else is reported, and the
      two come in check order. */
  lemma ErrosCriarCategoriaMensagens(dto: CriarCategoriaDto)
    requires dto.nome.Some?
    ensures NomeCategoriaObrigatorio in ErrosCriarCategoria(dto).value <==> AllSpace(dto.nome.value)
    ensures NomeCategoriaLongo in ErrosCriarCategoria(dto).value <==> |dto.nome.value| > MaxNomeCategoria
    ensures forall v :: v in ErrosCriarCategoria(dto).value ==> v in {NomeCategoriaObrigatorio, NomeCategoriaLongo}
    ensures EmOrdem(ErrosCriarCategoria(dto).value)
  {
    var nome := dto.nome.value;
    EmOrdemDois(SemNome(nome), NomeCategoriaObrigatorio, |nome| > MaxNomeCategoria, NomeCategoriaLongo);
  }

  /** `CriarCategoriaDTO.validar`, step by step. */
  method ValidarCriarCategoria(dto: CriarCategoriaDto) returns (r: Result<seq<Violacao>, TypeError>)
    ensures r == ErrosCriarCategoria(dto)
  {
    var erros := [];
    if dto.nome.None? || SemNome(dto.nome.value) {
      erros := erros + [NomeCategoriaObrigatorio];
    }
    if dto.nome.None? {
      return Err(LenDeNone);
    }
    var nome := dto.nome.value;
    assert erros == Se(SemNome(nome), NomeCategoriaObrigatorio);
    if |nome| > MaxNomeCategoria {
      erros := erros + [NomeCategoriaLongo];
    }
    assert erros == Se(SemNome(nome), NomeCategoriaObrigatorio) + Se(|nome| > MaxNomeCategoria, NomeCategoriaLongo);
    return Ok(erros);
  }

  /** The category-create check as evidently intended: a missing name is reported as
      "obrigatório" instead of raising. */
  function ErrosCriarCategoriaCorrigido(dto: CriarCategoriaDto): (r: seq<Violacao>)
    ensures NomeCategoriaObrigatorio in r <==> dto.nome.None? || AllSpace(dto.nome.value)
    ensures NomeCategoriaLongo in r <==> dto.nome.Some? && |dto.nome.value| > MaxNomeCategoria
    ensures dto.nome.Some? ==> ErrosCriarCategoria(dto) == Ok(r)
  {
    Se(dto.nome.None? || SemNome(dto.nome.value), NomeCategoriaObrigatorio)
    + Se(dto.nome.Some? && |dto.nome.value| > MaxNomeCategoria, NomeCategoriaLongo)
  }

  /** A payload without a name makes the as-written check raise instead of reporting. */
  lemma CriarCategoriaSemNomeLevanta(descricao: Option<string>)
    ensures ErrosCriarCategoria(CriarCategoriaDto(None, descricao)) == Err(LenDeNone)
    ensures ErrosCriarCategoriaCorrigido(CriarCategoriaDto(None, descricao)) == [NomeCategoriaObrigatorio]
  {
  }

  /** A category payload that passes the corrected check fits the `categorias.nome` column:
      present, not blank, at most 100 characters. */
  lemma CategoriaValidaCabeNaColuna(dto: CriarCategoriaDto)
    requires ErrosCriarCategoriaCorrigido(dto) == []
    ensures dto.nome.Some? && !AllSpace(dto.nome.value) && |dto.nome.value| <= MaxNomeCategoria
  {
  }

  // ----- AtualizarCategoriaDTO.validar -----

  /** The violations of a category-update payload: the two checks of `validar`, in order. The
      blank check tests `is not None`, the length check Python truthiness. */
  function ErrosAtualizarCategoria(dto: AtualizarCategoriaDto): (r: seq<Violacao>)
    ensures dto.nome.None? ==> r == []
    ensures |r| <= 2
  {
    Se(dto.nome.Some? && StripVazio(dto.nome.value), NomeCategoriaVazio)
    + Se(Verdadeiro(dto.nome) && |dto.nome.value| > MaxNomeCategoria, NomeCategoriaLongo)
  }

  /** A present name that is all whitespace (the empty string included) gives "não pode ser
      vazio"; a present name longer than 100 (untrimmed) gives "máximo 100"; nothing else is
      reported, in check order. */
  lemma ErrosAtualizarCategoriaMensagens(dto: AtualizarCategoriaDto)
    ensures NomeCategoriaVazio in ErrosAtualizarCategoria(dto) <==> dto.nome.Some? && AllSpace(dto.nome.value)
    ensures NomeCategoriaLongo in ErrosAtualizarCategoria(dto) <==> dto.nome.Some? && |dto.nome.value| > MaxNomeCategoria
    ensures forall v :: v in ErrosAtualizarCategoria(dto) ==> v in {NomeCategoriaVazio, NomeCategoriaLongo}
    ensures EmOrdem(ErrosAtualizarCategoria(dto))
  {
    EmOrdemDois(dto.nome.Some? && StripVazio(dto.nome.value), NomeCategoriaVazio,
      Verdadeiro(dto.nome) && |dto.nome.value| > MaxNomeCategoria, NomeCategoriaLongo);
  }

  /** `AtualizarCategoriaDTO.validar`, step by step. */
  method ValidarAtualizarCategoria(dto: AtualizarCategoriaDto) returns (erros: seq<Violacao>)
    ensures erros == ErrosAtualizarCategoria(dto)
  {
    erros := [];
    if dto.nome.Some? && StripVazio(dto.nome.value) {
      erros := erros + [NomeCategoriaVazio];
    }
    assert erros == Se(dto.nome.Some? && StripVazio(dto.nome.value), NomeCategoriaVazio);
    if Verdadeiro(dto.nome) && |dto.nome.value| > MaxNomeCategoria {
      erros := erros + [NomeCategoriaLongo];
    }
  }

  // ----- CriarProdutoDTO.validar -----

  const ChecagensCriarProduto: set<Violacao> :=
    {NomeProdutoObrigatorio, NomeProdutoLongo, PrecoNegativo, CategoriaObrigatoria, EstoqueNegativo}

  /** The violations of a product-create payload: the five checks of `validar`, in order. A
      missing name raises, because the length check calls `len(None)`. */
  function ErrosCriarProduto(dto: CriarProdutoDto): (r: Result<seq<Violacao>, TypeError>)
    ensures r.Err? <==> dto.nome.None?
    ensures r.Ok? ==> |r.value| <= 5
  {
    match dto.nome
    case None => Err(LenDeNone)
    case Some(nome) =>
      Ok(Se(SemNome(nome), NomeProdutoObrigatorio)
         + Se(|nome| > MaxNomeProduto, NomeProdutoLongo)
         + Se(dto.preco.None? || dto.preco.value < 0, PrecoNegativo)
         + Se(dto.categoriaId.None? || dto.categoriaId.value <= 0, CategoriaObrigatoria)
         + Se(dto.estoque.Some? && dto.estoque.value < 0, EstoqueNegativo))
  }

  /** For a payload with a name, each message appears iff its condition holds: blank name;
      untrimmed name over 200; price missing or negative (0 is accepted); category id missing or
      not positive; stock present and negative (a missing stock is accepted). */
  lemma ErrosCriarProdutoMensagens(dto: CriarProdutoDto)
    requires dto.nome.Some?
    ensures NomeProdutoObrigatorio in ErrosCriarProduto(dto).value <==> AllSpace(dto.nome.value)
    ensures NomeProdutoLongo in ErrosCriarProduto(dto).value <==> |dto.nome.value| > MaxNomeProduto
    ensures PrecoNegativo in ErrosCriarProduto(dto).value <==> dto.preco.None? || dto.preco.value < 0
    ensures CategoriaObrigatoria in ErrosCriarProduto(dto).value <==> dto.categoriaId.None? || dto.categoriaId.value <= 0
    ensures EstoqueNegativo in ErrosCriarProduto(dto).value <==> dto.estoque.Some? && dto.estoque.value < 0
  {
  }

  /** Only the five product-create messages occur, in check order. */
  lemma ErrosCriarProdutoEmOrdem(dto: CriarProdutoDto)
    requires dto.nome.Some?
    ensures forall v :: v in ErrosCriarProduto(dto).value ==> v in ChecagensCriarProduto
    ensures EmOrdem(ErrosCriarProduto(dto).value)
  {
    var nome := dto.nome.value;
    EmOrdemCinco(SemNome(nome), NomeProdutoObrigatorio, |nome| > MaxNomeProduto, NomeProdutoLongo,
      dto.preco.None? || dto.preco.value < 0, PrecoNegativo,
      dto.categoriaId.None? || dto.categoriaId.value <= 0, CategoriaObrigatoria,
      dto.estoque.Some? && dto.estoque.value < 0, EstoqueNegativo);
  }

  /** `CriarProdutoDTO.validar`, step by step. */
  method ValidarCriarProduto(dto: CriarProdutoDto) returns (r: Result<seq<Violacao>, TypeError>)
    ensures r == ErrosCriarProduto(dto)
  {
    var erros := [];
    if dto.nome.None? || SemNome(dto.nome.value) {
      erros := erros + [NomeProdutoObrigatorio];
    }
    if dto.nome.None? {
      return Err(LenDeNone);
    }
    var nome := dto.nome.value;
    assert erros == Se(SemNome(nome), NomeProdutoObrigatorio);
    if |nome| > MaxNomeProduto {
      erros := erros + [NomeProdutoLongo];
    }
    assert erros == Se(SemNome(nome), NomeProdutoObrigatorio)
      + Se(|nome| > MaxNomeProduto, NomeProdutoLongo);
    if dto.preco.None? || dto.preco.value < 0 {
      erros := erros + [PrecoNegativo];
    }
    assert erros == Se(SemNome(nome), NomeProdutoObrigatorio)
      + Se(|nome| > MaxNomeProduto, NomeProdutoLongo)
      + Se(dto.preco.None? || dto.preco.value < 0, PrecoNegativo);
    if dto.categoriaId.None? || dto.categoriaId.value <= 0 {
      erros := erros + [CategoriaObrigatoria];
    }
    assert erros == Se(SemNome(nome), NomeProdutoObrigatorio)
      + Se(|nome| > MaxNomeProduto, NomeProdutoLongo)
      + Se(dto.preco.None? || dto.preco.value < 0, PrecoNegativo)
      + Se(dto.categoriaId.None? || dto.categoriaId.value <= 0, CategoriaObrigatoria);
    if dto.estoque.Some? && dto.estoque.value < 0 {
      erros := erros + [EstoqueNegativo];
    }
    assert erros == Se(SemNome(nome), NomeProdutoObrigatorio)
      + Se(|nome| > MaxNomeProduto, NomeProdutoLongo)
      + Se(dto.preco.None? || dto.preco.value < 0, PrecoNegativo)
      + Se(dto.categoriaId.None? || dto.categoriaId.value <= 0, CategoriaObrigatoria)
      + Se(dto.estoque.Some? && dto.estoque.value < 0, EstoqueNegativo);
    return Ok(erros);
  }

  /** A present but blank name, a negative price and a non-positive category id yield all three
      messages, in check order: the checks do not stop at the first failure. */
  lemma CriarProdutoNaoParaNoPrimeiroErro(dto: CriarProdutoDto)
    requires dto.nome.Some? && AllSpace(dto.nome.value) && |dto.nome.value| <= MaxNomeProduto
    requires dto.preco.Some? && dto.preco.value < 0
    requires dto.categoriaId.Some? && dto.categoriaId.value <= 0
    requires dto.estoque.None?
    ensures ErrosCriarProduto(dto) == Ok([NomeProdutoObrigatorio, PrecoNegativo, CategoriaObrigatoria])
  {
    var nome := dto.nome.value;
    assert Se(SemNome(nome), NomeProdutoObrigatorio) == [NomeProdutoObrigatorio];
    assert Se(|nome| > MaxNomeProduto, NomeProdutoLongo) == [];
    assert Se(dto.preco.None? || dto.preco.value < 0, PrecoNegativo) == [PrecoNegativo];
    assert Se(dto.categoriaId.None? || dto.categoriaId.value <= 0, CategoriaObrigatoria) == [CategoriaObrigatoria];
    assert [NomeProdutoObrigatorio] + [] + [PrecoNegativo] + [CategoriaObrigatoria] + []
      == [NomeProdutoObrigatorio, PrecoNegativo, CategoriaObrigatoria];
  }

  /** The product-create check as evidently intended: a missing name is reported as
      "obrigatório" and the other checks still run as they would for a name that passes. */
  function ErrosCriarProdutoCorrigido(dto: CriarProdutoDto): (r: seq<Violacao>)
    ensures dto.nome.Some? ==> ErrosCriarProduto(dto) == Ok(r)
    ensures NomeProdutoObrigatorio in r <==> dto.nome.None? || AllSpace(dto.nome.value)
  {
    Se(dto.nome.None? || SemNome(dto.nome.value), NomeProdutoObrigatorio)
    + Se(dto.nome.Some? && |dto.nome.value| > MaxNomeProduto, NomeProdutoLongo)
    + Se(dto.preco.None? || dto.preco.value < 0, PrecoNegativo)
    + Se(dto.categoriaId.None? || dto.categoriaId.value <= 0, CategoriaObrigatoria)
    + Se(dto.estoque.Some? && dto.estoque.value < 0, EstoqueNegativo)
  }

  /** A product payload without a name makes the as-written check raise, while the corrected
      check reports it exactly as it reports an empty name. */
  lemma CriarProdutoSemNomeLevanta(dto: CriarProdutoDto)
    requires dto.nome.None?
    ensures ErrosCriarProduto(dto) == Err(LenDeNone)
    ensures ErrosCriarProdutoCorrigido(dto) == ErrosCriarProduto(dto.(nome := Some(""))).value
  {
  }

  /** A product payload that passes the corrected check fits the `produtos` columns: a present,
      non-blank name of at most 200 characters, a non-negative price, a positive category id and
      a stock that is missing or non-negative. */
  lemma ProdutoValidoCabeNasColunas(dto: CriarProdutoDto)
    requires ErrosCriarProdutoCorrigido(dto) == []
    ensures dto.nome.Some? && !AllSpace(dto.nome.value) && |dto.nome.value| <= MaxNomeProduto
    ensures dto.preco.Some? && dto.preco.value >= 0
    ensures dto.categoriaId.Some? && dto.categoriaId.value > 0
    ensures dto.estoque.None? || dto.estoque.value >= 0
  {
  }

  // ----- AtualizarProdutoDTO.validar -----

  const ChecagensAtualizarProduto: set<Violacao> :=
    {NomeProdutoVazio, NomeProdutoLongo, PrecoNegativo, CategoriaIdInvalido, EstoqueNegativo, StatusForaDoEnum}

  /** True when every field of an update payload is `None`. */
  predicate AtualizacaoVazia(dto: AtualizarProdutoDto) {
    dto.nome.None? && dto.descricao.None? && dto.preco.None? && dto.estoque.None?
    && dto.categoriaId.None? && dto.status.None?
  }

  /** The violations of a product-update payload: the six checks of `validar`, in order. A
      field that is `None` contributes nothing. */
  function ErrosAtualizarProduto(dto: AtualizarProdutoDto): (r: seq<Violacao>)
    ensures AtualizacaoVazia(dto) ==> r == []
    ensures |r| <= 6
  {
    Se(dto.nome.Some? && StripVazio(dto.nome.value), NomeProdutoVazio)
    + Se(Verdadeiro(dto.nome) && |dto.nome.value| > MaxNomeProduto, NomeProdutoLongo)
    + Se(dto.preco.Some? && dto.preco.value < 0, PrecoNegativo)
    + Se(dto.categoriaId.Some? && dto.categoriaId.value <= 0, CategoriaIdInvalido)
    + Se(dto.estoque.Some? && dto.estoque.value < 0, EstoqueNegativo)
    + Se(Verdadeiro(dto.status) && ForaDoEnum(dto.status.value), StatusForaDoEnum)
  }

  /** Each present field is checked with the create bounds; a status is rejected iff it is a
      non-empty string outside the enum (the empty string passes, the guard being a
      truthiness test). */
  lemma ErrosAtualizarProdutoMensagens(dto: AtualizarProdutoDto)
    ensures NomeProdutoVazio in ErrosAtualizarProduto(dto) <==> dto.nome.Some? && AllSpace(dto.nome.value)
    ensures NomeProdutoLongo in ErrosAtualizarProduto(dto) <==> dto.nome.Some? && |dto.nome.value| > MaxNomeProduto
    ensures PrecoNegativo in ErrosAtualizarProduto(dto) <==> dto.preco.Some? && dto.preco.value < 0
    ensures CategoriaIdInvalido in ErrosAtualizarProduto(dto) <==> dto.categoriaId.Some? && dto.categoriaId.value <= 0
    ensures EstoqueNegativo in ErrosAtualizarProduto(dto) <==> dto.estoque.Some? && dto.estoque.value < 0
    ensures StatusForaDoEnum in ErrosAtualizarProduto(dto) <==>
      dto.status.Some? && dto.status.value != "" && dto.status.value !in StatusValues
  {
    PertenceSeis(dto.nome.Some? && StripVazio(dto.nome.value), NomeProdutoVazio,
      Verdadeiro(dto.nome) && |dto.nome.value| > MaxNomeProduto, NomeProdutoLongo,
      dto.preco.Some? && dto.preco.value < 0, PrecoNegativo,
      dto.categoriaId.Some? && dto.categoriaId.value <= 0, CategoriaIdInvalido,
      dto.estoque.Some? && dto.estoque.value < 0, EstoqueNegativo,
      Verdadeiro(dto.status) && ForaDoEnum(dto.status.value), StatusForaDoEnum);
  }

  /** Only the six product-update messages occur, in check order. */
  lemma ErrosAtualizarProdutoEmOrdem(dto: AtualizarProdutoDto)
    ensures forall v :: v in ErrosAtualizarProduto(dto) ==> v in ChecagensAtualizarProduto
    ensures EmOrdem(ErrosAtualizarProduto(dto))
  {
    EmOrdemSeis(dto.nome.Some? && StripVazio(dto.nome.value), NomeProdutoVazio,
      Verdadeiro(dto.nome) && |dto.nome.value| > MaxNomeProduto, NomeProdutoLongo,
      dto.preco.Some? && dto.preco.value < 0, PrecoNegativo,
      dto.categoriaId.Some? && dto.categoriaId.value <= 0, CategoriaIdInvalido,
      dto.estoque.Some? && dto.estoque.value < 0, EstoqueNegativo,
      Verdadeiro(dto.status) && ForaDoEnum(dto.status.value), StatusForaDoEnum);
  }

  /** `AtualizarProdutoDTO.validar`, step by step. */
  method ValidarAtualizarProduto(dto: AtualizarProdutoDto) returns (erros: seq<Violacao>)
    ensures erros == ErrosAtualizarProduto(dto)
  {
    ghost var c1 := dto.nome.Some? && StripVazio(dto.nome.value);
    ghost var c2 := Verdadeiro(dto.nome) && |dto.nome.value| > MaxNomeProduto;
    ghost var c3 := dto.preco.Some? && dto.preco.value < 0;
    ghost var c4 := dto.categoriaId.Some? && dto.categoriaId.value <= 0;
    ghost var c5 := dto.estoque.Some? && dto.estoque.value < 0;
    erros := [];
    if dto.nome.Some? && StripVazio(dto.nome.value) {
      erros := erros + [NomeProdutoVazio];
    }
    assert erros == Se(c1, NomeProdutoVazio);
    if Verdadeiro(dto.nome) && |dto.nome.value| > MaxNomeProduto {
      erros := erros + [NomeProdutoLongo];
    }
    assert erros == Se(c1, NomeProdutoVazio) + Se(c2, NomeProdutoLongo);
    if dto.preco.Some? && dto.preco.value < 0 {
      erros := erros + [PrecoNegativo];
    }
    assert erros == Se(c1, NomeProdutoVazio) + Se(c2, NomeProdutoLongo) + Se(c3, PrecoNegativo);
    if dto.categoriaId.Some? && dto.categoriaId.value <= 0 {
      erros := erros + [CategoriaIdInvalido];
    }
    assert erros == Se(c1, NomeProdutoVazio) + Se(c2, NomeProdutoLongo) + Se(c3, PrecoNegativo)
      + Se(c4, CategoriaIdInvalido);
    if dto.estoque.Some? && dto.estoque.value < 0 {
      erros := erros + [EstoqueNegativo];
    }
    assert erros == Se(c1, NomeProdutoVazio) + Se(c2, NomeProdutoLongo) + Se(c3, PrecoNegativo)
      + Se(c4, CategoriaIdInvalido) + Se(c5, EstoqueNegativo);
    if Verdadeiro(dto.status) && ForaDoEnum(dto.status.value) {
      erros := erros + [StatusForaDoEnum];
    }
  }

  /** An empty status passes validation although `StatusProduto("")` raises: the service is
      left to reject it. */
  lemma StatusVazioPassaNaValidacao(dto: AtualizarProdutoDto)
    requires dto.status == Some("")
    ensures StatusForaDoEnum !in ErrosAtualizarProduto(dto)
    ensures ParseStatus(dto.status.value).None?
  {
  }

  /** `AtualizarProdutoDTO.validar` as evidently intended: any status that `StatusProduto` would
      reject, the empty string included, is reported. Every other check is unchanged. */
  function ErrosAtualizarProdutoCorrigido(dto: AtualizarProdutoDto): (r: seq<Violacao>)
    ensures StatusForaDoEnum in r <==> dto.status.Some? && ParseStatus(dto.status.value).None?
    ensures dto.status != Some("") ==> r == ErrosAtualizarProduto(dto)
  {
    ErrosAtualizarProdutoMensagens(dto);
    if dto.status == Some("") then ErrosAtualizarProduto(dto) + [StatusForaDoEnum] else ErrosAtualizarProduto(dto)
  }

  /** The corrected list is still in check order: the status check is the last one. */
  lemma ErrosAtualizarProdutoCorrigidoEmOrdem(dto: AtualizarProdutoDto)
    ensures EmOrdem(ErrosAtualizarProdutoCorrigido(dto))
  {
    var r := ErrosAtualizarProduto(dto);
    ErrosAtualizarProdutoEmOrdem(dto);
    if dto.status == Some("") {
      ErrosAtualizarProdutoMensagens(dto);
      forall x | x in r ensures x.Etapa() < StatusForaDoEnum.Etapa() {
        assert x in ChecagensAtualizarProduto && x != StatusForaDoEnum;
      }
      EmOrdemAnexa(r, true, StatusForaDoEnum);
    }
  }
}
