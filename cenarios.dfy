/** Scenarios: sequences of service calls on one database, as a caller of the HTTP API would
    make them. Each assertion follows from the operations' contracts alone. */
module Cenarios {
  import opened Wrappers
  import opened Model
  import opened Dto
  import opened Store
  import ProdutoService
  import CategoriaService

  /** A created category reads back as submitted; a duplicate name is refused; a category
      cannot be deleted while a product refers to it, and can be once that product is gone. */
  method ExcluirCategoriaDepoisDoUltimoProduto() {
    var db := new Database();
    var dto := CriarCategoriaDto(Some("Eletrônicos"), None);
    var c := CategoriaService.CriarCategoria(db, dto, 1);
    assert c.Ok?;
    var cid := c.value.id;
    assert CategoriaService.ObterCategoriaPorId(db.categorias, cid) == Some(Categoria(cid, "Eletrônicos", None, 1));

    var dup := CategoriaService.CriarCategoria(db, dto, 2);
    assert db.categorias[cid].nome == "Eletrônicos";
    assert dup == Err(NomeDuplicado);

    var p := ProdutoService.CriarProduto(db, CriarProdutoDto(Some("Notebook"), Some(350000), Some(cid), None, None), 3);
    assert p.Ok? && p.value.status == Ativo && p.value.estoque == 0;
    var pid := p.value.id;

    var recusada := CategoriaService.ExcluirCategoria(db, cid);
    assert db.produtos[pid].categoriaId == cid;
    assert recusada == Err(CategoriaComProdutos);

    var removido := ProdutoService.ExcluirProduto(db, pid);
    assert removido && db.produtos == map[];
    var aceita := CategoriaService.ExcluirCategoria(db, cid);
    assert aceita == Ok(true) && cid !in db.categorias;
  }

  /** A product in an unknown category is refused; a status outside the enum is refused and
      changes nothing; "INATIVO" is applied and advances the update time. */
  method AtualizarStatus() {
    var db := new Database();
    var recusado := ProdutoService.CriarProduto(db, CriarProdutoDto(Some("Mouse"), Some(5000), Some(999), None, None), 1);
    assert recusado == Err(CategoriaNaoEncontrada);

    var c := CategoriaService.CriarCategoria(db, CriarCategoriaDto(Some("Periféricos"), None), 1);
    var cid := c.value.id;
    var p := ProdutoService.CriarProduto(db, CriarProdutoDto(Some("Mouse"), Some(5000), Some(cid), None, Some(10)), 2);
    var pid := p.value.id;
    assert db.produtos[pid].dataAtualizacao == 2;

    var semStatus := AtualizarProdutoDto(None, None, None, None, None, None);
    var invalido := ProdutoService.AtualizarProduto(db, pid, semStatus.(status := Some("QUALQUER")), 3);
    assert invalido == Err(StatusInvalido);
    assert db.produtos[pid].status == Ativo;

    var inativo := ProdutoService.AtualizarProduto(db, pid, semStatus.(status := Some("INATIVO")), 4);
    assert inativo.Ok? && inativo.value.Some?;
    var q := inativo.value.value;
    assert StatusValue(q.status) == "INATIVO";
    assert !ProdutoService.MesmasColunas(p.value, q);
    assert q.status == Inativo && q.estoque == 10 && q.dataAtualizacao == 4;
  }
}
