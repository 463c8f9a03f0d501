/** `ResponseUtils`: the envelope every endpoint answers with. A response is the dictionary handed
    to `jsonify` together with the HTTP status code; the JSON rendering itself is not modelled. */
module ResponseUtils {
  import opened Wrappers
  import opened JsonValue

  /** The body of a response (the dictionary before `jsonify`) and its status code. */
  datatype Resposta = Resposta(corpo: map<string, Json>, codigo: int)

  /** Default messages and codes of the helpers. */
  const MensagemSucesso: string := "Operação realizada com sucesso"
  const MensagemCriado: string := "Recurso criado com sucesso"
  const MensagemDadosInvalidos: string := "Dados inválidos"
  const MensagemErroInterno: string := "Erro interno do servidor"
  const RecursoPadrao: string := "Recurso"
  const SufixoNaoEncontrado: string := " não encontrado"

  /** The keys of a success body and of an error body. */
  const ChavesSucesso: set<string> := {"sucesso", "mensagem", "dados"}
  const ChavesErro: set<string> := {"sucesso", "mensagem", "detalhes"}

  /** The body reports success. */
  predicate Sucedeu(r: Resposta) {
    "sucesso" in r.corpo && r.corpo["sucesso"] == JBool(true)
  }

  /** The body reports failure. */
  predicate Falhou(r: Resposta) {
    "sucesso" in r.corpo && r.corpo["sucesso"] == JBool(false)
  }

  /** `sucesso(data=None, mensagem=..., status_code=200)`: the data travels unchanged under
      `dados`, `null` when omitted. */
  function Sucesso(dados: Arg<Json>, mensagem: Arg<string>, codigo: Arg<int>): (r: Resposta)
    ensures r.corpo.Keys == ChavesSucesso && Sucedeu(r) && !Falhou(r)
    ensures r.corpo["dados"] == (if dados.Given? then dados.value else JNull)
    ensures r.corpo["mensagem"] == JStr(if mensagem.Given? then mensagem.value else MensagemSucesso)
    ensures codigo.Omitted? ==> r.codigo == 200
    ensures codigo.Given? ==> r.codigo == codigo.value
  {
    Resposta(map["sucesso" := JBool(true), "mensagem" := JStr(mensagem.Or(MensagemSucesso)),
                 "dados" := dados.Or(JNull)],
             codigo.Or(200))
  }

  /** `erro(mensagem, detalhes=None, status_code=400)`: `detalhes or []` turns both a missing
      and an empty list into the empty list, and keeps any other list as it is. */
  function Erro(mensagem: string, detalhes: Option<seq<string>>, codigo: Arg<int>): (r: Resposta)
    ensures r.corpo.Keys == ChavesErro && Falhou(r) && !Sucedeu(r)
    ensures r.corpo["mensagem"] == JStr(mensagem)
    ensures detalhes.None? ==> r.corpo["detalhes"] == JArray([])
    ensures detalhes.Some? ==> r.corpo["detalhes"] == JStrs(detalhes.value)
    ensures codigo.Omitted? ==> r.codigo == 400
    ensures codigo.Given? ==> r.codigo == codigo.value
  {
    Resposta(map["sucesso" := JBool(false), "mensagem" := JStr(mensagem),
                 "detalhes" := JStrs(if detalhes.Some? && detalhes.value != [] then detalhes.value else [])],
             codigo.Or(400))
  }

  /** Passing no details and passing an empty list give the same response. */
  lemma DetalhesVaziosComoAusentes(mensagem: string, codigo: Arg<int>)
    ensures Erro(mensagem, None, codigo) == Erro(mensagem, Some([]), codigo)
  {
  }

  /** `erro_validacao(erros)`: 422, "Dados inválidos", and the violation messages as details, in
      their order. */
  function ErroValidacao(erros: seq<string>): (r: Resposta)
    ensures r == Erro(MensagemDadosInvalidos, Some(erros), Given(422))
    ensures r.codigo == 422 && Falhou(r)
    ensures r.corpo["detalhes"].items == seq(|erros|, i requires 0 <= i < |erros| => JStr(erros[i]))
  {
    Erro(MensagemDadosInvalidos, Some(erros), Given(422))
  }

  /** `nao_encontrado(recurso="Recurso")`: 404, the message "<recurso> não encontrado", and no
      details. */
  function NaoEncontrado(recurso: Arg<string>): (r: Resposta)
    ensures r == Erro((if recurso.Given? then recurso.value else RecursoPadrao) + SufixoNaoEncontrado, None, Given(404))
    ensures r.codigo == 404 && Falhou(r) && r.corpo["detalhes"] == JArray([])
  {
    Erro(recurso.Or(RecursoPadrao) + SufixoNaoEncontrado, None, Given(404))
  }

  /** `erro_interno(mensagem="Erro interno do servidor")`: 500, with the message passed through
      verbatim and no details. */
  function ErroInterno(mensagem: Arg<string>): (r: Resposta)
    ensures r == Erro(if mensagem.Given? then mensagem.value else MensagemErroInterno, None, Given(500))
    ensures r.codigo == 500 && Falhou(r) && r.corpo["detalhes"] == JArray([])
  {
    Erro(mensagem.Or(MensagemErroInterno), None, Given(500))
  }

  /** `criado(data, mensagem="Recurso criado com sucesso")`: `sucesso` with code 201. */
  function Criado(dados: Json, mensagem: Arg<string>): (r: Resposta)
    ensures r == Sucesso(Given(dados), Given(if mensagem.Given? then mensagem.value else MensagemCriado), Given(201))
    ensures r.codigo == 201 && Sucedeu(r) && r.corpo["dados"] == dados
  {
    Sucesso(Given(dados), Given(mensagem.Or(MensagemCriado)), Given(201))
  }

  /** `sem_conteudo(mensagem="Operação realizada com sucesso")`: code 204 and a body with only
      `sucesso` and `mensagem`, so no `dados` field. */
  function SemConteudo(mensagem: Arg<string>): (r: Resposta)
    ensures r.corpo.Keys == {"sucesso", "mensagem"} && "dados" !in r.corpo
    ensures r.codigo == 204 && Sucedeu(r)
    ensures r.corpo["mensagem"] == JStr(if mensagem.Given? then mensagem.value else MensagemSucesso)
  {
    Resposta(map["sucesso" := JBool(true), "mensagem" := JStr(mensagem.Or(MensagemSucesso))], 204)
  }

  /** With their default codes, the helpers that report success answer in the 2xx range and the
      helpers that report failure answer in the 4xx and 5xx ranges, so the body's `sucesso` flag
      always agrees with the status class. */
  lemma FlagConcordaComCodigo(
    dados: Arg<Json>, criado: Json, mensagem: Arg<string>, m: string, detalhes: Option<seq<string>>,
    erros: seq<string>, recurso: Arg<string>)
    ensures var r := Sucesso(dados, mensagem, Omitted); Sucedeu(r) && 200 <= r.codigo < 300
    ensures var r := Criado(criado, mensagem); Sucedeu(r) && 200 <= r.codigo < 300
    ensures var r := SemConteudo(mensagem); Sucedeu(r) && 200 <= r.codigo < 300
    ensures var r := Erro(m, detalhes, Omitted); Falhou(r) && 400 <= r.codigo < 600
    ensures var r := ErroValidacao(erros); Falhou(r) && 400 <= r.codigo < 600
    ensures var r := NaoEncontrado(recurso); Falhou(r) && 400 <= r.codigo < 600
    ensures var r := ErroInterno(mensagem); Falhou(r) && 400 <= r.codigo < 600
  {
  }
}
