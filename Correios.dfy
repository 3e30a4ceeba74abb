/**
 * The pricing webservice seen from the quote: the query sent for one box,
 * the parsed reply, and how src/Frete.php interprets that reply.
 * The HTTP request and the XML parsing are not modelled: a reply is
 * given to the model as a value.
 */
module Correios {
  import opened Entrada

  /**
   * The query parameters of one box, in the order the query string lists
   * them (nCdEmpresa, sDsSenha, sCepOrigem, sCepDestino, nVlPeso,
   * nCdFormato, nVlComprimento, nVlAltura, nVlLargura, sCdMaoPropria,
   * nVlValorDeclarado, sCdAvisoRecebimento, nCdServico, nVlDiametro,
   * StrRetorno, nIndicaCalculo).
   */
  datatype Consulta = Consulta(
    empresa: string,
    senha: string,
    cepOrigem: string,
    cepDestino: string,
    peso: real,
    formato: int,
    comprimento: int,
    altura: int,
    largura: int,
    maoPropria: char,
    valorDeclarado: real,
    avisoRecebimento: char,
    servico: string,
    diametro: int,
    formatoRetorno: string,
    indicaCalculo: int)

  /** The constant parameters every query carries. */
  predicate ParametrosFixos(q: Consulta)
  {
    q.empresa == "" && q.senha == "" && q.formato == 1 && q.diametro == 0
    && q.formatoRetorno == "xml" && q.indicaCalculo == 3
  }

  /**
   * What comes back for a query: no answer at all, a body that is not
   * XML, or the service record with its error code, price and message.
   */
  datatype Resposta =
    | SemResposta
    | XmlInvalido
    | Servico(erro: int, valor: string, msgErro: string)

  /** The exception codes of src/Frete.php. */
  const ErrDesconhecido: int := -1
  const ErrConsultaWebservice: int := 0
  const ErrXmlInvalido: int := 1
  const ErrServicoIndisponivel: int := 7

  /** Why the constructor or `calcular` refuses an argument. */
  datatype Motivo =
    | ServicoNaoTexto
    | CEPOrigemInvalido
    | CEPDestinoInvalido
    | ProdutosInvalidos
    | MaoPropriaNaoLogico
    | ValorDeclaradoNaoNumerico
    | AvisoRecebimentoNaoLogico
    | RetornaUrlNaoLogico

  /** InvalidArgumentException and RuntimeException (with its code). */
  datatype Excecao =
    | ArgumentoInvalido(motivo: Motivo)
    | FalhaDeExecucao(mensagem: string, codigo: int)

  datatype Result<+T> = Ok(valor: T) | Falha(erro: Excecao)

  const MsgSemResposta: string := "Não foi possível obter uma resposta do Webservice dos Correios"
  const MsgXmlInvalido: string :=
    "Não foi possível reconhecer o XML na resposta do Webservice dos Correios. Talvez algum parâmetro enviado esteja inválido."
  const MsgIndisponivel: string := "Serviço temporariamente indisponível."
  const MsgDesconhecido: string := "Não foi possível obter o valor do frete pelos Correios."

  /** PHP truthiness of the message text: the empty string and "0" are false. */
  predicate MensagemPresente(msg: string) { msg != "" && msg != "0" }

  /**
   * The reply handling of `obterValorDoFrete`: code 0 gives the price in
   * Brazilian format, code 7 the "unavailable" exception, any other code
   * the carrier's message (or a fallback) with code -1.
   */
  function InterpretaResposta(resposta: Resposta): (r: Result<real>)
    ensures r.Ok? <==> resposta.Servico? && resposta.erro == 0
    ensures r.Ok? ==> r.valor == FormataValorEmReais(resposta.valor)
    ensures r.Falha? ==> r.erro.FalhaDeExecucao?
    ensures resposta == SemResposta ==> r.erro.codigo == ErrConsultaWebservice
    ensures resposta == XmlInvalido ==> r.erro.codigo == ErrXmlInvalido
    ensures resposta.Servico? && resposta.erro == 7 ==> r.erro == FalhaDeExecucao(MsgIndisponivel, ErrServicoIndisponivel)
    ensures resposta.Servico? && resposta.erro != 0 && resposta.erro != 7 ==>
              r.erro.codigo == ErrDesconhecido &&
              r.erro.mensagem == (if MensagemPresente(resposta.msgErro) then resposta.msgErro else MsgDesconhecido)
  {
    match resposta
    case SemResposta => Falha(FalhaDeExecucao(MsgSemResposta, ErrConsultaWebservice))
    case XmlInvalido => Falha(FalhaDeExecucao(MsgXmlInvalido, ErrXmlInvalido))
    case Servico(erro, valor, msgErro) =>
      if erro == 0 then Ok(FormataValorEmReais(valor))
      else if erro == 7 then Falha(FalhaDeExecucao(MsgIndisponivel, ErrServicoIndisponivel))
      else Falha(FalhaDeExecucao(if MensagemPresente(msgErro) then msgErro else MsgDesconhecido, ErrDesconhecido))
  }

  /** The prices of a list of queries, one call each, stopping at the first failure. */
  function PrecosDasConsultas(qs: seq<Consulta>, correios: Consulta -> Resposta): (r: Result<seq<real>>)
    ensures r.Ok? ==> |r.valor| == |qs|
    ensures r.Ok? ==> forall i :: 0 <= i < |qs| ==> InterpretaResposta(correios(qs[i])) == Ok(r.valor[i])
  {
    if qs == [] then Ok([])
    else
      match PrecosDasConsultas(qs[..|qs| - 1], correios)
      case Falha(e) => Falha(e)
      case Ok(ps) =>
        match InterpretaResposta(correios(qs[|qs| - 1]))
        case Falha(e) => Falha(e)
        case Ok(p) => Ok(ps + [p])
  }

  /**
   * A failed pricing is the exception of the first query whose reply is
   * not a price: every query before it was priced.
   */
  lemma {:induction false} PrimeiraFalha(qs: seq<Consulta>, correios: Consulta -> Resposta) returns (i: nat)
    requires PrecosDasConsultas(qs, correios).Falha?
    ensures i < |qs| && InterpretaResposta(correios(qs[i])) == Falha(PrecosDasConsultas(qs, correios).erro)
    ensures forall j :: 0 <= j < i ==> InterpretaResposta(correios(qs[j])).Ok?
  {
    var ini := qs[..|qs| - 1];
    if PrecosDasConsultas(ini, correios).Falha? {
      i := PrimeiraFalha(ini, correios);
      assert qs[i] == ini[i];
      assert forall j :: 0 <= j < i ==> qs[j] == ini[j];
    } else {
      i := |qs| - 1;
      assert forall j :: 0 <= j < i ==> qs[j] == ini[j];
    }
  }

  /** `array_sum` of the prices, in order. */
  function Soma(xs: seq<real>): real
  {
    if xs == [] then 0.0 else Soma(xs[..|xs| - 1]) + xs[|xs| - 1]
  }
}
