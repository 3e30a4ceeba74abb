/**
 * The quote object of src/Frete.php: arguments validated and normalised
 * once by the constructor, then `calcular` aggregates the products,
 * chooses the overflow regime, builds the boxes and either lists their
 * queries or prices them through the webservice, given here as the
 * function `correios` from a query to its reply.
 */
module Frete {
  import opened Entrada
  import opened Caixas
  import opened Agregacao
  import opened Correios

  /** What `$freteTotal` (and the return value of `calcular`) can hold. */
  datatype FreteTotal =
    | NaoCalculado                // null: not calculated yet
    | Montante(valor: real)       // a price, or the sum of the box prices
    | Url(consulta: Consulta)     // the single query of a one-box shipment
    | Urls(consultas: seq<Consulta>) // the queries of an overflow, in box order
    | Indefinido                  // measure over 66 with weight within 30: no branch assigns a result

  /** What `obterValorDoFrete` returns for one box. */
  datatype Item = Link(consulta: Consulta) | Preco(valor: real)

  /** The product record read from a validated associative array. */
  function ProdutoDe(m: map<string, real>): Produto
    requires TemTodasAsChaves(m)
  {
    Produto(m["qtd"], m["peso"], m["altura"], m["largura"], m["comprimento"])
  }

  function ProdutosDe(ms: seq<map<string, real>>): (ps: seq<Produto>)
    requires forall i :: 0 <= i < |ms| ==> TemTodasAsChaves(ms[i])
    ensures |ps| == |ms| && forall i :: 0 <= i < |ms| ==> ps[i] == ProdutoDe(ms[i])
  {
    if ms == [] then [] else [ProdutoDe(ms[0])] + ProdutosDe(ms[1..])
  }

  /** The first constructor check that fails, in the constructor's order. */
  function PrimeiroErro(servico: Valor, cepOrigem: Valor, cepDestino: Valor, produtos: Valor,
                        maoPropria: Valor, valorDeclarado: Valor, avisoRecebimento: Valor): (r: Option<Motivo>)
    ensures r.None? <==> servico.Texto? && ValidaCEP(cepOrigem) && ValidaCEP(cepDestino)
                         && ValidaProdutos(produtos) && maoPropria.Logico?
                         && valorDeclarado.Numero? && avisoRecebimento.Logico?
    ensures r == Some(ServicoNaoTexto) <==> !servico.Texto?
    ensures r == Some(CEPOrigemInvalido) <==> servico.Texto? && !ValidaCEP(cepOrigem)
    ensures r == Some(CEPDestinoInvalido) <==> servico.Texto? && ValidaCEP(cepOrigem) && !ValidaCEP(cepDestino)
    ensures r == Some(ProdutosInvalidos) <==>
              servico.Texto? && ValidaCEP(cepOrigem) && ValidaCEP(cepDestino) && !ValidaProdutos(produtos)
    ensures r == Some(MaoPropriaNaoLogico) <==>
              servico.Texto? && ValidaCEP(cepOrigem) && ValidaCEP(cepDestino) && ValidaProdutos(produtos)
              && !maoPropria.Logico?
    ensures r == Some(ValorDeclaradoNaoNumerico) <==>
              servico.Texto? && ValidaCEP(cepOrigem) && ValidaCEP(cepDestino) && ValidaProdutos(produtos)
              && maoPropria.Logico? && !valorDeclarado.Numero?
    ensures r == Some(AvisoRecebimentoNaoLogico) <==>
              servico.Texto? && ValidaCEP(cepOrigem) && ValidaCEP(cepDestino) && ValidaProdutos(produtos)
              && maoPropria.Logico? && valorDeclarado.Numero? && !avisoRecebimento.Logico?
    ensures r != Some(RetornaUrlNaoLogico)
  {
    if !servico.Texto? then Some(ServicoNaoTexto)
    else if !ValidaCEP(cepOrigem) then Some(CEPOrigemInvalido)
    else if !ValidaCEP(cepDestino) then Some(CEPDestinoInvalido)
    else if !ValidaProdutos(produtos) then Some(ProdutosInvalidos)
    else if !maoPropria.Logico? then Some(MaoPropriaNaoLogico)
    else if !valorDeclarado.Numero? then Some(ValorDeclaradoNaoNumerico)
    else if !avisoRecebimento.Logico? then Some(AvisoRecebimentoNaoLogico)
    else None
  }

  datatype Option<+T> = None | Some(value: T)

  class Frete {
    var servico: string
    var cepOrigem: string
    var cepDestino: string
    var produtos: seq<Produto>
    var maoPropria: char
    var valorDeclarado: real
    var avisoRecebimento: char
    var freteTotal: FreteTotal

    /** The state the constructor establishes: normalised CEPs and flags. */
    ghost predicate Valid()
      reads this
    {
      |cepOrigem| == 8 && SoDigitos(cepOrigem) && |cepDestino| == 8 && SoDigitos(cepDestino)
      && (maoPropria == 's' || maoPropria == 'n') && (avisoRecebimento == 's' || avisoRecebimento == 'n')
    }

    /** The assignments at the end of the constructor, once every check passed. */
    constructor Inicia(servico: string, cepOrigem: string, cepDestino: string, produtos: seq<map<string, real>>,
                       maoPropria: bool, valorDeclarado: real, avisoRecebimento: bool)
      requires AceitoPeloPadrao(cepOrigem) && AceitoPeloPadrao(cepDestino)
      requires forall i :: 0 <= i < |produtos| ==> TemTodasAsChaves(produtos[i])
      ensures Valid()
      ensures this.servico == servico && this.valorDeclarado == valorDeclarado
      ensures this.cepOrigem == FormataCEP(cepOrigem) && this.cepDestino == FormataCEP(cepDestino)
      ensures this.produtos == ProdutosDe(produtos)
      ensures this.maoPropria == FormataValorBooleano(maoPropria)
      ensures this.avisoRecebimento == FormataValorBooleano(avisoRecebimento)
      ensures ValorFinal() == NaoCalculado
    {
      FormataCEPDeAceito(cepOrigem);
      FormataCEPDeAceito(cepDestino);
      this.servico := servico;
      this.cepOrigem := FormataCEP(cepOrigem);
      this.cepDestino := FormataCEP(cepDestino);
      this.produtos := ProdutosDe(produtos);
      this.maoPropria := FormataValorBooleano(maoPropria);
      this.valorDeclarado := valorDeclarado;
      this.avisoRecebimento := FormataValorBooleano(avisoRecebimento);
      this.freteTotal := NaoCalculado;
    }

    /**
     * `new Frete(...)`: every argument is checked in order and the first
     * bad one raises InvalidArgumentException; otherwise the object is built.
     */
    static method Criar(servico: Valor, cepOrigem: Valor, cepDestino: Valor, produtos: Valor,
                        maoPropria: Valor, valorDeclarado: Valor, avisoRecebimento: Valor)
      returns (r: Result<Frete>)
      ensures var e := PrimeiroErro(servico, cepOrigem, cepDestino, produtos, maoPropria, valorDeclarado, avisoRecebimento);
              (e.Some? ==> r == Falha(ArgumentoInvalido(e.value))) && (e.None? ==> r.Ok?)
      ensures r.Ok? ==> fresh(r.valor) && r.valor.Valid() && r.valor.ValorFinal() == NaoCalculado
      ensures r.Ok? ==> r.valor.cepOrigem == FormataCEP(cepOrigem.s) && r.valor.cepDestino == FormataCEP(cepDestino.s)
      ensures r.Ok? ==> r.valor.produtos == ProdutosDe(produtos.itens)
      ensures r.Ok? ==> r.valor.maoPropria == FormataValorBooleano(maoPropria.b)
                        && r.valor.avisoRecebimento == FormataValorBooleano(avisoRecebimento.b)
                        && r.valor.servico == servico.s && r.valor.valorDeclarado == valorDeclarado.n
    {
      var e := PrimeiroErro(servico, cepOrigem, cepDestino, produtos, maoPropria, valorDeclarado, avisoRecebimento);
      if e.Some? {
        return Falha(ArgumentoInvalido(e.value));
      }
      var f := new Frete.Inicia(servico.s, cepOrigem.s, cepDestino.s, produtos.itens,
                                maoPropria.b, valorDeclarado.n, avisoRecebimento.b);
      return Ok(f);
    }

    /** `valorFinal`: the stored result, NaoCalculado until a `calcular` succeeds. */
    function ValorFinal(): FreteTotal
      reads this
    {
      freteTotal
    }

    /** The query `obterValorDoFrete` builds for one box. */
    function ConsultaDe(c: Caixa): (q: Consulta)
      reads this
      ensures ParametrosFixos(q)
      ensures q.peso == c.peso && q.altura == c.aresta && q.largura == c.aresta && q.comprimento == c.aresta
      ensures q.cepOrigem == cepOrigem && q.cepDestino == cepDestino && q.servico == servico
      ensures q.maoPropria == maoPropria && q.avisoRecebimento == avisoRecebimento
      ensures q.valorDeclarado == valorDeclarado
      ensures Valid() ==> |q.cepOrigem| == 8 && SoDigitos(q.cepOrigem) && |q.cepDestino| == 8 && SoDigitos(q.cepDestino)
      ensures Valid() ==> q.maoPropria in {'s', 'n'} && q.avisoRecebimento in {'s', 'n'}
    {
      Consulta("", "", cepOrigem, cepDestino, c.peso, 1, c.aresta, c.aresta, c.aresta,
               maoPropria, valorDeclarado, avisoRecebimento, servico, 0, "xml", 3)
    }

    /** `obterValorDoFrete`: the query itself, or the price its reply carries. */
    function ObterValorDoFrete(retornaUrl: bool, c: Caixa, correios: Consulta -> Resposta): (r: Result<Item>)
      reads this
      ensures retornaUrl ==> r == Ok(Link(ConsultaDe(c)))
      ensures var resposta := correios(ConsultaDe(c));
              !retornaUrl ==> (r.Ok? <==> resposta.Servico? && resposta.erro == 0)
      ensures var resposta := correios(ConsultaDe(c));
              !retornaUrl && r.Ok? ==> r.valor == Preco(FormataValorEmReais(resposta.valor))
      ensures !retornaUrl && correios(ConsultaDe(c)) == SemResposta ==>
                r == Falha(FalhaDeExecucao(MsgSemResposta, ErrConsultaWebservice))
      ensures !retornaUrl && correios(ConsultaDe(c)) == XmlInvalido ==>
                r == Falha(FalhaDeExecucao(MsgXmlInvalido, ErrXmlInvalido))
      ensures var resposta := correios(ConsultaDe(c));
              !retornaUrl && resposta.Servico? && resposta.erro == 7 ==>
                r == Falha(FalhaDeExecucao(MsgIndisponivel, ErrServicoIndisponivel))
      ensures var resposta := correios(ConsultaDe(c));
              !retornaUrl && resposta.Servico? && resposta.erro != 0 && resposta.erro != 7 ==>
                r == Falha(FalhaDeExecucao(if MensagemPresente(resposta.msgErro) then resposta.msgErro
                                           else MsgDesconhecido, ErrDesconhecido))
    {
      if retornaUrl then Ok(Link(ConsultaDe(c)))
      else
        match InterpretaResposta(correios(ConsultaDe(c)))
        case Ok(p) => Ok(Preco(p))
        case Falha(e) => Falha(e)
    }

    /** The queries of a list of boxes, in box order. */
    function ConsultasDe(cs: seq<Caixa>): (qs: seq<Consulta>)
      reads this
      ensures |qs| == |cs| && forall i :: 0 <= i < |cs| ==> qs[i] == ConsultaDe(cs[i])
    {
      if cs == [] then [] else ConsultasDe(cs[..|cs| - 1]) + [ConsultaDe(cs[|cs| - 1])]
    }

    /** The prices of a list of boxes, one query each, stopping at the first exception. */
    function PrecosDe(cs: seq<Caixa>, correios: Consulta -> Resposta): (r: Result<seq<real>>)
      reads this
      ensures r.Ok? ==> |r.valor| == |cs|
      ensures r.Falha? ==> r.erro.FalhaDeExecucao?
    {
      if cs == [] then Ok([])
      else
        match PrecosDe(cs[..|cs| - 1], correios)
        case Falha(e) => Falha(e)
        case Ok(ps) =>
          match ObterValorDoFrete(false, cs[|cs| - 1], correios)
          case Falha(e) => Falha(e)
          case Ok(item) => Ok(ps + [item.valor])
    }

    /**
     * Pricing the boxes one by one is pricing their queries: fetching the
     * listed URLs reproduces the prices the direct mode sums.
     */
    lemma {:induction false} PrecosPelasConsultas(cs: seq<Caixa>, correios: Consulta -> Resposta)
      ensures PrecosDe(cs, correios) == PrecosDasConsultas(ConsultasDe(cs), correios)
    {
      if cs != [] {
        var ini := cs[..|cs| - 1];
        PrecosPelasConsultas(ini, correios);
        assert ConsultasDe(cs)[..|cs| - 1] == ConsultasDe(ini);
      }
    }

    /**
     * One pass of either overflow loop: the box's query is appended in URL
     * mode, its price in price mode, or its exception ends the pricing.
     */
    lemma Registra(retornaUrl: bool, feitas: seq<Caixa>, c: Caixa, correios: Consulta -> Resposta,
                   consultas: seq<Consulta>, precos: seq<real>)
      requires retornaUrl ==> consultas == ConsultasDe(feitas)
      requires !retornaUrl ==> PrecosDe(feitas, correios) == Ok(precos)
      ensures var item := ObterValorDoFrete(retornaUrl, c, correios);
              item.Falha? ==> !retornaUrl && PrecosDe(feitas + [c], correios) == Falha(item.erro)
      ensures var item := ObterValorDoFrete(retornaUrl, c, correios);
              item.Ok? && retornaUrl ==>
                item.valor.Link? && consultas + [item.valor.consulta] == ConsultasDe(feitas + [c])
      ensures var item := ObterValorDoFrete(retornaUrl, c, correios);
              item.Ok? && !retornaUrl ==>
                item.valor.Preco? && PrecosDe(feitas + [c], correios) == Ok(precos + [item.valor.valor])
    {
      assert (feitas + [c])[..|feitas|] == feitas;
    }

    /** Once a box fails, later boxes are never priced and the failure stands. */
    lemma {:induction false} FalhaInterrompe(cs: seq<Caixa>, ds: seq<Caixa>, correios: Consulta -> Resposta)
      requires PrecosDe(cs, correios).Falha?
      ensures PrecosDe(cs + ds, correios) == PrecosDe(cs, correios)
    {
      if ds == [] {
        assert cs + ds == cs;
      } else {
        var ini := ds[..|ds| - 1];
        FalhaInterrompe(cs, ini, correios);
        assert (cs + ds)[..|cs + ds| - 1] == cs + ini;
      }
    }

    /** The result of an overflow: the list of queries, or the sum of the prices. */
    function Transbordo(retornaUrl: bool, cs: seq<Caixa>, correios: Consulta -> Resposta): Result<FreteTotal>
      reads this
    {
      if retornaUrl then Ok(Urls(ConsultasDe(cs)))
      else
        match PrecosDe(cs, correios)
        case Ok(ps) => Ok(Montante(Soma(ps)))
        case Falha(e) => Falha(e)
    }

    /** The outcome of `calcular` once its argument is known to be boolean. */
    function Calculo(retornaUrl: bool, correios: Consulta -> Resposta): (r: Result<FreteTotal>)
      reads this
      ensures retornaUrl ==> r.Ok?
      ensures r.Falha? ==> r.erro.FalhaDeExecucao?
      ensures r.Ok? ==> r.valor != NaoCalculado
      ensures r.Ok? && (r.valor.Url? || r.valor.Urls?) ==> retornaUrl
      ensures r.Ok? && r.valor.Montante? ==> !retornaUrl
      ensures r.Ok? && r.valor.Urls? ==> |r.valor.consultas| >= 1
      ensures r == Ok(Indefinido) <==>
                RegimeDe(PesoFinal(SomaPesos(produtos)), MedidaDe(SomaVolumes(produtos))) == SemRegra
    {
      var peso := PesoFinal(SomaPesos(produtos));
      var medida := MedidaDe(SomaVolumes(produtos));
      match RegimeDe(peso, medida)
      case Simples =>
        (match ObterValorDoFrete(retornaUrl, Caixa(peso, medida), correios)
         case Ok(Link(q)) => Ok(Url(q))
         case Ok(Preco(p)) => Ok(Montante(p))
         case Falha(e) => Falha(e))
      case TransbordoDePeso => Transbordo(retornaUrl, CaixasDePeso(peso, medida), correios)
      case TransbordoDePesoEMedida => Transbordo(retornaUrl, CaixasDePesoEMedida(peso, medida), correios)
      case SemRegra => Ok(Indefinido)
    }

    /** In URL mode the webservice is never called: any two oracles give the same result. */
    lemma UrlsNaoConsultam(correios: Consulta -> Resposta, outro: Consulta -> Resposta)
      ensures Calculo(true, correios) == Calculo(true, outro)
      ensures Calculo(true, correios).Ok?
    {
    }

    /**
     * The two modes agree for every reply function: pricing the queries
     * the URL mode lists gives exactly the outcome of the direct mode, the
     * same total when every query is priced and the same exception when
     * one is not.
     */
    lemma ModosConcordam(correios: Consulta -> Resposta)
      ensures Calculo(true, correios).Ok?
      ensures match Calculo(true, correios).valor
              case Urls(qs) =>
                Calculo(false, correios) == (match PrecosDasConsultas(qs, correios)
                                             case Ok(ps) => Ok(Montante(Soma(ps)))
                                             case Falha(e) => Falha(e))
              case Url(q) =>
                Calculo(false, correios) == (match InterpretaResposta(correios(q))
                                             case Ok(p) => Ok(Montante(p))
                                             case Falha(e) => Falha(e))
              case _ => Calculo(false, correios) == Ok(Indefinido)
    {
      var peso := PesoFinal(SomaPesos(produtos));
      var medida := MedidaDe(SomaVolumes(produtos));
      match RegimeDe(peso, medida)
      case TransbordoDePeso => PrecosPelasConsultas(CaixasDePeso(peso, medida), correios);
      case TransbordoDePesoEMedida => PrecosPelasConsultas(CaixasDePesoEMedida(peso, medida), correios);
      case _ =>
    }

    /**
     * `calcular`: a non-boolean argument is refused; otherwise the result
     * is stored in `freteTotal` and returned, unless an exception leaves
     * the previous value in place.
     */
    method Calcular(retornaUrl: Valor, correios: Consulta -> Resposta) returns (r: Result<FreteTotal>)
      modifies this`freteTotal
      ensures !retornaUrl.Logico? ==> r == Falha(ArgumentoInvalido(RetornaUrlNaoLogico))
      ensures retornaUrl.Logico? ==> r == old(Calculo(retornaUrl.b, correios))
      ensures freteTotal == if r.Ok? then r.valor else old(freteTotal)
    {
      if !retornaUrl.Logico? {
        return Falha(ArgumentoInvalido(RetornaUrlNaoLogico));
      }
      var pesoTotal, volumeTotal := Totais();
      var medida := MedidaDe(volumeTotal);
      pesoTotal := if pesoTotal < 0.3 then 0.3 else pesoTotal;
      if medida > 66 || pesoTotal > 30.0 {
        if pesoTotal > 30.0 && medida < 67 {
          r := TransbordoDePeso(retornaUrl.b, pesoTotal, medida, correios);
        } else if pesoTotal > 30.0 && medida > 66 {
          r := TransbordoDePesoEMedida(retornaUrl.b, pesoTotal, medida, correios);
        } else {
          r := Ok(Indefinido);
        }
      } else {
        var item := ObterValorDoFrete(retornaUrl.b, Caixa(pesoTotal, medida), correios);
        r := match item
             case Ok(Link(q)) => Ok(Url(q))
             case Ok(Preco(p)) => Ok(Montante(p))
             case Falha(e) => Falha(e);
      }
      if r.Ok? {
        freteTotal := r.valor;
      }
    }

    /** The `foreach` of `calcular`: raise the dimensions to their floors and accumulate. */
    method Totais() returns (pesoTotal: real, volumeTotal: real)
      ensures pesoTotal == SomaPesos(produtos)
      ensures volumeTotal == SomaVolumes(produtos)
    {
      pesoTotal, volumeTotal := 0.0, 0.0;
      var i := 0;
      while i < |produtos|
        invariant 0 <= i <= |produtos|
        invariant pesoTotal == SomaPesos(produtos[..i])
        invariant volumeTotal == SomaVolumes(produtos[..i])
      {
        var produto := Normaliza(produtos[i]);
        pesoTotal := pesoTotal + produto.peso * produto.qtd;
        volumeTotal := volumeTotal + VolumeDe(produto);
        assert produtos[..i + 1][..i] == produtos[..i];
        i := i + 1;
      }
      assert produtos[..i] == produtos;
    }

    /**
     * `transbordoDePeso`: a do-while loop that queries one box per pass and
     * lowers the remaining weight by 30 until it is no longer positive.
     */
    method TransbordoDePeso(retornaUrl: bool, peso: real, medida: int, correios: Consulta -> Resposta)
      returns (r: Result<FreteTotal>)
      ensures r == Transbordo(retornaUrl, CaixasDePeso(peso, medida), correios)
    {
      ghost var todas := CaixasDePeso(peso, medida);
      ghost var feitas: seq<Caixa> := [];
      var consultas: seq<Consulta> := [];
      var precos: seq<real> := [];
      var pesoTemp := peso;
      ghost var i := 0;
      var continua := true;
      while continua
        invariant 0 <= i <= |todas|
        invariant pesoTemp == peso - 30.0 * i as real
        invariant feitas == todas[..i]
        invariant continua ==> i == 0 || pesoTemp > 0.0
        invariant !continua ==> i == |todas|
        invariant retornaUrl ==> consultas == ConsultasDe(feitas)
        invariant !retornaUrl ==> PrecosDe(feitas, correios) == Ok(precos)
        decreases |todas| - i, continua
      {
        // the local edge the code computes here is never used: every query takes `medida`
        var medidaLocal := if pesoTemp != peso then 16 else medida;
        var pesio := Intval(pesoTemp / 30.0);
        var caixa := Caixa((pesio * 30) as real, medida);
        CaixaDaPassadaDePeso(peso, medida, i, pesoTemp);
        var item := ObterValorDoFrete(retornaUrl, caixa, correios);
        PrefixoMaisUm(todas, i);
        Registra(retornaUrl, feitas, caixa, correios, consultas, precos);
        if item.Falha? {
          FalhaInterrompe(todas[..i + 1], todas[i + 1..], correios);
          Divide(todas, i + 1);
          return Falha(item.erro);
        }
        match item.valor {
          case Link(q) => consultas := consultas + [q];
          case Preco(p) => precos := precos + [p];
        }
        feitas := feitas + [caixa];
        pesoTemp := pesoTemp - 30.0;
        i := i + 1;
        continua := pesoTemp > 0.0;
      }
      assert feitas == todas;
      r := if retornaUrl then Ok(Urls(consultas)) else Ok(Montante(Soma(precos)));
    }

    /**
     * `transbordoDePesoEMedida`: a do-while loop that lowers the remaining
     * measure by 66 and the remaining weight by 30 (each only while above
     * its limit), then queries one box, until both are within their limits.
     */
    method TransbordoDePesoEMedida(retornaUrl: bool, peso: real, medida: int, correios: Consulta -> Resposta)
      returns (r: Result<FreteTotal>)
      ensures r == Transbordo(retornaUrl, CaixasDePesoEMedida(peso, medida), correios)
    {
      ghost var todas := CaixasDePesoEMedida(peso, medida);
      ghost var feitas: seq<Caixa> := [];
      var consultas: seq<Consulta> := [];
      var precos: seq<real> := [];
      var medidaR := medida;
      var pesoR := peso;
      var continua := true;
      while continua
        invariant continua ==> feitas + CaixasDePesoEMedida(pesoR, medidaR) == todas
        invariant !continua ==> feitas == todas
        invariant retornaUrl ==> consultas == ConsultasDe(feitas)
        invariant !retornaUrl ==> PrecosDe(feitas, correios) == Ok(precos)
        decreases if continua then |CaixasDePesoEMedida(pesoR, medidaR)| else 0
      {
        ghost var resto := CaixasDePesoEMedida(pesoR, medidaR);
        ghost var depois := ProximasCaixas(pesoR, medidaR);
        medidaR := if medidaR > 66 then medidaR - 66 else medidaR;
        pesoR := if pesoR > 30.0 then pesoR - 30.0 else pesoR;
        var med := if medidaR - (medidaR - 66) > 16 then medidaR - (medidaR - 66) else medidaR;
        var pes := if pesoR > 30.0 then pesoR - (pesoR - 30.0) else pesoR;
        var caixa := Caixa(pes, med);
        assert caixa == CaixaDaPassada(pesoR, medidaR);
        assert resto == [caixa] + depois;
        Associa(feitas, [caixa], depois);
        var item := ObterValorDoFrete(retornaUrl, caixa, correios);
        Registra(retornaUrl, feitas, caixa, correios, consultas, precos);
        if item.Falha? {
          FalhaInterrompe(feitas + [caixa], depois, correios);
          return Falha(item.erro);
        }
        match item.valor {
          case Link(q) => consultas := consultas + [q];
          case Preco(p) => precos := precos + [p];
        }
        feitas := feitas + [caixa];
        continua := pesoR > 30.0 || medidaR > 66;
        assert !continua ==> feitas == todas;
      }
      r := if retornaUrl then Ok(Urls(consultas)) else Ok(Montante(Soma(precos)));
    }
  }
}
