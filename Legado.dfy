/**
 * The older quote object of the root Frete.php: no argument checks, no
 * exceptions, and each box's reply comes back as text (the raw price or a
 * message to the customer). The aggregation, the regime dispatch and the
 * two box loops are those of src/Frete.php.
 */
module Legado {
  import opened Entrada
  import opened Caixas
  import opened Agregacao
  import opened Correios
  import Atual = Frete

  /** What `calculaFreteCaixa` returns for one box. */
  datatype Retorno =
    | ValorBruto(texto: string)   // the reply's Valor, untouched (Brazilian format, comma decimal)
    | Aviso(texto: string)        // a message for the customer instead of a price

  /** What `$freteTotal` holds. */
  datatype TotalLegado =
    | Zero                          // 0.00: not calculated yet
    | Retornos(itens: seq<Retorno>) // the replies of the boxes, in box order
    | Indefinido                    // measure over 66 with weight within 30: `$somaFrete` is never assigned

  const MsgIndisponivelLegado: string := "Serviço temporariamente indisponível, tente novamente mais tarde."
  const MsgSemCalculo: string := "Seu frete não pôde ser calculado.<br />Entraremos em contato."

  /** A key of a product array; an unset key reads as null, which is 0 in arithmetic. */
  function Campo(m: map<string, real>, chave: string): (v: real)
    ensures chave in m ==> v == m[chave]
    ensures chave !in m ==> v == 0.0
  {
    if chave in m then m[chave] else 0.0
  }

  /** The product as the loop reads it, unset keys included. */
  function ProdutoDoMapa(m: map<string, real>): Produto
  {
    Produto(Campo(m, "qtd"), Campo(m, "peso"), Campo(m, "altura"), Campo(m, "largura"), Campo(m, "comprimento"))
  }

  function ProdutosDoMapa(ms: seq<map<string, real>>): (ps: seq<Produto>)
    ensures |ps| == |ms| && forall i :: 0 <= i < |ms| ==> ps[i] == ProdutoDoMapa(ms[i])
  {
    if ms == [] then [] else ProdutosDoMapa(ms[..|ms| - 1]) + [ProdutoDoMapa(ms[|ms| - 1])]
  }

  /**
   * The three clamps of the loop, written with their falsy test: an unset
   * or zero dimension is raised like any other below its floor, so the
   * result is the normalisation of src/Frete.php.
   */
  function NormalizaLegado(m: map<string, real>): (p: Produto)
    ensures p == Normaliza(ProdutoDoMapa(m))
    ensures "altura" !in m ==> p.altura == AlturaMinima
    ensures "largura" !in m ==> p.largura == LarguraMinima
    ensures "comprimento" !in m ==> p.comprimento == ComprimentoMinimo
  {
    var altura := Campo(m, "altura");
    var largura := Campo(m, "largura");
    var comprimento := Campo(m, "comprimento");
    Produto(Campo(m, "qtd"), Campo(m, "peso"),
            if altura == 0.0 || altura < 2.0 then 2.0 else altura,
            if largura == 0.0 || largura < 11.0 then 11.0 else largura,
            if comprimento == 0.0 || comprimento < 16.0 then 16.0 else comprimento)
  }

  /**
   * On arrays that carry all five keys the two versions read the same
   * products, so they aggregate to the same weight, volume and measure.
   */
  lemma {:induction false} ProdutosConcordam(ms: seq<map<string, real>>)
    requires forall i :: 0 <= i < |ms| ==> TemTodasAsChaves(ms[i])
    ensures ProdutosDoMapa(ms) == Atual.ProdutosDe(ms)
  {
    var ps, qs := ProdutosDoMapa(ms), Atual.ProdutosDe(ms);
    assert |ps| == |qs|;
    forall i | 0 <= i < |ms|
      ensures ps[i] == qs[i]
    {
      assert TemTodasAsChaves(ms[i]);
    }
  }

  class Frete {
    var servico: string
    var cepOrigem: string
    var cepDestino: string
    var produtos: seq<map<string, real>>
    var mostraURL: bool
    var freteTotal: TotalLegado

    /** The constructor stores its arguments as given. */
    constructor (servico: string, cepOrigem: string, cepDestino: string,
                 produtos: seq<map<string, real>>, mostraURL: bool)
      ensures this.servico == servico && this.cepOrigem == cepOrigem && this.cepDestino == cepDestino
      ensures this.produtos == produtos && this.mostraURL == mostraURL
      ensures GetFrete() == Zero
    {
      this.servico := servico;
      this.cepOrigem := cepOrigem;
      this.cepDestino := cepDestino;
      this.produtos := produtos;
      this.mostraURL := mostraURL;
      this.freteTotal := Zero;
    }

    /** `getFrete`: the stored total. */
    function GetFrete(): TotalLegado
      reads this
    {
      freteTotal
    }

    /** The query of one box: CEPs as given, no own-hand or receipt service, nothing declared. */
    function ConsultaLegada(c: Caixa): (q: Consulta)
      reads this
      ensures ParametrosFixos(q)
      ensures q.peso == c.peso && q.altura == c.aresta && q.largura == c.aresta && q.comprimento == c.aresta
      ensures q.maoPropria == 'n' && q.avisoRecebimento == 'n' && q.valorDeclarado == 0.0
      ensures q.cepOrigem == cepOrigem && q.cepDestino == cepDestino && q.servico == servico
    {
      Consulta("", "", cepOrigem, cepDestino, c.peso, 1, c.aresta, c.aresta, c.aresta,
               'n', 0.0, 'n', servico, 0, "xml", 3)
    }

    /**
     * `calculaFreteCaixa` never fails: code 0 gives the raw price, anything
     * else (no reply, no XML, another code) the generic message. Its
     * strict `=== '7'` test compares an XML node with a string and never
     * holds, so the "unavailable" message is never returned.
     */
    function CalculaFreteCaixa(c: Caixa, correios: Consulta -> Resposta): (r: Retorno)
      reads this
      ensures var resposta := correios(ConsultaLegada(c));
              r.ValorBruto? <==> resposta.Servico? && resposta.erro == 0
      ensures r.ValorBruto? ==> r.texto == correios(ConsultaLegada(c)).valor
      ensures r.Aviso? ==> r.texto == MsgSemCalculo
      ensures r != Aviso(MsgIndisponivelLegado)
    {
      var resposta := correios(ConsultaLegada(c));
      if resposta.Servico? && resposta.erro == 0 then ValorBruto(resposta.valor)
      else Aviso(MsgSemCalculo)
    }

    /** The replies of a list of boxes, in box order. */
    function RetornosDe(cs: seq<Caixa>, correios: Consulta -> Resposta): (rs: seq<Retorno>)
      reads this
      ensures |rs| == |cs| && forall i :: 0 <= i < |cs| ==> rs[i] == CalculaFreteCaixa(cs[i], correios)
    {
      if cs == [] then [] else RetornosDe(cs[..|cs| - 1], correios) + [CalculaFreteCaixa(cs[|cs| - 1], correios)]
    }

    /** The outcome of `calculaFrete` for the stored products. */
    function CalculoLegado(correios: Consulta -> Resposta): (r: TotalLegado)
      reads this
      ensures r != Zero
      ensures r.Indefinido? <==>
                RegimeDe(PesoFinal(SomaPesos(ProdutosDoMapa(produtos))),
                         MedidaDe(SomaVolumes(ProdutosDoMapa(produtos)))) == SemRegra
      ensures r.Retornos? ==> |r.itens| >= 1
      ensures r.Retornos? ==> forall i :: 0 <= i < |r.itens| ==> r.itens[i] != Aviso(MsgIndisponivelLegado)
    {
      var produtos := ProdutosDoMapa(produtos);
      var peso := PesoFinal(SomaPesos(produtos));
      var medida := MedidaDe(SomaVolumes(produtos));
      match RegimeDe(peso, medida)
      case Simples => Retornos([CalculaFreteCaixa(Caixa(peso, medida), correios)])
      case TransbordoDePeso => Retornos(RetornosDe(CaixasDePeso(peso, medida), correios))
      case TransbordoDePesoEMedida => Retornos(RetornosDe(CaixasDePesoEMedida(peso, medida), correios))
      case SemRegra => Indefinido
    }

    /**
     * With all five keys present the old and the new quote work on the same
     * boxes `caixas`: the new one lists their queries, the old one answers
     * each of them with `calculaFreteCaixa`, and both leave the same case
     * undefined.
     */
    lemma MesmasConsultas(atual: Atual.Frete, correios: Consulta -> Resposta) returns (caixas: seq<Caixa>)
      requires forall i :: 0 <= i < |produtos| ==> TemTodasAsChaves(produtos[i])
      requires atual.produtos == Atual.ProdutosDe(produtos)
      ensures atual.Calculo(true, correios).Ok?
      ensures atual.Calculo(true, correios).valor.Urls? ==>
                atual.Calculo(true, correios).valor.consultas == atual.ConsultasDe(caixas)
                && CalculoLegado(correios) == Retornos(RetornosDe(caixas, correios))
      ensures atual.Calculo(true, correios).valor.Url? ==>
                |caixas| == 1 && atual.Calculo(true, correios).valor.consulta == atual.ConsultaDe(caixas[0])
                && CalculoLegado(correios) == Retornos([CalculaFreteCaixa(caixas[0], correios)])
      ensures CalculoLegado(correios).Indefinido? <==> atual.Calculo(true, correios).valor.Indefinido?
      ensures atual.Calculo(true, correios).valor.Urls? ==>
                CalculoLegado(correios).Retornos?
                && |CalculoLegado(correios).itens| == |atual.Calculo(true, correios).valor.consultas|
      ensures atual.Calculo(true, correios).valor.Url? ==>
                CalculoLegado(correios).Retornos? && |CalculoLegado(correios).itens| == 1
    {
      ProdutosConcordam(produtos);
      var ps := ProdutosDoMapa(produtos);
      var peso := PesoFinal(SomaPesos(ps));
      var medida := MedidaDe(SomaVolumes(ps));
      match RegimeDe(peso, medida)
      case Simples =>
        caixas := [Caixa(peso, medida)];
      case TransbordoDePeso =>
        caixas := CaixasDePeso(peso, medida);
        assert |RetornosDe(caixas, correios)| == |atual.ConsultasDe(caixas)|;
      case TransbordoDePesoEMedida =>
        caixas := CaixasDePesoEMedida(peso, medida);
        assert |RetornosDe(caixas, correios)| == |atual.ConsultasDe(caixas)|;
      case SemRegra =>
        caixas := [];
    }

    /**
     * `calculaFrete`: aggregate, dispatch, query the boxes, and store the
     * result, which `getFrete` returns from then on.
     */
    method CalculaFrete(correios: Consulta -> Resposta) returns (r: TotalLegado)
      modifies this`freteTotal
      ensures r == old(CalculoLegado(correios))
      ensures GetFrete() == r
    {
      var pesoTotal, volumeTotal := TotaisLegados();
      var medida := MedidaDe(volumeTotal);
      medida := if medida < 16 then 16 else medida;
      pesoTotal := if pesoTotal < 0.3 then 0.3 else pesoTotal;
      if medida > 66 || pesoTotal > 30.0 {
        if pesoTotal > 30.0 && medida < 67 {
          var total := MPesoLMedida(pesoTotal, medida, correios);
          r := Retornos(total);
        } else if pesoTotal > 30.0 && medida > 66 {
          var total := PesoEMedida(pesoTotal, medida, correios);
          r := Retornos(total);
        } else {
          r := Indefinido;
        }
      } else {
        r := Retornos([CalculaFreteCaixa(Caixa(pesoTotal, medida), correios)]);
      }
      freteTotal := r;
    }

    /** The `foreach` of `calculaFrete`: clamp the dimensions and accumulate. */
    method TotaisLegados() returns (pesoTotal: real, volumeTotal: real)
      ensures pesoTotal == SomaPesos(ProdutosDoMapa(produtos))
      ensures volumeTotal == SomaVolumes(ProdutosDoMapa(produtos))
    {
      ghost var lidos := ProdutosDoMapa(produtos);
      pesoTotal, volumeTotal := 0.0, 0.0;
      var i := 0;
      while i < |produtos|
        invariant 0 <= i <= |produtos|
        invariant pesoTotal == SomaPesos(lidos[..i])
        invariant volumeTotal == SomaVolumes(lidos[..i])
      {
        var produto := NormalizaLegado(produtos[i]);
        pesoTotal := pesoTotal + produto.peso * produto.qtd;
        volumeTotal := volumeTotal + VolumeDe(produto);
        assert lidos[..i + 1][..i] == lidos[..i];
        i := i + 1;
      }
      assert lidos[..i] == lidos;
    }

    /**
     * `MPesoLMedida`: one box per pass with intval(remainder / 30) * 30 kg
     * and the original measure, the remainder lowered by 30 until it is no
     * longer positive.
     */
    method MPesoLMedida(peso: real, medida: int, correios: Consulta -> Resposta) returns (total: seq<Retorno>)
      ensures total == RetornosDe(CaixasDePeso(peso, medida), correios)
    {
      ghost var todas := CaixasDePeso(peso, medida);
      var pesoTemp := peso;
      total := [];
      var i := 0;
      var continua := true;
      while continua
        invariant 0 <= i <= |todas|
        invariant pesoTemp == peso - 30.0 * i as real
        invariant total == RetornosDe(todas[..i], correios)
        invariant continua ==> i == 0 || pesoTemp > 0.0
        invariant !continua ==> i == |todas|
        decreases |todas| - i, continua
      {
        // the local edge computed here is never used: every box takes `medida`
        var medidaLocal := if pesoTemp != peso then 16 else medida;
        var pesio := Intval(pesoTemp / 30.0);
        var caixa := Caixa((pesio * 30) as real, medida);
        CaixaDaPassadaDePeso(peso, medida, i, pesoTemp);
        assert todas[..i + 1][..i] == todas[..i];
        total := total + [CalculaFreteCaixa(caixa, correios)];
        pesoTemp := pesoTemp - 30.0;
        i := i + 1;
        continua := pesoTemp > 0.0;
      }
      assert todas[..i] == todas;
    }

    /**
     * `PesoEMedida`: each pass lowers the measure by 66 and the weight by
     * 30 (each only while above its limit) and then queries one box, until
     * both are within their limits.
     */
    method PesoEMedida(peso: real, medida: int, correios: Consulta -> Resposta) returns (total: seq<Retorno>)
      ensures total == RetornosDe(CaixasDePesoEMedida(peso, medida), correios)
    {
      ghost var todas := CaixasDePesoEMedida(peso, medida);
      ghost var feitas: seq<Caixa> := [];
      total := [];
      var medidaR := medida;
      var pesoR := peso;
      var continua := true;
      while continua
        invariant continua ==> feitas + CaixasDePesoEMedida(pesoR, medidaR) == todas
        invariant !continua ==> feitas == todas
        invariant total == RetornosDe(feitas, correios)
        decreases if continua then |CaixasDePesoEMedida(pesoR, medidaR)| else 0
      {
        ghost var resto := CaixasDePesoEMedida(pesoR, medidaR);
        ghost var depois := ProximasCaixas(pesoR, medidaR);
        medidaR := if medidaR > 66 then medidaR - 66 else medidaR;
        pesoR := if pesoR > 30.0 then pesoR - 30.0 else pesoR;
        var med := if medidaR - (medidaR - 66) > 16 then medidaR - (medidaR - 66) else medidaR;
        var pes := if pesoR > 30.0 then pesoR - (pesoR - 30.0) else pesoR;
        var caixa := Caixa(pes, med);
        assert caixa == CaixaDaPassada(pesoR, medidaR);
        assert resto == [caixa] + depois;
        Associa(feitas, [caixa], depois);
        assert (feitas + [caixa])[..|feitas|] == feitas;
        total := total + [CalculaFreteCaixa(caixa, correios)];
        feitas := feitas + [caixa];
        continua := pesoR > 30.0 || medidaR > 66;
      }
    }
  }
}
