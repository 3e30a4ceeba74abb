/**
 * The carrier's per-box limits, the choice of overflow regime and the two
 * box decompositions ("transbordo") shared by both versions of the quote.
 * A box is priced as a cube: its three dimensions all equal `aresta`.
 */
module Caixas {

  const PesoMaximo: real := 30.0
  const MedidaMaxima: int := 66
  const MedidaMinima: int := 16
  const PesoMinimo: real := 0.3

  /** One priceable box: a weight in kg and the edge of the cube in cm. */
  datatype Caixa = Caixa(peso: real, aresta: int)

  /** PHP `intval` of a float: truncation toward zero. */
  function Intval(x: real): (r: int)
    ensures x >= 0.0 ==> r as real <= x < r as real + 1.0
    ensures x < 0.0 ==> r as real - 1.0 < x <= r as real
  {
    if x >= 0.0 then x.Floor else -((-x).Floor)
  }

  /** PHP `ceil`: the least integer not below `x`. */
  function Teto(x: real): (r: int)
    ensures r as real - 1.0 < x <= r as real
  {
    -((-x).Floor)
  }

  /** Integer ceiling of `a / b` for a positive divisor. */
  function TetoDiv(a: int, b: int): (r: int)
    requires b > 0
    ensures (r - 1) * b < a <= r * b
  {
    (a + b - 1) / b
  }

  /** Concatenation regroups freely (used to peel one box off a list). */
  lemma Associa<T>(a: seq<T>, b: seq<T>, c: seq<T>)
    ensures a + b + c == a + (b + c)
  {
  }

  /** A prefix one longer is the prefix followed by the next element. */
  lemma PrefixoMaisUm<T>(s: seq<T>, i: nat)
    requires i < |s|
    ensures s[..i + 1] == s[..i] + [s[i]]
  {
  }

  /** A sequence is any prefix of it followed by the rest. */
  lemma Divide<T>(s: seq<T>, k: nat)
    requires k <= |s|
    ensures s[..k] + s[k..] == s
  {
  }

  function Max(a: int, b: int): int { if a >= b then a else b }

  function MinReal(a: real, b: real): real { if a <= b then a else b }

  // ---------------------------------------------------------------------------
  // Regime dispatch
  // ---------------------------------------------------------------------------

  datatype Regime =
    | Simples                 // one box with the whole shipment
    | TransbordoDePeso        // weight over the limit, measure within it
    | TransbordoDePesoEMedida // both over their limits
    | SemRegra                // measure over the limit alone: the code handles no such case

  /** The nested conditions of the dispatch, in the code's own order and comparisons. */
  function RegimeDe(peso: real, medida: int): (r: Regime)
    ensures r == Simples <==> medida <= MedidaMaxima && peso <= PesoMaximo
    ensures r == TransbordoDePeso <==> peso > PesoMaximo && medida <= MedidaMaxima
    ensures r == TransbordoDePesoEMedida <==> peso > PesoMaximo && medida > MedidaMaxima
    ensures r == SemRegra <==> peso <= PesoMaximo && medida > MedidaMaxima
  {
    if medida > 66 || peso > 30.0 then
      if peso > 30.0 && medida < 67 then TransbordoDePeso
      else if peso > 30.0 && medida > 66 then TransbordoDePesoEMedida
      else SemRegra
    else Simples
  }

  // ---------------------------------------------------------------------------
  // Weight overflow: the loop of transbordoDePeso / MPesoLMedida
  // ---------------------------------------------------------------------------

  /**
   * Passes of the do-while loop that subtracts 30 from the remaining
   * weight until it is no longer positive: the least n >= 1 with
   * peso - 30n <= 0.
   */
  function PassadasDePeso(peso: real): (n: nat)
    ensures n >= 1
    ensures peso - 30.0 * n as real <= 0.0
    ensures n == 1 || peso - 30.0 * (n - 1) as real > 0.0
  {
    if peso <= 0.0 then 1 else Teto(peso / 30.0)
  }

  /**
   * The boxes the loop queries, in order: pass i sees the remainder
   * peso - 30i, asks for intval(remainder / 30) * 30 kg, and always uses
   * the original measure for the three dimensions.
   */
  function CaixasDePeso(peso: real, medida: int): (cs: seq<Caixa>)
    ensures |cs| == PassadasDePeso(peso)
    ensures forall i :: 0 <= i < |cs| ==> cs[i].aresta == medida
    ensures peso > 0.0 ==> forall i :: 0 <= i < |cs| ==> 0.0 <= cs[i].peso <= peso - 30.0 * i as real
  {
    CaixasDePesoLimitadas(peso);
    seq(PassadasDePeso(peso), (i: nat) requires i < PassadasDePeso(peso) => Caixa(PesoDaPassada(peso, i), medida))
  }

  /** The weight pass i asks for: intval(remainder / 30) * 30, with remainder peso - 30i. */
  function PesoDaPassada(peso: real, i: nat): real
  {
    (Intval((peso - 30.0 * i as real) / 30.0) * 30) as real
  }

  /** Box i never asks for more than the remainder its pass sees, nor for a negative weight. */
  lemma CaixasDePesoLimitadas(peso: real)
    ensures peso > 0.0 ==> forall i: nat :: i < PassadasDePeso(peso) ==>
              0.0 <= PesoDaPassada(peso, i) <= peso - 30.0 * i as real
  {
    if peso > 0.0 {
      var n := PassadasDePeso(peso);
      forall i: nat | i < n
        ensures 0.0 <= PesoDaPassada(peso, i) <= peso - 30.0 * i as real
      {
        var resto := peso - 30.0 * i as real;
        assert resto > 0.0 by {
          if i > 0 {
            assert peso - 30.0 * (n - 1) as real > 0.0;
            assert 30.0 * i as real <= 30.0 * (n - 1) as real;
          }
        }
        var k := Intval(resto / 30.0);
        assert 0 <= k && k as real <= resto / 30.0;
        assert (k * 30) as real == k as real * 30.0;
      }
    }
  }

  /** Pass i of the loop sees the remainder peso - 30i. */
  lemma CaixaDaPassadaDePeso(peso: real, medida: int, i: nat, resto: real)
    requires i < PassadasDePeso(peso) && resto == peso - 30.0 * i as real
    ensures CaixasDePeso(peso, medida)[i] == Caixa((Intval(resto / 30.0) * 30) as real, medida)
    ensures i + 1 < PassadasDePeso(peso) <==> resto - 30.0 > 0.0
  {
  }

  /** Every box of the weight overflow is a cube of the original measure. */
  lemma CaixasDePesoArestas(peso: real, medida: int)
    ensures |CaixasDePeso(peso, medida)| == PassadasDePeso(peso)
    ensures forall i :: 0 <= i < |CaixasDePeso(peso, medida)| ==> CaixasDePeso(peso, medida)[i].aresta == medida
  {
  }

  /** The number of boxes is ceil(peso / 30) for a positive weight. */
  lemma PassadasDePesoTeto(peso: real)
    requires peso > 0.0
    ensures PassadasDePeso(peso) == Teto(peso / 30.0)
  {
  }

  /** Box i weighs (floor(peso / 30) - i) * 30 kg: a multiple of 30, not capped at 30. */
  lemma CaixaDePesoI(peso: real, medida: int, i: int)
    requires peso > 0.0 && 0 <= i < PassadasDePeso(peso)
    ensures CaixasDePeso(peso, medida)[i].peso == ((peso / 30.0).Floor - i) as real * 30.0
  {
    var n := PassadasDePeso(peso);
    var resto := peso - 30.0 * i as real;
    assert resto > 0.0 by {
      if i < n - 1 {
        assert peso - 30.0 * (n - 1) as real > 0.0;
      }
    }
    assert resto / 30.0 == peso / 30.0 - i as real;
    assert Intval(resto / 30.0) == (peso / 30.0).Floor - i;
  }

  /** Consecutive boxes differ by exactly 30 kg. */
  lemma CaixasDePesoDecrescem(peso: real, medida: int, i: int)
    requires peso > 0.0 && 0 <= i && i + 1 < PassadasDePeso(peso)
    ensures CaixasDePeso(peso, medida)[i + 1].peso == CaixasDePeso(peso, medida)[i].peso - 30.0
  {
    CaixaDePesoI(peso, medida, i);
    CaixaDePesoI(peso, medida, i + 1);
  }

  /** The last box weighs 30 kg when peso is a multiple of 30 and 0 kg otherwise. */
  lemma UltimaCaixaDePeso(peso: real, medida: int)
    requires peso > 0.0
    ensures var cs := CaixasDePeso(peso, medida);
            cs[|cs| - 1].peso == if (peso / 30.0).Floor as real == peso / 30.0 then 30.0 else 0.0
  {
    var n := PassadasDePeso(peso);
    CaixaDePesoI(peso, medida, n - 1);
    var f := (peso / 30.0).Floor;
    if f as real == peso / 30.0 {
      assert n == f;
    } else {
      assert n == f + 1;
    }
  }

  /** 65 kg within the measure limit: boxes of 60, 30 and 0 kg, all with the original edge. */
  lemma CaixasDePesoSessentaECinco()
    ensures CaixasDePeso(65.0, 40) == [Caixa(60.0, 40), Caixa(30.0, 40), Caixa(0.0, 40)]
  {
    assert PassadasDePeso(65.0) == 3;
    var cs := CaixasDePeso(65.0, 40);
    CaixaDePesoI(65.0, 40, 0);
    CaixaDePesoI(65.0, 40, 1);
    CaixaDePesoI(65.0, 40, 2);
    assert (65.0 / 30.0).Floor == 2;
  }

  // ---------------------------------------------------------------------------
  // Weight and measure overflow: the loop of transbordoDePesoEMedida / PesoEMedida
  // ---------------------------------------------------------------------------

  /** One pass of the loop on the remaining measure: 66 is removed only while above 66. */
  function ReduzMedida(medida: int): int
  {
    if medida > 66 then medida - 66 else medida
  }

  /** One pass of the loop on the remaining weight: 30 is removed only while above 30. */
  function ReduzPeso(peso: real): real
  {
    if peso > 30.0 then peso - 30.0 else peso
  }

  /** The box a pass emits, from the remainders AFTER that pass's subtraction. */
  function CaixaDaPassada(peso: real, medida: int): (c: Caixa)
    ensures c.aresta == MedidaMaxima
    ensures c.peso == MinReal(peso, PesoMaximo)
  {
    var med := if medida - (medida - 66) > 16 then medida - (medida - 66) else medida;
    var pes := if peso > 30.0 then peso - (peso - 30.0) else peso;
    Caixa(pes, med)
  }

  /**
   * The boxes of the do-while loop: reduce both remainders, emit a box,
   * and go on while the weight is above 30 or the measure above 66.
   */
  function CaixasDePesoEMedida(peso: real, medida: int): (cs: seq<Caixa>)
    ensures |cs| >= 1
    ensures forall i :: 0 <= i < |cs| ==> cs[i].aresta == MedidaMaxima && cs[i].peso <= PesoMaximo
    decreases Max(medida, 0), Max(peso.Floor, 0)
  {
    var m := ReduzMedida(medida);
    var p := ReduzPeso(peso);
    [CaixaDaPassada(p, m)] + (if p > 30.0 || m > 66 then CaixasDePesoEMedida(p, m) else [])
  }

  /** The boxes after the first one: those of the next pass on, if the loop goes on. */
  ghost function ProximasCaixas(peso: real, medida: int): (cs: seq<Caixa>)
    ensures CaixasDePesoEMedida(peso, medida) == [CaixaDaPassada(ReduzPeso(peso), ReduzMedida(medida))] + cs
    ensures |cs| > 0 <==> ReduzPeso(peso) > 30.0 || ReduzMedida(medida) > 66
    ensures |cs| > 0 ==> cs == CaixasDePesoEMedida(ReduzPeso(peso), ReduzMedida(medida))
  {
    var m := ReduzMedida(medida);
    var p := ReduzPeso(peso);
    if p > 30.0 || m > 66 then CaixasDePesoEMedida(p, m) else []
  }

  /** The remaining weight after k passes. */
  function PesoRestante(peso: real, k: nat): real
  {
    if k == 0 then peso else ReduzPeso(PesoRestante(peso, k - 1))
  }

  /** The remaining measure after k passes. */
  function MedidaRestante(medida: int, k: nat): int
  {
    if k == 0 then medida else ReduzMedida(MedidaRestante(medida, k - 1))
  }

  /** Number of passes: max(1, ceil(peso/30) - 1, ceil(medida/66) - 1). */
  function PassadasDePesoEMedida(peso: real, medida: int): int
  {
    Max(1, Max(Teto(peso / 30.0) - 1, TetoDiv(medida, 66) - 1))
  }

  lemma TetoReduzPeso(peso: real)
    ensures peso > 30.0 ==> Teto(ReduzPeso(peso) / 30.0) == Teto(peso / 30.0) - 1
    ensures peso <= 30.0 ==> Teto(ReduzPeso(peso) / 30.0) <= 1
  {
    if peso > 30.0 {
      assert (peso - 30.0) / 30.0 == peso / 30.0 - 1.0;
    }
  }

  lemma TetoReduzMedida(medida: int)
    ensures medida > 66 ==> TetoDiv(ReduzMedida(medida), 66) == TetoDiv(medida, 66) - 1
    ensures medida <= 66 ==> TetoDiv(ReduzMedida(medida), 66) <= 1
  {
  }

  /** The loop makes max(1, ceil(peso/30) - 1, ceil(medida/66) - 1) passes. */
  lemma {:induction false} QuantidadeDeCaixasDePesoEMedida(peso: real, medida: int)
    ensures |CaixasDePesoEMedida(peso, medida)| == PassadasDePesoEMedida(peso, medida)
    decreases Max(medida, 0), Max(peso.Floor, 0)
  {
    var m := ReduzMedida(medida);
    var p := ReduzPeso(peso);
    TetoReduzPeso(peso);
    TetoReduzMedida(medida);
    if p > 30.0 || m > 66 {
      QuantidadeDeCaixasDePesoEMedida(p, m);
    }
  }

  /** With both limits exceeded, the loop ends after max(ceil(peso/30), ceil(medida/66)) - 1 passes. */
  lemma PassadasComAmbosExcedidos(peso: real, medida: int)
    requires peso > PesoMaximo && medida > MedidaMaxima
    ensures |CaixasDePesoEMedida(peso, medida)| == Max(Teto(peso / 30.0), TetoDiv(medida, 66)) - 1
  {
    QuantidadeDeCaixasDePesoEMedida(peso, medida);
  }

  /**
   * Box i is the 66 cm cube carrying min(remaining weight, 30) where the
   * remaining weight is taken after pass i + 1's subtraction.
   */
  lemma {:induction false} CaixaDePesoEMedidaI(peso: real, medida: int, i: nat)
    requires i < |CaixasDePesoEMedida(peso, medida)|
    ensures CaixasDePesoEMedida(peso, medida)[i]
            == Caixa(MinReal(PesoRestante(peso, i + 1), PesoMaximo), MedidaMaxima)
    decreases i
  {
    if i > 0 {
      var m := ReduzMedida(medida);
      var p := ReduzPeso(peso);
      CaixaDePesoEMedidaI(p, m, i - 1);
      PesoRestanteDesloca(peso, i);
    }
  }

  lemma {:induction false} PesoRestanteDesloca(peso: real, k: nat)
    ensures PesoRestante(ReduzPeso(peso), k) == PesoRestante(peso, k + 1)
  {
    if k > 0 {
      PesoRestanteDesloca(peso, k - 1);
    }
  }

  /** Each remainder shrinks by its unit only while above its limit, then stays fixed. */
  lemma RemanescentesEstabilizam(peso: real, medida: int, k: nat)
    ensures PesoRestante(peso, k) > 30.0 ==> PesoRestante(peso, k + 1) == PesoRestante(peso, k) - 30.0
    ensures PesoRestante(peso, k) <= 30.0 ==> PesoRestante(peso, k + 1) == PesoRestante(peso, k)
    ensures MedidaRestante(medida, k) > 66 ==> MedidaRestante(medida, k + 1) == MedidaRestante(medida, k) - 66
    ensures MedidaRestante(medida, k) <= 66 ==> MedidaRestante(medida, k + 1) == MedidaRestante(medida, k)
  {
  }

  lemma {:induction false} MedidaRestanteDesloca(medida: int, k: nat)
    ensures MedidaRestante(ReduzMedida(medida), k) == MedidaRestante(medida, k + 1)
  {
    if k > 0 {
      MedidaRestanteDesloca(medida, k - 1);
    }
  }

  /**
   * The do-while test decides the number of boxes: the loop stops after the
   * first pass k >= 1 that leaves the weight within 30 and the measure
   * within 66, and every earlier pass left one of them above its limit.
   */
  lemma {:induction false} ParadaDePesoEMedida(peso: real, medida: int)
    ensures var n := |CaixasDePesoEMedida(peso, medida)|;
            n >= 1 && PesoRestante(peso, n) <= 30.0 && MedidaRestante(medida, n) <= 66
    ensures forall k :: 1 <= k < |CaixasDePesoEMedida(peso, medida)| ==>
              PesoRestante(peso, k) > 30.0 || MedidaRestante(medida, k) > 66
    decreases Max(medida, 0), Max(peso.Floor, 0)
  {
    var m := ReduzMedida(medida);
    var p := ReduzPeso(peso);
    var cs := ProximasCaixas(peso, medida);
    var n := |CaixasDePesoEMedida(peso, medida)|;
    assert PesoRestante(peso, 1) == p && MedidaRestante(medida, 1) == m;
    if p > 30.0 || m > 66 {
      ParadaDePesoEMedida(p, m);
      assert n == |cs| + 1;
      PesoRestanteDesloca(peso, n - 1);
      MedidaRestanteDesloca(medida, n - 1);
      forall k | 1 <= k < n
        ensures PesoRestante(peso, k) > 30.0 || MedidaRestante(medida, k) > 66
      {
        if k > 1 {
          PesoRestanteDesloca(peso, k - 1);
          MedidaRestanteDesloca(medida, k - 1);
        }
      }
    }
  }

  function SomaDosPesos(cs: seq<Caixa>): real
  {
    if cs == [] then 0.0 else cs[0].peso + SomaDosPesos(cs[1..])
  }

  /**
   * When the measure needs no more passes than the weight, the boxes carry
   * peso - 30 kg in all: the 30 kg removed before the first box is built
   * are never sent to the pricing service.
   */
  lemma {:induction false} PesoDeclaradoEmPesoEMedida(peso: real, medida: int)
    requires peso > PesoMaximo && TetoDiv(medida, 66) <= Teto(peso / 30.0)
    ensures SomaDosPesos(CaixasDePesoEMedida(peso, medida)) == peso - PesoMaximo
    decreases Max(medida, 0), Max(peso.Floor, 0)
  {
    var m := ReduzMedida(medida);
    var p := ReduzPeso(peso);
    TetoReduzPeso(peso);
    TetoReduzMedida(medida);
    var cs := CaixasDePesoEMedida(peso, medida);
    if p > 30.0 {
      PesoDeclaradoEmPesoEMedida(p, m);
      assert cs[1..] == CaixasDePesoEMedida(p, m);
    } else if m > 66 {
      assert false;
    } else {
      assert cs[1..] == [];
    }
  }
}
