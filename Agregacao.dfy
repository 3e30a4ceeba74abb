/**
 * Reduction of the product list to a total weight and a total volume,
 * and of the volume to the edge of an equivalent cube ("medida").
 */
module Agregacao {
  import opened Caixas

  /** A product once its five keys are known to be present. */
  datatype Produto = Produto(qtd: real, peso: real, altura: real, largura: real, comprimento: real)

  const AlturaMinima: real := 2.0
  const LarguraMinima: real := 11.0
  const ComprimentoMinimo: real := 16.0

  /** Dimensions below their floor are raised to it; the others pass through. */
  function Normaliza(p: Produto): (r: Produto)
    ensures r.qtd == p.qtd && r.peso == p.peso
    ensures r.altura >= AlturaMinima && r.largura >= LarguraMinima && r.comprimento >= ComprimentoMinimo
    ensures p.altura >= AlturaMinima ==> r.altura == p.altura
    ensures p.largura >= LarguraMinima ==> r.largura == p.largura
    ensures p.comprimento >= ComprimentoMinimo ==> r.comprimento == p.comprimento
    ensures p.altura < AlturaMinima ==> r.altura == AlturaMinima
    ensures p.largura < LarguraMinima ==> r.largura == LarguraMinima
    ensures p.comprimento < ComprimentoMinimo ==> r.comprimento == ComprimentoMinimo
  {
    Produto(p.qtd, p.peso,
            if p.altura < 2.0 then 2.0 else p.altura,
            if p.largura < 11.0 then 11.0 else p.largura,
            if p.comprimento < 16.0 then 16.0 else p.comprimento)
  }

  /** Contribution of one (normalised) product to the total volume. */
  function VolumeDe(p: Produto): real
  {
    (p.largura * p.altura * p.comprimento) * p.qtd
  }

  /** Sum of peso * qtd, accumulated in list order. */
  function SomaPesos(ps: seq<Produto>): real
  {
    if ps == [] then 0.0 else SomaPesos(ps[..|ps| - 1]) + ps[|ps| - 1].peso * ps[|ps| - 1].qtd
  }

  /** Sum of altura * largura * comprimento * qtd over the normalised products. */
  function SomaVolumes(ps: seq<Produto>): real
  {
    if ps == [] then 0.0 else SomaVolumes(ps[..|ps| - 1]) + VolumeDe(Normaliza(ps[|ps| - 1]))
  }

  function SomaQtd(ps: seq<Produto>): real
  {
    if ps == [] then 0.0 else SomaQtd(ps[..|ps| - 1]) + ps[|ps| - 1].qtd
  }

  /**
   * The floors are always applied: with non-negative quantities the total
   * volume is at least 2 x 11 x 16 cm3 per unit shipped.
   */
  lemma {:induction false} VolumeAcimaDoPiso(ps: seq<Produto>)
    requires forall i :: 0 <= i < |ps| ==> ps[i].qtd >= 0.0
    ensures SomaVolumes(ps) >= 352.0 * SomaQtd(ps)
  {
    if ps != [] {
      var ini := ps[..|ps| - 1];
      var n := Normaliza(ps[|ps| - 1]);
      assert forall i :: 0 <= i < |ini| ==> ini[i] == ps[i];
      VolumeAcimaDoPiso(ini);
      PisoDoVolume(n.largura, n.altura, n.comprimento, n.qtd);
      assert VolumeDe(n) >= 352.0 * n.qtd;
      assert SomaVolumes(ps) == SomaVolumes(ini) + VolumeDe(n);
      assert SomaQtd(ps) == SomaQtd(ini) + n.qtd;
      assert 352.0 * SomaQtd(ps) == 352.0 * SomaQtd(ini) + 352.0 * n.qtd;
    }
  }

  lemma PisoDoVolume(l: real, a: real, c: real, q: real)
    requires l >= 11.0 && a >= 2.0 && c >= 16.0 && q >= 0.0
    ensures (l * a * c) * q >= 352.0 * q
  {
    assert l * a >= 22.0 by {
      assert l * a >= l * 2.0;
    }
    assert l * a * c >= 352.0 by {
      assert (l * a) * c >= (l * a) * 16.0;
    }
  }

  /** The total weight is floored at 0.3 kg. */
  function PesoFinal(soma: real): (r: real)
    ensures r >= PesoMinimo
    ensures soma >= PesoMinimo ==> r == soma
    ensures soma < PesoMinimo ==> r == PesoMinimo
  {
    if soma < 0.3 then 0.3 else soma
  }

  // ---------------------------------------------------------------------------
  // The equivalent cube edge
  // ---------------------------------------------------------------------------

  function Cubo(m: int): int { m * m * m }

  lemma {:induction false} MultiplicaMonotona(x: int, y: int, k: nat)
    requires x <= y
    ensures x * k <= y * k
  {
    if k > 0 {
      MultiplicaMonotona(x, y, k - 1);
      assert x * k == x * (k - 1) + x && y * k == y * (k - 1) + y;
    }
  }

  lemma CuboMonotono(a: nat, b: nat)
    requires a <= b
    ensures Cubo(a) <= Cubo(b)
  {
    MultiplicaMonotona(a, b, a);
    MultiplicaMonotona(a, b, b);
    assert a * a <= b * b;
    MultiplicaMonotona(a * a, b * b, a);
    MultiplicaMonotona(a, b, b * b);
    assert b * a == a * b && (b * b) * a == a * (b * b);
  }

  lemma CuboCresce(m: nat)
    ensures m <= Cubo(m)
  {
    if m > 0 {
      assert m * m >= m;
      assert m * m * m >= m * m;
    }
  }

  /** Search for the least m' >= m whose cube reaches v. */
  function BuscaRaiz(m: nat, v: real): (r: nat)
    requires m == 0 || (Cubo(m - 1) as real) < v
    ensures Cubo(r) as real >= v
    ensures r == 0 || (Cubo(r - 1) as real) < v
    ensures r >= m
    decreases Teto(v) - m
  {
    if Cubo(m) as real >= v then m
    else
      CuboCresce(m);
      BuscaRaiz(m + 1, v)
  }

  /** ceil(cube root of v): the least natural number whose cube is at least v. */
  function RaizCubicaTeto(v: real): (m: nat)
    ensures Cubo(m) as real >= v
    ensures m == 0 || (Cubo(m - 1) as real) < v
  {
    BuscaRaiz(0, v)
  }

  /** The two properties of RaizCubicaTeto determine it. */
  lemma RaizCubicaUnica(v: real, m: nat)
    requires Cubo(m) as real >= v
    requires m == 0 || (Cubo(m - 1) as real) < v
    ensures m == RaizCubicaTeto(v)
  {
    var r := RaizCubicaTeto(v);
    if m < r {
      CuboMonotono(m, r - 1);
    } else if r < m {
      CuboMonotono(r, m - 1);
    }
  }

  lemma RaizCubicaMonotona(v: real, w: real)
    requires v <= w
    ensures RaizCubicaTeto(v) <= RaizCubicaTeto(w)
  {
    var a, b := RaizCubicaTeto(v), RaizCubicaTeto(w);
    if a > b {
      CuboMonotono(b, a - 1);
    }
  }

  /** `medida`: the cube edge, floored at 16 cm. */
  function MedidaDe(volume: real): (m: int)
    ensures m >= MedidaMinima
    ensures Cubo(m) as real >= volume
    ensures m == MedidaMinima || (Cubo(m - 1) as real) < volume
  {
    var c := RaizCubicaTeto(volume);
    if c < 16 then (CuboMonotono(c, 16); 16) else c
  }

  /** A larger volume never yields a smaller box. */
  lemma MedidaMonotona(v: real, w: real)
    requires v <= w
    ensures MedidaDe(v) <= MedidaDe(w)
  {
    RaizCubicaMonotona(v, w);
  }

  /** 20 x 20 x 20 cm: a 20 cm cube. */
  lemma MedidaDeOitoMil()
    ensures MedidaDe(8000.0) == 20
  {
    assert Cubo(20) == 8000 && Cubo(19) == 6859;
    RaizCubicaUnica(8000.0, 20);
  }

  /** No volume at all still gives the minimum 16 cm box. */
  lemma MedidaDeZero()
    ensures MedidaDe(0.0) == MedidaMinima
  {
    RaizCubicaUnica(0.0, 0);
  }
}
