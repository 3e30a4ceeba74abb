/**
 * Validation and normalisation of the quote's input: postal codes (CEP),
 * the boolean service flags, the product array and the Brazilian money
 * format returned by the pricing webservice.
 */
module Entrada {

  /** The loosely typed values a PHP caller can pass to the constructor. */
  datatype Valor =
    | Texto(s: string)
    | Logico(b: bool)
    | Numero(n: real)
    | Lista(itens: seq<map<string, real>>)
    | Nulo

  predicate EhDigito(c: char) { '0' <= c <= '9' }

  predicate SoDigitos(s: string) { forall i :: 0 <= i < |s| ==> EhDigito(s[i]) }

  // ---------------------------------------------------------------------------
  // CEP
  // ---------------------------------------------------------------------------

  /** `NNNNNNNN` or `NNNNN-NNN`: the strings the pattern describes. */
  predicate FormatoCEP(s: string)
  {
    || (|s| == 8 && SoDigitos(s))
    || (|s| == 9 && s[5] == '-' && SoDigitos(s[..5]) && SoDigitos(s[6..]))
  }

  /** PHP's `$` without the D modifier also matches just before one final "\n". */
  predicate AceitoPeloPadrao(s: string)
  {
    || FormatoCEP(s)
    || (|s| > 0 && s[|s| - 1] == '\n' && FormatoCEP(s[..|s| - 1]))
  }

  /** The CEP without its optional final newline. */
  function SemQuebraFinal(s: string): (t: string)
    ensures |t| <= |s| && t == s[..|t|]
  {
    if |s| > 0 && s[|s| - 1] == '\n' then s[..|s| - 1] else s
  }

  /**
   * Anchored match of `^[0-9]{5}-?[0-9]{3}$`, scanned left to right:
   * five digits, an optional hyphen, three digits, then the end of the
   * subject or a single final newline.
   */
  function CasaPadraoCEP(s: string): (r: bool)
    ensures r <==> AceitoPeloPadrao(s)
  {
    if |s| < 8 || !SoDigitos(s[..5]) then false
    else
      var t := if s[5] == '-' then s[6..] else s[5..];
      PadraoPorPartes(s, t);
      |t| >= 3 && SoDigitos(t[..3]) && (|t| == 3 || (|t| == 4 && t[3] == '\n'))
  }

  lemma PadraoPorPartes(s: string, t: string)
    requires |s| >= 8 && SoDigitos(s[..5])
    requires t == if s[5] == '-' then s[6..] else s[5..]
    ensures AceitoPeloPadrao(s)
            <==> |t| >= 3 && SoDigitos(t[..3]) && (|t| == 3 || (|t| == 4 && t[3] == '\n'))
  {
    var u := SemQuebraFinal(s);
    if |t| >= 3 && SoDigitos(t[..3]) && (|t| == 3 || (|t| == 4 && t[3] == '\n')) {
      if |t| == 3 {
        assert s == s[..5] + s[5..];
        if s[5] != '-' {
          assert SoDigitos(s) by {
            forall i | 0 <= i < |s| ensures EhDigito(s[i]) {
              if i >= 5 { assert s[i] == t[..3][i - 5]; } else { assert s[i] == s[..5][i]; }
            }
          }
        } else {
          assert s[6..] == t[..3];
        }
      } else {
        assert s[|s| - 1] == '\n';
        var w := s[..|s| - 1];
        assert w[..5] == s[..5];
        if s[5] != '-' {
          assert SoDigitos(w) by {
            forall i | 0 <= i < |w| ensures EhDigito(w[i]) {
              if i >= 5 { assert w[i] == t[..3][i - 5]; } else { assert w[i] == s[..5][i]; }
            }
          }
        } else {
          assert w[6..] == t[..3];
        }
        assert FormatoCEP(w);
      }
    }
    if AceitoPeloPadrao(s) {
      assert FormatoCEP(u);
      assert u[..5] == s[..5];
      if s[5] == '-' {
        assert |u| == 9 && u[6..] == t[..3];
      } else {
        assert |u| == 8;
        assert t[..3] == u[5..];
      }
    }
  }

  /** `validaCEP`: a string accepted by the pattern; anything else is refused. */
  function ValidaCEP(v: Valor): (r: bool)
    ensures r <==> v.Texto? && AceitoPeloPadrao(v.s)
    ensures r ==> 8 <= |v.s| <= 10
  {
    match v
    case Texto(s) => CasaPadraoCEP(s)
    case _ => false
  }

  /** `formataCEP`: deletes every character that is not a digit. */
  function FormataCEP(s: string): (r: string)
    ensures SoDigitos(r)
    ensures |r| <= |s|
  {
    if s == [] then []
    else if EhDigito(s[0]) then [s[0]] + FormataCEP(s[1..])
    else FormataCEP(s[1..])
  }

  lemma {:induction false} FormataCEPConcatena(a: string, b: string)
    ensures FormataCEP(a + b) == FormataCEP(a) + FormataCEP(b)
  {
    if a != [] {
      assert (a + b)[0] == a[0] && (a + b)[1..] == a[1..] + b;
      FormataCEPConcatena(a[1..], b);
    } else {
      assert a + b == b;
    }
  }

  /** A string made of digits only is left untouched. */
  lemma {:induction false} FormataCEPDeDigitos(s: string)
    requires SoDigitos(s)
    ensures FormataCEP(s) == s
  {
    if s != [] {
      FormataCEPDeDigitos(s[1..]);
    }
  }

  /** Normalising twice is the same as normalising once. */
  lemma FormataCEPIdempotente(s: string)
    ensures FormataCEP(FormataCEP(s)) == FormataCEP(s)
  {
    FormataCEPDeDigitos(FormataCEP(s));
  }

  /** Both written forms keep their five and three digits, in order. */
  lemma FormataCEPDeFormato(t: string)
    requires FormatoCEP(t)
    ensures FormataCEP(t) == t[..5] + t[|t| - 3..]
  {
    if |t| == 8 {
      FormataCEPDeDigitos(t);
      assert t[|t| - 3..] == t[5..];
      assert t == t[..5] + t[5..];
    } else {
      var a, b := t[..5], t[6..];
      assert t == a + "-" + b;
      assert t[|t| - 3..] == b;
      FormataCEPConcatena(a + "-", b);
      FormataCEPConcatena(a, "-");
      assert FormataCEP("-") == [];
      FormataCEPDeDigitos(a);
      FormataCEPDeDigitos(b);
      assert FormataCEP(a + "-") == a;
    }
  }

  /** For every accepted CEP the stored form is its eight digits, in order. */
  lemma FormataCEPDeAceito(s: string)
    requires AceitoPeloPadrao(s)
    ensures var t := SemQuebraFinal(s);
            FormataCEP(s) == t[..5] + t[|t| - 3..] && |FormataCEP(s)| == 8
  {
    var t := SemQuebraFinal(s);
    FormataCEPDeFormato(t);
    if t != s {
      assert s == t + "\n";
      FormataCEPConcatena(t, "\n");
    }
  }

  // ---------------------------------------------------------------------------
  // Boolean service flags
  // ---------------------------------------------------------------------------

  /** `formataValorBooleano`: true is sent as 's', false as 'n'. */
  function FormataValorBooleano(b: bool): (r: char)
    ensures r == 's' || r == 'n'
    ensures r == 's' <==> b
  {
    if b then 's' else 'n'
  }

  // ---------------------------------------------------------------------------
  // Products
  // ---------------------------------------------------------------------------

  /** `chavesProdutos`, in the order the check visits them. */
  const ChavesProdutos: seq<string> := ["qtd", "peso", "altura", "largura", "comprimento"]

  predicate TemTodasAsChaves(produto: map<string, real>)
  {
    forall k :: k in ChavesProdutos ==> k in produto
  }

  /** The inner loop: visits the keys in order and stops at the first missing one. */
  function ChavesPresentes(produto: map<string, real>, chaves: seq<string>): (r: bool)
    ensures r <==> forall i :: 0 <= i < |chaves| ==> chaves[i] in produto
  {
    if chaves == [] then true
    else if chaves[0] !in produto then false
    else ChavesPresentes(produto, chaves[1..])
  }

  /** The outer loop: stops at the first product that misses a key. */
  function ProdutosCompletos(produtos: seq<map<string, real>>): (r: bool)
    ensures r <==> forall i :: 0 <= i < |produtos| ==> TemTodasAsChaves(produtos[i])
  {
    if produtos == [] then true
    else if !ChavesPresentes(produtos[0], ChavesProdutos) then false
    else ProdutosCompletos(produtos[1..])
  }

  /**
   * `validaProdutos`: an array whose every product carries the five keys;
   * the empty array is accepted and the values themselves are not checked.
   */
  function ValidaProdutos(v: Valor): (r: bool)
    ensures r <==> v.Lista? && forall i :: 0 <= i < |v.itens| ==> TemTodasAsChaves(v.itens[i])
    ensures v == Lista([]) ==> r
  {
    match v
    case Lista(itens) => ProdutosCompletos(itens)
    case _ => false
  }

  // ---------------------------------------------------------------------------
  // Brazilian money format
  // ---------------------------------------------------------------------------

  /** `str_replace('.', '', ...)`. */
  function RemovePontos(s: string): (r: string)
    ensures '.' !in r
    ensures forall c :: c in r <==> c in s && c != '.'
  {
    if s == [] then []
    else if s[0] == '.' then RemovePontos(s[1..])
    else [s[0]] + RemovePontos(s[1..])
  }

  /** `str_replace(',', '.', ...)`. */
  function TrocaVirgulas(s: string): (r: string)
    ensures |r| == |s| && ',' !in r
    ensures forall i :: 0 <= i < |s| ==> r[i] == if s[i] == ',' then '.' else s[i]
  {
    if s == [] then []
    else [if s[0] == ',' then '.' else s[0]] + TrocaVirgulas(s[1..])
  }

  /** Length of the leading run of digits. */
  function PrefixoDeDigitos(s: string): (k: nat)
    ensures k <= |s| && SoDigitos(s[..k])
    ensures k < |s| ==> !EhDigito(s[k])
  {
    if s == [] || !EhDigito(s[0]) then 0
    else 1 + PrefixoDeDigitos(s[1..])
  }

  /** The natural number a string of decimal digits denotes. */
  function ValorDigitos(ds: string): nat
    requires SoDigitos(ds)
  {
    if ds == [] then 0
    else 10 * ValorDigitos(ds[..|ds| - 1]) + (ds[|ds| - 1] as int - '0' as int)
  }

  function Pot10(n: nat): (r: nat)
    ensures r >= 1
  {
    if n == 0 then 1 else 10 * Pot10(n - 1)
  }

  /**
   * PHP's `(float)` cast of a string: the leading decimal number
   * (digits, optionally a point and more digits); 0 when there is none.
   */
  function ParseFloat(t: string): (r: real)
    ensures var k := PrefixoDeDigitos(t);
            ValorDigitos(t[..k]) as real <= r < ValorDigitos(t[..k]) as real + 1.0
    ensures PrefixoDeDigitos(t) == |t| ==> r == ValorDigitos(t) as real
  {
    var k := PrefixoDeDigitos(t);
    var inteiro := ValorDigitos(t[..k]) as real;
    if k < |t| && t[k] == '.' then
      var resto := t[k + 1..];
      var j := PrefixoDeDigitos(resto);
      ValorDigitosMenor(resto[..j]);
      DecimalEntre(ValorDigitos(t[..k]), ValorDigitos(resto[..j]), j);
      Decimal(ValorDigitos(t[..k]), ValorDigitos(resto[..j]), j)
    else
      assert k == |t| ==> t[..k] == t;
      inteiro
  }

  /** A fraction of fewer than 10^casas units stays below the next integer. */
  lemma DecimalEntre(inteiro: nat, fracao: nat, casas: nat)
    requires fracao < Pot10(casas)
    ensures inteiro as real <= Decimal(inteiro, fracao, casas) < inteiro as real + 1.0
  {
    FracaoPropria(fracao as real, Pot10(casas) as real);
  }

  lemma FracaoPropria(a: real, b: real)
    requires 0.0 <= a < b
    ensures 0.0 <= a / b < 1.0
  {
    var q := a / b;
    assert q * b == a;
    assert (1.0 - q) * b == b - a;
  }

  /** A string of n digits denotes less than 10^n. */
  lemma {:induction false} ValorDigitosMenor(ds: string)
    requires SoDigitos(ds)
    ensures ValorDigitos(ds) < Pot10(|ds|)
  {
    if ds != [] {
      var ini := ds[..|ds| - 1];
      assert SoDigitos(ini);
      ValorDigitosMenor(ini);
    }
  }

  /** The comma replacement leaves the leading digits, and where they stop, alone. */
  lemma {:induction false} TrocaVirgulasPreservaDigitos(s: string)
    ensures PrefixoDeDigitos(TrocaVirgulas(s)) == PrefixoDeDigitos(s)
    ensures TrocaVirgulas(s)[..PrefixoDeDigitos(s)] == s[..PrefixoDeDigitos(s)]
  {
    if s != [] {
      TrocaVirgulasPreservaDigitos(s[1..]);
    }
  }

  /** The number written `inteiro.fracao`, where the fraction has `casas` digits. */
  function Decimal(inteiro: nat, fracao: nat, casas: nat): real
  {
    inteiro as real + fracao as real / Pot10(casas) as real
  }

  /** `formataValorEmReais`: drop the thousands points, turn the comma into a point, cast. */
  function FormataValorEmReais(valor: string): (r: real)
    ensures r >= 0.0
    ensures var s := RemovePontos(valor);
            var reais := ValorDigitos(s[..PrefixoDeDigitos(s)]) as real;
            reais <= r < reais + 1.0
  {
    TrocaVirgulasPreservaDigitos(RemovePontos(valor));
    ParseFloat(TrocaVirgulas(RemovePontos(valor)))
  }

  /** The string handed to the cast never contains a comma. */
  lemma NormalizadoSemVirgula(valor: string)
    ensures ',' !in TrocaVirgulas(RemovePontos(valor))
    ensures ',' in valor ==> '.' in TrocaVirgulas(RemovePontos(valor))
  {
    if ',' in valor {
      var s := RemovePontos(valor);
      assert ',' in s;
      var i :| 0 <= i < |s| && s[i] == ',';
      assert TrocaVirgulas(s)[i] == '.';
    }
  }

  predicate DigitosEPontos(s: string) { forall i :: 0 <= i < |s| ==> EhDigito(s[i]) || s[i] == '.' }

  lemma {:induction false} RemovePontosConcatena(a: string, b: string)
    ensures RemovePontos(a + b) == RemovePontos(a) + RemovePontos(b)
  {
    if a != [] {
      assert (a + b)[0] == a[0] && (a + b)[1..] == a[1..] + b;
      RemovePontosConcatena(a[1..], b);
    } else {
      assert a + b == b;
    }
  }

  lemma {:induction false} RemovePontosDeDigitos(s: string)
    requires DigitosEPontos(s)
    ensures SoDigitos(RemovePontos(s))
  {
    if s != [] {
      RemovePontosDeDigitos(s[1..]);
    }
  }

  lemma {:induction false} PrefixoDeDigitosConcatena(d: string, x: string)
    requires SoDigitos(d)
    ensures PrefixoDeDigitos(d + x) == |d| + PrefixoDeDigitos(x)
  {
    if d != [] {
      assert (d + x)[0] == d[0] && (d + x)[1..] == d[1..] + x;
      PrefixoDeDigitosConcatena(d[1..], x);
    } else {
      assert d + x == x;
    }
  }

  /**
   * A well-formed amount `I,F` — I made of digits and thousands points,
   * F of digits — denotes the integer part I without its points plus F
   * read as a decimal fraction.
   */
  lemma FormataValorEmReaisBemFormado(inteiro: string, fracao: string)
    requires DigitosEPontos(inteiro) && SoDigitos(fracao)
    ensures SoDigitos(RemovePontos(inteiro))
    ensures FormataValorEmReais(inteiro + "," + fracao)
            == Decimal(ValorDigitos(RemovePontos(inteiro)), ValorDigitos(fracao), |fracao|)
  {
    RemovePontosDeDigitos(inteiro);
    NormalizaBemFormado(inteiro, fracao);
    ParseFloatComPonto(RemovePontos(inteiro), fracao);
  }

  lemma NormalizaBemFormado(inteiro: string, fracao: string)
    requires DigitosEPontos(inteiro) && SoDigitos(fracao)
    ensures TrocaVirgulas(RemovePontos(inteiro + "," + fracao)) == RemovePontos(inteiro) + "." + fracao
  {
    RemovePontosDeDigitos(inteiro);
    RemovePontosConcatena(inteiro, "," + fracao);
    RemovePontosConcatena(",", fracao);
    RemovePontosSemPonto(fracao);
    assert RemovePontos(",") == ",";
    assert inteiro + "," + fracao == inteiro + ("," + fracao);
    var d := RemovePontos(inteiro);
    var u := d + "," + fracao;
    assert RemovePontos(inteiro + "," + fracao) == u;
    var t := TrocaVirgulas(u);
    var e := d + "." + fracao;
    forall i | 0 <= i < |u| ensures t[i] == e[i] {
      if i < |d| {
        assert u[i] == d[i] && e[i] == d[i];
      } else if i == |d| {
        assert u[i] == ',' && e[i] == '.';
      } else {
        assert u[i] == fracao[i - |d| - 1] && e[i] == fracao[i - |d| - 1];
      }
    }
  }

  lemma ParseFloatComPonto(d: string, f: string)
    requires SoDigitos(d) && SoDigitos(f)
    ensures ParseFloat(d + "." + f) == Decimal(ValorDigitos(d), ValorDigitos(f), |f|)
  {
    var t := d + "." + f;
    assert t == d + ("." + f);
    PrefixoDeDigitosConcatena(d, "." + f);
    assert PrefixoDeDigitos("." + f) == 0;
    var k := PrefixoDeDigitos(t);
    assert k == |d| && t[..k] == d && k < |t| && t[k] == '.';
    var resto := t[k + 1..];
    assert resto == f;
    PrefixoDeDigitosTodos(f);
    assert f[..|f|] == f;
    var j := PrefixoDeDigitos(resto);
    assert j == |f|;
    assert ValorDigitos(resto[..j]) == ValorDigitos(f);
    assert ValorDigitos(t[..k]) == ValorDigitos(d);
  }

  lemma {:induction false} PrefixoDeDigitosTodos(f: string)
    requires SoDigitos(f)
    ensures PrefixoDeDigitos(f) == |f|
  {
    if f != [] {
      PrefixoDeDigitosTodos(f[1..]);
    }
  }

  lemma {:induction false} RemovePontosSemPonto(s: string)
    requires '.' !in s
    ensures RemovePontos(s) == s
  {
    if s != [] {
      RemovePontosSemPonto(s[1..]);
    }
  }

  /** The amount "1.234,56" is one thousand two hundred and thirty-four reais and 56 centavos. */
  lemma MilDuzentosETrintaEQuatro()
    ensures FormataValorEmReais("1.234,56") == 1234.56
  {
    var inteiro, fracao := "1.234", "56";
    assert inteiro + "," + fracao == "1.234,56";
    assert DigitosEPontos(inteiro) && SoDigitos(fracao);
    FormataValorEmReaisBemFormado(inteiro, fracao);
    Exemplo1234();
    Centavos56();
  }

  lemma Centavos56()
    ensures SoDigitos("56") && ValorDigitos("56") == 56 && |"56"| == 2
    ensures Decimal(1234, 56, 2) == 1234.56
  {
    assert "56"[..1] == "5";
    assert "5"[..0] == "";
    assert Pot10(2) == 100;
  }

  lemma Exemplo1234()
    ensures RemovePontos("1.234") == "1234" && SoDigitos("1234") && ValorDigitos("1234") == 1234
  {
    PontosDe1234();
    DigitosDe1234();
  }

  lemma PontosDe1234()
    ensures RemovePontos("1.234") == "1234"
  {
    assert "1.234" == "1." + "234";
    RemovePontosConcatena("1.", "234");
    RemovePontosSemPonto("234");
    assert RemovePontos(".") == "";
    assert "1." == "1" + ".";
    RemovePontosConcatena("1", ".");
    RemovePontosSemPonto("1");
  }

  lemma DigitosDe1234()
    ensures SoDigitos("1234") && ValorDigitos("1234") == 1234
  {
    assert "1234"[..3] == "123";
    assert "123"[..2] == "12";
    assert "12"[..1] == "1";
    assert "1"[..0] == "";
  }
}
