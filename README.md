# Frete Correios — a Dafny model of the shipping quote

This project models the shipping-quote core of `frete-correios`, a PHP
class that asks the Brazilian postal service's pricing webservice
(Correios) for the price of a shipment. The class:

- validates and normalises its arguments: the origin and destination
  postal codes (CEP), the service code, the product list and the
  additional-service flags;
- reduces the products to a total weight and a total volume;
- turns the volume into the edge of an equivalent cube (the "medida");
- chooses one of three pricing regimes;
- splits an oversized shipment into several boxes ("transbordo": weight
  over 30 kg, or weight over 30 kg and measure over 66 cm);
- queries one price per box, or returns the per-box queries instead.

Two versions of the class are modelled: the current one in `src/Frete.php`
and the older one in the repository root, `Frete.php`. They share the box
decompositions.

Modules:

- `Entrada`: the argument checks and normalisations.
  - CEP pattern and digit filter.
  - `s`/`n` flags.
  - Required product keys.
  - Parsing of the Brazilian money format `1.234,56`.
- `Caixas`: the per-box limits, the regime dispatch, and the two box
  sequences. Each sequence is a pure function with its properties proved:
  - count;
  - weight of box i;
  - edge;
  - how the remainders evolve;
  - total weight declared.
- `Agregacao`: the dimension floors, the weight and volume sums, and the
  integer ceiling cube root.
- `Correios`: the query record, the abstract reply `{Erro, Valor, MsgErro}`,
  the exceptions and the reply dispatch.
- `Frete`: the class of `src/Frete.php`.
  - The constructor's checks.
  - `calcular`, with its aggregation loop and the two do-while overflow
    loops written as `while` loops. Each loop is proved equal to the
    function that specifies it.
  - `valorFinal`.
- `Legado`: the class of the root `Frete.php`.
  - `calculaFrete`.
  - `MPesoLMedida` and `PesoEMedida`, proved to query the same boxes as
    the current version.
  - `calculaFreteCaixa`, which never fails and answers with text.
  - `getFrete`.

In the legacy `calculaFreteCaixa`, the error code `Erro` is a `SimpleXMLElement` node. The test `Erro === '7'` compares that node to a string strictly, which is never true. So the legacy class never shows its "unavailable" message, and every non-zero code gets the generic one. The model keeps that behaviour.

The webservice is a parameter `correios: Consulta -> Resposta`, a function
from a query to the reply it gets. Every result that depends on prices is
stated in terms of it. In URL mode the webservice is never consulted, and
this is proved.

The model follows the code, including these behaviours:
- **Weight overflow, box edge.** The loop computes a local edge of 16 for
  boxes after the first, but never uses it. Every box is queried with the
  original measure.
- **Weight overflow, first box.** The first box can weigh more than 30 kg:
  65 kg gives boxes of 60, 30 and 0 kg, all with the original edge
  (`CaixasDePesoSessentaECinco`).
- **Weight-and-measure overflow, box edge.** The edge always evaluates
  to 66.
- **Weight-and-measure overflow, box weight.** Each box weight is taken
  after that pass's 30 kg subtraction.
- **Weight-and-measure overflow, box count.** With both limits exceeded
  the loop makes max(ceil(peso/30), ceil(medida/66)) − 1 passes.
- **Weight within 30 kg with measure over 66 cm.** No branch assigns a
  result. The model returns the explicit outcome `Indefinido`.

## Model

| member | source | states |
|---|---|---|
| Entrada.CasaPadraoCEP | src/Frete.php:169-175 | the left-to-right match of `^[0-9]{5}-?[0-9]{3}$` accepts exactly five digits, an optional hyphen and three digits, optionally followed by one final newline (which PHP's `$` allows) |
| Entrada.ValidaCEP | src/Frete.php:169-175 | a value is a valid CEP iff it is a string accepted by the pattern; non-strings are refused; accepted strings have 8 to 10 characters |
| Entrada.FormataCEP | src/Frete.php:211-214 | the digit filter returns only digits and is never longer than its input |
| Entrada.FormataCEPDeDigitos | src/Frete.php:211-214 | a string of digits is left unchanged |
| Entrada.FormataCEPIdempotente | src/Frete.php:211-214 | filtering twice gives the same result as filtering once |
| Entrada.FormataCEPDeFormato | src/Frete.php:211-214 | both written forms `NNNNNNNN` and `NNNNN-NNN` filter to their five and three digits, in order |
| Entrada.FormataCEPDeAceito | src/Frete.php:169-214 | every CEP the check accepts is stored as exactly its eight digits, in order |
| Entrada.FormataValorBooleano | src/Frete.php:223-226 | true becomes 's' and false becomes 'n', and nothing else is produced |
| Entrada.ChavesPresentes | src/Frete.php:189-194 | the inner key loop succeeds iff every listed key is present |
| Entrada.ProdutosCompletos | src/Frete.php:188-200 | the outer loop succeeds iff every product carries the five keys |
| Entrada.ValidaProdutos | src/Frete.php:184-201 | a value is accepted iff it is a list whose every product carries `qtd`, `peso`, `altura`, `largura` and `comprimento`; the empty list is accepted |
| Entrada.RemovePontos | src/Frete.php:237 | the result contains no `.` |
| Entrada.TrocaVirgulas | src/Frete.php:238 | the comma replacement keeps the length and replaces exactly the commas by points |
| Entrada.NormalizadoSemVirgula | src/Frete.php:235-240 | the string handed to the cast never contains a comma, and contains a point whenever the input had a comma |
| Entrada.FormataValorEmReaisBemFormado | src/Frete.php:235-240 | `I,F`, with I made of digits and thousands points and F of digits, parses to I without its points plus F read as a decimal fraction |
| Entrada.NormalizaBemFormado | src/Frete.php:237-238 | for such an amount, the two replacements yield the digits of I, a point, then F |
| Entrada.ParseFloatComPonto | src/Frete.php:239 | the cast of `D.F` is D plus F over 10 to the power of the length of F |
| Entrada.ParseFloat | src/Frete.php:239 | the `(float)` cast reads the leading number: its integer part is the leading digits, and a string of digits alone is read as exactly that integer |
| Entrada.FormataValorEmReais | src/Frete.php:235-240 | the amount is never negative, and its whole reais are the leading digits once the thousands points are dropped (so `1.234,56` lies in [1234, 1235)); `FormataValorEmReaisBemFormado` gives its exact value on every `I,F` amount |
| Entrada.MilDuzentosETrintaEQuatro | src/Frete.php:235-240 | `"1.234,56"` is 1234.56 |
| Caixas.Intval | src/Frete.php:401 | `intval` truncates toward zero |
| Caixas.Teto | src/Frete.php:285 | `ceil` is the least integer not below its argument |
| Caixas.RegimeDe | src/Frete.php:289-298 | one box iff medida ≤ 66 and peso ≤ 30; weight overflow iff peso > 30 and medida ≤ 66; weight-and-measure overflow iff both exceed; the remaining case, and only that case, has no rule |
| Caixas.CaixasDePeso | src/Frete.php:391-405 | the boxes of the weight overflow (also those of the legacy `MPesoLMedida`, Frete.php:164-179): one per pass, each a cube of the original measure, and, for a positive weight, each asking for a non-negative weight no larger than the remainder its pass sees |
| Caixas.PassadasDePeso | src/Frete.php:391-405 | the loop count is the least n ≥ 1 with peso − 30n ≤ 0 |
| Caixas.CaixaDaPassadaDePeso | src/Frete.php:400-405 | pass i, seeing the remainder peso − 30i, emits box i, and the loop goes on iff the next remainder is positive |
| Caixas.CaixasDePesoArestas | src/Frete.php:402 | every box of the weight overflow uses the original measure |
| Caixas.PassadasDePesoTeto | src/Frete.php:391-405 | for a positive weight there are ceil(peso/30) boxes |
| Caixas.CaixaDePesoI | src/Frete.php:401-403 | box i weighs (floor(peso/30) − i)·30 kg |
| Caixas.CaixasDePesoDecrescem | src/Frete.php:401-403 | consecutive boxes differ by exactly 30 kg |
| Caixas.UltimaCaixaDePeso | src/Frete.php:401-405 | the last box weighs 30 kg when peso is a multiple of 30, and 0 kg otherwise |
| Caixas.CaixasDePesoSessentaECinco | src/Frete.php:391-405 | 65 kg with edge 40 gives boxes of 60, 30 and 0 kg, all with edge 40 |
| Caixas.CaixasDePesoEMedida | src/Frete.php:417-429 | the boxes of the weight-and-measure overflow (also those of the legacy `PesoEMedida`, Frete.php:184-199): at least one, each a 66 cm cube carrying at most 30 kg |
| Caixas.CaixaDaPassada | src/Frete.php:424-425 | the box of a pass always has edge 66 and weighs min(remaining weight, 30) |
| Caixas.QuantidadeDeCaixasDePesoEMedida | src/Frete.php:420-427 | the loop makes max(1, ceil(peso/30) − 1, ceil(medida/66) − 1) passes |
| Caixas.PassadasComAmbosExcedidos | src/Frete.php:420-427 | with both limits exceeded there are max(ceil(peso/30), ceil(medida/66)) − 1 boxes |
| Caixas.CaixaDePesoEMedidaI | src/Frete.php:422-426 | box i is the 66 cm cube carrying min(weight remaining after pass i + 1, 30) |
| Caixas.RemanescentesEstabilizam | src/Frete.php:422-423 | each remainder drops by its unit (30 kg, 66 cm) only while above its limit, then stays fixed |
| Caixas.ParadaDePesoEMedida | src/Frete.php:420-427 | the number of boxes is the first pass k ≥ 1 after which the weight is within 30 and the measure within 66; after every earlier pass one of them was still above its limit |
| Caixas.PesoDeclaradoEmPesoEMedida | src/Frete.php:420-427 | when the measure needs no more passes than the weight, the boxes declare peso − 30 kg in total: the first 30 kg removed are never priced |
| Agregacao.Normaliza | src/Frete.php:277-279 | height, width and length below 2, 11 and 16 are raised to those floors; the other values pass through |
| Agregacao.VolumeAcimaDoPiso | src/Frete.php:275-283 | with non-negative quantities the total volume is at least 2·11·16 cm³ per unit |
| Agregacao.PesoFinal | src/Frete.php:287 | the total weight is floored at 0.3 kg and otherwise unchanged |
| Agregacao.RaizCubicaTeto | src/Frete.php:285 | the result is the least natural number whose cube reaches the volume |
| Agregacao.RaizCubicaUnica | src/Frete.php:285 | those two properties determine the ceiling cube root |
| Agregacao.RaizCubicaMonotona | src/Frete.php:285 | the ceiling cube root never decreases as the volume grows |
| Agregacao.MedidaDe | src/Frete.php:285-286 | the measure is at least 16, its cube covers the volume, and it is 16 or the least such edge |
| Agregacao.MedidaMonotona | src/Frete.php:285-286 | a larger volume never yields a smaller measure |
| Agregacao.MedidaDeOitoMil | src/Frete.php:285-286 | 8000 cm³ gives a 20 cm cube |
| Agregacao.MedidaDeZero | src/Frete.php:285-286 | no volume at all still gives the minimum 16 cm |
| Correios.InterpretaResposta | src/Frete.php:354-383 | no reply gives code 0; no XML gives code 1; Erro 0 gives the price parsed from the Brazilian format; Erro 7 gives the "unavailable" exception with code 7; any other Erro gives code −1 with MsgErro when present, else the fallback text |
| Correios.PrecosDasConsultas | src/Frete.php:400-407 | priced one by one, a list of queries yields one price per query, in order |
| Correios.PrimeiraFalha | src/Frete.php:400-407 | a failed pricing carries the exception of the first query that was not priced; every earlier query was priced |
| Frete.ProdutosDe | src/Frete.php:156 | the products are stored in order, each with its five values |
| Frete.PrimeiroErro | src/Frete.php:124-151 | each of the seven reasons is reported iff every check before it in the constructor's order passed and its own check failed; no argument is refused iff the service is a string, both CEPs are valid, the products are valid, both flags are booleans and the declared value is a number |
| Frete.Frete.Inicia | src/Frete.php:153-159 | the stored CEPs are the eight-digit forms; the flags are `s`/`n`; the other arguments are stored as given; no value has been calculated yet |
| Frete.Frete.Criar | src/Frete.php:115-160 | the first failing check raises its InvalidArgumentException; otherwise a fresh, normalised object with no value calculated yet is returned |
| Frete.Frete.ConsultaDe | src/Frete.php:319-336 | the query carries the fixed parameters, the stored CEPs, flags, declared value and service, the box weight, and the box edge as all three dimensions; on a constructed object its CEPs are eight digits and its flags `s`/`n` |
| Frete.Frete.ObterValorDoFrete | src/Frete.php:317-383 | in URL mode the box's query itself; otherwise a price iff the reply is a service record with Erro 0, that price being its Valor in Brazilian format; no reply gives code 0, no XML code 1, Erro 7 the "unavailable" exception, and any other Erro code −1 with MsgErro when present, else the fallback text |
| Frete.Frete.ConsultasDe | src/Frete.php:402 | the query list has one query per box, in box order |
| Frete.Frete.Registra | src/Frete.php:402 | one pass appends the box's query in URL mode or its price in price mode, or fails with the exception of that box |
| Frete.Frete.FalhaInterrompe | src/Frete.php:402-405 | once a box fails, later boxes change nothing: the first exception is the result |
| Frete.Frete.PrecosPelasConsultas | src/Frete.php:317-345 | pricing the boxes directly equals pricing the listed queries one by one |
| Frete.Frete.UrlsNaoConsultam | src/Frete.php:340-344 | in URL mode the result does not depend on the webservice and never fails |
| Frete.Frete.ModosConcordam | src/Frete.php:289-301 | for every reply function, the URL mode succeeds, and pricing the queries it lists one by one gives exactly the direct mode's outcome: the same total when all are priced, the same exception when one is not, and the same undefined case |
| Frete.Frete.Calculo | src/Frete.php:264-301 | the URL mode always succeeds and yields queries, the price mode yields an amount or a runtime exception (never an argument error), a list of queries is never empty, a result is never the not-calculated state, and the outcome is undefined exactly when the weight is within 30 kg and the measure over 66 cm |
| Frete.Frete.ValorFinal | src/Frete.php:249-252 | returns the stored total: `Inicia` and `Criar` ensure it is the not-calculated state (PHP null) before any calculation, and `Calcular` ensures it is the last successful result afterwards |
| Frete.Frete.Calcular | src/Frete.php:264-301 | a non-boolean argument is refused; otherwise the result is the aggregation, dispatch and box pricing of the stored products; it is stored for `valorFinal` on success, and the previous value is kept when an exception is raised |
| Frete.Frete.Totais | src/Frete.php:275-283 | the loop accumulates the weight Σ peso·qtd and the clamped volume Σ l·a·c·qtd |
| Frete.Frete.TransbordoDePeso | src/Frete.php:387-408 | the do-while loop queries exactly the weight-overflow boxes, in order, and returns their queries or the sum of their prices (or the first exception) |
| Frete.Frete.TransbordoDePesoEMedida | src/Frete.php:411-430 | the do-while loop queries exactly the weight-and-measure boxes, in order, and returns their queries or the sum of their prices (or the first exception) |
| Legado.Campo | Frete.php:54-66 | an unset product key reads as 0 |
| Legado.NormalizaLegado | Frete.php:56-63 | the falsy-or-below-floor clamps equal the floors of the current version; an unset dimension gets its floor |
| Legado.ProdutosConcordam | Frete.php:52-68 | on products that carry all five keys, both versions read the same products, and so reach the same totals and measure |
| Legado.Frete.constructor | Frete.php:23-33 | the arguments are stored unchecked, and `getFrete` starts at 0.00 |
| Legado.Frete.ConsultaLegada | Frete.php:104-134 | the query uses the CEPs as given, no own-hand or receipt service, and a declared value of 0 |
| Legado.Frete.CalculaFreteCaixa | Frete.php:140-158 | never fails: Erro 0 gives the raw Valor text, and everything else gives the generic message; the "unavailable" message is never returned |
| Legado.Frete.RetornosDe | Frete.php:174 | one reply per box, in box order |
| Legado.Frete.MesmasConsultas | Frete.php:74-95 | with all keys present, both versions work on the same boxes: the new one lists their queries, the old one answers each with `calculaFreteCaixa`, in the same order, and both leave the same case undefined |
| Legado.Frete.GetFrete | Frete.php:36-38 | returns the stored total: the constructor ensures it is 0.00 before any calculation, and `CalculaFrete` ensures it is the last result afterwards |
| Legado.Frete.CalculoLegado | Frete.php:46-96 | the result of a calculation is never the initial 0.00; it is undefined exactly when the weight is within 30 kg and the measure over 66 cm; otherwise it holds at least one reply, and never the "unavailable" message |
| Legado.Frete.CalculaFrete | Frete.php:46-96 | the stored result is the aggregation, dispatch and per-box replies of the stored products, and `getFrete` returns it from then on |
| Legado.Frete.TotaisLegados | Frete.php:52-68 | the loop accumulates the same weight and clamped-volume sums, with unset keys read as 0 |
| Legado.Frete.MPesoLMedida | Frete.php:162-180 | the do-while loop answers for exactly the weight-overflow boxes of the current version, in order |
| Legado.Frete.PesoEMedida | Frete.php:182-200 | the do-while loop answers for exactly the weight-and-measure boxes of the current version, in order |

## Left out

- Default arguments are not modelled: `maoPropria`, `valorDeclarado` and `avisoRecebimento` of the constructor (src/Frete.php:120-122), `retornaUrl` of `calcular` (src/Frete.php:264) and the legacy `mostraURL` (Frete.php:25) are always passed explicitly to `Criar`, `Calcular` and the legacy constructor.
- Frete.Frete.ModosConcordam: the webservice is a function, so identical queries always get identical replies. The real service can price a box and then answer Erro 7 for an identical later box; for example, 100 kg with 200 cm gives the boxes (30, 66), (30, 66) and (10, 66). The agreement of URL mode and price mode (`ModosConcordam`, `PrecosPelasConsultas`) holds only for a service that answers consistently within one calculation.
- Network and XML. The following are not modelled: the HTTP request (`curl_*`, `file_get_contents`), `simplexml_load_string`, `http_build_query` URL encoding, and the debug `echo` of the legacy `mostraURL` flag. A query is the ordered record of its parameters. A reply is `SemResposta`, `XmlInvalido` or the record `{Erro, Valor, MsgErro}`. The webservice is the parameter `correios`.
- Floating point. Weights, volumes and prices are exact reals. `ceil(pow(V, 1/3))` is the exact integer ceiling cube root, but IEEE `pow` can misround near perfect cubes.
- A negative total volume, where `pow` gives NAN in PHP, is not modelled. The model's cube root of a negative volume is 0, and the measure then takes the 16 cm floor.
- PHP loose typing is not emulated:
  - the `switch` on `(string) Erro` against integers (Erro is an integer here);
  - `is_numeric` on numeric strings (the declared value must be a number);
  - product values that are null or non-numeric (a product is a map from key to real);
  - the legacy code's addition of reply strings to numbers.
- Calcular: the weight ≤ 30 kg with measure > 66 cm case stores the explicit `Indefinido` outcome. PHP stores an unassigned variable there: null, with an "Undefined variable" warning under PHP 8 (a notice under PHP 7).
- Legado.Frete.CalculaFrete: the legacy total is kept as the ordered list of per-box replies (raw price text or message), not as PHP's numeric sum of strings. The undefined case is likewise `Indefinido`.
- ParseFloat: the `(float)` cast reads only a leading `digits[.digits]` prefix. Signs, exponents and leading blanks are not modelled.
- `validaCEP` is specified by a direct scan of the characters rather than by a regular-expression engine. The newline that PHP's `$` accepts before the end is modelled.
- Integer widths are not modelled: PHP integers and floats are unbounded here.
