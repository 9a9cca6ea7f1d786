/**
 * The nota form (src/pages/CadastroNota.jsx): its checks, the editing of the product lines
 * and the running total.
 *
 * Dates in the form are the date inputs' strings, empty when unset; amounts are reals
 * (floating-point rounding is not modelled).
 */
module CadastroNota {
  import opened Wrappers
  import opened Records

  /** The form's state as `validateForm` and the handlers see it. */
  datatype FormNota = FormNota(
    clienteId: string, dataCompra: string, dataVencimento: string, produtos: seq<Produto>,
    valor: real, status: string)

  /** The product fields a line can be edited and checked on. */
  datatype CampoProduto = NomeProduto | ValorProduto | QuantidadeProduto

  /** The key `${index}-nome`, `${index}-valor` or `${index}-quantidade`. */
  datatype ChaveItem = ChaveItem(index: nat, campo: CampoProduto)

  /** The keys of `newErrors`. */
  datatype Chave = ClienteId | DataCompra | DataVencimento | ListaProdutos

  /** An entry of `newErrors`: a message, or (under `produtos`) the messages per line and field. */
  datatype Erro = Mensagem(texto: string) | PorItem(itens: map<ChaveItem, string>)

  const ErroCliente := "Selecione um cliente"
  const ErroDataCompra := "Data de compra é obrigatória"
  const ErroDataVencimento := "Data de vencimento é obrigatória"
  const ErroSemProdutos := "Adicione pelo menos um produto"

  function MensagemItem(campo: CampoProduto): string {
    match campo
    case NomeProduto => "Nome do produto é obrigatório"
    case ValorProduto => "Valor deve ser maior que zero"
    case QuantidadeProduto => "Quantidade deve ser maior que zero"
  }

  /** A line fails on a field: empty name, or a value or quantity that is not positive. */
  predicate ItemFalha(p: Produto, campo: CampoProduto) {
    match campo
    case NomeProduto => p.nome == ""
    case ValorProduto => p.valor <= 0.0
    case QuantidadeProduto => p.quantidade <= 0.0
  }

  predicate ItensValidos(ps: seq<Produto>) {
    forall i, c :: 0 <= i < |ps| ==> !ItemFalha(ps[i], c)
  }

  predicate FormularioValido(form: FormNota) {
    && form.clienteId != ""
    && form.dataCompra != ""
    && form.dataVencimento != ""
    && |form.produtos| > 0
    && ItensValidos(form.produtos)
  }

  /** The per-line messages collected so far, or none before the first. */
  function Itens(errors: map<Chave, Erro>): map<ChaveItem, string> {
    if ListaProdutos in errors && errors[ListaProdutos].PorItem? then errors[ListaProdutos].itens else map[]
  }

  /** Every per-line message is the one for its field. */
  ghost predicate Mensagens(itens: map<ChaveItem, string>) {
    forall k :: k in itens ==> itens[k] == MensagemItem(k.campo)
  }

  /** The `produtos` entry, once created, holds per-line messages and at least one of them. */
  ghost predicate Forma(errors: map<Chave, Erro>) {
    ListaProdutos in errors ==> errors[ListaProdutos].PorItem? && errors[ListaProdutos].itens != map[]
  }

  /** The checks done so far: every line before `n`, and the fields `feitos` of line `n`. */
  predicate Visto(k: ChaveItem, n: nat, len: nat, feitos: set<CampoProduto>) {
    k.index < n || (k.index == n && n < len && k.campo in feitos)
  }

  /** The messages collected are exactly the failing fields among the checks done so far. */
  ghost predicate Parcial(itens: map<ChaveItem, string>, ps: seq<Produto>, n: nat, feitos: set<CampoProduto>)
    requires n <= |ps|
  {
    forall k :: k in itens <==> Visto(k, n, |ps|, feitos) && ItemFalha(ps[k.index], k.campo)
  }

  /** Records a failing field of line `index`, creating the `produtos` entry on first use. */
  method AddItemError(errors: map<Chave, Erro>, index: nat, campo: CampoProduto) returns (r: map<Chave, Erro>)
    requires ListaProdutos in errors ==> errors[ListaProdutos].PorItem?
    ensures ListaProdutos in r && r[ListaProdutos].PorItem?
    ensures Itens(r) == Itens(errors)[ChaveItem(index, campo) := MensagemItem(campo)]
    ensures forall k :: k != ListaProdutos ==> (k in r <==> k in errors) && (k in r ==> r[k] == errors[k])
  {
    r := errors;
    if ListaProdutos !in r {
      r := r[ListaProdutos := PorItem(map[])];
    }
    r := r[ListaProdutos := PorItem(r[ListaProdutos].itens[ChaveItem(index, campo) := MensagemItem(campo)])];
  }

  /** One check of line `index`: the field's message is added when it fails. */
  method CheckCampo(errors: map<Chave, Erro>, ps: seq<Produto>, index: nat, campo: CampoProduto,
                    ghost feitos: set<CampoProduto>) returns (r: map<Chave, Erro>)
    requires index < |ps|
    requires Forma(errors) && Parcial(Itens(errors), ps, index, feitos) && Mensagens(Itens(errors))
    ensures Forma(r) && Parcial(Itens(r), ps, index, feitos + {campo}) && Mensagens(Itens(r))
    ensures forall k :: k != ListaProdutos ==> (k in r <==> k in errors) && (k in r ==> r[k] == errors[k])
  {
    r := errors;
    if ItemFalha(ps[index], campo) {
      r := AddItemError(r, index, campo);
    }
  }

  /** Once the three fields of a line are checked, the next line starts. */
  lemma ProximaLinha(itens: map<ChaveItem, string>, ps: seq<Produto>, n: nat)
    requires n < |ps| && Parcial(itens, ps, n, {NomeProduto, ValorProduto, QuantidadeProduto})
    ensures Parcial(itens, ps, n + 1, {})
  {
  }

  /** The loop over the lines of a non-empty list. */
  method ValidarItens(ps: seq<Produto>, cabecalho: map<Chave, Erro>) returns (errors: map<Chave, Erro>)
    requires ListaProdutos !in cabecalho
    ensures forall k :: k != ListaProdutos ==> (k in errors <==> k in cabecalho) && (k in errors ==> errors[k] == cabecalho[k])
    ensures ListaProdutos in errors ==> errors[ListaProdutos].PorItem?
    ensures ListaProdutos in errors <==> !ItensValidos(ps)
    ensures forall k :: k in Itens(errors) <==> k.index < |ps| && ItemFalha(ps[k.index], k.campo)
    ensures forall k :: k in Itens(errors) ==> Itens(errors)[k] == MensagemItem(k.campo)
  {
    errors := cabecalho;
    for index := 0 to |ps|
      invariant forall k :: k != ListaProdutos ==> (k in errors <==> k in cabecalho) && (k in errors ==> errors[k] == cabecalho[k])
      invariant Forma(errors) && Parcial(Itens(errors), ps, index, {}) && Mensagens(Itens(errors))
    {
      errors := CheckCampo(errors, ps, index, NomeProduto, {});
      errors := CheckCampo(errors, ps, index, ValorProduto, {NomeProduto});
      errors := CheckCampo(errors, ps, index, QuantidadeProduto, {NomeProduto, ValorProduto});
      assert {NomeProduto, ValorProduto} + {QuantidadeProduto} == {NomeProduto, ValorProduto, QuantidadeProduto};
      ProximaLinha(Itens(errors), ps, index);
    }
    assert forall k :: Visto(k, |ps|, |ps|, {}) <==> k.index < |ps|;
    if ListaProdutos in errors {
      var k :| k in Itens(errors);
      assert ItemFalha(ps[k.index], k.campo);
    } else {
      assert ItensValidos(ps) by {
        forall i, c | 0 <= i < |ps| ensures !ItemFalha(ps[i], c) {
          assert ChaveItem(i, c) !in Itens(errors);
        }
      }
    }
  }

  /**
   * `validateForm`: one message per missing header field; an empty product list, or else
   * one message per failing line and field; valid exactly when nothing was added.
   */
  method ValidateForm(form: FormNota) returns (ok: bool, errors: map<Chave, Erro>)
    ensures ClienteId in errors <==> form.clienteId == ""
    ensures DataCompra in errors <==> form.dataCompra == ""
    ensures DataVencimento in errors <==> form.dataVencimento == ""
    ensures ClienteId in errors ==> errors[ClienteId] == Mensagem(ErroCliente)
    ensures DataCompra in errors ==> errors[DataCompra] == Mensagem(ErroDataCompra)
    ensures DataVencimento in errors ==> errors[DataVencimento] == Mensagem(ErroDataVencimento)
    ensures form.produtos == [] ==> ListaProdutos in errors && errors[ListaProdutos] == Mensagem(ErroSemProdutos)
    ensures form.produtos != [] ==> (ListaProdutos in errors <==> !ItensValidos(form.produtos))
    ensures form.produtos != [] && ListaProdutos in errors ==> errors[ListaProdutos].PorItem?
    ensures form.produtos != [] ==> forall k :: k in Itens(errors) <==>
      k.index < |form.produtos| && ItemFalha(form.produtos[k.index], k.campo)
    ensures forall k :: k in Itens(errors) ==> Itens(errors)[k] == MensagemItem(k.campo)
    ensures ok <==> errors == map[]
    ensures ok == FormularioValido(form)
  {
    errors := map[];

    if form.clienteId == "" {
      errors := errors[ClienteId := Mensagem(ErroCliente)];
    }
    if form.dataCompra == "" {
      errors := errors[DataCompra := Mensagem(ErroDataCompra)];
    }
    if form.dataVencimento == "" {
      errors := errors[DataVencimento := Mensagem(ErroDataVencimento)];
    }

    if |form.produtos| == 0 {
      errors := errors[ListaProdutos := Mensagem(ErroSemProdutos)];
    } else {
      errors := ValidarItens(form.produtos, errors);
    }

    ok := errors == map[];
    if ClienteId !in errors && DataCompra !in errors && DataVencimento !in errors && ListaProdutos !in errors {
      SemChavesVazio(errors);
    }
  }

  /** A map keyed by `Chave` without any of its four keys is empty. */
  lemma SemChavesVazio(errors: map<Chave, Erro>)
    requires ClienteId !in errors && DataCompra !in errors && DataVencimento !in errors && ListaProdutos !in errors
    ensures errors == map[]
  {
    assert forall k :: k !in errors by {
      forall k: Chave ensures k !in errors {
        match k
        case ClienteId =>
        case DataCompra =>
        case DataVencimento =>
        case ListaProdutos =>
      }
    }
  }

  // ---------------------------------------------------------------- the product lines

  const ProdutoVazio := Produto("", 0.0, 0.0)

  /** `adicionarProduto`: one blank line at the end. */
  function AdicionarProduto(ps: seq<Produto>): (r: seq<Produto>)
    ensures |r| == |ps| + 1 && r[..|ps|] == ps && r[|ps|] == ProdutoVazio
  {
    ps + [ProdutoVazio]
  }

  /** A form with a freshly added line does not validate: the blank line has no name. */
  lemma AdicionarProdutoInvalida(form: FormNota)
    ensures !FormularioValido(form.(produtos := AdicionarProduto(form.produtos)))
  {
    var ps := AdicionarProduto(form.produtos);
    assert ItemFalha(ps[|form.produtos|], NomeProduto);
  }

  /** Where `splice(index, 1)` starts: negative indices count from the end. */
  function SpliceStart(len: nat, index: int): (s: nat)
    ensures s <= len
    ensures 0 <= index <= len ==> s == index
    ensures index < 0 && len > 0 ==> s < len
    ensures index < 0 ==> s == if len + index < 0 then 0 else len + index
  {
    if index < 0 then (if len + index < 0 then 0 else len + index)
    else if index > len then len
    else index
  }

  /** `removerProduto(index)`: `splice(index, 1)` on a copy of the list. */
  function RemoverProduto(ps: seq<Produto>, index: int): (r: seq<Produto>)
    ensures 0 <= index < |ps| ==>
      && |r| == |ps| - 1
      && (forall j :: 0 <= j < index ==> r[j] == ps[j])
      && (forall j :: index <= j < |r| ==> r[j] == ps[j + 1])
    ensures index >= |ps| ==> r == ps
    ensures index < 0 && ps != [] ==> |r| == |ps| - 1
  {
    var s := SpliceStart(|ps|, index);
    if s < |ps| then ps[..s] + ps[s + 1..] else ps
  }

  /** The page offers removal only while there is more than one line, so the list never empties that way. */
  lemma RemoverProdutoNaoEsvazia(ps: seq<Produto>, index: int)
    requires |ps| > 1 && 0 <= index < |ps|
    ensures RemoverProduto(ps, index) != []
  {
  }

  /** `parseFloat(value) || 0`: `None` stands for `NaN`. */
  function Numero(value: string, parseFloat: string -> Option<real>): real {
    parseFloat(value).GetOr(0.0)
  }

  function AtualizarCampo(p: Produto, campo: CampoProduto, value: string, parseFloat: string -> Option<real>): Produto {
    match campo
    case NomeProduto => p.(nome := value)
    case ValorProduto => p.(valor := Numero(value, parseFloat))
    case QuantidadeProduto => p.(quantidade := Numero(value, parseFloat))
  }

  /** `handleProdutoChange(index, field, value)`: only that field of that line changes. */
  function HandleProdutoChange(ps: seq<Produto>, index: nat, campo: CampoProduto, value: string,
                               parseFloat: string -> Option<real>): (r: seq<Produto>)
    requires index < |ps|
    ensures |r| == |ps|
    ensures forall j :: 0 <= j < |ps| && j != index ==> r[j] == ps[j]
    ensures campo == NomeProduto ==> r[index] == ps[index].(nome := value)
    ensures campo == ValorProduto ==>
      r[index] == ps[index].(valor := if parseFloat(value).Some? then parseFloat(value).value else 0.0)
    ensures campo == QuantidadeProduto ==>
      r[index] == ps[index].(quantidade := if parseFloat(value).Some? then parseFloat(value).value else 0.0)
  {
    ps[index := AtualizarCampo(ps[index], campo, value, parseFloat)]
  }

  // ---------------------------------------------------------------- the total

  function Subtotal(p: Produto): real {
    p.valor * p.quantidade
  }

  /** `produtos.reduce((sum, p) => sum + p.valor * p.quantidade, 0)`, folded from the left. */
  function Total(ps: seq<Produto>): real {
    if ps == [] then 0.0 else Total(ps[..|ps| - 1]) + Subtotal(ps[|ps| - 1])
  }

  /** Lines whose subtotals are not negative give a total that is not negative. */
  lemma {:induction false} TotalNaoNegativo(ps: seq<Produto>)
    requires forall i :: 0 <= i < |ps| ==> Subtotal(ps[i]) >= 0.0
    ensures Total(ps) >= 0.0
    decreases |ps|
  {
    if ps != [] {
      var init := ps[..|ps| - 1];
      assert forall i :: 0 <= i < |init| ==> init[i] == ps[i];
      TotalNaoNegativo(init);
    }
  }

  lemma {:induction false} TotalAppend(a: seq<Produto>, b: seq<Produto>)
    ensures Total(a + b) == Total(a) + Total(b)
    decreases |b|
  {
    if b == [] {
      assert a + b == a;
    } else {
      var c := b[..|b| - 1];
      assert (a + b)[..|a + b| - 1] == a + c;
      assert (a + b)[|a + b| - 1] == b[|b| - 1];
      TotalAppend(a, c);
    }
  }

  lemma TotalSingleton(p: Produto)
    ensures Total([p]) == Subtotal(p)
  {
    assert [p][..0] == [];
  }

  /** Splitting the list around one line. */
  lemma TotalAround(ps: seq<Produto>, i: nat)
    requires i < |ps|
    ensures Total(ps) == Total(ps[..i]) + Subtotal(ps[i]) + Total(ps[i + 1..])
  {
    assert ps == ps[..i] + [ps[i]] + ps[i + 1..];
    TotalAppend(ps[..i] + [ps[i]], ps[i + 1..]);
    TotalAppend(ps[..i], [ps[i]]);
    TotalSingleton(ps[i]);
  }

  /** A blank line adds nothing to the total. */
  lemma TotalAdicionar(ps: seq<Produto>)
    ensures Total(AdicionarProduto(ps)) == Total(ps)
  {
    TotalAppend(ps, [ProdutoVazio]);
    TotalSingleton(ProdutoVazio);
  }

  /** Removing a line takes exactly its subtotal off. */
  lemma TotalRemover(ps: seq<Produto>, index: nat)
    requires index < |ps|
    ensures Total(RemoverProduto(ps, index)) == Total(ps) - Subtotal(ps[index])
  {
    TotalAround(ps, index);
    TotalAppend(ps[..index], ps[index + 1..]);
  }

  /** Editing a line changes the total by the difference of its subtotals. */
  lemma TotalChange(ps: seq<Produto>, index: nat, campo: CampoProduto, value: string,
                    parseFloat: string -> Option<real>)
    requires index < |ps|
    ensures var r := HandleProdutoChange(ps, index, campo, value, parseFloat);
      Total(r) == Total(ps) - Subtotal(ps[index]) + Subtotal(r[index])
  {
    var r := HandleProdutoChange(ps, index, campo, value, parseFloat);
    TotalAround(ps, index);
    TotalAround(r, index);
    assert r[..index] == ps[..index];
    assert r[index + 1..] == ps[index + 1..];
  }

  /** Lines that all pass the checks give a positive total. */
  lemma {:induction false} TotalPositivo(ps: seq<Produto>)
    requires |ps| > 0 && ItensValidos(ps)
    ensures Total(ps) > 0.0
    decreases |ps|
  {
    var last := ps[|ps| - 1];
    assert !ItemFalha(last, ValorProduto) && !ItemFalha(last, QuantidadeProduto);
    assert Subtotal(last) > 0.0;
    var init := ps[..|ps| - 1];
    if |init| > 0 {
      assert ItensValidos(init) by {
        forall i, c | 0 <= i < |init| ensures !ItemFalha(init[i], c) {
          assert init[i] == ps[i];
        }
      }
      TotalPositivo(init);
    }
  }

  /** The effect that keeps `valor` equal to the total of the lines. */
  function CalcularValorTotal(form: FormNota): (r: FormNota)
    ensures r.valor == Total(form.produtos)
    ensures r.(valor := form.valor) == form
  {
    form.(valor := Total(form.produtos))
  }

  /** A form that validates carries a positive amount once the total is computed. */
  lemma ValidoTemValorPositivo(form: FormNota)
    requires FormularioValido(form)
    ensures CalcularValorTotal(form).valor > 0.0
  {
    TotalPositivo(form.produtos);
  }
}
