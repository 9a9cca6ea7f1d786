/**
 * The detail card of one nota (src/components/nota/NotaCard.jsx): title, overdue mark,
 * product lines recovered from the stored text, status badge and the status button.
 */
module NotaCard {
  import opened Wrappers
  import opened Text
  import opened Records
  import NotaList

  /**
   * The product lines the card lists: stored text is parsed and a parse failure shows no
   * lines, a list is shown as it is, and a value that is not an array shows nothing.
   */
  function ProdutosExibidos(p: Produtos, parse: string -> Option<ProdutosLidos>): (r: seq<Produto>)
    ensures p.Json? && parse(p.text).None? ==> r == []
    ensures p.Json? && parse(p.text) == Some(NaoLista) ==> r == []
    ensures p.Json? && parse(p.text).Some? && parse(p.text).value.Linhas? ==> r == parse(p.text).value.itens
    ensures p.Lista? ==> r == p.itens
    ensures p.Ausente? ==> r == []
  {
    match p
    case Json(text) =>
      (match parse(text)
       case None => []
       case Some(NaoLista) => []
       case Some(Linhas(itens)) => itens)
    case Lista(itens) => itens
    case Ausente => []
  }

  /** Text the store wrote with a serialiser the parser inverts shows exactly the lines saved. */
  lemma ProdutosExibidosRoundTrip(codec: JsonCodec, itens: seq<Produto>)
    requires codec.parse(codec.stringify(itens)) == Some(Linhas(itens))
    ensures ProdutosExibidos(Json(codec.stringify(itens)), codec.parse) == itens
  {
  }

  /** `id.substring(0, 8).toUpperCase()`. */
  function ShortId(id: string): (r: string)
    ensures |r| == if |id| < 8 then |id| else 8
    ensures forall i :: 0 <= i < |r| ==> r[i] == UpperChar(id[i])
  {
    ToUpper(if |id| < 8 then id else id[..8])
  }

  /** The status the card's button sends: `pendente` for a paid nota, `paga` for every other. */
  function ToggleTarget(status: string): (r: string)
    ensures r == "pendente" <==> status == "paga"
    ensures r == "paga" <==> status != "paga"
  {
    if status == "paga" then "pendente" else "paga"
  }

  /**
   * The card and the table agree on the two statuses the application writes and disagree on
   * every other value: the table offers `pendente`, the card `paga`.
   */
  lemma TogglesAgreeOnKnownStatuses(status: string)
    ensures status == "paga" || status == "pendente" ==> ToggleTarget(status) == NotaList.ToggleTarget(status)
    ensures status != "paga" && status != "pendente" ==>
      ToggleTarget(status) == "paga" && NotaList.ToggleTarget(status) == "pendente"
  {
  }

  /** What the card shows. */
  datatype Cartao = Cartao(
    titulo: string, cliente: string, vencida: bool, produtos: seq<Produto>, rotulo: string,
    alvo: Option<string>)

  /** `nota.clienteNome || ''`. */
  function NomeOuVazio(nome: Option<string>): string {
    nome.GetOr("")
  }

  /**
   * The card for a nota, or nothing for a missing one. Overdue and the badge follow the same
   * rules as the table. `comStatus` says whether the page passed `onUpdateStatus`; without it
   * the card has no status button.
   */
  function Render(nota: Option<NotaComCliente>, hoje: int, parse: string -> Option<ProdutosLidos>, comStatus: bool): (r: Option<Cartao>)
    ensures r.None? <==> nota.None?
    ensures r.Some? ==> r.value.titulo == "Nota " + ShortId(nota.value.nota.id)
    ensures r.Some? ==> (r.value.vencida <==> EstaVencida(nota.value.nota, hoje))
    ensures r.Some? ==> r.value.rotulo == NotaList.StatusLabel(nota.value.nota, hoje)
    ensures r.Some? ==> r.value.cliente == nota.value.clienteNome.GetOr("")
    ensures r.Some? ==> (r.value.alvo.Some? <==> comStatus)
    ensures r.Some? && comStatus ==> r.value.alvo == Some(ToggleTarget(nota.value.nota.status))
    ensures r.Some? ==> r.value.produtos == ProdutosExibidos(nota.value.nota.produtos, parse)
  {
    match nota
    case None => None
    case Some(nc) =>
      var n := nc.nota;
      Some(Cartao("Nota " + ShortId(n.id), NomeOuVazio(nc.clienteNome), EstaVencida(n, hoje),
                  ProdutosExibidos(n.produtos, parse), NotaList.StatusLabel(n, hoje),
                  if comStatus then Some(ToggleTarget(n.status)) else None))
  }
}
