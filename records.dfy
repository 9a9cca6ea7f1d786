/**
 * The two kinds of record the application keeps (customers and their purchase notes, "notas"),
 * the partial objects the pages send to the store, and the rules several pages share.
 *
 * Ids are strings; dates are integer timestamps; amounts are reals.
 */
module Records {
  import opened Wrappers
  import opened Text
  import opened Sequences

  type Id = string

  /** A stored customer: `tipo` is `'fisica'` (CPF) or `'juridica'` (CNPJ). */
  datatype Cliente = Cliente(
    id: Id, tipo: string, nome: string, documento: string, endereco: string, telefone: string,
    dataCadastro: int)

  /** The customer form as the registration page submits it. */
  datatype ClienteInput = ClienteInput(
    tipo: string, nome: string, documento: string, endereco: string, telefone: string)

  /** The fields an update carries; `None` is a field the object does not have. */
  datatype ClientePatch = ClientePatch(
    id: Option<Id>, tipo: Option<string>, nome: Option<string>, documento: Option<string>,
    endereco: Option<string>, telefone: Option<string>, dataCadastro: Option<int>)

  /** One line of a nota. */
  datatype Produto = Produto(nome: string, valor: real, quantidade: real)

  /**
   * The value held in a nota's `produtos` field: serialised JSON text, a list not yet
   * serialised, or `undefined`.
   */
  datatype Produtos = Json(text: string) | Lista(itens: seq<Produto>) | Ausente

  /** What `JSON.parse` of a `produtos` text gives: an array of lines or some other value. */
  datatype ProdutosLidos = Linhas(itens: seq<Produto>) | NaoLista

  /**
   * `JSON.stringify` and `JSON.parse` as far as `produtos` goes; `parse` gives `None` where
   * the text is not JSON and the call throws.
   */
  datatype JsonCodec = JsonCodec(stringify: seq<Produto> -> string, parse: string -> Option<ProdutosLidos>)

  datatype Nota = Nota(
    id: Id, clienteId: Id, dataCompra: int, dataVencimento: int, produtos: Produtos, valor: real,
    status: string)

  datatype NotaInput = NotaInput(
    clienteId: Id, dataCompra: int, dataVencimento: int, produtos: Produtos, valor: real,
    status: string)

  /** An update: `produtos` is `Ausente` when the object leaves it out. */
  datatype NotaPatch = NotaPatch(
    id: Option<Id>, clienteId: Option<Id>, dataCompra: Option<int>, dataVencimento: Option<int>,
    produtos: Produtos, valor: Option<real>, status: Option<string>)

  /** A nota as the queries return it: the customer's name and document are `undefined` when none matches. */
  datatype NotaComCliente = NotaComCliente(nota: Nota, clienteNome: Option<string>, clienteDocumento: Option<string>)

  // ---------------------------------------------------------------- shared rules

  /** A nota is overdue when it is still pending and its due date is before now. */
  predicate EstaVencida(n: Nota, hoje: int) {
    n.dataVencimento < hoje && n.status == "pendente"
  }

  /** A paid nota is never overdue, and a pending one that is overdue stays so as time goes on. */
  lemma EstaVencidaRegras(n: Nota, hoje: int, depois: int)
    ensures n.status == "paga" ==> !EstaVencida(n, hoje)
    ensures n.status == "pendente" ==> (EstaVencida(n, hoje) <==> n.dataVencimento < hoje)
    ensures EstaVencida(n, hoje) && hoje <= depois ==> EstaVencida(n, depois)
  {
  }

  /** The customer search test: the name contains the term ignoring case, or the document contains it. */
  predicate ClienteMatches(c: Cliente, term: string) {
    Contains(ToLower(c.nome), ToLower(term)) || Contains(c.documento, term)
  }

  /** `clientes.filter(c => …)` with the search test. */
  function FilterClientes(clientes: seq<Cliente>, term: string): (r: seq<Cliente>)
    ensures forall i :: 0 <= i < |r| ==> ClienteMatches(r[i], term) && r[i] in clientes
    ensures forall i :: 0 <= i < |clientes| && ClienteMatches(clientes[i], term) ==> clientes[i] in r
    ensures forall c :: multiset(r)[c] == if ClienteMatches(c, term) then multiset(clientes)[c] else 0
    ensures IsSubsequence(r, clientes)
  {
    FilterIsSubsequence((c: Cliente) => ClienteMatches(c, term), clientes);
    Filter((c: Cliente) => ClienteMatches(c, term), clientes)
  }

  /** The empty term is contained in every string, so it keeps every customer. */
  lemma FilterClientesEmpty(clientes: seq<Cliente>)
    ensures FilterClientes(clientes, "") == clientes
  {
    forall i | 0 <= i < |clientes|
      ensures ClienteMatches(clientes[i], "")
    {
      EmptyIsContained(ToLower(clientes[i].nome));
    }
    FilterAll((c: Cliente) => ClienteMatches(c, ""), clientes);
  }

  /** The first customer with the given id, as `find(c => c.id === id)`. */
  function ClienteIndex(clientes: seq<Cliente>, id: Id): (r: int)
    ensures -1 <= r < |clientes|
    ensures r == -1 <==> forall i :: 0 <= i < |clientes| ==> clientes[i].id != id
    ensures 0 <= r ==> clientes[r].id == id && forall i :: 0 <= i < r ==> clientes[i].id != id
  {
    FindIndex((c: Cliente) => c.id == id, clientes)
  }

  function NotaIndex(notas: seq<Nota>, id: Id): (r: int)
    ensures -1 <= r < |notas|
    ensures r == -1 <==> forall i :: 0 <= i < |notas| ==> notas[i].id != id
    ensures 0 <= r ==> notas[r].id == id && forall i :: 0 <= i < r ==> notas[i].id != id
  {
    FindIndex((n: Nota) => n.id == id, notas)
  }

  /** The notas of one customer, in store order. */
  function NotasDoCliente(notas: seq<Nota>, clienteId: Id): (r: seq<Nota>)
    ensures forall i :: 0 <= i < |r| ==> r[i].clienteId == clienteId && r[i] in notas
    ensures forall i :: 0 <= i < |notas| && notas[i].clienteId == clienteId ==> notas[i] in r
    ensures forall n :: multiset(r)[n] == if n.clienteId == clienteId then multiset(notas)[n] else 0
    ensures IsSubsequence(r, notas)
  {
    FilterIsSubsequence((n: Nota) => n.clienteId == clienteId, notas);
    Filter((n: Nota) => n.clienteId == clienteId, notas)
  }

  /** Every id occurs at most once. */
  predicate ClienteIdsDistintos(clientes: seq<Cliente>) {
    forall i, j :: 0 <= i < j < |clientes| ==> clientes[i].id != clientes[j].id
  }

  predicate NotaIdsDistintos(notas: seq<Nota>) {
    forall i, j :: 0 <= i < j < |notas| ==> notas[i].id != notas[j].id
  }
}
