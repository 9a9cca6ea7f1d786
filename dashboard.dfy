/**
 * The home page (src/pages/Dashboard.jsx): the customer table with its search box, and the
 * mark on customers who have overdue notas.
 *
 * The page's React state is a class: its effects and its search handler are methods on it.
 * The calls the page makes to the store's search are recorded in `buscas` instead of run.
 */
module Dashboard {
  import opened Text
  import opened Sequences
  import opened Records

  /** The table's filter: a blank term (after trimming) shows every customer; any other filters. */
  function FiltrarClientes(clientes: seq<Cliente>, searchTerm: string): (r: seq<Cliente>)
    ensures IsBlank(searchTerm) ==> r == clientes
    ensures !IsBlank(searchTerm) ==> r == FilterClientes(clientes, searchTerm)
    ensures IsSubsequence(r, clientes)
  {
    if IsBlank(searchTerm) then
      FilterIsSubsequence((c: Cliente) => true, clientes);
      FilterAll((c: Cliente) => true, clientes);
      clientes
    else FilterClientes(clientes, searchTerm)
  }

  /** One customer's overdue notas, in the order of `notas`. */
  function VencidasDoCliente(notas: seq<Nota>, clienteId: Id, hoje: int): (r: seq<Nota>)
    ensures forall i :: 0 <= i < |r| ==> r[i].clienteId == clienteId && EstaVencida(r[i], hoje) && r[i] in notas
    ensures forall i :: 0 <= i < |notas| && notas[i].clienteId == clienteId && EstaVencida(notas[i], hoje) ==> notas[i] in r
    ensures forall n :: multiset(r)[n] == if n.clienteId == clienteId && EstaVencida(n, hoje) then multiset(notas)[n] else 0
    ensures IsSubsequence(r, notas)
  {
    FilterIsSubsequence((n: Nota) => n.clienteId == clienteId && EstaVencida(n, hoje), notas);
    Filter((n: Nota) => n.clienteId == clienteId && EstaVencida(n, hoje), notas)
  }

  lemma VencidasAppend(notas: seq<Nota>, nota: Nota, clienteId: Id, hoje: int)
    ensures VencidasDoCliente(notas + [nota], clienteId, hoje)
      == VencidasDoCliente(notas, clienteId, hoje)
         + (if nota.clienteId == clienteId && EstaVencida(nota, hoje) then [nota] else [])
  {
    var f := (n: Nota) => n.clienteId == clienteId && EstaVencida(n, hoje);
    FilterAppend(f, notas, [nota]);
    assert Filter(f, [nota]) == if f(nota) then [nota] else [] by {
      assert [nota][1..] == [];
    }
  }

  /** `m` is the overdue map of the notas in `p`. */
  ghost predicate MapaDe(m: map<Id, seq<Nota>>, p: seq<Nota>, hoje: int) {
    && (forall id :: id in m <==> VencidasDoCliente(p, id, hoje) != [])
    && (forall id :: id in m ==> m[id] == VencidasDoCliente(p, id, hoje))
  }

  /** Appending an overdue nota to its customer's list (creating it if needed) keeps the map exact. */
  lemma MapaDePassoVencida(m: map<Id, seq<Nota>>, p: seq<Nota>, nota: Nota, hoje: int)
    requires MapaDe(m, p, hoje) && EstaVencida(nota, hoje)
    ensures MapaDe(m[nota.clienteId := (if nota.clienteId in m then m[nota.clienteId] else []) + [nota]], p + [nota], hoje)
  {
    var c := nota.clienteId;
    var m2 := m[c := (if c in m then m[c] else []) + [nota]];
    forall id
      ensures (id in m2 <==> VencidasDoCliente(p + [nota], id, hoje) != [])
      ensures (id in m2 ==> m2[id] == VencidasDoCliente(p + [nota], id, hoje))
    {
      VencidasAppend(p, nota, id, hoje);
      if id == c {
        assert m2[id] == (if c in m then m[c] else []) + [nota];
        assert VencidasDoCliente(p + [nota], id, hoje) == VencidasDoCliente(p, id, hoje) + [nota];
      } else {
        assert VencidasDoCliente(p + [nota], id, hoje) == VencidasDoCliente(p, id, hoje);
      }
    }
  }

  /** A nota that is not overdue leaves the map as it is. */
  lemma MapaDePassoOutra(m: map<Id, seq<Nota>>, p: seq<Nota>, nota: Nota, hoje: int)
    requires MapaDe(m, p, hoje) && !EstaVencida(nota, hoje)
    ensures MapaDe(m, p + [nota], hoje)
  {
    forall id
      ensures VencidasDoCliente(p + [nota], id, hoje) == VencidasDoCliente(p, id, hoje)
    {
      VencidasAppend(p, nota, id, hoje);
    }
  }

  /**
   * The overdue map: a customer is a key exactly when one of its notas is pending and past
   * due, and its list holds those notas in their order. Paid notas never appear.
   */
  method NotasVencidasPorCliente(notas: seq<Nota>, hoje: int) returns (m: map<Id, seq<Nota>>)
    ensures forall id :: id in m <==>
      exists i :: 0 <= i < |notas| && notas[i].clienteId == id && EstaVencida(notas[i], hoje)
    ensures forall id :: id in m ==> m[id] == VencidasDoCliente(notas, id, hoje) && m[id] != []
    ensures forall id, k :: id in m && 0 <= k < |m[id]| ==> m[id][k].status == "pendente"
  {
    m := map[];
    for i := 0 to |notas|
      invariant MapaDe(m, notas[..i], hoje)
    {
      var nota := notas[i];
      ghost var antes := m;
      if nota.status == "pendente" {
        if nota.dataVencimento < hoje {
          if nota.clienteId !in m {
            m := m[nota.clienteId := []];
          }
          m := m[nota.clienteId := m[nota.clienteId] + [nota]];
        }
      }
      if EstaVencida(nota, hoje) {
        MapaDePassoVencida(antes, notas[..i], nota, hoje);
      } else {
        MapaDePassoOutra(antes, notas[..i], nota, hoje);
      }
      assert notas[..i + 1] == notas[..i] + [nota];
    }
    assert notas[..|notas|] == notas;
    MapaDeChaves(m, notas, hoje);
  }

  /** The keys of an overdue map are the customers with an overdue nota. */
  lemma MapaDeChaves(m: map<Id, seq<Nota>>, notas: seq<Nota>, hoje: int)
    requires MapaDe(m, notas, hoje)
    ensures forall id :: id in m <==>
      exists i :: 0 <= i < |notas| && notas[i].clienteId == id && EstaVencida(notas[i], hoje)
  {
    forall id
      ensures id in m <==> exists i :: 0 <= i < |notas| && notas[i].clienteId == id && EstaVencida(notas[i], hoje)
    {
      var r := VencidasDoCliente(notas, id, hoje);
      if r != [] {
        assert r[0] in notas;
      }
    }
  }

  /** The page state this model tracks. */
  class Dashboard {
    var searchTerm: string
    var filteredClientes: seq<Cliente>
    var clientesComNotasVencidas: map<Id, seq<Nota>>
    /** The terms passed to the store's search, oldest first. */
    var buscas: seq<string>

    constructor ()
      ensures searchTerm == "" && filteredClientes == [] && clientesComNotasVencidas == map[] && buscas == []
    {
      searchTerm := "";
      filteredClientes := [];
      clientesComNotasVencidas := map[];
      buscas := [];
    }

    /** The effect on `[clientes, searchTerm]`. */
    method EfeitoFiltro(clientes: seq<Cliente>)
      modifies this`filteredClientes
      ensures filteredClientes == FiltrarClientes(clientes, searchTerm)
    {
      filteredClientes := FiltrarClientes(clientes, searchTerm);
    }

    /**
     * The effect on `[notas, notasLoading]`: while loading, or with no notas, the previous
     * map is kept; otherwise it is rebuilt from scratch.
     */
    method EfeitoVencidas(notas: seq<Nota>, notasLoading: bool, hoje: int)
      modifies this`clientesComNotasVencidas
      ensures notasLoading || notas == [] ==> clientesComNotasVencidas == old(clientesComNotasVencidas)
      ensures !notasLoading && notas != [] ==>
        (forall id :: id in clientesComNotasVencidas <==>
          exists i :: 0 <= i < |notas| && notas[i].clienteId == id && EstaVencida(notas[i], hoje))
        && (forall id :: id in clientesComNotasVencidas ==>
          clientesComNotasVencidas[id] == VencidasDoCliente(notas, id, hoje))
    {
      if !notasLoading && |notas| > 0 {
        var m := NotasVencidasPorCliente(notas, hoje);
        clientesComNotasVencidas := m;
      }
    }

    /**
     * `handleSearch`: the term is stored, and the store is searched with it when it has at
     * least three UTF-16 code units once trimmed, with `''` when it is blank, and not at all otherwise.
     */
    method HandleSearch(value: string)
      modifies this`searchTerm, this`buscas
      ensures searchTerm == value
      ensures Utf16Length(Trim(value)) >= 3 ==> buscas == old(buscas) + [value]
      ensures IsBlank(value) ==> buscas == old(buscas) + [""]
      ensures 0 < Utf16Length(Trim(value)) < 3 ==> buscas == old(buscas)
    {
      searchTerm := value;
      if Utf16Length(Trim(value)) >= 3 {
        buscas := buscas + [value];
      } else if Trim(value) == "" {
        buscas := buscas + [""];
      }
    }
  }
}
