/**
 * The record store of the desktop back end (public/database.js): one collection of customers
 * and one of notas, each kept whole by its store and rewritten on every change.
 *
 * The class holds both collections as fields. Operations that rewrite a collection are
 * methods; the read-only queries are functions of the current contents. A fresh id and the
 * current time are parameters of the operations that need them.
 */
module Database {
  import opened Wrappers
  import opened Sequences
  import opened Records

  /** The two errors the store throws. */
  datatype Erro = ClienteNaoEncontrado | NotaNaoEncontrada

  /** What a backup holds: both collections as they are. */
  datatype Snapshot = Snapshot(clientes: seq<Cliente>, notas: seq<Nota>)

  /** A parsed backup file; a field is `None` when the object lacks it or holds a falsy value. */
  datatype BackupData = BackupData(clientes: Option<seq<Cliente>>, notas: Option<seq<Nota>>)

  /** Writing and reading a backup file: `parse` gives `None` when the text is not JSON. */
  datatype BackupCodec = BackupCodec(stringify: Snapshot -> string, parse: string -> Option<BackupData>)

  /** The serialiser and parser agree: a written snapshot reads back with both fields present. */
  ghost predicate RoundTrips(codec: BackupCodec) {
    forall s :: codec.parse(codec.stringify(s)) == Some(BackupData(Some(s.clientes), Some(s.notas)))
  }

  // ---------------------------------------------------------------- record construction

  /** `{ ...cliente, id, dataCadastro }` for a new customer. */
  function NovoCliente(input: ClienteInput, id: Id, now: int): Cliente {
    Cliente(id, input.tipo, input.nome, input.documento, input.endereco, input.telefone, now)
  }

  /** `{ ...atual, ...patch, id }`: fields the patch carries win, and the id is the argument's. */
  function MergeCliente(atual: Cliente, patch: ClientePatch, id: Id): Cliente {
    Cliente(
      id,
      patch.tipo.GetOr(atual.tipo),
      patch.nome.GetOr(atual.nome),
      patch.documento.GetOr(atual.documento),
      patch.endereco.GetOr(atual.endereco),
      patch.telefone.GetOr(atual.telefone),
      patch.dataCadastro.GetOr(atual.dataCadastro))
  }

  /** Applying the same patch twice is the same as applying it once. */
  lemma MergeClienteIdempotent(atual: Cliente, patch: ClientePatch, id: Id)
    ensures MergeCliente(MergeCliente(atual, patch, id), patch, id) == MergeCliente(atual, patch, id)
  {
  }

  /**
   * A patch that carries no field leaves the record as it was, whatever id the patch itself
   * names; one that carries `dataCadastro` overwrites it.
   */
  lemma MergeClienteFields(atual: Cliente, patch: ClientePatch)
    ensures patch.tipo.None? && patch.nome.None? && patch.documento.None? && patch.endereco.None?
      && patch.telefone.None? && patch.dataCadastro.None?
      ==> MergeCliente(atual, patch, atual.id) == atual
    ensures patch.dataCadastro.Some? ==> MergeCliente(atual, patch, atual.id).dataCadastro == patch.dataCadastro.value
    ensures MergeCliente(atual, patch, atual.id).id == atual.id
  {
  }

  /** `produtos` as stored: anything that is not a string goes through `JSON.stringify`. */
  function Normalizar(p: Produtos, codec: JsonCodec): (r: Produtos)
    ensures !r.Lista?
    ensures p.Json? ==> r == p
    ensures p.Lista? ==> r == Json(codec.stringify(p.itens))
    ensures p.Ausente? ==> r.Ausente?
  {
    match p
    case Json(_) => p
    case Lista(itens) => Json(codec.stringify(itens))
    case Ausente => Ausente
  }

  lemma NormalizarIdempotent(p: Produtos, codec: JsonCodec)
    ensures Normalizar(Normalizar(p, codec), codec) == Normalizar(p, codec)
  {
  }

  /** `{ ...nota, id, produtos }` for a new nota. */
  function NovaNota(input: NotaInput, id: Id, codec: JsonCodec): Nota {
    Nota(id, input.clienteId, input.dataCompra, input.dataVencimento,
         Normalizar(input.produtos, codec), input.valor, input.status)
  }

  /**
   * `{ ...atual, ...patch, id, produtos }`: `produtos` always comes from the patch, so a
   * patch without it leaves the field `undefined`.
   */
  function MergeNota(atual: Nota, patch: NotaPatch, id: Id, codec: JsonCodec): Nota {
    Nota(
      id,
      patch.clienteId.GetOr(atual.clienteId),
      patch.dataCompra.GetOr(atual.dataCompra),
      patch.dataVencimento.GetOr(atual.dataVencimento),
      Normalizar(patch.produtos, codec),
      patch.valor.GetOr(atual.valor),
      patch.status.GetOr(atual.status))
  }

  /** An update that omits `produtos` drops the stored lines; one that sends them stores them serialised. */
  lemma MergeNotaProdutos(atual: Nota, patch: NotaPatch, id: Id, codec: JsonCodec)
    ensures patch.produtos.Ausente? ==> MergeNota(atual, patch, id, codec).produtos == Ausente
    ensures patch.produtos.Lista? ==>
      MergeNota(atual, patch, id, codec).produtos == Json(codec.stringify(patch.produtos.itens))
    ensures MergeNota(atual, patch, id, codec).id == id
  {
  }

  /** `deleteCliente(id)` keeps the other customers and the notas of other customers. */
  function ClientesSem(clientes: seq<Cliente>, id: Id): (r: seq<Cliente>)
    ensures forall i :: 0 <= i < |r| ==> r[i].id != id && r[i] in clientes
    ensures forall i :: 0 <= i < |clientes| && clientes[i].id != id ==> clientes[i] in r
    ensures forall c :: multiset(r)[c] == if c.id != id then multiset(clientes)[c] else 0
    ensures IsSubsequence(r, clientes)
  {
    FilterIsSubsequence((c: Cliente) => c.id != id, clientes);
    Filter((c: Cliente) => c.id != id, clientes)
  }

  function NotasSemCliente(notas: seq<Nota>, clienteId: Id): (r: seq<Nota>)
    ensures forall i :: 0 <= i < |r| ==> r[i].clienteId != clienteId && r[i] in notas
    ensures forall i :: 0 <= i < |notas| && notas[i].clienteId != clienteId ==> notas[i] in r
    ensures forall n :: multiset(r)[n] == if n.clienteId != clienteId then multiset(notas)[n] else 0
    ensures IsSubsequence(r, notas)
  {
    FilterIsSubsequence((n: Nota) => n.clienteId != clienteId, notas);
    Filter((n: Nota) => n.clienteId != clienteId, notas)
  }

  function NotasSem(notas: seq<Nota>, id: Id): (r: seq<Nota>)
    ensures forall i :: 0 <= i < |r| ==> r[i].id != id && r[i] in notas
    ensures forall i :: 0 <= i < |notas| && notas[i].id != id ==> notas[i] in r
    ensures forall n :: multiset(r)[n] == if n.id != id then multiset(notas)[n] else 0
    ensures IsSubsequence(r, notas)
  {
    FilterIsSubsequence((n: Nota) => n.id != id, notas);
    Filter((n: Nota) => n.id != id, notas)
  }

  /** Once a customer's notas are removed, none is left to list for that customer. */
  lemma NotasDoClienteAposExclusao(notas: seq<Nota>, clienteId: Id)
    ensures NotasDoCliente(NotasSemCliente(notas, clienteId), clienteId) == []
  {
    var rest := NotasSemCliente(notas, clienteId);
    FilterNone((n: Nota) => n.clienteId == clienteId, rest);
  }

  /** The join of `getAllNotas`: the nota with the first matching customer's name and document. */
  function Anotar(nota: Nota, clientes: seq<Cliente>): (r: NotaComCliente)
    ensures r.nota == nota
    ensures r.clienteNome.None? <==> forall i :: 0 <= i < |clientes| ==> clientes[i].id != nota.clienteId
    ensures r.clienteNome.None? <==> r.clienteDocumento.None?
    ensures r.clienteNome.Some? ==>
      exists k ::
        && 0 <= k < |clientes|
        && clientes[k].id == nota.clienteId
        && (forall i :: 0 <= i < k ==> clientes[i].id != nota.clienteId)
        && r.clienteNome.value == clientes[k].nome
        && r.clienteDocumento.value == clientes[k].documento
  {
    var k := ClienteIndex(clientes, nota.clienteId);
    if k == -1 then NotaComCliente(nota, None, None)
    else NotaComCliente(nota, Some(clientes[k].nome), Some(clientes[k].documento))
  }

  /** Restoring a parsed backup: a failed read changes nothing, otherwise each present field replaces its collection. */
  function Restaurar(atual: Snapshot, lido: Option<BackupData>): (r: (Snapshot, bool))
    ensures r.1 <==> lido.Some?
    ensures lido == Some(BackupData(None, None)) ==> r == (atual, true)
  {
    match lido
    case None => (atual, false)
    case Some(d) => (Snapshot(d.clientes.GetOr(atual.clientes), d.notas.GetOr(atual.notas)), true)
  }

  /** A file that cannot be read or parsed leaves both collections as they were. */
  lemma RestaurarFalhaNaoMuda(atual: Snapshot)
    ensures Restaurar(atual, None) == (atual, false)
  {
  }

  /** Each collection is replaced or kept on its own; an empty array still replaces. */
  lemma RestaurarIndependente(atual: Snapshot, d: BackupData)
    ensures Restaurar(atual, Some(d)).1
    ensures Restaurar(atual, Some(d)).0.clientes == if d.clientes.Some? then d.clientes.value else atual.clientes
    ensures Restaurar(atual, Some(d)).0.notas == if d.notas.Some? then d.notas.value else atual.notas
    ensures d.clientes == Some([]) ==> Restaurar(atual, Some(d)).0.clientes == []
  {
  }

  /** Reading back a backup the store wrote gives exactly the saved collections. */
  lemma RestoreOfBackup(codec: BackupCodec, atual: Snapshot, salvo: Snapshot)
    requires RoundTrips(codec)
    ensures Restaurar(atual, codec.parse(codec.stringify(salvo))) == (salvo, true)
  {
    assert codec.parse(codec.stringify(salvo)) == Some(BackupData(Some(salvo.clientes), Some(salvo.notas)));
  }

  // ---------------------------------------------------------------- the store

  class Database {
    var clientes: seq<Cliente>
    var notas: seq<Nota>

    /** `initDatabase` on a store that has neither collection yet. */
    constructor ()
      ensures clientes == [] && notas == []
    {
      clientes := [];
      notas := [];
    }

    function Contents(): Snapshot
      reads this
    {
      Snapshot(clientes, notas)
    }

    /** `getAllClientes`: the whole stored list, in insertion order; every listed id finds a customer. */
    function GetAllClientes(): (r: seq<Cliente>)
      reads this
      ensures |r| == |clientes| && forall i :: 0 <= i < |r| ==> r[i] == clientes[i]
      ensures forall i :: 0 <= i < |r| ==> GetClienteById(r[i].id).Some?
      ensures forall id :: GetClienteById(id).Some? ==> GetClienteById(id).value in r
    {
      clientes
    }

    /** `getClienteById`: the first customer with that id, or `null`. */
    function GetClienteById(id: Id): (r: Option<Cliente>)
      reads this
      ensures r.None? <==> forall i :: 0 <= i < |clientes| ==> clientes[i].id != id
      ensures r.Some? ==> r.value.id == id && r.value in clientes
      ensures r.Some? ==>
        exists k ::
          && 0 <= k < |clientes|
          && clientes[k] == r.value
          && forall i :: 0 <= i < k ==> clientes[i].id != id
    {
      var k := ClienteIndex(clientes, id);
      if k == -1 then None else Some(clientes[k])
    }

    /** `createCliente`: appends one record with the given fields, the fresh id and the time. */
    method CreateCliente(input: ClienteInput, newId: Id, now: int) returns (c: Cliente)
      requires forall i :: 0 <= i < |clientes| ==> clientes[i].id != newId
      modifies this
      ensures c == NovoCliente(input, newId, now)
      ensures clientes == old(clientes) + [c] && notas == old(notas)
      ensures ClienteIdsDistintos(old(clientes)) ==> ClienteIdsDistintos(clientes)
      ensures GetClienteById(newId) == Some(c)
      ensures GetAllClientes() == old(GetAllClientes()) + [c]
    {
      c := NovoCliente(input, newId, now);
      clientes := clientes + [c];
      assert forall i :: 0 <= i < |clientes| - 1 ==> clientes[i].id != newId;
      assert clientes[|clientes| - 1] == c && c.id == newId;
      assert ClienteIndex(clientes, newId) == |clientes| - 1;
    }

    /** `updateCliente`: throws when no customer has the id, otherwise replaces that one record. */
    method UpdateCliente(id: Id, patch: ClientePatch) returns (r: Result<Cliente, Erro>)
      modifies this
      ensures notas == old(notas) && |clientes| == |old(clientes)|
      ensures var k := ClienteIndex(old(clientes), id);
        if k == -1 then r == Failure(ClienteNaoEncontrado) && clientes == old(clientes)
        else r == Success(MergeCliente(old(clientes)[k], patch, id)) && clientes == old(clientes)[k := r.value]
      ensures ClienteIdsDistintos(old(clientes)) ==> ClienteIdsDistintos(clientes)
    {
      var index := ClienteIndex(clientes, id);
      if index == -1 {
        return Failure(ClienteNaoEncontrado);
      }
      var atualizado := MergeCliente(clientes[index], patch, id);
      clientes := clientes[index := atualizado];
      r := Success(atualizado);
    }

    /**
     * `deleteCliente`: removes the customer and every nota that points at it, keeps the
     * order of the rest and reports success whether or not the id existed.
     */
    method DeleteCliente(id: Id) returns (ok: bool)
      modifies this
      ensures ok
      ensures clientes == ClientesSem(old(clientes), id)
      ensures notas == NotasSemCliente(old(notas), id)
      ensures GetClienteById(id).None? && GetNotasByCliente(id) == []
      ensures GetAllClientes() == ClientesSem(old(GetAllClientes()), id)
    {
      clientes := ClientesSem(clientes, id);
      notas := NotasSemCliente(notas, id);
      NotasDoClienteAposExclusao(old(notas), id);
      return true;
    }

    /** `searchClientes`: the empty term lists everyone; any other term filters, blanks included. */
    function SearchClientes(term: string): (r: seq<Cliente>)
      reads this
      ensures term == "" ==> r == GetAllClientes()
      ensures term != "" ==> r == FilterClientes(clientes, term)
      ensures IsSubsequence(r, clientes)
    {
      if term == "" then
        FilterClientesEmpty(clientes);
        GetAllClientes()
      else FilterClientes(clientes, term)
    }

    /** `getAllNotas`: every nota, in order, with its customer's name and document. */
    function GetAllNotas(): (r: seq<NotaComCliente>)
      reads this
      ensures |r| == |notas|
      ensures forall i :: 0 <= i < |r| ==> r[i] == Anotar(notas[i], clientes)
    {
      seq(|notas|, i requires 0 <= i < |notas| reads this => Anotar(notas[i], clientes))
    }

    /** `getNotaById`: `null` when no nota has the id, otherwise the first one, joined. */
    function GetNotaById(id: Id): (r: Option<NotaComCliente>)
      reads this
      ensures r.None? <==> forall i :: 0 <= i < |notas| ==> notas[i].id != id
      ensures r.Some? ==> r.value.nota.id == id && r.value.nota in notas
      ensures r.Some? ==> r.value == Anotar(r.value.nota, clientes)
      ensures r.Some? ==>
        exists k ::
          && 0 <= k < |notas|
          && notas[k] == r.value.nota
          && forall i :: 0 <= i < k ==> notas[i].id != id
    {
      var k := NotaIndex(notas, id);
      if k == -1 then None else Some(Anotar(notas[k], clientes))
    }

    /** `getNotasByCliente`: that customer's notas, in store order. */
    function GetNotasByCliente(clienteId: Id): (r: seq<Nota>)
      reads this
      ensures forall i :: 0 <= i < |r| ==> r[i].clienteId == clienteId && r[i] in notas
      ensures forall i :: 0 <= i < |notas| && notas[i].clienteId == clienteId ==> notas[i] in r
      ensures forall n :: multiset(r)[n] == if n.clienteId == clienteId then multiset(notas)[n] else 0
      ensures IsSubsequence(r, notas)
    {
      NotasDoCliente(notas, clienteId)
    }

    /** `createNota`: appends the nota with a fresh id and `produtos` serialised; the customer is not checked. */
    method CreateNota(input: NotaInput, newId: Id, codec: JsonCodec) returns (n: Nota)
      requires forall i :: 0 <= i < |notas| ==> notas[i].id != newId
      modifies this
      ensures n == NovaNota(input, newId, codec) && !n.produtos.Lista?
      ensures notas == old(notas) + [n] && clientes == old(clientes)
      ensures NotaIdsDistintos(old(notas)) ==> NotaIdsDistintos(notas)
    {
      n := NovaNota(input, newId, codec);
      notas := notas + [n];
      assert forall i :: 0 <= i < |notas| - 1 ==> notas[i].id != newId;
    }

    /** `updateNota`: throws when no nota has the id, otherwise replaces that one record. */
    method UpdateNota(id: Id, patch: NotaPatch, codec: JsonCodec) returns (r: Result<Nota, Erro>)
      modifies this
      ensures clientes == old(clientes) && |notas| == |old(notas)|
      ensures var k := NotaIndex(old(notas), id);
        if k == -1 then r == Failure(NotaNaoEncontrada) && notas == old(notas)
        else r == Success(MergeNota(old(notas)[k], patch, id, codec)) && notas == old(notas)[k := r.value]
      ensures r.Success? ==> !r.value.produtos.Lista?
      ensures NotaIdsDistintos(old(notas)) ==> NotaIdsDistintos(notas)
    {
      var index := NotaIndex(notas, id);
      if index == -1 {
        return Failure(NotaNaoEncontrada);
      }
      var atualizada := MergeNota(notas[index], patch, id, codec);
      notas := notas[index := atualizada];
      r := Success(atualizada);
    }

    /** `deleteNota`: removes every nota with the id and reports success. */
    method DeleteNota(id: Id) returns (ok: bool)
      modifies this
      ensures ok
      ensures notas == NotasSem(old(notas), id) && clientes == old(clientes)
      ensures GetNotaById(id).None?
    {
      notas := NotasSem(notas, id);
      return true;
    }

    /** `updateNotaStatus`: only that nota's status changes; the value is stored unchecked. */
    method UpdateNotaStatus(id: Id, status: string) returns (r: Result<bool, Erro>)
      modifies this
      ensures clientes == old(clientes) && |notas| == |old(notas)|
      ensures var k := NotaIndex(old(notas), id);
        if k == -1 then r == Failure(NotaNaoEncontrada) && notas == old(notas)
        else r == Success(true) && notas == old(notas)[k := old(notas)[k].(status := status)]
    {
      var index := NotaIndex(notas, id);
      if index == -1 {
        return Failure(NotaNaoEncontrada);
      }
      notas := notas[index := notas[index].(status := status)];
      r := Success(true);
    }

    /** `createBackup`: the text written is the serialised contents; the store does not change. */
    method CreateBackup(codec: BackupCodec) returns (texto: string)
      ensures texto == codec.stringify(Contents())
    {
      texto := codec.stringify(Snapshot(clientes, notas));
    }

    /**
     * `restoreBackup`: `arquivo` is the file's text, `None` when it cannot be read. Proved
     * against `Restaurar`.
     */
    method RestoreBackup(arquivo: Option<string>, codec: BackupCodec) returns (ok: bool)
      modifies this
      ensures var lido := if arquivo.None? then None else codec.parse(arquivo.value);
        (Contents(), ok) == Restaurar(old(Contents()), lido)
      ensures !ok ==> clientes == old(clientes) && notas == old(notas)
    {
      if arquivo.None? {
        return false;
      }
      var lido := codec.parse(arquivo.value);
      if lido.None? {
        return false;
      }
      var d := lido.value;
      if d.clientes.Some? {
        clientes := d.clientes.value;
      }
      if d.notas.Some? {
        notas := d.notas.value;
      }
      return true;
    }
  }
}
