/**
 * The table of notas (src/components/nota/NotaList.jsx): the status filter, the overdue
 * mark, the status label and the button that flips a nota's status.
 */
module NotaList {
  import opened Wrappers
  import opened Sequences
  import opened Records

  /** The status filter: `'pagas'`, `'pendentes'`, or anything else for all. */
  predicate PassaFiltro(n: Nota, filtroStatus: string) {
    if filtroStatus == "pagas" then n.status == "paga"
    else if filtroStatus == "pendentes" then n.status == "pendente"
    else true
  }

  function FiltrarNotas(notas: seq<Nota>, filtroStatus: string): (r: seq<Nota>)
    ensures forall i :: 0 <= i < |r| ==> PassaFiltro(r[i], filtroStatus) && r[i] in notas
    ensures forall i :: 0 <= i < |notas| && PassaFiltro(notas[i], filtroStatus) ==> notas[i] in r
    ensures forall n :: multiset(r)[n] == if PassaFiltro(n, filtroStatus) then multiset(notas)[n] else 0
    ensures IsSubsequence(r, notas)
  {
    FilterIsSubsequence((n: Nota) => PassaFiltro(n, filtroStatus), notas);
    Filter((n: Nota) => PassaFiltro(n, filtroStatus), notas)
  }

  /** `'pagas'` keeps the paid notas, `'pendentes'` the pending ones, and every other value keeps all. */
  lemma FiltrarNotasCasos(notas: seq<Nota>, filtroStatus: string)
    ensures filtroStatus == "pagas" ==>
      forall i :: 0 <= i < |FiltrarNotas(notas, filtroStatus)| ==> FiltrarNotas(notas, filtroStatus)[i].status == "paga"
    ensures filtroStatus == "pendentes" ==>
      forall i :: 0 <= i < |FiltrarNotas(notas, filtroStatus)| ==> FiltrarNotas(notas, filtroStatus)[i].status == "pendente"
    ensures filtroStatus != "pagas" && filtroStatus != "pendentes" ==> FiltrarNotas(notas, filtroStatus) == notas
  {
    if filtroStatus != "pagas" && filtroStatus != "pendentes" {
      FilterAll((n: Nota) => PassaFiltro(n, filtroStatus), notas);
    }
  }

  /** The badge text: `Paga` first, then `Vencida` for an overdue nota, else `Pendente`. */
  function StatusLabel(n: Nota, hoje: int): (r: string)
    ensures r == "Paga" <==> n.status == "paga"
    ensures r == "Vencida" <==> n.status != "paga" && EstaVencida(n, hoje)
    ensures r == "Pendente" <==> n.status != "paga" && !EstaVencida(n, hoje)
  {
    if n.status == "paga" then "Paga" else if EstaVencida(n, hoje) then "Vencida" else "Pendente"
  }

  /** The status the row's button sends: `paga` for a pending nota, `pendente` for every other. */
  function ToggleTarget(status: string): (r: string)
    ensures r == "paga" <==> status == "pendente"
    ensures r == "pendente" <==> status != "pendente"
  {
    if status == "pendente" then "paga" else "pendente"
  }

  /** On the two statuses the application writes, the button flips the status, and twice gets it back. */
  lemma ToggleTargetFlips(status: string)
    requires status == "paga" || status == "pendente"
    ensures ToggleTarget(status) != status
    ensures ToggleTarget(ToggleTarget(status)) == status
  {
  }

  /**
   * What one row shows: the nota, whether it is marked overdue, its badge text and its
   * button's target; there is no button when the page passes no `onUpdateStatus`.
   */
  datatype Linha = Linha(nota: Nota, vencida: bool, rotulo: string, alvo: Option<string>)

  /** The component's output: the empty message or the table. */
  datatype Vista = NenhumaNota | Tabela(linhas: seq<Linha>)

  function RenderLinha(n: Nota, hoje: int, comStatus: bool): Linha {
    Linha(n, EstaVencida(n, hoje), StatusLabel(n, hoje), if comStatus then Some(ToggleTarget(n.status)) else None)
  }

  /**
   * The rendered list: the empty message exactly when there are no notas at all, whatever
   * the filter; otherwise one row per nota that passes the filter, in order. `comStatus` says
   * whether the page passed `onUpdateStatus`, which decides whether rows carry the button.
   */
  function Render(notas: seq<Nota>, filtroStatus: string, hoje: int, comStatus: bool): (v: Vista)
    ensures v.NenhumaNota? <==> notas == []
    ensures v.Tabela? ==> |v.linhas| == |FiltrarNotas(notas, filtroStatus)|
    ensures v.Tabela? ==> forall i :: 0 <= i < |v.linhas| ==>
      v.linhas[i].nota == FiltrarNotas(notas, filtroStatus)[i]
      && (v.linhas[i].vencida <==> EstaVencida(v.linhas[i].nota, hoje))
      && v.linhas[i].rotulo == StatusLabel(v.linhas[i].nota, hoje)
      && (v.linhas[i].alvo.Some? <==> comStatus)
      && (comStatus ==> v.linhas[i].alvo == Some(ToggleTarget(v.linhas[i].nota.status)))
  {
    if |notas| == 0 then NenhumaNota
    else
      var filtradas := FiltrarNotas(notas, filtroStatus);
      Tabela(seq(|filtradas|, i requires 0 <= i < |filtradas| => RenderLinha(filtradas[i], hoje, comStatus)))
  }

  /** Notas that all fail the filter give an empty table, not the empty message. */
  lemma RenderFiltroVazio(notas: seq<Nota>, filtroStatus: string, hoje: int, comStatus: bool)
    requires notas != []
    requires forall i :: 0 <= i < |notas| ==> !PassaFiltro(notas[i], filtroStatus)
    ensures Render(notas, filtroStatus, hoje, comStatus) == Tabela([])
  {
    FilterNone((n: Nota) => PassaFiltro(n, filtroStatus), notas);
  }
}
