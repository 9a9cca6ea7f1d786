/**
 * The settings page (src/pages/Configuracoes.jsx): the password change form and the backup
 * status line.
 *
 * The page's state is a class. What the context calls do is a parameter: `Desfecho` says
 * whether the awaited call settled or threw, and the calls themselves are recorded in
 * `senhasEnviadas` and `restauracoes` rather than run.
 */
module Configuracoes {
  import opened Wrappers
  import opened Text

  /** How an awaited call ended: it settled, or it threw. */
  datatype Desfecho = Resolvido | Rejeitado

  const ErroConfere := "As senhas não conferem"
  const ErroTamanho := "A senha deve ter pelo menos 6 caracteres"
  const ErroAlterar := "Erro ao alterar senha"

  const GerandoBackup := "Gerando backup..."
  const PrefixoBackupCriado := "Backup criado com sucesso: "
  const ErroCriarBackup := "Erro ao criar backup"
  const RestaurandoBackup := "Restaurando backup..."
  const BackupRestaurado := "Backup restaurado com sucesso"
  const ErroRestaurarBackup := "Erro ao restaurar backup"

  /** The password is sent only when both fields agree and it is at least six UTF-16 code units long. */
  predicate SenhaAceita(senha: string, confirmaSenha: string) {
    senha == confirmaSenha && Utf16Length(senha) >= 6
  }

  /** The message the checks set before any call, or none when the password is sent. */
  function ErroDeValidacao(senha: string, confirmaSenha: string): (r: Option<string>)
    ensures r.None? <==> SenhaAceita(senha, confirmaSenha)
    ensures senha != confirmaSenha ==> r == Some(ErroConfere)
    ensures senha == confirmaSenha && Utf16Length(senha) < 6 ==> r == Some(ErroTamanho)
  {
    if senha != confirmaSenha then Some(ErroConfere)
    else if Utf16Length(senha) < 6 then Some(ErroTamanho)
    else None
  }

  /** Three characters outside the Basic Multilingual Plane are six code units, so they pass. */
  lemma SenhaForaDoBmp()
    ensures SenhaAceita("\U{1F600}\U{1F600}\U{1F600}", "\U{1F600}\U{1F600}\U{1F600}")
    ensures ErroDeValidacao("abcde", "abcde") == Some(ErroTamanho)
  {
    assert Utf16Length("\U{1F600}") == 2;
    assert Utf16Length("\U{1F600}\U{1F600}") == 4;
  }

  /** The status line's colour. */
  datatype Cor = Vermelho | Verde

  /** No line for an empty status; red when it mentions `Erro`, green otherwise. */
  function CorStatus(status: string): (r: Option<Cor>)
    ensures r.None? <==> status == ""
    ensures r == Some(Vermelho) <==> status != "" && exists i :: OccursAt(status, "Erro", i)
    ensures r == Some(Verde) <==> status != "" && forall i :: !OccursAt(status, "Erro", i)
  {
    ContainsIff(status, "Erro");
    if status == "" then None
    else if Contains(status, "Erro") then Some(Vermelho)
    else Some(Verde)
  }

  /** A prefix without the first letter of `t` cannot hold or start an occurrence of `t`. */
  lemma ContainsAfterPrefix(p: string, s: string, t: string)
    requires |t| > 0
    requires forall j :: 0 <= j < |p| ==> p[j] != t[0]
    ensures Contains(p + s, t) <==> Contains(s, t)
  {
    ContainsIff(p + s, t);
    ContainsIff(s, t);
    if Contains(s, t) {
      var i :| OccursAt(s, t, i);
      OccursAfterPrefix(p, s, t, i);
    }
    if Contains(p + s, t) {
      var i :| OccursAt(p + s, t, i);
      OccursPastPrefix(p, s, t, i);
    }
  }

  lemma OccursAfterPrefix(p: string, s: string, t: string, i: int)
    requires OccursAt(s, t, i)
    ensures OccursAt(p + s, t, |p| + i)
  {
    assert (p + s)[|p| + i..|p| + i + |t|] == s[i..i + |t|];
  }

  lemma OccursPastPrefix(p: string, s: string, t: string, i: int)
    requires |t| > 0
    requires forall j :: 0 <= j < |p| ==> p[j] != t[0]
    requires OccursAt(p + s, t, i)
    ensures OccursAt(s, t, i - |p|)
  {
    assert (p + s)[i] == t[0];
    assert i >= |p|;
    assert s[i - |p|..i - |p| + |t|] == (p + s)[i..i + |t|];
  }

  /** The success line after a backup is red exactly when the backup's path contains `Erro`. */
  lemma BackupCriadoCor(path: string)
    ensures CorStatus(PrefixoBackupCriado + path) == if Contains(path, "Erro") then Some(Vermelho) else Some(Verde)
  {
    ContainsAfterPrefix(PrefixoBackupCriado, path, "Erro");
    ContainsIff(PrefixoBackupCriado + path, "Erro");
  }

  /** The two failure lines of the backup handlers are red. */
  lemma MensagensDeErroCor()
    ensures CorStatus(ErroCriarBackup) == Some(Vermelho)
    ensures CorStatus(ErroRestaurarBackup) == Some(Vermelho)
  {
    assert OccursAt(ErroCriarBackup, "Erro", 0);
    assert OccursAt(ErroRestaurarBackup, "Erro", 0);
  }

  /** The page state this model tracks. */
  class Configuracoes {
    var loading: bool
    var senha: string
    var confirmaSenha: string
    var senhaError: string
    var backupStatus: string
    /** The passwords passed to `changePassword`, oldest first. */
    var senhasEnviadas: seq<string>
    /** The paths passed to `restoreBackup`, oldest first. */
    var restauracoes: seq<string>

    constructor ()
      ensures !loading && senha == "" && confirmaSenha == "" && senhaError == "" && backupStatus == ""
      ensures senhasEnviadas == [] && restauracoes == []
    {
      loading := false;
      senha := "";
      confirmaSenha := "";
      senhaError := "";
      backupStatus := "";
      senhasEnviadas := [];
      restauracoes := [];
    }

    /** Typing in the first password field stores the text and clears the error. */
    method SetSenha(value: string)
      modifies this`senha, this`senhaError
      ensures senha == value && senhaError == ""
    {
      senha := value;
      senhaError := "";
    }

    /** Typing in the confirmation field stores the text and clears the error. */
    method SetConfirmaSenha(value: string)
      modifies this`confirmaSenha, this`senhaError
      ensures confirmaSenha == value && senhaError == ""
    {
      confirmaSenha := value;
      senhaError := "";
    }

    /**
     * `handleChangeSenha`: a mismatch, then a short password, each set their message and send
     * nothing; otherwise the password is sent, success clears both fields and the error, a
     * throw sets `Erro ao alterar senha` and keeps the fields, and loading ends off.
     */
    method HandleChangeSenha(desfecho: Desfecho)
      modifies this`senha, this`confirmaSenha, this`senhaError, this`loading, this`senhasEnviadas
      ensures !SenhaAceita(old(senha), old(confirmaSenha)) ==>
        && senhaError == ErroDeValidacao(old(senha), old(confirmaSenha)).value
        && senhasEnviadas == old(senhasEnviadas)
        && senha == old(senha) && confirmaSenha == old(confirmaSenha) && loading == old(loading)
      ensures SenhaAceita(old(senha), old(confirmaSenha)) ==>
        && senhasEnviadas == old(senhasEnviadas) + [old(senha)]
        && !loading
      ensures SenhaAceita(old(senha), old(confirmaSenha)) && desfecho == Resolvido ==>
        senha == "" && confirmaSenha == "" && senhaError == ""
      ensures SenhaAceita(old(senha), old(confirmaSenha)) && desfecho == Rejeitado ==>
        senha == old(senha) && confirmaSenha == old(confirmaSenha) && senhaError == ErroAlterar
    {
      if senha != confirmaSenha {
        senhaError := ErroConfere;
        return;
      }
      if Utf16Length(senha) < 6 {
        senhaError := ErroTamanho;
        return;
      }
      loading := true;
      senhasEnviadas := senhasEnviadas + [senha];
      if desfecho == Resolvido {
        senha := "";
        confirmaSenha := "";
        senhaError := "";
      } else {
        senhaError := ErroAlterar;
      }
      loading := false;
    }

    /** `handleCreateBackup`: `Some(path)` is the path the context returned, `None` a throw. */
    method HandleCreateBackup(resultado: Option<string>)
      modifies this`backupStatus, this`loading
      ensures resultado.Some? ==> backupStatus == PrefixoBackupCriado + resultado.value
      ensures resultado.None? ==> backupStatus == ErroCriarBackup
      ensures !loading
    {
      loading := true;
      backupStatus := GerandoBackup;
      match resultado {
        case Some(path) => backupStatus := PrefixoBackupCriado + path;
        case None => backupStatus := ErroCriarBackup;
      }
      loading := false;
    }

    /**
     * The file input's change handler: no file does nothing; otherwise the path is restored,
     * and after success loading stays on for the reload that follows.
     */
    method HandleRestoreBackup(arquivo: Option<string>, desfecho: Desfecho)
      modifies this`backupStatus, this`loading, this`restauracoes
      ensures arquivo.None? ==>
        backupStatus == old(backupStatus) && loading == old(loading) && restauracoes == old(restauracoes)
      ensures arquivo.Some? ==> restauracoes == old(restauracoes) + [arquivo.value]
      ensures arquivo.Some? && desfecho == Resolvido ==> backupStatus == BackupRestaurado && loading
      ensures arquivo.Some? && desfecho == Rejeitado ==> backupStatus == ErroRestaurarBackup && !loading
    {
      if arquivo.Some? {
        loading := true;
        backupStatus := RestaurandoBackup;
        restauracoes := restauracoes + [arquivo.value];
        if desfecho == Resolvido {
          backupStatus := BackupRestaurado;
        } else {
          backupStatus := ErroRestaurarBackup;
          loading := false;
        }
      }
    }
  }
}
