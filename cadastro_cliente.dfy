/**
 * The customer form's checks (src/pages/CadastroCliente.jsx, `validateForm`): required name
 * and document, digit counts for the document and the phone. The document's check digits
 * are not verified here.
 */
module CadastroCliente {
  import opened Text
  import opened Records
  import Validators

  /** The keys `validateForm` may put in `errors`. */
  datatype Campo = Nome | Documento | Telefone

  const ErroNome := "Nome é obrigatório"
  const ErroDocumento := "Documento é obrigatório"
  const ErroCpf := "CPF inválido. Deve conter 11 dígitos numéricos"
  const ErroCnpj := "CNPJ inválido. Deve conter 14 dígitos numéricos"
  const ErroTelefone := "Telefone inválido. Formato: (00) 00000-0000"

  /** The document passes: non-blank, with 11 digits for a person and 14 for a company. */
  predicate DocumentoAceito(tipo: string, documento: string) {
    && !IsBlank(documento)
    && (tipo == "fisica" ==> |Digits(documento)| == 11)
    && (tipo == "juridica" ==> |Digits(documento)| == 14)
  }

  /** The phone is optional; when given it must have 10 or 11 digits. */
  predicate TelefoneAceito(telefone: string) {
    IsBlank(telefone) || 10 <= |Digits(telefone)| <= 11
  }

  predicate FormularioValido(form: ClienteInput) {
    !IsBlank(form.nome) && DocumentoAceito(form.tipo, form.documento) && TelefoneAceito(form.telefone)
  }

  /** The document's part of `validateForm`; it touches no other key. */
  method CheckDocumento(errors: map<Campo, string>, tipo: string, documento: string) returns (r: map<Campo, string>)
    requires Documento !in errors
    ensures Documento in r <==> !DocumentoAceito(tipo, documento)
    ensures IsBlank(documento) ==> Documento in r && r[Documento] == ErroDocumento
    ensures !IsBlank(documento) && Documento in r ==> r[Documento] == if tipo == "fisica" then ErroCpf else ErroCnpj
    ensures forall k :: k != Documento ==> (k in r <==> k in errors) && (k in r ==> r[k] == errors[k])
  {
    r := errors;
    var digitosDocumento := |Digits(documento)|;
    if Trim(documento) == "" {
      r := r[Documento := ErroDocumento];
    } else {
      if tipo == "fisica" && digitosDocumento != 11 {
        r := r[Documento := ErroCpf];
      }
      if tipo == "juridica" && digitosDocumento != 14 {
        r := r[Documento := ErroCnpj];
      }
    }
  }

  /** The name's part of `validateForm`, the first to write. */
  method CheckNome(nome: string) returns (r: map<Campo, string>)
    ensures Nome in r <==> IsBlank(nome)
    ensures Nome in r ==> r[Nome] == ErroNome
    ensures Documento !in r && Telefone !in r
  {
    r := map[];
    if Trim(nome) == "" {
      r := r[Nome := ErroNome];
    }
  }

  /** The phone's part of `validateForm`; it touches no other key. */
  method CheckTelefone(errors: map<Campo, string>, telefone: string) returns (r: map<Campo, string>)
    requires Telefone !in errors
    ensures Telefone in r <==> !TelefoneAceito(telefone)
    ensures Telefone in r ==> r[Telefone] == ErroTelefone
    ensures forall k :: k != Telefone ==> (k in r <==> k in errors) && (k in r ==> r[k] == errors[k])
  {
    r := errors;
    var digitosTelefone := |Digits(telefone)|;
    if Trim(telefone) != "" && !(10 <= digitosTelefone <= 11) {
      r := r[Telefone := ErroTelefone];
    }
  }

  /** `validateForm`: collects one message per failing field; the form is valid when none was added. */
  method ValidateForm(form: ClienteInput) returns (ok: bool, errors: map<Campo, string>)
    ensures Nome in errors <==> IsBlank(form.nome)
    ensures Documento in errors <==> !DocumentoAceito(form.tipo, form.documento)
    ensures Telefone in errors <==> !TelefoneAceito(form.telefone)
    ensures Nome in errors ==> errors[Nome] == ErroNome
    ensures IsBlank(form.documento) ==> Documento in errors && errors[Documento] == ErroDocumento
    ensures !IsBlank(form.documento) && Documento in errors ==>
      errors[Documento] == if form.tipo == "fisica" then ErroCpf else ErroCnpj
    ensures Telefone in errors ==> errors[Telefone] == ErroTelefone
    ensures ok <==> errors == map[]
    ensures ok == FormularioValido(form)
  {
    errors := CheckNome(form.nome);
    errors := CheckDocumento(errors, form.tipo, form.documento);
    errors := CheckTelefone(errors, form.telefone);

    ok := errors == map[];
    if Nome !in errors && Documento !in errors && Telefone !in errors {
      SemChavesVazio(errors);
    }
  }

  /** A map keyed by `Campo` without any of its three keys is empty. */
  lemma SemChavesVazio(errors: map<Campo, string>)
    requires Nome !in errors && Documento !in errors && Telefone !in errors
    ensures errors == map[]
  {
    assert forall k :: k !in errors by {
      forall k: Campo ensures k !in errors {
        match k
        case Nome =>
        case Documento =>
        case Telefone =>
      }
    }
  }

  /** A blank string has no digits. */
  lemma {:induction false} BlankHasNoDigits(s: string)
    requires IsBlank(s)
    ensures Digits(s) == ""
  {
    assert AllWhitespace(s);
    assert NoDigits(s) by {
      forall i | 0 <= i < |s| ensures !IsDigit(s[i]) {
        assert IsWhitespace(s[i]);
      }
    }
    DigitsOfNoDigits(s);
  }

  /**
   * The form only counts digits: eleven copies of one digit, such as `11111111111`, pass as
   * a CPF here, though `validarCPF` rejects them.
   */
  lemma RepeatedCpfPassesForm(d: string)
    requires |d| == 11 && Validators.RepeatedDigit(d)
    ensures DocumentoAceito("fisica", d)
    ensures !Validators.CpfValido(d)
  {
    Validators.RepeatedDigitsPassCpfChecksum(d);
    DigitsOfDigits(d);
    assert !AllWhitespace(d) by {
      assert !IsWhitespace(d[0]);
    }
  }

  /** Every CPF and CNPJ the validators accept passes the form's document check. */
  lemma ValidDocumentsPassForm(documento: string)
    ensures Validators.CpfValido(documento) ==> DocumentoAceito("fisica", documento)
    ensures Validators.CnpjValido(documento) ==> DocumentoAceito("juridica", documento)
  {
    if IsBlank(documento) {
      BlankHasNoDigits(documento);
    }
  }

  /** The form's phone rule is `validarTelefone` for a given phone, and nothing for a blank one. */
  lemma TelefoneAceitoIsValidarTelefone(telefone: string)
    ensures TelefoneAceito(telefone) <==> IsBlank(telefone) || Validators.ValidarTelefone(telefone)
  {
  }
}
