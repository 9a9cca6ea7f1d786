/**
 * Taxpayer-number and contact validators (src/utils/validators.js): the CPF (11 digits) and
 * CNPJ (14 digits) check-digit algorithms, and the phone and e-mail shape checks.
 * Each validator first removes every non-digit (`replace(/\D/g, '')`).
 */
module Validators {
  import opened Text

  /** `/^(\d)\1+$/`: two or more copies of one digit. */
  predicate RepeatedDigit(d: string) {
    |d| >= 2 && IsDigit(d[0]) && forall i :: 0 <= i < |d| ==> d[i] == d[0]
  }

  /** The usual mod-11 check digit: 0 when the sum leaves remainder 0 or 1, otherwise 11 minus the remainder. */
  function Mod11CheckDigit(soma: int): (v: nat)
    ensures v <= 9
  {
    if soma % 11 < 2 then 0 else 11 - soma % 11
  }

  // ---------------------------------------------------------------- CPF

  /** Σ_{i=1..n} d_i·(top − i): the first n digits weighted top−1, top−2, … */
  function CpfSum(d: string, n: nat, top: int): int
    requires n <= |d| && AllDigits(d)
  {
    if n == 0 then 0 else CpfSum(d, n - 1, top) + DigitValue(d[n - 1]) * (top - n)
  }

  /** The CPF rule as the code writes it: the sum times ten, modulo eleven, with 10 (or 11) read as 0. */
  function CpfRule(soma: int): nat {
    var resto := (soma * 10) % 11;
    if resto == 10 || resto == 11 then 0 else resto
  }

  /** Check digit over the first n digits, weights counting down from n + 1 to 2. */
  function CpfCheckDigit(d: string, n: nat): nat
    requires n <= |d| && AllDigits(d)
  {
    CpfRule(CpfSum(d, n, n + 2))
  }

  /** What `validarCPF` accepts. */
  predicate CpfValido(cpf: string) {
    var d := Digits(cpf);
    && |d| == 11
    && !RepeatedDigit(d)
    && CpfCheckDigit(d, 9) == DigitValue(d[9])
    && CpfCheckDigit(d, 10) == DigitValue(d[10])
  }

  /** `validarCPF`. */
  method ValidarCPF(cpf: string) returns (ok: bool)
    ensures ok == CpfValido(cpf)
  {
    var d := Digits(cpf);
    if |d| != 11 {
      return false;
    }
    if RepeatedDigit(d) {
      return false;
    }

    var soma := 0;
    for i := 1 to 10
      invariant soma == CpfSum(d, i - 1, 11)
    {
      soma := soma + DigitValue(d[i - 1]) * (11 - i);
    }
    var resto := (soma * 10) % 11;
    if resto == 10 || resto == 11 {
      resto := 0;
    }
    if resto != DigitValue(d[9]) {
      return false;
    }

    soma := 0;
    for i := 1 to 11
      invariant soma == CpfSum(d, i - 1, 12)
    {
      soma := soma + DigitValue(d[i - 1]) * (12 - i);
    }
    resto := (soma * 10) % 11;
    if resto == 10 || resto == 11 {
      resto := 0;
    }
    if resto != DigitValue(d[10]) {
      return false;
    }
    return true;
  }

  lemma ModAddMultiple(m: int, x: int)
    ensures (11 * m + x) % 11 == x % 11
  {
    var y := 11 * m + x;
    assert y == 11 * (y / 11) + y % 11;
    assert x == 11 * (x / 11) + x % 11;
    assert y % 11 - x % 11 == 11 * (m + x / 11 - y / 11);
  }

  /** The code's "times ten" rule gives the same digit as the usual mod-11 rule for every sum. */
  lemma CpfRuleIsMod11(soma: int)
    ensures CpfRule(soma) == Mod11CheckDigit(soma)
  {
    var q, r := soma / 11, soma % 11;
    assert soma == 11 * q + r;
    assert soma * 10 == 11 * (10 * q) + 10 * r;
    ModAddMultiple(10 * q, 10 * r);
    var t := 10 * r;
    if r == 0 {
    } else {
      // 10·r = 11·(r − 1) + (11 − r)
      assert t == 11 * (r - 1) + (11 - r);
      ModAddMultiple(r - 1, 11 - r);
    }
  }

  lemma {:induction false} CpfSumPrefix(d: string, e: string, n: nat, top: int)
    requires n <= |d| && n <= |e| && AllDigits(d) && AllDigits(e)
    requires d[..n] == e[..n]
    ensures CpfSum(d, n, top) == CpfSum(e, n, top)
  {
    if n > 0 {
      assert d[n - 1] == d[..n][n - 1] == e[..n][n - 1] == e[n - 1];
      assert d[..n - 1] == d[..n][..n - 1];
      assert e[..n - 1] == e[..n][..n - 1];
      CpfSumPrefix(d, e, n - 1, top);
    }
  }

  /**
   * The two check digits are determined by the nine digits before them: a number that agrees
   * with a valid CPF on its first nine digits but differs in the tenth or eleventh is rejected.
   */
  lemma CpfCheckDigitsDetermined(valid: string, other: string)
    requires CpfValido(valid)
    requires |Digits(other)| == 11
    requires Digits(other)[..9] == Digits(valid)[..9]
    requires Digits(other)[9..] != Digits(valid)[9..]
    ensures !CpfValido(other)
  {
    var a, b := Digits(valid), Digits(other);
    CpfSumPrefix(a, b, 9, 11);
    if a[9] == b[9] {
      assert a[..10] == b[..10] by {
        assert a[..10] == a[..9] + [a[9]];
        assert b[..10] == b[..9] + [b[9]];
      }
      CpfSumPrefix(a, b, 10, 12);
      assert a[10] != b[10] by {
        assert a[9..] == [a[9], a[10]];
        assert b[9..] == [b[9], b[10]];
      }
    }
  }

  /** Σ_{i=1..n} (top − i) */
  function WeightTotal(n: nat, top: int): int {
    if n == 0 then 0 else WeightTotal(n - 1, top) + (top - n)
  }

  lemma {:induction false} CpfSumOfRepeated(d: string, n: nat, top: int)
    requires n <= |d| && AllDigits(d) && RepeatedDigit(d)
    ensures CpfSum(d, n, top) == DigitValue(d[0]) * WeightTotal(n, top)
  {
    if n > 0 {
      CpfSumOfRepeated(d, n - 1, top);
      assert d[n - 1] == d[0];
    }
  }

  /**
   * Every eleven-digit run of one digit satisfies both check-digit equations, so it is only the
   * explicit repetition test that rejects `11111111111` and its kind.
   */
  lemma RepeatedDigitsPassCpfChecksum(d: string)
    requires |d| == 11 && RepeatedDigit(d)
    ensures AllDigits(d)
    ensures CpfCheckDigit(d, 9) == DigitValue(d[9])
    ensures CpfCheckDigit(d, 10) == DigitValue(d[10])
    ensures !CpfValido(d)
  {
    assert AllDigits(d);
    DigitsOfDigits(d);
    var v := DigitValue(d[0]);
    CpfSumOfRepeated(d, 9, 11);
    CpfSumOfRepeated(d, 10, 12);
    assert WeightTotal(9, 11) == 54;
    assert WeightTotal(10, 12) == 65;
    ModAddMultiple(49 * v, v);
    assert CpfSum(d, 9, 11) * 10 == 11 * (49 * v) + v;
    ModAddMultiple(59 * v, v);
    assert CpfSum(d, 10, 12) * 10 == 11 * (59 * v) + v;
    assert d[9] == d[0] && d[10] == d[0];
  }

  // ---------------------------------------------------------------- CNPJ

  /** The published CNPJ weights for the first and the second check digit. */
  const CnpjPesos1: seq<int> := [5, 4, 3, 2, 9, 8, 7, 6, 5, 4, 3, 2]
  const CnpjPesos2: seq<int> := [6, 5, 4, 3, 2, 9, 8, 7, 6, 5, 4, 3, 2]

  /** Σ_{k<n} d_k·w_k */
  function WeightedSum(d: string, w: seq<int>, n: nat): int
    requires n <= |d| && n <= |w| && AllDigits(d)
  {
    if n == 0 then 0 else WeightedSum(d, w, n - 1) + DigitValue(d[n - 1]) * w[n - 1]
  }

  /** What `validarCNPJ` accepts. */
  predicate CnpjValido(cnpj: string) {
    var d := Digits(cnpj);
    && |d| == 14
    && !RepeatedDigit(d)
    && Mod11CheckDigit(WeightedSum(d, CnpjPesos1, 12)) == DigitValue(d[12])
    && Mod11CheckDigit(WeightedSum(d, CnpjPesos2, 13)) == DigitValue(d[13])
  }

  /**
   * The value of the code's `pos` counter when it weights digit k of a pass over t digits:
   * it starts at t − 7, counts down, and wraps from below 2 to 9.
   */
  function CnpjPos(t: nat, k: nat): int {
    if k < t - 8 then t - 7 - k else t + 1 - k
  }

  lemma CnpjPosMatchesTables()
    ensures forall k :: 0 <= k < 12 ==> CnpjPesos1[k] == CnpjPos(12, k)
    ensures forall k :: 0 <= k < 13 ==> CnpjPesos2[k] == CnpjPos(13, k)
  {
  }

  /** `validarCNPJ`. */
  method ValidarCNPJ(cnpj: string) returns (ok: bool)
    ensures ok == CnpjValido(cnpj)
  {
    var d := Digits(cnpj);
    if |d| != 14 {
      return false;
    }
    if RepeatedDigit(d) {
      return false;
    }
    CnpjPosMatchesTables();

    var tamanho := |d| - 2;
    var numeros := d[..tamanho];
    var digitos := d[tamanho..];
    var soma := 0;
    var pos := tamanho - 7;
    var i := tamanho;
    while i >= 1
      invariant 0 <= i <= tamanho
      invariant soma == WeightedSum(d, CnpjPesos1, tamanho - i)
      invariant i >= 1 ==> pos == CnpjPos(tamanho, tamanho - i)
    {
      soma := soma + DigitValue(numeros[tamanho - i]) * pos;
      pos := pos - 1;
      if pos < 2 {
        pos := 9;
      }
      i := i - 1;
    }
    var resultado := if soma % 11 < 2 then 0 else 11 - soma % 11;
    if resultado != DigitValue(digitos[0]) {
      return false;
    }

    tamanho := tamanho + 1;
    numeros := d[..tamanho];
    soma := 0;
    pos := tamanho - 7;
    i := tamanho;
    while i >= 1
      invariant 0 <= i <= tamanho
      invariant soma == WeightedSum(d, CnpjPesos2, tamanho - i)
      invariant i >= 1 ==> pos == CnpjPos(tamanho, tamanho - i)
    {
      soma := soma + DigitValue(numeros[tamanho - i]) * pos;
      pos := pos - 1;
      if pos < 2 {
        pos := 9;
      }
      i := i - 1;
    }
    resultado := if soma % 11 < 2 then 0 else 11 - soma % 11;
    if resultado != DigitValue(digitos[1]) {
      return false;
    }
    return true;
  }

  lemma {:induction false} WeightedSumPrefix(d: string, e: string, w: seq<int>, n: nat)
    requires n <= |d| && n <= |e| && n <= |w| && AllDigits(d) && AllDigits(e)
    requires d[..n] == e[..n]
    ensures WeightedSum(d, w, n) == WeightedSum(e, w, n)
  {
    if n > 0 {
      assert d[n - 1] == d[..n][n - 1] == e[..n][n - 1] == e[n - 1];
      assert d[..n - 1] == d[..n][..n - 1];
      assert e[..n - 1] == e[..n][..n - 1];
      WeightedSumPrefix(d, e, w, n - 1);
    }
  }

  /** As for CPF: the two CNPJ check digits are determined by the twelve digits before them. */
  lemma CnpjCheckDigitsDetermined(valid: string, other: string)
    requires CnpjValido(valid)
    requires |Digits(other)| == 14
    requires Digits(other)[..12] == Digits(valid)[..12]
    requires Digits(other)[12..] != Digits(valid)[12..]
    ensures !CnpjValido(other)
  {
    var a, b := Digits(valid), Digits(other);
    WeightedSumPrefix(a, b, CnpjPesos1, 12);
    if a[12] == b[12] {
      assert a[..13] == b[..13] by {
        assert a[..13] == a[..12] + [a[12]];
        assert b[..13] == b[..12] + [b[12]];
      }
      WeightedSumPrefix(a, b, CnpjPesos2, 13);
      assert a[13] != b[13] by {
        assert a[12..] == [a[12], a[13]];
        assert b[12..] == [b[12], b[13]];
      }
    }
  }

  // ---------------------------------------------------------------- phone and e-mail

  /** `validarTelefone`: 10 (landline) or 11 (mobile) digits once non-digits are removed. */
  function ValidarTelefone(telefone: string): (ok: bool)
    ensures ok <==> |Digits(telefone)| == 10 || |Digits(telefone)| == 11
    ensures ok ==> |telefone| >= 10
    ensures AllDigits(telefone) ==> (ok <==> |telefone| == 10 || |telefone| == 11)
  {
    var apenasNumeros := Digits(telefone);
    assert AllDigits(telefone) ==> apenasNumeros == telefone by {
      if AllDigits(telefone) {
        DigitsOfDigits(telefone);
      }
    }
    |apenasNumeros| == 10 || |apenasNumeros| == 11
  }

  predicate AsciiLetter(c: char) {
    'a' <= c <= 'z' || 'A' <= c <= 'Z'
  }

  /** `[a-zA-Z0-9._%+-]` */
  predicate LocalChar(c: char) {
    AsciiLetter(c) || IsDigit(c) || c == '.' || c == '_' || c == '%' || c == '+' || c == '-'
  }

  /** `[a-zA-Z0-9.-]` */
  predicate DomainChar(c: char) {
    AsciiLetter(c) || IsDigit(c) || c == '.' || c == '-'
  }

  predicate AllLocal(s: string) {
    forall i :: 0 <= i < |s| ==> LocalChar(s[i])
  }

  predicate AllDomain(s: string) {
    forall i :: 0 <= i < |s| ==> DomainChar(s[i])
  }

  predicate AllLetters(s: string) {
    forall i :: 0 <= i < |s| ==> AsciiLetter(s[i])
  }

  /**
   * `e` matches `^[a-zA-Z0-9._%+-]+@[a-zA-Z0-9.-]+\.[a-zA-Z]{2,}$` with the `@` at index `a`
   * and the `\.` at index `p`.
   */
  predicate EmailSplit(e: string, a: int, p: int) {
    && 0 < a && a + 1 < p && p + 2 < |e|
    && AllLocal(e[..a]) && e[a] == '@'
    && AllDomain(e[a + 1..p]) && e[p] == '.'
    && AllLetters(e[p + 1..])
  }

  /** The e-mail regular expression, as the set of strings it matches. */
  ghost predicate EmailRegex(e: string) {
    exists a, p :: EmailSplit(e, a, p)
  }

  /** Index of the first `c` in `s`, or −1. */
  function IndexOf(s: string, c: char): (r: int)
    ensures -1 <= r < |s|
    ensures r >= 0 ==> s[r] == c && forall k :: 0 <= k < r ==> s[k] != c
    ensures r == -1 ==> forall k :: 0 <= k < |s| ==> s[k] != c
  {
    if s == "" then -1
    else if s[0] == c then 0
    else var r := IndexOf(s[1..], c); if r == -1 then -1 else r + 1
  }

  /** Index of the last `c` in `s`, or −1. */
  function LastIndexOf(s: string, c: char): (r: int)
    ensures -1 <= r < |s|
    ensures r >= 0 ==> s[r] == c && forall k :: r < k < |s| ==> s[k] != c
    ensures r == -1 ==> forall k :: 0 <= k < |s| ==> s[k] != c
  {
    if s == "" then -1
    else if s[|s| - 1] == c then |s| - 1
    else LastIndexOf(s[..|s| - 1], c)
  }

  /**
   * `validarEmail`: decides the regular expression by the only split it can have, at the first
   * `@` (no other character class admits `@`) and the last `.` (only letters may follow it).
   */
  function ValidarEmail(email: string): (ok: bool)
    ensures ok <==> EmailRegex(email)
  {
    var a := IndexOf(email, '@');
    var p := LastIndexOf(email, '.');
    var ok := a > 0 && a + 1 < p && p + 2 < |email|
      && AllLocal(email[..a]) && AllDomain(email[a + 1..p]) && AllLetters(email[p + 1..]);
    assert ok ==> EmailSplit(email, a, p);
    assert EmailRegex(email) ==> ok by {
      if EmailRegex(email) {
        var a', p' :| EmailSplit(email, a', p');
        assert !LocalChar('@') && !DomainChar('@') && !AsciiLetter('.');
        assert a == a' by {
          assert forall k :: 0 <= k < a' ==> email[k] == email[..a'][k];
        }
        assert p == p' by {
          assert forall k :: p' < k < |email| ==> email[k] == email[p' + 1..][k - p' - 1];
        }
      }
    }
    ok
  }
}
