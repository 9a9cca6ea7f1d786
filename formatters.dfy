/**
 * Display masks for taxpayer numbers and phones (src/utils/formatters.js).
 *
 * Each mask is a chain of non-global `String.prototype.replace` calls. Every regular
 * expression used is one of two kinds, and each replacement only puts punctuation around its
 * capture groups:
 *   - `(\d{n})(\d)`: the leftmost n + 1 consecutive digits; `$1` is the first n of them;
 *   - `(\d{n})(\d{1,2})$`: the leftmost start from which n + 1 or n + 2 digits run to the end.
 */
module Formatters {
  import opened Wrappers
  import opened Text
  import Validators

  /** `len` digits start at index `i` of `s`. */
  predicate DigitRunAt(s: string, i: int, len: nat) {
    0 <= i && i + len <= |s| && forall k :: i <= k < i + len ==> IsDigit(s[k])
  }

  /** Where `(\d{n})(\d)` matches, searching from `from`: the leftmost run of n + 1 digits. */
  function FindRun(s: string, len: nat, from: nat): (r: Option<nat>)
    requires from <= |s|
    ensures r.Some? ==> from <= r.value && DigitRunAt(s, r.value, len)
    ensures r.Some? ==> forall k :: from <= k < r.value ==> !DigitRunAt(s, k, len)
    ensures r.None? ==> forall k :: from <= k ==> !DigitRunAt(s, k, len)
    decreases |s| - from
  {
    if from + len > |s| then None
    else if DigitRunAt(s, from, len) then Some(from)
    else FindRun(s, len, from + 1)
  }

  /** From `i`, `(\d{n})(\d{1,2})$` matches: only digits to the end, n + 1 or n + 2 of them. */
  predicate TailRunAt(s: string, i: int, n: nat) {
    0 <= i <= |s| && n + 1 <= |s| - i <= n + 2 && DigitRunAt(s, i, |s| - i)
  }

  function FindTail(s: string, n: nat, from: nat): (r: Option<nat>)
    requires from <= |s|
    ensures r.Some? ==> from <= r.value && TailRunAt(s, r.value, n)
    ensures r.Some? ==> forall k :: from <= k < r.value ==> !TailRunAt(s, k, n)
    ensures r.None? ==> forall k :: from <= k ==> !TailRunAt(s, k, n)
    decreases |s| - from
  {
    if from == |s| then None
    else if TailRunAt(s, from, n) then Some(from)
    else FindTail(s, n, from + 1)
  }

  /** `s.replace(/(\d{n})(\d)/, before + '$1' + between + '$2')` */
  function ReplaceRun(s: string, n: nat, before: string, between: string): string {
    match FindRun(s, n + 1, 0)
    case None => s
    case Some(i) => s[..i] + before + s[i..i + n] + between + s[i + n..]
  }

  /** `s.replace(/(\d{n})(\d{1,2})$/, '$1' + between + '$2')` */
  function ReplaceTail(s: string, n: nat, between: string): string {
    match FindTail(s, n, 0)
    case None => s
    case Some(i) => s[..i] + s[i..i + n] + between + s[i + n..]
  }

  /** CPF mask: `000.000.000-00`. */
  function MascaraCpf(apenasNumeros: string): string {
    ReplaceTail(ReplaceRun(ReplaceRun(apenasNumeros, 3, "", "."), 3, "", "."), 3, "-")
  }

  /** CNPJ mask: `00.000.000/0000-00`. */
  function MascaraCnpj(apenasNumeros: string): string {
    ReplaceTail(ReplaceRun(ReplaceRun(ReplaceRun(apenasNumeros, 2, "", "."), 3, "", "."), 3, "", "/"), 4, "-")
  }

  /**
   * `formatarDocumento(documento, tipo)`; the empty string is the only falsy string. The masks
   * only insert punctuation: removing non-digits gives back the input's digits.
   */
  function FormatarDocumento(documento: string, tipo: string): (r: string)
    ensures Digits(r) == Digits(documento)
    ensures documento == "" ==> r == ""
  {
    if documento == "" then ""
    else
      var apenasNumeros := Digits(documento);
      DigitsOfDigits(apenasNumeros);
      if tipo == "fisica" || |apenasNumeros| <= 11 then
        MascaraCpfKeepsDigits(apenasNumeros);
        MascaraCpf(apenasNumeros)
      else
        MascaraCnpjKeepsDigits(apenasNumeros);
        MascaraCnpj(apenasNumeros)
  }

  /** `formatarTelefone(telefone)`: the phone masks only insert punctuation as well. */
  function FormatarTelefone(telefone: string): (r: string)
    ensures Digits(r) == Digits(telefone)
    ensures telefone == "" ==> r == ""
  {
    if telefone == "" then ""
    else
      var apenasNumeros := Digits(telefone);
      DigitsOfDigits(apenasNumeros);
      if |apenasNumeros| == 11 then
        MascaraTelefoneKeepsDigits(apenasNumeros, 5);
        ReplaceRun(ReplaceRun(apenasNumeros, 2, "(", ") "), 5, "", "-")
      else if |apenasNumeros| == 10 then
        MascaraTelefoneKeepsDigits(apenasNumeros, 4);
        ReplaceRun(ReplaceRun(apenasNumeros, 2, "(", ") "), 4, "", "-")
      else
        apenasNumeros
  }

  // ---------------------------------------------------------------- digits are preserved

  /** Digit-free pieces put between three strings change nothing under `Digits`. */
  lemma DigitsOfInsertions(a: string, before: string, m: string, between: string, z: string)
    requires NoDigits(before) && NoDigits(between)
    ensures Digits(a + before + m + between + z) == Digits(a) + Digits(m) + Digits(z)
  {
    DigitsOfNoDigits(before);
    DigitsOfNoDigits(between);
    DigitsAppend(a, before);
    DigitsAppend(a + before, m);
    DigitsAppend(a + before + m, between);
    DigitsAppend(a + before + m + between, z);
  }

  lemma DigitsOfSplit(s: string, i: nat, n: nat, before: string, between: string)
    requires i + n <= |s| && NoDigits(before) && NoDigits(between)
    ensures Digits(s[..i] + before + s[i..i + n] + between + s[i + n..]) == Digits(s)
  {
    var a, m, z := s[..i], s[i..i + n], s[i + n..];
    DigitsOfInsertions(a, before, m, between, z);
    DigitsOfThree(s, i, i + n);
  }

  lemma DigitsOfThree(s: string, i: nat, j: nat)
    requires i <= j <= |s|
    ensures Digits(s) == Digits(s[..i]) + Digits(s[i..j]) + Digits(s[j..])
  {
    SplitThree(s, i, j);
    DigitsAppend3(s[..i], s[i..j], s[j..]);
  }

  lemma SplitThree(s: string, i: nat, j: nat)
    requires i <= j <= |s|
    ensures s == s[..i] + s[i..j] + s[j..]
  {
  }

  lemma DigitsAppend3(a: string, m: string, z: string)
    ensures Digits(a + m + z) == Digits(a) + Digits(m) + Digits(z)
  {
    DigitsAppend(a, m);
    DigitsAppend(a + m, z);
  }

  lemma ReplaceRunKeepsDigits(s: string, n: nat, before: string, between: string)
    requires NoDigits(before) && NoDigits(between)
    ensures Digits(ReplaceRun(s, n, before, between)) == Digits(s)
  {
    match FindRun(s, n + 1, 0)
    case None =>
    case Some(i) => DigitsOfSplit(s, i, n, before, between);
  }

  lemma ReplaceTailKeepsDigits(s: string, n: nat, between: string)
    requires NoDigits(between)
    ensures Digits(ReplaceTail(s, n, between)) == Digits(s)
  {
    match FindTail(s, n, 0)
    case None =>
    case Some(i) =>
      DigitsOfSplit(s, i, n, "", between);
      assert s[..i] + "" + s[i..i + n] == s[..i] + s[i..i + n];
  }

  /** The CPF mask only inserts punctuation. */
  lemma MascaraCpfKeepsDigits(d: string)
    ensures Digits(MascaraCpf(d)) == Digits(d)
  {
    var s1 := ReplaceRun(d, 3, "", ".");
    var s2 := ReplaceRun(s1, 3, "", ".");
    ReplaceRunKeepsDigits(d, 3, "", ".");
    ReplaceRunKeepsDigits(s1, 3, "", ".");
    ReplaceTailKeepsDigits(s2, 3, "-");
  }

  /** The CNPJ mask only inserts punctuation. */
  lemma MascaraCnpjKeepsDigits(d: string)
    ensures Digits(MascaraCnpj(d)) == Digits(d)
  {
    var s1 := ReplaceRun(d, 2, "", ".");
    var s2 := ReplaceRun(s1, 3, "", ".");
    var s3 := ReplaceRun(s2, 3, "", "/");
    ReplaceRunKeepsDigits(d, 2, "", ".");
    ReplaceRunKeepsDigits(s1, 3, "", ".");
    ReplaceRunKeepsDigits(s2, 3, "", "/");
    ReplaceTailKeepsDigits(s3, 4, "-");
  }

  /** The phone masks only insert punctuation. */
  lemma MascaraTelefoneKeepsDigits(d: string, n: nat)
    ensures Digits(ReplaceRun(ReplaceRun(d, 2, "(", ") "), n, "", "-")) == Digits(d)
  {
    var s1 := ReplaceRun(d, 2, "(", ") ");
    ReplaceRunKeepsDigits(d, 2, "(", ") ");
    ReplaceRunKeepsDigits(s1, n, "", "-");
  }

  // ---------------------------------------------------------------- fixed shapes

  /** Where the leftmost run is known, `ReplaceRun` splits there. */
  lemma ReplaceRunAt(s: string, n: nat, before: string, between: string, i: nat, len: nat)
    requires len == n + 1
    requires DigitRunAt(s, i, len)
    requires forall k :: 0 <= k < i ==> !DigitRunAt(s, k, len)
    ensures ReplaceRun(s, n, before, between) == s[..i] + before + s[i..i + n] + between + s[i + n..]
  {
    var r := FindRun(s, n + 1, 0);
    assert r.Some? && r.value == i;
  }

  lemma ReplaceTailAt(s: string, n: nat, between: string, i: nat)
    requires TailRunAt(s, i, n)
    requires forall k :: 0 <= k < i ==> !TailRunAt(s, k, n)
    ensures ReplaceTail(s, n, between) == s[..i] + s[i..i + n] + between + s[i + n..]
  {
    var r := FindTail(s, n, 0);
    assert r.Some? && r.value == i;
  }

  /** An all-digit string of at least n + 1 characters: the first run starts at 0. */
  lemma ReplaceRunOnDigits(d: string, n: nat, before: string, between: string)
    requires AllDigits(d) && n + 1 <= |d|
    ensures ReplaceRun(d, n, before, between) == before + d[..n] + between + d[n..]
  {
    ReplaceRunAt(d, n, before, between, 0, n + 1);
    assert d[..0] + before == before;
  }

  /**
   * Punctuation at `sep` blocks every window that starts at or before it, so the first run of
   * n + 1 digits starts right after it when n + 1 digits follow.
   */
  lemma ReplaceRunAfterSeparator(s: string, n: nat, before: string, between: string, sep: nat,
                                 len: nat)
    requires len == n + 1
    requires sep + 1 + len <= |s| && !IsDigit(s[sep])
    requires forall k :: 0 <= k < sep ==> !DigitRunAt(s, k, len)
    requires forall k :: sep + 1 <= k < sep + 1 + len ==> IsDigit(s[k])
    ensures ReplaceRun(s, n, before, between)
      == s[..sep + 1] + before + s[sep + 1..sep + 1 + n] + between + s[sep + 1 + n..]
  {
    assert forall k :: 0 <= k < sep + 1 ==> !DigitRunAt(s, k, len) by {
      forall k | 0 <= k < sep + 1 ensures !DigitRunAt(s, k, len) {
        if k < sep {
        } else {
          assert k == sep;
        }
      }
    }
    ReplaceRunAt(s, n, before, between, sep + 1, len);
  }

  /** CPF steps for eleven digits. */
  lemma MascaraCpfOnze(d: string)
    requires AllDigits(d) && |d| == 11
    ensures MascaraCpf(d) == d[..3] + "." + d[3..6] + "." + d[6..9] + "-" + d[9..]
  {
    ReplaceRunOnDigits(d, 3, "", ".");
    var s1 := d[..3] + "." + d[3..];
    assert ReplaceRun(d, 3, "", ".") == s1;
    assert |s1| == 12 && s1[3] == '.';
    assert forall k :: 4 <= k < 12 ==> s1[k] == d[k - 1];
    ReplaceRunAfterSeparator(s1, 3, "", ".", 3, 4);
    var s2 := d[..3] + "." + d[3..6] + "." + d[6..];
    assert ReplaceRun(s1, 3, "", ".") == s2 by {
      assert s1[..4] == d[..3] + ".";
      assert s1[4..7] == d[3..6];
      assert s1[7..] == d[6..];
    }
    MascaraCpfOnzeTail(d, s2);
  }

  lemma MascaraCpfOnzeTail(d: string, s2: string)
    requires AllDigits(d) && |d| == 11
    requires s2 == d[..3] + "." + d[3..6] + "." + d[6..]
    ensures ReplaceTail(s2, 3, "-") == d[..3] + "." + d[3..6] + "." + d[6..9] + "-" + d[9..]
  {
    assert |s2| == 13 && s2[7] == '.';
    assert forall k :: 8 <= k < 13 ==> s2[k] == d[k - 2];
    assert forall k :: 0 <= k < 8 ==> !TailRunAt(s2, k, 3);
    ReplaceTailAt(s2, 3, "-", 8);
    assert s2[..8] == d[..3] + "." + d[3..6] + ".";
    assert s2[8..11] == d[6..9];
    assert s2[11..] == d[9..];
  }

  /** Eleven digits, whatever the `tipo`, take the CPF mask `ddd.ddd.ddd-dd`. */
  lemma FormatarDocumentoOnzeDigitos(documento: string, tipo: string)
    requires |Digits(documento)| == 11
    ensures var d := Digits(documento);
      FormatarDocumento(documento, tipo) == d[..3] + "." + d[3..6] + "." + d[6..9] + "-" + d[9..]
  {
    assert documento != "";
    MascaraCpfOnze(Digits(documento));
  }

  /** CNPJ steps for fourteen digits. */
  lemma MascaraCnpjQuatorze(d: string)
    requires AllDigits(d) && |d| == 14
    ensures MascaraCnpj(d) == d[..2] + "." + d[2..5] + "." + d[5..8] + "/" + d[8..12] + "-" + d[12..]
  {
    ReplaceRunOnDigits(d, 2, "", ".");
    var s1 := d[..2] + "." + d[2..];
    assert ReplaceRun(d, 2, "", ".") == s1;
    var s2 := d[..2] + "." + d[2..5] + "." + d[5..];
    MascaraCnpjSecond(d, s1, s2);
    var s3 := d[..2] + "." + d[2..5] + "." + d[5..8] + "/" + d[8..];
    MascaraCnpjThird(d, s2, s3);
    MascaraCnpjTail(d, s3);
  }

  lemma MascaraCnpjSecond(d: string, s1: string, s2: string)
    requires AllDigits(d) && |d| == 14
    requires s1 == d[..2] + "." + d[2..]
    requires s2 == d[..2] + "." + d[2..5] + "." + d[5..]
    ensures ReplaceRun(s1, 3, "", ".") == s2
  {
    assert |s1| == 15 && s1[2] == '.';
    assert forall k :: 3 <= k < 15 ==> s1[k] == d[k - 1];
    ReplaceRunAfterSeparator(s1, 3, "", ".", 2, 4);
    assert s1[..3] == d[..2] + ".";
    assert s1[3..6] == d[2..5];
    assert s1[6..] == d[5..];
  }

  lemma MascaraCnpjThird(d: string, s2: string, s3: string)
    requires AllDigits(d) && |d| == 14
    requires s2 == d[..2] + "." + d[2..5] + "." + d[5..]
    requires s3 == d[..2] + "." + d[2..5] + "." + d[5..8] + "/" + d[8..]
    ensures ReplaceRun(s2, 3, "", "/") == s3
  {
    assert |s2| == 16 && s2[2] == '.' && s2[6] == '.';
    assert forall k :: 7 <= k < 16 ==> s2[k] == d[k - 2];
    assert forall k :: 0 <= k < 6 ==> !DigitRunAt(s2, k, 4) by {
      forall k | 0 <= k < 6 ensures !DigitRunAt(s2, k, 4) {
        if k < 3 {
          assert !IsDigit(s2[2]);
        } else {
          assert !IsDigit(s2[6]);
        }
      }
    }
    ReplaceRunAfterSeparator(s2, 3, "", "/", 6, 4);
    assert s2[..7] == d[..2] + "." + d[2..5] + ".";
    assert s2[7..10] == d[5..8];
    assert s2[10..] == d[8..];
  }

  lemma MascaraCnpjTail(d: string, s3: string)
    requires AllDigits(d) && |d| == 14
    requires s3 == d[..2] + "." + d[2..5] + "." + d[5..8] + "/" + d[8..]
    ensures ReplaceTail(s3, 4, "-") == d[..2] + "." + d[2..5] + "." + d[5..8] + "/" + d[8..12] + "-" + d[12..]
  {
    assert |s3| == 17 && s3[10] == '/';
    assert forall k :: 11 <= k < 17 ==> s3[k] == d[k - 3];
    assert forall k :: 0 <= k < 11 ==> !TailRunAt(s3, k, 4);
    ReplaceTailAt(s3, 4, "-", 11);
    assert s3[..11] == d[..2] + "." + d[2..5] + "." + d[5..8] + "/";
    assert s3[11..15] == d[8..12];
    assert s3[15..] == d[12..];
  }

  /** Fourteen digits with a `tipo` other than `'fisica'` take the CNPJ mask `dd.ddd.ddd/dddd-dd`. */
  lemma FormatarDocumentoQuatorzeDigitos(documento: string, tipo: string)
    requires |Digits(documento)| == 14 && tipo != "fisica"
    ensures var d := Digits(documento);
      FormatarDocumento(documento, tipo)
        == d[..2] + "." + d[2..5] + "." + d[5..8] + "/" + d[8..12] + "-" + d[12..]
  {
    assert documento != "";
    MascaraCnpjQuatorze(Digits(documento));
  }

  /** The phone mask's first step on all-digit text: the area code in parentheses. */
  lemma MascaraTelefoneDdd(d: string)
    requires AllDigits(d) && |d| >= 3
    ensures ReplaceRun(d, 2, "(", ") ") == "(" + d[..2] + ") " + d[2..]
  {
    ReplaceRunOnDigits(d, 2, "(", ") ");
  }

  /** The second step: the dash after the next n digits, the space after `)` blocking earlier windows. */
  lemma MascaraTelefoneHifen(d: string, s1: string, n: nat)
    requires AllDigits(d) && (n == 4 || n == 5) && |d| == n + 6
    requires s1 == "(" + d[..2] + ") " + d[2..]
    ensures ReplaceRun(s1, n, "", "-") == "(" + d[..2] + ") " + d[2..2 + n] + "-" + d[2 + n..]
  {
    assert |s1| == n + 9 && s1[4] == ' ';
    assert forall k :: 5 <= k < n + 9 ==> s1[k] == d[k - 3];
    var len := n + 1;
    assert forall k :: 0 <= k < 4 ==> !DigitRunAt(s1, k, len) by {
      forall k | 0 <= k < 4 ensures !DigitRunAt(s1, k, len) {
        assert !IsDigit(s1[4]);
      }
    }
    ReplaceRunAfterSeparator(s1, n, "", "-", 4, len);
    assert s1[..5] == "(" + d[..2] + ") ";
    assert s1[5..5 + n] == d[2..2 + n];
    assert s1[5 + n..] == d[2 + n..];
  }

  /** Eleven phone digits: `(dd) ddddd-dddd`. */
  lemma FormatarTelefoneOnzeDigitos(telefone: string)
    requires |Digits(telefone)| == 11
    ensures var d := Digits(telefone);
      FormatarTelefone(telefone) == "(" + d[..2] + ") " + d[2..7] + "-" + d[7..]
  {
    var d := Digits(telefone);
    assert telefone != "";
    MascaraTelefoneDdd(d);
    MascaraTelefoneHifen(d, "(" + d[..2] + ") " + d[2..], 5);
  }

  /** Ten phone digits: `(dd) dddd-dddd`. */
  lemma FormatarTelefoneDezDigitos(telefone: string)
    requires |Digits(telefone)| == 10
    ensures var d := Digits(telefone);
      FormatarTelefone(telefone) == "(" + d[..2] + ") " + d[2..6] + "-" + d[6..]
  {
    var d := Digits(telefone);
    assert telefone != "";
    MascaraTelefoneDdd(d);
    MascaraTelefoneHifen(d, "(" + d[..2] + ") " + d[2..], 4);
  }

  /** Any other digit count is shown as the bare digits; the empty string stays empty. */
  lemma FormatarTelefoneOutros(telefone: string)
    requires |Digits(telefone)| != 10 && |Digits(telefone)| != 11
    ensures FormatarTelefone(telefone) == Digits(telefone)
    ensures telefone == "" ==> FormatarTelefone(telefone) == ""
  {
  }

  /** A phone passes `validarTelefone` exactly when its display is a parenthesised mask. */
  lemma ValidarTelefoneIffMascara(telefone: string)
    ensures Validators.ValidarTelefone(telefone)
      <==> (FormatarTelefone(telefone) != "" && FormatarTelefone(telefone)[0] == '(')
  {
    var d := Digits(telefone);
    if |d| == 11 {
      FormatarTelefoneOnzeDigitos(telefone);
    } else if |d| == 10 {
      FormatarTelefoneDezDigitos(telefone);
    } else if telefone != "" && d != "" {
      assert IsDigit(d[0]);
    }
  }

  /** Formatting a document does not change whether it is a valid CPF or CNPJ. */
  lemma FormatarDocumentoKeepsValidity(documento: string, tipo: string)
    ensures Validators.CpfValido(FormatarDocumento(documento, tipo)) == Validators.CpfValido(documento)
    ensures Validators.CnpjValido(FormatarDocumento(documento, tipo)) == Validators.CnpjValido(documento)
  {
  }
}
