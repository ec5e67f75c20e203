/** Tax identifier (CPF) handling of the bank account: cleaning and validating
    the raw input, and rendering the stored 11 digits as DDD.DDD.DDD-DD. */
module Cpf {

  /** The one validation error the account constructor raises. */
  datatype Erro = CpfInvalido

  /** Outcome of an operation that can throw the validation error. */
  datatype Result<T> = Ok(value: T) | Err(error: Erro)

  /** Number of digits a clean tax identifier has. */
  const TamanhoCpf: nat := 11

  predicate IsDigit(c: char) {
    '0' <= c <= '9'
  }

  predicate AllDigits(s: string) {
    forall i :: 0 <= i < |s| ==> IsDigit(s[i])
  }

  /** A tax identifier as the account stores it: exactly 11 digits. */
  predicate CpfValido(s: string) {
    |s| == TamanhoCpf && AllDigits(s)
  }

  /** Keeps the characters in '0'..'9', in order, and drops every other one
      (the regular-expression replacement of every non-digit by nothing). */
  function Digits(s: string): (r: string)
    ensures AllDigits(r)
    ensures |r| <= |s|
  {
    if s == [] then []
    else if IsDigit(s[0]) then [s[0]] + Digits(s[1..])
    else Digits(s[1..])
  }

  /** Cleaning distributes over concatenation: the digits of `s + t` are the
      digits of `s` followed by the digits of `t`, so the relative order of
      the kept characters is the order of the input. */
  lemma {:induction false} DigitsAppend(s: string, t: string)
    ensures Digits(s + t) == Digits(s) + Digits(t)
  {
    if s == [] {
      assert s + t == t;
    } else {
      assert (s + t)[0] == s[0];
      assert (s + t)[1..] == s[1..] + t;
      DigitsAppend(s[1..], t);
    }
  }

  /** Every digit character occurs in the cleaned string exactly as often as
      in the input; no other character occurs in it at all. */
  lemma {:induction false} DigitsCount(s: string, c: char)
    ensures multiset(Digits(s))[c] == if IsDigit(c) then multiset(s)[c] else 0
  {
    if s != [] {
      DigitsCount(s[1..], c);
      assert s == [s[0]] + s[1..];
      assert multiset(s) == multiset{s[0]} + multiset(s[1..]);
      if IsDigit(s[0]) {
        assert multiset(Digits(s)) == multiset{s[0]} + multiset(Digits(s[1..]));
      }
    }
  }

  /** A string made only of digits is left as it is by cleaning, and it is
      the only kind of string that is. */
  lemma {:induction false} DigitsFixpoint(s: string)
    ensures Digits(s) == s <==> AllDigits(s)
  {
    if s != [] {
      DigitsFixpoint(s[1..]);
      if !IsDigit(s[0]) {
        // Digits(s) is shorter than s, so it cannot equal it.
        assert |Digits(s)| <= |s[1..]|;
      } else {
        assert AllDigits(s) <==> AllDigits(s[1..]) by {
          if AllDigits(s[1..]) {
            forall i | 0 <= i < |s| ensures IsDigit(s[i]) {
              if i > 0 { assert s[i] == s[1..][i - 1]; }
            }
          }
          if AllDigits(s) {
            forall i | 0 <= i < |s[1..]| ensures IsDigit(s[1..][i]) {
              assert s[1..][i] == s[i + 1];
            }
          }
        }
      }
    }
  }

  /** Cleaning twice is cleaning once. */
  lemma DigitsIdempotent(s: string)
    ensures Digits(Digits(s)) == Digits(s)
  {
    DigitsFixpoint(Digits(s));
  }

  /** The account's tax-id validation: strip the non-digits and accept the
      result only when exactly 11 digits remain. */
  function ValidarCpf(cpf: string): (r: Result<string>)
    ensures r.Ok? <==> |Digits(cpf)| == TamanhoCpf
    ensures r.Ok? ==> CpfValido(r.value) && r.value == Digits(cpf)
  {
    var cpfLimpo := Digits(cpf);
    if |cpfLimpo| != TamanhoCpf then Err(CpfInvalido) else Ok(cpfLimpo)
  }

  /** Validating an already clean identifier returns it unchanged. */
  lemma ValidarCpfIdempotent(cpf: string)
    requires CpfValido(cpf)
    ensures ValidarCpf(cpf) == Ok(cpf)
  {
    DigitsFixpoint(cpf);
  }

  /** Validation only looks at the digits: two inputs with the same digits,
      whatever their separators, validate alike. */
  lemma ValidarCpfSeparadores(a: string, b: string)
    requires Digits(a) == Digits(b)
    ensures ValidarCpf(a) == ValidarCpf(b)
  {
  }

  /** Display form of the stored identifier: the first three groups of three
      characters separated by '.', then '-', then the rest. */
  function FormatarCpf(cpf: string): (r: string)
    requires |cpf| >= 9
    ensures |r| == |cpf| + 3
    ensures r[3] == '.' && r[7] == '.' && r[11] == '-'
    ensures forall i :: 0 <= i < |cpf| ==> r[Posicao(i)] == cpf[i]
  {
    cpf[..3] + "." + cpf[3..6] + "." + cpf[6..9] + "-" + cpf[9..]
  }

  /** Where the character at index `i` of the identifier lands in its
      display form: one place further per separator before it. */
  function Posicao(i: nat): nat {
    if i < 3 then i else if i < 6 then i + 1 else if i < 9 then i + 2 else i + 3
  }

  /** The display form of a clean identifier is 14 characters long, and
      validating it gives the identifier back: the separators are exactly
      what cleaning removes. */
  lemma FormatarCpfRoundTrip(cpf: string)
    requires CpfValido(cpf)
    ensures |FormatarCpf(cpf)| == 14
    ensures ValidarCpf(FormatarCpf(cpf)) == Ok(cpf)
  {
    var a, b, c, d := cpf[..3], cpf[3..6], cpf[6..9], cpf[9..];
    assert cpf == a + b + c + d;
    assert AllDigits(a) && AllDigits(b) && AllDigits(c) && AllDigits(d) by {
      forall i | 0 <= i < 3 ensures IsDigit(a[i]) && IsDigit(b[i]) && IsDigit(c[i]) {
        assert a[i] == cpf[i] && b[i] == cpf[i + 3] && c[i] == cpf[i + 6];
      }
      forall i | 0 <= i < |d| ensures IsDigit(d[i]) {
        assert d[i] == cpf[i + 9];
      }
    }
    DigitsFixpoint(a);
    DigitsFixpoint(b);
    DigitsFixpoint(c);
    DigitsFixpoint(d);
    var f := FormatarCpf(cpf);
    assert f == a + "." + b + "." + c + "-" + d;
    DigitsAppend(a + "." + b + "." + c + "-", d);
    DigitsAppend(a + "." + b + "." + c, "-");
    DigitsAppend(a + "." + b + ".", c);
    DigitsAppend(a + "." + b, ".");
    DigitsAppend(a + ".", b);
    DigitsAppend(a, ".");
    assert Digits(f) == a + b + c + d;
    ValidarCpfIdempotent(cpf);
  }

  /** Two different clean identifiers are never displayed alike. */
  lemma FormatarCpfInjetivo(x: string, y: string)
    requires CpfValido(x) && CpfValido(y) && x != y
    ensures FormatarCpf(x) != FormatarCpf(y)
  {
    FormatarCpfRoundTrip(x);
    FormatarCpfRoundTrip(y);
  }
}
