/** The bank account (balance, history, identity) and the counter that
    numbers accounts. Amounts are whole cents. */
module Contas {
  import opened Cpf

  datatype Tipo = Deposito | Saque

  /** One accepted operation: its kind and its signed effect on the balance
      (positive for a deposit, negative for a withdrawal). */
  datatype Transacao = Transacao(tipo: Tipo, valor: int)

  /** Net effect of a history on the balance. */
  function Total(h: seq<Transacao>): int {
    if h == [] then 0 else h[0].valor + Total(h[1..])
  }

  /** Recording one more entry moves the net effect by that entry's amount. */
  lemma {:induction false} TotalAppend(h: seq<Transacao>, t: Transacao)
    ensures Total(h + [t]) == Total(h) + t.valor
  {
    if h != [] {
      assert (h + [t])[1..] == h[1..] + [t];
      TotalAppend(h[1..], t);
    }
  }

  /** An entry as the account records it: deposits carry a positive amount,
      withdrawals a negative one. */
  predicate EntradaBemFormada(t: Transacao) {
    match t.tipo
    case Deposito => t.valor > 0
    case Saque => t.valor < 0
  }

  /** A history the account can have produced from a zero balance: every
      entry is well formed and the balance never went negative on the way. */
  predicate HistoricoValido(h: seq<Transacao>) {
    (forall i :: 0 <= i < |h| ==> EntradaBemFormada(h[i])) &&
    (forall k :: 0 <= k <= |h| ==> Total(h[..k]) >= 0)
  }

  /** Appending a well-formed entry that keeps the net effect non-negative
      keeps a history valid. */
  lemma HistoricoValidoAppend(h: seq<Transacao>, t: Transacao)
    requires HistoricoValido(h)
    requires EntradaBemFormada(t) && Total(h) + t.valor >= 0
    ensures HistoricoValido(h + [t])
    ensures Total(h + [t]) == Total(h) + t.valor
  {
    var h' := h + [t];
    TotalAppend(h, t);
    forall k | 0 <= k <= |h'| ensures Total(h'[..k]) >= 0 {
      if k <= |h| {
        assert h'[..k] == h[..k];
      } else {
        assert h'[..k] == h';
      }
    }
  }

  /** The balance of a history's final state is never negative. */
  lemma HistoricoValidoSaldo(h: seq<Transacao>)
    requires HistoricoValido(h)
    ensures Total(h) >= 0
  {
    assert h[..|h|] == h;
  }

  class ContaBancaria {
    const nome: string
    const sobrenome: string
    const cpf: string
    const numeroConta: int
    var saldo: int
    var historico: seq<Transacao>

    /** The account's invariant: a clean identifier, a positive number, and a
        balance that is the net effect of a valid history. */
    ghost predicate Valid()
      reads this
    {
      CpfValido(cpf) && numeroConta >= 1 &&
      HistoricoValido(historico) && saldo == Total(historico)
    }

    /** Builds an account from an identifier that has already been cleaned
        and the number the counter handed out. */
    constructor (nome: string, sobrenome: string, cpf: string, numero: int)
      requires CpfValido(cpf) && numero >= 1
      ensures Valid()
      ensures this.nome == nome && this.sobrenome == sobrenome
      ensures this.cpf == cpf && numeroConta == numero
      ensures saldo == 0 && historico == []
    {
      this.historico := [];
      this.nome := nome;
      this.sobrenome := sobrenome;
      this.cpf := cpf;
      this.numeroConta := numero;
      this.saldo := 0;
    }

    /** Appends one entry to the history. */
    method RegistrarTransacao(tipo: Tipo, valor: int)
      modifies this`historico
      ensures historico == old(historico) + [Transacao(tipo, valor)]
    {
      historico := historico + [Transacao(tipo, valor)];
    }

    /** Deposit: accepted exactly when the amount is positive; then the
        balance grows by the amount and one deposit entry is recorded.
        `aceito` tells which of the two messages is shown. */
    method Depositar(valor: int) returns (aceito: bool)
      requires Valid()
      modifies this
      ensures Valid()
      ensures aceito <==> valor > 0
      ensures aceito ==> saldo == old(saldo) + valor &&
                         historico == old(historico) + [Transacao(Deposito, valor)]
      ensures !aceito ==> saldo == old(saldo) && historico == old(historico)
    {
      if valor > 0 {
        HistoricoValidoSaldo(historico);
        HistoricoValidoAppend(historico, Transacao(Deposito, valor));
        saldo := saldo + valor;
        RegistrarTransacao(Deposito, valor);
        aceito := true;
      } else {
        aceito := false;
      }
    }

    /** Withdrawal: accepted exactly when the amount is positive and covered
        by the balance; then the balance shrinks by the amount and one
        withdrawal entry with the negated amount is recorded. */
    method Sacar(valor: int) returns (aceito: bool)
      requires Valid()
      modifies this
      ensures Valid()
      ensures aceito <==> 0 < valor <= old(saldo)
      ensures aceito ==> saldo == old(saldo) - valor &&
                         historico == old(historico) + [Transacao(Saque, -valor)]
      ensures !aceito ==> saldo == old(saldo) && historico == old(historico)
      ensures saldo >= 0
    {
      if valor > 0 && saldo >= valor {
        HistoricoValidoAppend(historico, Transacao(Saque, -valor));
        saldo := saldo - valor;
        RegistrarTransacao(Saque, -valor);
        aceito := true;
      } else {
        aceito := false;
      }
      HistoricoValidoSaldo(historico);
    }

    /** The identifier as the account displays it. */
    function CpfFormatado(): (r: string)
      requires CpfValido(cpf)
      ensures |r| == 14 && ValidarCpf(r) == Ok(cpf)
    {
      FormatarCpfRoundTrip(cpf);
      FormatarCpf(cpf)
    }
  }

  /** Owner of the counter the account class keeps in a static field: it
      starts at 1 and every successful opening takes its value and moves it
      on by one. `emitidos` lists the numbers handed out so far. */
  class RegistroDeContas {
    var proximoNumero: int
    ghost var emitidos: seq<int>

    /** The numbers handed out so far are 1, 2, ..., proximoNumero - 1, in
        the order they were handed out. */
    ghost predicate Valid()
      reads this
    {
      proximoNumero >= 1 && |emitidos| == proximoNumero - 1 &&
      forall i :: 0 <= i < |emitidos| ==> emitidos[i] == i + 1
    }

    constructor ()
      ensures Valid() && proximoNumero == 1 && emitidos == []
    {
      proximoNumero := 1;
      emitidos := [];
    }

    /** Opens an account: validates the identifier first, and only when it
        is valid takes the counter's value as the account number and
        increments the counter. A rejected identifier consumes no number. */
    method AbrirConta(nome: string, sobrenome: string, cpf: string)
      returns (r: Result<ContaBancaria>)
      requires Valid()
      modifies this
      ensures Valid()
      ensures r.Ok? <==> |Digits(cpf)| == TamanhoCpf
      ensures r.Err? ==> r.error == CpfInvalido &&
                         proximoNumero == old(proximoNumero) && emitidos == old(emitidos)
      ensures r.Ok? ==>
                fresh(r.value) && r.value.Valid() &&
                r.value.nome == nome && r.value.sobrenome == sobrenome &&
                r.value.cpf == Digits(cpf) &&
                r.value.saldo == 0 && r.value.historico == [] &&
                r.value.numeroConta == old(proximoNumero) &&
                r.value.numeroConta !in old(emitidos) &&
                proximoNumero == old(proximoNumero) + 1 &&
                emitidos == old(emitidos) + [r.value.numeroConta]
    {
      var validado := ValidarCpf(cpf);
      if validado.Err? {
        return Err(validado.error);
      }
      var conta := new ContaBancaria(nome, sobrenome, validado.value, proximoNumero);
      emitidos := emitidos + [proximoNumero];
      proximoNumero := proximoNumero + 1;
      r := Ok(conta);
    }
  }

  /** A valid registry has handed out strictly increasing, hence pairwise
      distinct, numbers, and exactly the numbers from 1 up to (not
      including) the counter's current value. */
  lemma EmitidosConsecutivos(reg: RegistroDeContas)
    requires reg.Valid()
    ensures forall i, j :: 0 <= i < j < |reg.emitidos| ==> reg.emitidos[i] < reg.emitidos[j]
    ensures forall x :: x in reg.emitidos <==> 1 <= x < reg.proximoNumero
  {
    forall x | 1 <= x < reg.proximoNumero ensures x in reg.emitidos {
      assert reg.emitidos[x - 1] == x;
    }
  }

  /** The example identifier, punctuated, validates to its 11 digits. */
  lemma ExemploCpf()
    ensures ValidarCpf("123.456.789-09") == Ok("12345678909")
  {
    assert CpfValido("12345678909");
    assert FormatarCpf("12345678909") == "123.456.789-09";
    FormatarCpfRoundTrip("12345678909");
  }

  /** A session as the program runs it: open an account from a punctuated
      identifier, deposit 100.00, try to withdraw 150.00, withdraw 40.00. */
  method Cenario() returns (numero: int, cpf: string, saldo: int, entradas: nat,
                            ultima: Transacao, aceitos: bool, recusado: bool)
    ensures numero == 1 && cpf == "12345678909"
    ensures saldo == 6000 && entradas == 2 && ultima == Transacao(Saque, -4000)
    ensures aceitos && recusado
  {
    var registro := new RegistroDeContas();
    var bruto := "123.456.789-09";
    ExemploCpf();
    assert |Digits(bruto)| == TamanhoCpf;
    var aberta := registro.AbrirConta("Ana", "Silva", bruto);
    assert aberta.Ok?;
    var conta := aberta.value;
    assert conta.saldo == 0 && conta.historico == [] && conta.numeroConta == 1;
    var ok1 := conta.Depositar(10000);
    var ok2 := conta.Sacar(15000);
    var ok3 := conta.Sacar(4000);
    numero, cpf, saldo := conta.numeroConta, conta.cpf, conta.saldo;
    entradas, ultima := |conta.historico|, conta.historico[|conta.historico| - 1];
    aceitos, recusado := ok1 && ok3, !ok2;
  }
}
