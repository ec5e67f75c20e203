# Bank account model (ContaBancaria)

A Dafny model of the single bank account at the heart of the console banking
program: the tax identifier (CPF) the account is opened with, cleaned down to
its digits and required to have exactly 11 of them; the display form
`DDD.DDD.DDD-DD` of that identifier; the balance, changed only by accepted
deposits and withdrawals; the history, which gets one entry per accepted
operation; and the sequential account number taken from a counter.

Layout:

- `cpf.dfy`, module `Cpf`: pure functions over `string` (= `seq<char>`).
  `Digits` keeps the characters `'0'..'9'`. `ValidarCpf` returns `Ok(digits)` or
  `Err(CpfInvalido)` in place of the thrown `IllegalArgumentException`.
  `FormatarCpf` builds the display form. The lemmas state the filter's meaning
  (order, counts, fixpoint, idempotence) and the round trip between formatting
  and validation.
- `contas.dfy`, module `Contas`: class `ContaBancaria`. Its fields are the
  source's fields. `saldo` holds whole cents and `historico` is a
  `seq<Transacao>`, where an entry is its kind plus its signed amount. Its
  invariant `Valid()` says that the identifier is clean and that the balance
  is the net effect (`Total`) of a history. That history has only positive
  deposits and negative withdrawals, and its running total never drops below
  zero. `Depositar`, `Sacar` and `RegistrarTransacao` change the fields in
  place and state the new state exactly. Class `RegistroDeContas` holds the
  counter that the source keeps in the static field `proximoNumero`. Its
  invariant says the numbers handed out so far are exactly 1, 2, ..., in order.
  `AbrirConta` plays the part of the source's constructor: it validates
  first, and only on success takes and increments the number.

The methods `Depositar` and `Sacar` return a boolean `aceito`. It says which
of the two messages the source prints: the "realizado" message or the
rejection message.

## Model

| member | source | states |
|---|---|---|
| `Cpf.Digits` | Main.java:25 | the cleaned identifier contains only digits and is no longer than the input |
| `Cpf.DigitsAppend` | Main.java:25 | cleaning a concatenation is the concatenation of the cleanings, so the kept digits stay in input order |
| `Cpf.DigitsCount` | Main.java:25 | each digit occurs in the cleaned string exactly as often as in the input, and no non-digit occurs |
| `Cpf.DigitsFixpoint` | Main.java:25 | cleaning leaves a string unchanged if and only if it is made only of digits |
| `Cpf.DigitsIdempotent` | Main.java:25 | cleaning twice equals cleaning once |
| `Cpf.ValidarCpf` | Main.java:24-30 | succeeds if and only if the input has exactly 11 digits; on success returns those digits, 11 of them, all digits; otherwise the validation error |
| `Cpf.ValidarCpfIdempotent` | Main.java:24-30 | validating an already clean 11-digit identifier returns it unchanged |
| `Cpf.ValidarCpfSeparadores` | Main.java:25-29 | two inputs with the same digits validate to the same outcome, whatever their separators (immediate, since validation reads its input only through the cleanup) |
| `Cpf.FormatarCpf` | Main.java:65-68 | the result is 3 longer than the input, has `.` at indices 3 and 7 and `-` at index 11, and every input character keeps its place shifted past the separators before it |
| `Cpf.FormatarCpfRoundTrip` | Main.java:65-68 | for a clean identifier the display form has length 14 and validating it gives the identifier back |
| `Cpf.FormatarCpfInjetivo` | Main.java:65-68 | distinct clean identifiers have distinct display forms |
| `Contas.TotalAppend` | Main.java:52-54 | appending an entry moves the history's net effect by exactly that entry's amount |
| `Contas.HistoricoValidoAppend` | Main.java:42-54 | appending a well-formed entry that keeps the running total non-negative keeps the history valid |
| `Contas.HistoricoValidoSaldo` | Main.java:12 | a valid history has a non-negative net effect |
| `Contas.ContaBancaria.constructor` | Main.java:16-22 | a new account has the given names, the clean identifier, the assigned number, balance 0 and an empty history, and satisfies the invariant |
| `Contas.ContaBancaria.RegistrarTransacao` | Main.java:52-55 | the history grows by exactly one entry, the given kind and amount, at its end |
| `Contas.ContaBancaria.Depositar` | Main.java:32-40 | accepted if and only if the amount is positive; then the balance rises by the amount and one deposit entry of +amount is appended; otherwise balance and history are unchanged; the invariant (balance = net history, never negative) is kept |
| `Contas.ContaBancaria.Sacar` | Main.java:42-50 | accepted if and only if 0 < amount <= balance; then the balance falls by the amount and one withdrawal entry of -amount is appended; otherwise balance and history are unchanged; the balance stays non-negative |
| `Contas.ContaBancaria.CpfFormatado` | Main.java:65-68 | the account's displayed identifier has length 14 and validates back to the stored identifier |
| `Contas.RegistroDeContas.constructor` | Main.java:8 | the counter starts at 1 with no number handed out |
| `Contas.RegistroDeContas.AbrirConta` | Main.java:16-22 | fails with the validation error if and only if the input does not have 11 digits, and then the counter is untouched; on success the fresh account gets the counter's old value, a number not handed out before, and the counter goes up by one |
| `Contas.EmitidosConsecutivos` | Main.java:8-21 | in a valid registry the numbers handed out are strictly increasing, hence pairwise distinct, and are exactly 1 up to the counter's current value minus one |
| `Contas.ExemploCpf` | Main.java:24-30 | the identifier `123.456.789-09` validates to `12345678909` |
| `Contas.Cenario` | Main.java:16-50 | opening an account with `123.456.789-09`, depositing 100.00, withdrawing 150.00 and then 40.00 stores the identifier `12345678909` under account number 1; the deposit and the 40.00 withdrawal are accepted and the 150.00 one refused; the balance ends at 60.00 with two history entries, the last one a withdrawal of -40.00 |

## Left out

- `Main.main` and `exibirMenu`: console input, the menu loop and its dispatch. They are I/O glue with no logic of their own.
- All printing, including `exibirDados`. Only its call to `formatarCPF` is modelled, as `CpfFormatado`.
- The timestamp from `LocalDateTime.now()` and the `String.format` text of a history entry. An entry is modelled as its kind and signed amount. The clock is not modelled.
- IEEE `double` arithmetic for `saldo` and `valor`: amounts are whole cents (unbounded integers). Rounding, NaN and infinities are not modelled. For example, a NaN amount is rejected by both guards in the source and cannot be expressed here. Rounding can change the source's withdrawal guard: after deposits of 0.7 and 0.1 the source's balance is 0.7999999999999999, so a withdrawal of 0.8 is refused, while the model accepts `Sacar(80)` after deposits of 70 and 10 cents. Amounts below one cent, such as 0.001, pass the source's `valor > 0` but cannot be expressed in cents.
- Java's regular-expression engine: the `replaceAll("[^0-9]", "")` cleanup is modelled as keeping the characters `'0'` to `'9'`.
- Contas.RegistroDeContas.AbrirConta: does not model the 32-bit wrap-around of the `int` counter `proximoNumero` after 2^31 - 1 accounts. After that the source would hand out negative and repeated numbers.
- The static counter is a field of an explicit registry object, not hidden global state. Accounts opened through different registries are not numbered against each other.
