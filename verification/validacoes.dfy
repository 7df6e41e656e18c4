/** src/lib/validations.ts: the patient-record validator, the e-mail and phone
    recognisers, phone formatting and age arithmetic. */
module Validacoes {
  import opened Sequencias
  import opened Texto
  import opened Tipos

  const MsgNome := "Nome é obrigatório"
  const MsgDataNascimento := "Data de nascimento é obrigatória"
  const MsgPeso := "Peso deve estar entre 0.1 e 999 kg"
  const MsgAltura := "Altura deve estar entre 0.1 e 3 metros"
  const MsgRua := "Rua é obrigatória"
  const MsgCidade := "Cidade é obrigatória"
  const MsgEstado := "Estado deve ter 2 caracteres"
  const MsgTelefones := "Pelo menos um telefone é obrigatório"
  const MsgEmails := "Pelo menos um email é obrigatório"

  // ---------------------------------------------------------------------------
  // validarPaciente
  // ---------------------------------------------------------------------------

  /** The nine checks of `validarPaciente`, in the order it runs them. */
  datatype Regra = Nome | DataNascimento | Peso | Altura | Rua | Cidade | Estado | Telefones | Emails

  const Regras: seq<Regra> := [Nome, DataNascimento, Peso, Altura, Rua, Cidade, Estado, Telefones, Emails]

  /** Where check `r` sits in the order. */
  function Posicao(r: Regra): (k: nat)
    ensures k < |Regras| && Regras[k] == r
  {
    match r
    case Nome => 0
    case DataNascimento => 1
    case Peso => 2
    case Altura => 3
    case Rua => 4
    case Cidade => 5
    case Estado => 6
    case Telefones => 7
    case Emails => 8
  }

  function Mensagem(r: Regra): string
  {
    match r
    case Nome => MsgNome
    case DataNascimento => MsgDataNascimento
    case Peso => MsgPeso
    case Altura => MsgAltura
    case Rua => MsgRua
    case Cidade => MsgCidade
    case Estado => MsgEstado
    case Telefones => MsgTelefones
    case Emails => MsgEmails
  }

  /** `d` fails check `r`. A string is falsy in JavaScript exactly when it is empty. */
  predicate Viola(d: PacienteFormData, r: Regra)
  {
    match r
    case Nome => d.nome == "" || Aparar(d.nome) == ""
    case DataNascimento => d.dataNascimento == ""
    case Peso => d.peso <= 0.0 || d.peso > 999.0
    case Altura => d.altura <= 0.0 || d.altura > 3.0
    case Rua => d.endereco.rua == "" || Aparar(d.endereco.rua) == ""
    case Cidade => d.endereco.cidade == "" || Aparar(d.endereco.cidade) == ""
    case Estado => d.endereco.estado == "" || |d.endereco.estado| != 2
    case Telefones => |NaoVazios(d.telefones)| == 0
    case Emails => |NaoVazios(d.emails)| == 0
  }

  /** The messages of the checks among the first `n` that `d` fails, in check order. */
  function ErrosAte(d: PacienteFormData, n: nat): seq<string>
    requires n <= |Regras|
  {
    if n == 0 then []
    else ErrosAte(d, n - 1) + (if Viola(d, Regras[n - 1]) then [Mensagem(Regras[n - 1])] else [])
  }

  /** What `validarPaciente(d)` returns. */
  function Erros(d: PacienteFormData): seq<string>
  {
    ErrosAte(d, |Regras|)
  }

  /** Running check `n` on the errors of the first `n` checks. */
  lemma Acrescenta(d: PacienteFormData, n: nat, antes: seq<string>, depois: seq<string>)
    requires n < |Regras| && antes == ErrosAte(d, n)
    requires depois == if Viola(d, Regras[n]) then antes + [Mensagem(Regras[n])] else antes
    ensures depois == ErrosAte(d, n + 1)
  {
  }

  /** The checks on the personal fields, in source order. */
  method VerificarDadosPessoais(dados: PacienteFormData) returns (erros: seq<string>)
    ensures erros == ErrosAte(dados, 4)
  {
    erros := [];
    ghost var antes := erros;
    if dados.nome == "" || Aparar(dados.nome) == "" {
      erros := erros + [MsgNome];
    }
    Acrescenta(dados, 0, antes, erros);
    antes := erros;
    if dados.dataNascimento == "" {
      erros := erros + [MsgDataNascimento];
    }
    Acrescenta(dados, 1, antes, erros);
    antes := erros;
    if dados.peso <= 0.0 || dados.peso > 999.0 {
      erros := erros + [MsgPeso];
    }
    Acrescenta(dados, 2, antes, erros);
    antes := erros;
    if dados.altura <= 0.0 || dados.altura > 3.0 {
      erros := erros + [MsgAltura];
    }
    Acrescenta(dados, 3, antes, erros);
  }

  /** The checks on the address, appended to the errors found so far. */
  method VerificarEndereco(dados: PacienteFormData, ate: seq<string>) returns (erros: seq<string>)
    requires ate == ErrosAte(dados, 4)
    ensures erros == ErrosAte(dados, 7)
  {
    erros := ate;
    ghost var antes := erros;
    if dados.endereco.rua == "" || Aparar(dados.endereco.rua) == "" {
      erros := erros + [MsgRua];
    }
    Acrescenta(dados, 4, antes, erros);
    antes := erros;
    if dados.endereco.cidade == "" || Aparar(dados.endereco.cidade) == "" {
      erros := erros + [MsgCidade];
    }
    Acrescenta(dados, 5, antes, erros);
    antes := erros;
    if dados.endereco.estado == "" || |dados.endereco.estado| != 2 {
      erros := erros + [MsgEstado];
    }
    Acrescenta(dados, 6, antes, erros);
  }

  /** The checks on the contact lists, appended to the errors found so far. */
  method VerificarContatos(dados: PacienteFormData, ate: seq<string>) returns (erros: seq<string>)
    requires ate == ErrosAte(dados, 7)
    ensures erros == ErrosAte(dados, 9)
  {
    erros := ate;
    ghost var antes := erros;
    if |NaoVazios(dados.telefones)| == 0 {
      erros := erros + [MsgTelefones];
    }
    Acrescenta(dados, 7, antes, erros);
    antes := erros;
    if |NaoVazios(dados.emails)| == 0 {
      erros := erros + [MsgEmails];
    }
    Acrescenta(dados, 8, antes, erros);
  }

  /** `validarPaciente`: runs the nine checks in order, collecting the message of each one that fails. */
  method ValidarPaciente(dados: PacienteFormData) returns (erros: seq<string>)
    ensures erros == Erros(dados)
  {
    erros := VerificarDadosPessoais(dados);
    erros := VerificarEndereco(dados, erros);
    erros := VerificarContatos(dados, erros);
  }

  // Properties of the error list

  /** Every message belongs to exactly one check. */
  lemma MensagemInjetiva()
    ensures Injetiva(Mensagem)
  {
    forall r1, r2 | Mensagem(r1) == Mensagem(r2) ensures r1 == r2 {
    }
  }

  /** The nine checks are nine different ones. */
  lemma RegrasSemRepeticao()
    ensures SemRepeticao(Regras)
  {
    forall i, j | 0 <= i < j < |Regras| ensures Regras[i] != Regras[j] {
      assert Posicao(Regras[i]) == i;
    }
  }

  /** The checks `d` fails, in check order. */
  function Falhas(d: PacienteFormData): seq<Regra>
  {
    Filtro(r => Viola(d, r), Regras)
  }

  lemma {:induction false} ErrosAteComoFiltro(d: PacienteFormData, n: nat)
    requires n <= |Regras|
    ensures ErrosAte(d, n) == Mapear(Mensagem, Filtro(r => Viola(d, r), Regras[..n]))
  {
    if n > 0 {
      ErrosAteComoFiltro(d, n - 1);
      FiltroPasso(r => Viola(d, r), Regras, n - 1);
      var f := Filtro(r => Viola(d, r), Regras[..n - 1]);
      var x := if Viola(d, Regras[n - 1]) then [Regras[n - 1]] else [];
      assert Mapear(Mensagem, f + x) == Mapear(Mensagem, f) + Mapear(Mensagem, x);
    }
  }

  /** The error list is the messages of the failed checks, in check order. */
  lemma ErrosComoFalhas(d: PacienteFormData)
    ensures Erros(d) == Mapear(Mensagem, Falhas(d))
  {
    ErrosAteComoFiltro(d, |Regras|);
    assert Regras[..|Regras|] == Regras;
  }

  /** Errors come in the order of the checks, each message at most once, so there are at most nine. */
  lemma ErrosEmOrdem(d: PacienteFormData)
    ensures Subsequencia(Erros(d), Mapear(Mensagem, Regras))
    ensures SemRepeticao(Erros(d)) && |Erros(d)| <= |Regras|
  {
    ErrosComoFalhas(d);
    FiltroSubsequencia(r => Viola(d, r), Regras);
    SubsequenciaMapeada(Mensagem, Falhas(d), Regras);
    MensagemInjetiva();
    RegrasSemRepeticao();
    MapearSemRepeticao(Mensagem, Regras);
    SubsequenciaSemRepeticao(Erros(d), Mapear(Mensagem, Regras));
  }

  /** A check's message is in the list exactly when the check fails. */
  lemma MensagemPresenteSse(d: PacienteFormData, r: Regra)
    ensures Mensagem(r) in Erros(d) <==> Viola(d, r)
  {
    ErrosComoFalhas(d);
    MensagemInjetiva();
    MapearPertence(Mensagem, Falhas(d), r);
    FiltroMultiset(r => Viola(d, r), Regras);
    assert Regras[Posicao(r)] == r;
    assert r in Falhas(d) <==> multiset(Falhas(d))[r] > 0;
  }

  /** Acceptance in the source's own terms: the form passes every check. */
  ghost predicate Aceito(d: PacienteFormData)
  {
    && Aparar(d.nome) != ""
    && d.dataNascimento != ""
    && 0.0 < d.peso <= 999.0
    && 0.0 < d.altura <= 3.0
    && Aparar(d.endereco.rua) != ""
    && Aparar(d.endereco.cidade) != ""
    && |d.endereco.estado| == 2
    && (exists k :: 0 <= k < |d.telefones| && Aparar(d.telefones[k]) != "")
    && (exists k :: 0 <= k < |d.emails| && Aparar(d.emails[k]) != "")
  }

  lemma NaoVaziosVaziaSse(xs: seq<string>)
    ensures |NaoVazios(xs)| == 0 <==> !exists k :: 0 <= k < |xs| && Aparar(xs[k]) != ""
  {
    FiltroVazioSse(Preenchido, xs);
  }

  /** `Aceito` is exactly "no check fails". */
  lemma AceitoSse(d: PacienteFormData)
    ensures Aceito(d) <==> forall r :: !Viola(d, r)
  {
    NaoVaziosVaziaSse(d.telefones);
    NaoVaziosVaziaSse(d.emails);
    ApararDaVazia();
    if forall r :: !Viola(d, r) {
      assert !Viola(d, Nome) && !Viola(d, DataNascimento) && !Viola(d, Peso) && !Viola(d, Altura);
      assert !Viola(d, Rua) && !Viola(d, Cidade) && !Viola(d, Estado);
      assert !Viola(d, Telefones) && !Viola(d, Emails);
    }
    if Aceito(d) {
      forall r ensures !Viola(d, r) {
        match r
        case Telefones =>
        case Emails =>
        case _ =>
      }
    }
  }

  /** `validarPaciente` returns no errors exactly when the form is acceptable. */
  lemma ErrosVaziosSse(d: PacienteFormData)
    ensures Erros(d) == [] <==> Aceito(d)
  {
    ErrosComoFalhas(d);
    FiltroVazioSse(r => Viola(d, r), Regras);
    AceitoSse(d);
    if Falhas(d) == [] {
      forall r ensures !Viola(d, r) {
        assert Regras[Posicao(r)] == r;
      }
    }
  }

  /** The boundary values: 999 kg and 3 m pass, zero fails both, a weight below the
      0.1 kg the message names still passes, and the state check counts raw
      characters, so two spaces pass it. */
  lemma Limites(d: PacienteFormData)
    ensures d.peso == 999.0 ==> MsgPeso !in Erros(d)
    ensures d.peso == 0.0 ==> MsgPeso in Erros(d)
    ensures d.peso == 0.05 ==> MsgPeso !in Erros(d)
    ensures d.altura == 3.0 ==> MsgAltura !in Erros(d)
    ensures d.altura == 0.0 ==> MsgAltura in Erros(d)
    ensures d.endereco.estado == "  " ==> MsgEstado !in Erros(d)
  {
    MensagemPresenteSse(d, Peso);
    MensagemPresenteSse(d, Altura);
    MensagemPresenteSse(d, Estado);
  }

  lemma {:induction false} ErrosAteIguais(d: PacienteFormData, e: PacienteFormData, n: nat)
    requires n <= |Regras|
    requires forall r :: Viola(d, r) == Viola(e, r)
    ensures ErrosAte(d, n) == ErrosAte(e, n)
  {
    if n > 0 {
      ErrosAteIguais(d, e, n - 1);
    }
  }

  /** Validation reads only the name, birth date, weight, height, street, city and
      state, and of each list only whether it has a non-blank entry. */
  lemma ErrosDependemDe(d: PacienteFormData, e: PacienteFormData)
    requires d.nome == e.nome && d.dataNascimento == e.dataNascimento && d.peso == e.peso && d.altura == e.altura
    requires d.endereco.rua == e.endereco.rua && d.endereco.cidade == e.endereco.cidade && d.endereco.estado == e.endereco.estado
    requires (|NaoVazios(d.telefones)| == 0) == (|NaoVazios(e.telefones)| == 0)
    requires (|NaoVazios(d.emails)| == 0) == (|NaoVazios(e.emails)| == 0)
    ensures Erros(d) == Erros(e)
  {
    forall r ensures Viola(d, r) == Viola(e, r) {
      match r
      case Telefones =>
      case Emails =>
      case _ =>
    }
    ErrosAteIguais(d, e, |Regras|);
  }

  /** `numero`, `bairro` and `tipoSanguineo` are never checked. */
  lemma CamposNaoVerificados(d: PacienteFormData, numero: string, bairro: string, tipoSanguineo: string)
    ensures Erros(d.(tipoSanguineo := tipoSanguineo, endereco := d.endereco.(numero := numero, bairro := bairro))) == Erros(d)
  {
    ErrosDependemDe(d.(tipoSanguineo := tipoSanguineo, endereco := d.endereco.(numero := numero, bairro := bairro)), d);
  }

  // ---------------------------------------------------------------------------
  // validarEmail
  // ---------------------------------------------------------------------------

  /** A run of `[^\s@]`. */
  predicate SemArrobaNemEspaco(x: string)
  {
    forall k :: 0 <= k < |x| ==> x[k] != '@' && !EhEspaco(x[k])
  }

  /** `/^[^\s@]+@[^\s@]+\.[^\s@]+$/.test(s)`: a non-empty part, `@`, a non-empty
      part, a dot, a non-empty part, the parts free of `@` and white space. */
  predicate ValidarEmail(s: string)
  {
    exists i, j | 0 < i && i + 1 < j < |s| - 1 ::
      && s[i] == '@' && s[j] == '.'
      && SemArrobaNemEspaco(s[..i]) && SemArrobaNemEspaco(s[i + 1..j]) && SemArrobaNemEspaco(s[j + 1..])
  }

  /** The shape of an accepted address stated character by character: no white space,
      one `@` that is not the first character, and a dot after it that neither
      follows it directly nor ends the string. */
  ghost predicate FormaDeEmail(s: string)
  {
    && (forall k :: 0 <= k < |s| ==> !EhEspaco(s[k]))
    && exists i, j :: 0 < i && i + 1 < j < |s| - 1 && s[i] == '@' && s[j] == '.'
                      && forall k :: 0 <= k < |s| && s[k] == '@' ==> k == i
  }

  lemma ValidarEmailSse(s: string)
    ensures ValidarEmail(s) <==> FormaDeEmail(s)
  {
    if ValidarEmail(s) {
      EmailAceitoTemForma(s);
    }
    if FormaDeEmail(s) {
      FormaDeEmailAceita(s);
    }
  }

  lemma EmailAceitoTemForma(s: string)
    requires ValidarEmail(s)
    ensures FormaDeEmail(s)
  {
    var i, j :| 0 < i && i + 1 < j < |s| - 1 && s[i] == '@' && s[j] == '.'
                && SemArrobaNemEspaco(s[..i]) && SemArrobaNemEspaco(s[i + 1..j]) && SemArrobaNemEspaco(s[j + 1..]);
    forall k | 0 <= k < |s| ensures !EhEspaco(s[k]) && (s[k] == '@' ==> k == i) {
      if k < i {
        assert s[k] == s[..i][k];
      } else if i < k < j {
        assert s[k] == s[i + 1..j][k - i - 1];
      } else if j < k {
        assert s[k] == s[j + 1..][k - j - 1];
      }
    }
  }

  lemma FormaDeEmailAceita(s: string)
    requires FormaDeEmail(s)
    ensures ValidarEmail(s)
  {
    var i, j :| 0 < i && i + 1 < j < |s| - 1 && s[i] == '@' && s[j] == '.'
                && forall k :: 0 <= k < |s| && s[k] == '@' ==> k == i;
    assert SemArrobaNemEspaco(s[..i]);
    var meio, fim := s[i + 1..j], s[j + 1..];
    forall k | 0 <= k < |meio| ensures meio[k] != '@' && !EhEspaco(meio[k]) {
      assert meio[k] == s[i + 1 + k];
    }
    forall k | 0 <= k < |fim| ensures fim[k] != '@' && !EhEspaco(fim[k]) {
      assert fim[k] == s[j + 1 + k];
    }
  }

  // ---------------------------------------------------------------------------
  // validarTelefone and formatarTelefone
  // ---------------------------------------------------------------------------

  /** `s` is an area code in parentheses, a space, `n` digits, a dash and four digits. */
  predicate TelefoneCom(s: string, n: nat)
  {
    && |s| == n + 10
    && s[0] == '(' && SoDigitos(s[1..3]) && s[3] == ')' && s[4] == ' '
    && SoDigitos(s[5..5 + n]) && s[5 + n] == '-' && SoDigitos(s[6 + n..])
  }

  /** `/^\(\d{2}\) \d{4,5}-\d{4}$/.test(s)` */
  predicate ValidarTelefone(s: string)
  {
    TelefoneCom(s, 4) || TelefoneCom(s, 5)
  }

  /** An accepted phone has 14 or 15 characters. */
  lemma TelefoneValidoComprimento(s: string)
    requires ValidarTelefone(s)
    ensures |s| == 14 || |s| == 15
  {
  }

  /** `formatarTelefone`: the digits regrouped as `(DD) DDDDD-DDDD` or `(DD) DDDD-DDDD`
      when there are 11 or 10 of them; otherwise the input as it was. */
  function FormatarTelefone(telefone: string): string
  {
    var numeros := Digitos(telefone);
    if |numeros| == 11 then "(" + numeros[0..2] + ") " + numeros[2..7] + "-" + numeros[7..]
    else if |numeros| == 10 then "(" + numeros[0..2] + ") " + numeros[2..6] + "-" + numeros[6..]
    else telefone
  }

  /** The display form of a digit string: area code, the middle digits, the last four. */
  ghost function Montar(n: string): string
    requires |n| >= 6
  {
    "(" + n[..2] + ") " + n[2..|n| - 4] + "-" + n[|n| - 4..]
  }

  lemma FormatarComoMontar(t: string)
    requires |Digitos(t)| == 10 || |Digitos(t)| == 11
    ensures FormatarTelefone(t) == Montar(Digitos(t))
  {
  }

  /** Formatting keeps exactly the digits, in order. */
  lemma MontarDigitos(n: string)
    requires |n| >= 6 && SoDigitos(n)
    ensures Digitos(Montar(n)) == n
  {
    var a, b, c := n[..2], n[2..|n| - 4], n[|n| - 4..];
    DigitosSemDigitos("(");
    DigitosSemDigitos(") ");
    DigitosSemDigitos("-");
    DigitosDeDigitos(a);
    DigitosDeDigitos(b);
    DigitosDeDigitos(c);
    DigitosConcat("(", a);
    DigitosConcat("(" + a, ") ");
    DigitosConcat("(" + a + ") ", b);
    DigitosConcat("(" + a + ") " + b, "-");
    DigitosConcat("(" + a + ") " + b + "-", c);
    assert n == a + b + c;
  }

  lemma MontarValido(n: string)
    requires (|n| == 10 || |n| == 11) && SoDigitos(n)
    ensures ValidarTelefone(Montar(n)) && |Montar(n)| == |n| + 4
  {
    var s, m := Montar(n), |n| - 6;
    assert s[1..3] == n[..2];
    assert s[5..5 + m] == n[2..|n| - 4];
    assert s[6 + m..] == n[|n| - 4..];
    assert s[3] == ')' && s[4] == ' ' && s[5 + m] == '-';
  }

  /** With 10 or 11 digits the result is an accepted phone with the same digits in order. */
  lemma FormatarTelefoneValido(t: string)
    requires |Digitos(t)| == 10 || |Digitos(t)| == 11
    ensures ValidarTelefone(FormatarTelefone(t))
    ensures Digitos(FormatarTelefone(t)) == Digitos(t)
    ensures |FormatarTelefone(t)| == |Digitos(t)| + 4
  {
    MontarValido(Digitos(t));
    MontarDigitos(Digitos(t));
  }

  /** With any other number of digits the input comes back unchanged. */
  lemma FormatarTelefoneInalterado(t: string)
    requires |Digitos(t)| != 10 && |Digitos(t)| != 11
    ensures FormatarTelefone(t) == t
  {
  }

  /** Formatting twice is formatting once. */
  lemma FormatarTelefoneIdempotente(t: string)
    ensures FormatarTelefone(FormatarTelefone(t)) == FormatarTelefone(t)
  {
    if |Digitos(t)| == 10 || |Digitos(t)| == 11 {
      MontarDigitos(Digitos(t));
      FormatarComoMontar(FormatarTelefone(t));
    }
  }

  /** An accepted phone is already in display form: formatting leaves it alone. */
  lemma TelefoneValidoEhFixo(s: string)
    requires ValidarTelefone(s)
    ensures FormatarTelefone(s) == s
  {
    var m := if TelefoneCom(s, 4) then 4 else 5;
    var n := s[1..3] + s[5..5 + m] + s[6 + m..];
    assert n[..2] == s[1..3] && n[2..|n| - 4] == s[5..5 + m] && n[|n| - 4..] == s[6 + m..];
    assert s == Montar(n);
    MontarDigitos(n);
  }

  // ---------------------------------------------------------------------------
  // calcularIdade
  // ---------------------------------------------------------------------------

  /** A calendar date as the source reads it: `getFullYear`, `getMonth`, `getDate`. */
  datatype Data = Data(ano: int, mes: int, dia: int)

  /** `a` is on or before `b`. */
  predicate NaoDepois(a: Data, b: Data)
  {
    a.ano < b.ano || (a.ano == b.ano && (a.mes < b.mes || (a.mes == b.mes && a.dia <= b.dia)))
  }

  /** The date `anos` years after `nascimento`. */
  function Aniversario(nascimento: Data, anos: int): Data
  {
    Data(nascimento.ano + anos, nascimento.mes, nascimento.dia)
  }

  /** `calcularIdade`, with today's date passed in: the completed years, i.e. the
      birthday of that many years has come and the next one has not. */
  method CalcularIdade(hoje: Data, nascimento: Data) returns (idade: int)
    ensures NaoDepois(Aniversario(nascimento, idade), hoje)
    ensures !NaoDepois(Aniversario(nascimento, idade + 1), hoje)
    ensures hoje.mes == nascimento.mes && hoje.dia == nascimento.dia ==> idade == hoje.ano - nascimento.ano
  {
    idade := hoje.ano - nascimento.ano;
    var mes := hoje.mes - nascimento.mes;
    if mes < 0 || (mes == 0 && hoje.dia < nascimento.dia) {
      idade := idade - 1;
    }
  }

  /** Only one number of years fits that description. */
  lemma {:induction false} IdadeUnica(hoje: Data, nascimento: Data, k1: int, k2: int)
    requires NaoDepois(Aniversario(nascimento, k1), hoje) && !NaoDepois(Aniversario(nascimento, k1 + 1), hoje)
    requires NaoDepois(Aniversario(nascimento, k2), hoje) && !NaoDepois(Aniversario(nascimento, k2 + 1), hoje)
    ensures k1 == k2
  {
  }
}
