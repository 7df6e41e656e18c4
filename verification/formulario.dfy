/** The patient form: its initial state, the edit-mode load, the phone and
    e-mail rows the user adds, removes and edits, and the submit handler that
    validates, strips blank rows and calls the data-access service. */
module Formulario {
  import opened Sequencias
  import opened Texto
  import opened Tipos
  import opened Validacoes

  datatype Modo = Criar | Editar

  /** The options of the blood-type select. */
  const TiposSanguineos: seq<string> := ["A+", "A-", "B+", "B-", "AB+", "AB-", "O+", "O-"]

  /** What the form holds before anything is typed. */
  const FormularioInicial: PacienteFormData :=
    PacienteFormData("", "", 0.0, 0.0, "O+", Endereco("", "", "", "", ""), [""], [""])

  /** The initial blood type is one of the offered options. */
  lemma InicialTipoOferecido()
    ensures FormularioInicial.tipoSanguineo in TiposSanguineos
  {
    assert TiposSanguineos[6] == "O+";
  }

  /** The untouched form fails every check. */
  lemma InicialViolaTudo(r: Regra)
    ensures Viola(FormularioInicial, r)
  {
    match r
    case Telefones | Emails =>
      assert NaoVazios([""]) == [] by { ApararDaVazia(); }
    case _ =>
  }

  /** Submitting the untouched form lists all nine messages, in check order. */
  lemma InicialFalhaTudo()
    ensures Erros(FormularioInicial) == Mapear(Mensagem, Regras)
  {
    forall k | 0 <= k < |Regras| ensures Viola(FormularioInicial, Regras[k]) {
      InicialViolaTudo(Regras[k]);
    }
    FiltroTodos(r => Viola(FormularioInicial, r), Regras);
    ErrosComoFalhas(FormularioInicial);
  }

  // ---------------------------------------------------------------------------
  // Edit-mode load
  // ---------------------------------------------------------------------------

  /** `xs.length > 0 ? xs : ['']` */
  function ComLinha(xs: seq<string>): seq<string>
  {
    if |xs| > 0 then xs else [""]
  }

  /** The form data the edit-mode effect copies out of the record. */
  function Carregado(p: PacienteFormData): PacienteFormData
  {
    PacienteFormData(
      p.nome, p.dataNascimento, p.peso, p.altura, p.tipoSanguineo, p.endereco,
      ComLinha(p.telefones), ComLinha(p.emails))
  }

  /** A loaded list always has a row; a non-empty one is kept as it is, and the row
      added to an empty one is blank, so the non-blank entries are the same. */
  lemma ComLinhaMesmosPreenchidos(xs: seq<string>)
    ensures |ComLinha(xs)| >= 1
    ensures xs != [] ==> ComLinha(xs) == xs
    ensures NaoVazios(ComLinha(xs)) == NaoVazios(xs)
  {
    if xs == [] {
      ApararDaVazia();
      assert ComLinha(xs) == [""];
      assert NaoVazios([""]) == [];
    }
  }

  /** Loading a record leaves every field but the two lists as stored, and does not
      change what validation says about it. */
  lemma CarregadoPreservaValidacao(p: PacienteFormData)
    ensures Carregado(p).(telefones := p.telefones, emails := p.emails) == p
    ensures Erros(Carregado(p)) == Erros(p)
  {
    ComLinhaMesmosPreenchidos(p.telefones);
    ComLinhaMesmosPreenchidos(p.emails);
    ErrosDependemDe(Carregado(p), p);
  }

  // ---------------------------------------------------------------------------
  // Phone and e-mail rows
  // ---------------------------------------------------------------------------

  datatype Contato = Telefone | Email

  function Linhas(d: PacienteFormData, c: Contato): seq<string>
  {
    match c
    case Telefone => d.telefones
    case Email => d.emails
  }

  function ComLinhas(d: PacienteFormData, c: Contato, xs: seq<string>): PacienteFormData
  {
    match c
    case Telefone => d.(telefones := xs)
    case Email => d.(emails := xs)
  }

  /** `xs.filter((_, i) => i !== indice)`: every element whose position differs from `indice`. */
  function SemIndice<T>(xs: seq<T>, indice: int): seq<T>
  {
    if xs == [] then []
    else SemIndice(xs[..|xs| - 1], indice) + (if |xs| - 1 != indice then [xs[|xs| - 1]] else [])
  }

  /** Removing a position drops exactly that element and keeps the others in order; an
      index outside the list removes nothing. */
  lemma {:induction false} SemIndiceCorreto<T>(xs: seq<T>, indice: int)
    ensures 0 <= indice < |xs| ==> SemIndice(xs, indice) == xs[..indice] + xs[indice + 1..]
    ensures !(0 <= indice < |xs|) ==> SemIndice(xs, indice) == xs
  {
    if xs != [] {
      var ys := xs[..|xs| - 1];
      SemIndiceCorreto(ys, indice);
      if 0 <= indice < |ys| {
        assert xs[..indice] + xs[indice + 1..] == ys[..indice] + ys[indice + 1..] + [xs[|xs| - 1]];
      } else if indice != |ys| {
        assert xs == ys + [xs[|xs| - 1]];
      }
    }
  }

  /** A user action on the rows. */
  datatype Acao =
    | Adicionar(contato: Contato)
    | Remover(contato: Contato, indice: int)
    | Alterar(contato: Contato, indice: int, valor: string)

  /** The control for the action is on screen: every row has an input, and the remove
      button is rendered only while its list has more than one row. */
  predicate Disponivel(d: PacienteFormData, a: Acao)
  {
    match a
    case Adicionar(_) => true
    case Remover(c, i) => |Linhas(d, c)| > 1 && 0 <= i < |Linhas(d, c)|
    case Alterar(c, i, _) => 0 <= i < |Linhas(d, c)|
  }

  /** The form data after the action's handler runs. */
  function Aplicar(d: PacienteFormData, a: Acao): PacienteFormData
    requires a.Alterar? ==> 0 <= a.indice < |Linhas(d, a.contato)|
  {
    match a
    case Adicionar(c) => ComLinhas(d, c, Linhas(d, c) + [""])
    case Remover(c, i) => ComLinhas(d, c, SemIndice(Linhas(d, c), i))
    case Alterar(c, i, v) => ComLinhas(d, c, Linhas(d, c)[i := v])
  }

  /** An action changes only its own list: the other list and every other field stay. */
  lemma AplicarSoNaPropriaLista(d: PacienteFormData, a: Acao, outro: Contato)
    requires a.Alterar? ==> 0 <= a.indice < |Linhas(d, a.contato)|
    requires outro != a.contato
    ensures Linhas(Aplicar(d, a), outro) == Linhas(d, outro)
    ensures Aplicar(d, a).(telefones := d.telefones, emails := d.emails) == d
  {
  }

  /** Adding appends one blank row and leaves the existing rows as they were. */
  lemma AdicionarAcrescenta(d: PacienteFormData, c: Contato)
    ensures var xs, ys := Linhas(d, c), Linhas(Aplicar(d, Adicionar(c)), c);
      |ys| == |xs| + 1 && ys[..|xs|] == xs && ys[|xs|] == ""
  {
  }

  /** Removing row `i` deletes exactly that row and keeps the order of the rest. */
  lemma RemoverApaga(d: PacienteFormData, c: Contato, i: int)
    requires 0 <= i < |Linhas(d, c)|
    ensures var xs, ys := Linhas(d, c), Linhas(Aplicar(d, Remover(c, i)), c);
      |ys| == |xs| - 1
      && (forall k :: 0 <= k < i ==> ys[k] == xs[k])
      && (forall k :: i <= k < |ys| ==> ys[k] == xs[k + 1])
  {
    SemIndiceCorreto(Linhas(d, c), i);
  }

  /** Editing row `i` replaces only that entry. */
  lemma AlterarSubstitui(d: PacienteFormData, c: Contato, i: int, v: string)
    requires 0 <= i < |Linhas(d, c)|
    ensures var xs, ys := Linhas(d, c), Linhas(Aplicar(d, Alterar(c, i, v)), c);
      |ys| == |xs| && ys[i] == v && forall k :: 0 <= k < |xs| && k != i ==> ys[k] == xs[k]
  {
  }

  /** Both lists have at least one row. */
  predicate TemLinhas(d: PacienteFormData)
  {
    |d.telefones| >= 1 && |d.emails| >= 1
  }

  lemma {:induction false} AcaoMantemLinhas(d: PacienteFormData, a: Acao)
    requires TemLinhas(d) && Disponivel(d, a)
    ensures TemLinhas(Aplicar(d, a))
  {
    match a
    case Adicionar(c) =>
    case Remover(c, i) =>
      SemIndiceCorreto(Linhas(d, c), i);
    case Alterar(c, i, v) =>
  }

  /** Each action is available when it is performed. */
  predicate Executavel(d: PacienteFormData, acoes: seq<Acao>)
    decreases |acoes|
  {
    acoes == [] || (Disponivel(d, acoes[0]) && Executavel(Aplicar(d, acoes[0]), acoes[1..]))
  }

  function AplicarTodas(d: PacienteFormData, acoes: seq<Acao>): PacienteFormData
    requires Executavel(d, acoes)
    decreases |acoes|
  {
    if acoes == [] then d else AplicarTodas(Aplicar(d, acoes[0]), acoes[1..])
  }

  /** Whatever the user clicks, neither list ever runs out of rows. */
  lemma {:induction false} AcoesMantemLinhas(d: PacienteFormData, acoes: seq<Acao>)
    requires TemLinhas(d) && Executavel(d, acoes)
    ensures TemLinhas(AplicarTodas(d, acoes))
    decreases |acoes|
  {
    if acoes != [] {
      AcaoMantemLinhas(d, acoes[0]);
      AcoesMantemLinhas(Aplicar(d, acoes[0]), acoes[1..]);
    }
  }

  /** The form starts with rows, and a loaded record has rows too. */
  lemma LinhasDesdeOInicio(p: PacienteFormData)
    ensures TemLinhas(FormularioInicial) && TemLinhas(Carregado(p))
  {
    ComLinhaMesmosPreenchidos(p.telefones);
    ComLinhaMesmosPreenchidos(p.emails);
  }

  /** `const novas = [...xs]; novas[indice] = valor;` */
  method Substituir(xs: seq<string>, indice: nat, valor: string) returns (novas: seq<string>)
    requires indice < |xs|
    ensures |novas| == |xs| && novas[indice] == valor
    ensures forall k :: 0 <= k < |xs| && k != indice ==> novas[k] == xs[k]
  {
    var copia := new string[|xs|](k requires 0 <= k < |xs| => xs[k]);
    copia[indice] := valor;
    novas := copia[..];
  }

  // ---------------------------------------------------------------------------
  // Submit
  // ---------------------------------------------------------------------------

  /** `dadosLimpos`: the form data with blank phones and e-mails dropped. */
  function Limpar(d: PacienteFormData): PacienteFormData
  {
    d.(telefones := NaoVazios(d.telefones), emails := NaoVazios(d.emails))
  }

  /** Cleaning keeps every non-blank entry, in order, drops every blank one, and changes
      no other field. */
  lemma LimparMantem(d: PacienteFormData)
    ensures Limpar(d).(telefones := d.telefones, emails := d.emails) == d
    ensures Subsequencia(Limpar(d).telefones, d.telefones) && Subsequencia(Limpar(d).emails, d.emails)
    ensures forall x :: multiset(Limpar(d).telefones)[x] == if Preenchido(x) then multiset(d.telefones)[x] else 0
    ensures forall x :: multiset(Limpar(d).emails)[x] == if Preenchido(x) then multiset(d.emails)[x] else 0
  {
    FiltroSubsequencia(Preenchido, d.telefones);
    FiltroSubsequencia(Preenchido, d.emails);
    FiltroMultiset(Preenchido, d.telefones);
    FiltroMultiset(Preenchido, d.emails);
  }

  /** Cleaning twice is cleaning once, and validation says the same of the cleaned data. */
  lemma LimparEstavel(d: PacienteFormData)
    ensures Limpar(Limpar(d)) == Limpar(d)
    ensures Erros(Limpar(d)) == Erros(d)
  {
    FiltroTodos(Preenchido, NaoVazios(d.telefones));
    FiltroTodos(Preenchido, NaoVazios(d.emails));
    ErrosDependemDe(Limpar(d), d);
  }

  /** What passed validation still has a phone and an e-mail after cleaning, and only
      non-blank ones. */
  lemma LimparAceito(d: PacienteFormData)
    requires Erros(d) == []
    ensures Limpar(d).telefones != [] && Limpar(d).emails != []
    ensures forall k :: 0 <= k < |Limpar(d).telefones| ==> Preenchido(Limpar(d).telefones[k])
    ensures forall k :: 0 <= k < |Limpar(d).emails| ==> Preenchido(Limpar(d).emails[k])
  {
    MensagemPresenteSse(d, Telefones);
    MensagemPresenteSse(d, Emails);
  }

  const AlertaCadastrado := "Paciente cadastrado com sucesso!"
  const AlertaAtualizado := "Paciente atualizado com sucesso!"
  const AlertaErroCadastrar := "Erro ao cadastrar paciente"
  const AlertaErroAtualizar := "Erro ao atualizar paciente"
  const RotaLista := "/pacientes"

  /** What the save step does once validation has passed. In create mode, and in edit
      mode with a record id, the service is called first with the cleaned data; a call
      that succeeds is followed by the mode's success alert and the navigation back to
      the list, and one that throws by the mode's error alert alone, so the form stays.
      Edit mode without a record id goes back to the list without calling the service. */
  function EfeitosSalvar(modo: Modo, paciente: Option<Paciente>, limpos: PacienteFormData, falhou: bool): (efeitos: seq<Efeito>)
    ensures var chama := modo == Criar || (paciente.Some? && paciente.value.id != "");
      && (chama ==> |efeitos| >= 2 && (efeitos[0].ChamarCriar? || efeitos[0].ChamarAtualizar?) && efeitos[0].dados == limpos)
      && (chama && !falhou ==>
            efeitos[1..] == [Alertar(if modo == Criar then AlertaCadastrado else AlertaAtualizado), Navegar(RotaLista)])
      && (chama && falhou ==>
            efeitos[1..] == [Alertar(if modo == Criar then AlertaErroCadastrar else AlertaErroAtualizar)])
      && (!chama ==> efeitos == [Navegar(RotaLista)])
    ensures efeitos[0].ChamarCriar? <==> modo == Criar
    ensures efeitos[0].ChamarAtualizar? ==> paciente.Some? && efeitos[0].id == paciente.value.id
    ensures forall k :: 1 <= k < |efeitos| ==> !efeitos[k].ChamarCriar? && !efeitos[k].ChamarAtualizar?
  {
    if modo == Criar then
      [ChamarCriar(limpos)] + (if falhou then [Alertar(AlertaErroCadastrar)] else [Alertar(AlertaCadastrado), Navegar(RotaLista)])
    else if paciente.Some? && paciente.value.id != "" then
      [ChamarAtualizar(paciente.value.id, limpos)] + (if falhou then [Alertar(AlertaErroAtualizar)] else [Alertar(AlertaAtualizado), Navegar(RotaLista)])
    else
      [Navegar(RotaLista)]
  }

  /** `PacienteForm`: the props it was given and the state its setters replace. */
  class PacienteForm {
    const modo: Modo
    const paciente: Option<Paciente>
    var formData: PacienteFormData
    var errors: seq<string>
    var loading: bool

    constructor(paciente: Option<Paciente>, modo: Modo)
      ensures this.paciente == paciente && this.modo == modo
      ensures formData == FormularioInicial && errors == [] && !loading
    {
      this.paciente := paciente;
      this.modo := modo;
      formData := FormularioInicial;
      errors := [];
      loading := false;
    }

    /** The edit-mode effect: copies the record into the form when there is one and the
        form is in edit mode. */
    method CarregarEdicao()
      modifies this
      ensures paciente.Some? && modo == Editar ==> formData == Carregado(paciente.value.dados)
      ensures !(paciente.Some? && modo == Editar) ==> formData == old(formData)
      ensures errors == old(errors) && loading == old(loading)
    {
      if paciente.Some? && modo == Editar {
        var p := paciente.value.dados;
        formData := PacienteFormData(
          p.nome, p.dataNascimento, p.peso, p.altura, p.tipoSanguineo, p.endereco,
          if |p.telefones| > 0 then p.telefones else [""],
          if |p.emails| > 0 then p.emails else [""]);
      }
    }

    method AddTelefone()
      modifies this
      ensures formData == Aplicar(old(formData), Adicionar(Telefone))
      ensures errors == old(errors) && loading == old(loading)
    {
      formData := formData.(telefones := formData.telefones + [""]);
    }

    method RemoveTelefone(indice: int)
      modifies this
      ensures formData == Aplicar(old(formData), Remover(Telefone, indice))
      ensures errors == old(errors) && loading == old(loading)
    {
      formData := formData.(telefones := SemIndice(formData.telefones, indice));
    }

    method AddEmail()
      modifies this
      ensures formData == Aplicar(old(formData), Adicionar(Email))
      ensures errors == old(errors) && loading == old(loading)
    {
      formData := formData.(emails := formData.emails + [""]);
    }

    method RemoveEmail(indice: int)
      modifies this
      ensures formData == Aplicar(old(formData), Remover(Email, indice))
      ensures errors == old(errors) && loading == old(loading)
    {
      formData := formData.(emails := SemIndice(formData.emails, indice));
    }

    /** The `onChange` of phone row `indice`. */
    method EditarTelefone(indice: nat, valor: string)
      requires indice < |formData.telefones|
      modifies this
      ensures formData == Aplicar(old(formData), Alterar(Telefone, indice, valor))
      ensures errors == old(errors) && loading == old(loading)
    {
      var novos := Substituir(formData.telefones, indice, valor);
      formData := formData.(telefones := novos);
    }

    /** The `onChange` of e-mail row `indice`. */
    method EditarEmail(indice: nat, valor: string)
      requires indice < |formData.emails|
      modifies this
      ensures formData == Aplicar(old(formData), Alterar(Email, indice, valor))
      ensures errors == old(errors) && loading == old(loading)
    {
      var novos := Substituir(formData.emails, indice, valor);
      formData := formData.(emails := novos);
    }

    /** `handleSubmit`: `falhou` says whether the service call throws. With validation
        errors they are stored and nothing else happens; otherwise the errors are cleared,
        the cleaned data is saved, and loading ends whatever the outcome. */
    method HandleSubmit(falhou: bool) returns (efeitos: seq<Efeito>)
      modifies this
      ensures formData == old(formData)
      ensures Erros(formData) != [] ==> errors == Erros(formData) && loading == old(loading) && efeitos == []
      ensures Erros(formData) == [] ==>
        && errors == [] && !loading
        && efeitos == EfeitosSalvar(modo, paciente, Limpar(formData), falhou)
    {
      var validationErrors := ValidarPaciente(formData);
      if |validationErrors| > 0 {
        errors := validationErrors;
        return [];
      }
      loading := true;
      errors := [];
      var dadosLimpos := formData.(telefones := NaoVazios(formData.telefones), emails := NaoVazios(formData.emails));
      efeitos := [];
      var chamou := false;
      if modo == Criar {
        efeitos := [ChamarCriar(dadosLimpos)];
        chamou := true;
      } else if paciente.Some? && paciente.value.id != "" {
        efeitos := [ChamarAtualizar(paciente.value.id, dadosLimpos)];
        chamou := true;
      }
      if chamou && falhou {
        efeitos := efeitos + [Alertar(if modo == Criar then AlertaErroCadastrar else AlertaErroAtualizar)];
      } else {
        if chamou {
          efeitos := efeitos + [Alertar(if modo == Criar then AlertaCadastrado else AlertaAtualizado)];
        }
        efeitos := efeitos + [Navegar(RotaLista)];
      }
      loading := false;
    }
  }

  /** What a submit sends to the service passes validation and has a phone and an e-mail. */
  lemma SalvoEhValido(modo: Modo, paciente: Option<Paciente>, d: PacienteFormData, falhou: bool, e: Efeito)
    requires Erros(d) == []
    requires e in EfeitosSalvar(modo, paciente, Limpar(d), falhou) && (e.ChamarCriar? || e.ChamarAtualizar?)
    ensures Erros(e.dados) == [] && e.dados.telefones != [] && e.dados.emails != []
  {
    var efeitos := EfeitosSalvar(modo, paciente, Limpar(d), falhou);
    var k :| 0 <= k < |efeitos| && efeitos[k] == e;
    assert k == 0;
    LimparEstavel(d);
    LimparAceito(d);
  }
}
