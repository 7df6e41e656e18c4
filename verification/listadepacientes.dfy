/** The patient list page: the search filter over the loaded list, the count
    label, what the page shows, and the page state changed by loading and by
    the confirm-gated delete. */
module ListaDePacientes {
  import opened Sequencias
  import opened Texto
  import opened Tipos
  import opened PacienteServico

  // ---------------------------------------------------------------------------
  // pacientesFiltrados
  // ---------------------------------------------------------------------------

  /** `s.toLowerCase().includes(termo.toLowerCase())` */
  predicate ContemIgnorandoCaixa(s: string, termo: string)
  {
    Contem(Minusculas(s), Minusculas(termo))
  }

  /** The search predicate: the term occurs in the name, the city or the neighbourhood. */
  predicate Corresponde(termo: string, p: ItemLista)
  {
    ContemIgnorandoCaixa(p.nome, termo) || ContemIgnorandoCaixa(p.cidade, termo) || ContemIgnorandoCaixa(p.bairro, termo)
  }

  /** `pacientes.filter(...)` */
  function Filtrar(pacientes: seq<ItemLista>, termo: string): (r: seq<ItemLista>)
    ensures |r| <= |pacientes| && forall k :: 0 <= k < |r| ==> Corresponde(termo, r[k])
  {
    Filtro(p => Corresponde(termo, p), pacientes)
  }

  /** The filtered list keeps the order of the loaded one. */
  lemma FiltrarSubsequencia(pacientes: seq<ItemLista>, termo: string)
    ensures Subsequencia(Filtrar(pacientes, termo), pacientes)
    ensures |Filtrar(pacientes, termo)| <= |pacientes|
  {
    FiltroSubsequencia(p => Corresponde(termo, p), pacientes);
  }

  /** Every occurrence of a matching item is kept, and nothing else. */
  lemma FiltrarMantemSse(pacientes: seq<ItemLista>, termo: string, p: ItemLista)
    ensures multiset(Filtrar(pacientes, termo))[p] == if Corresponde(termo, p) then multiset(pacientes)[p] else 0
    ensures p in Filtrar(pacientes, termo) <==> p in pacientes && Corresponde(termo, p)
  {
    FiltroMultiset(p => Corresponde(termo, p), pacientes);
    assert p in Filtrar(pacientes, termo) <==> multiset(Filtrar(pacientes, termo))[p] > 0;
  }

  /** The empty term occurs in every string, so it keeps the whole list. */
  lemma FiltrarTermoVazio(pacientes: seq<ItemLista>)
    ensures Filtrar(pacientes, "") == pacientes
  {
    forall k | 0 <= k < |pacientes| ensures Corresponde("", pacientes[k]) {
      ContemVazio(Minusculas(pacientes[k].nome));
    }
    FiltroTodos(p => Corresponde("", p), pacientes);
  }

  /** Two terms that lower-case alike select the same items; in particular the case of the
      term does not matter. */
  lemma FiltrarIgnoraCaixa(pacientes: seq<ItemLista>, t1: string, t2: string)
    requires Minusculas(t1) == Minusculas(t2)
    ensures Filtrar(pacientes, t1) == Filtrar(pacientes, t2)
  {
    FiltroExtensional(p => Corresponde(t1, p), p => Corresponde(t2, p), pacientes);
  }

  lemma FiltrarMinusculas(pacientes: seq<ItemLista>, termo: string)
    ensures Filtrar(pacientes, Minusculas(termo)) == Filtrar(pacientes, termo)
  {
    MinusculasIdempotente(termo);
    FiltrarIgnoraCaixa(pacientes, Minusculas(termo), termo);
  }

  // ---------------------------------------------------------------------------
  // The count label
  // ---------------------------------------------------------------------------

  function Algarismo(d: nat): char
    requires d < 10
  {
    ('0' as int + d) as char
  }

  /** A count as JavaScript renders it inside text: decimal, no leading zeros. */
  function Decimal(n: nat): (r: string)
    ensures r != [] && SoDigitos(r)
    ensures r[0] != '0' || n == 0
  {
    if n < 10 then [Algarismo(n)] else Decimal(n / 10) + [Algarismo(n % 10)]
  }

  /** The number a string of decimal digits denotes. */
  function ValorDecimal(s: string): nat
    requires SoDigitos(s)
  {
    if s == [] then 0 else 10 * ValorDecimal(s[..|s| - 1]) + (s[|s| - 1] as int - '0' as int)
  }

  /** The rendered count reads back as the count. */
  lemma {:induction false} DecimalIda(n: nat)
    ensures ValorDecimal(Decimal(n)) == n
  {
    if n >= 10 {
      DecimalIda(n / 10);
      var s := Decimal(n);
      assert s[..|s| - 1] == Decimal(n / 10);
    }
  }

  /** `s` when the count is not one, nothing otherwise. */
  function Plural(n: nat): string
  {
    if n != 1 then "s" else ""
  }

  /** `{n} paciente{s} cadastrado{s}` */
  function RotuloContagem(n: nat): (r: string)
    ensures Decimal(n) <= r
  {
    Decimal(n) + " paciente" + Plural(n) + " cadastrado" + Plural(n)
  }

  /** The label ends in `s`, and has two letters more than the singular one, exactly when
      the count is not one. */
  lemma RotuloPluralSse(n: nat)
    ensures RotuloContagem(n)[|RotuloContagem(n)| - 1] == 's' <==> n != 1
    ensures |RotuloContagem(n)| == |Decimal(n)| + 20 + (if n != 1 then 2 else 0)
  {
  }

  lemma RotuloSingular()
    ensures RotuloContagem(1) == "1 paciente cadastrado"
  {
  }

  lemma RotuloNenhum()
    ensures RotuloContagem(0) == "0 pacientes cadastrados"
  {
  }

  // ---------------------------------------------------------------------------
  // What the page shows
  // ---------------------------------------------------------------------------

  const TituloEncontrado := "Nenhum paciente encontrado"
  const TituloCadastrado := "Nenhum paciente cadastrado"
  const DicaEncontrado := "Tente pesquisar com outros termos"
  const DicaCadastrado := "Comece cadastrando seu primeiro paciente"

  /** The page body: the spinner, the empty-state card (heading, hint and whether the
      "first patient" link is offered) or the cards of the filtered list. */
  datatype Tela =
    | Carregando
    | Vazia(titulo: string, dica: string, oferecerCadastro: bool)
    | Cartoes(itens: seq<ItemLista>)

  function Renderizar(pacientes: seq<ItemLista>, loading: bool, termo: string): (r: Tela)
    ensures r.Carregando? <==> loading
    ensures r.Vazia? ==> (r.oferecerCadastro <==> termo == "")
    ensures r.Cartoes? ==> r.itens != [] && r.itens == Filtrar(pacientes, termo)
    ensures !loading ==> (r.Vazia? <==> Filtrar(pacientes, termo) == [])
  {
    if loading then Carregando
    else
      var filtrados := Filtrar(pacientes, termo);
      if |filtrados| == 0 then
        if termo != "" then Vazia(TituloEncontrado, DicaEncontrado, false)
        else Vazia(TituloCadastrado, DicaCadastrado, true)
      else Cartoes(filtrados)
  }

  /** With a search term, an empty result reads "encontrado" and offers no link. */
  lemma VaziaComTermo(pacientes: seq<ItemLista>, termo: string)
    requires termo != "" && Filtrar(pacientes, termo) == []
    ensures Renderizar(pacientes, false, termo) == Vazia(TituloEncontrado, DicaEncontrado, false)
  {
  }

  /** Once loaded, a loaded patient that matches the term puts the cards on screen, and
      that patient's card is among them: with or without a term, a match is never hidden
      behind the empty state. */
  lemma CorrespondenciaMostraCartoes(pacientes: seq<ItemLista>, termo: string, p: ItemLista)
    requires p in pacientes && Corresponde(termo, p)
    ensures Renderizar(pacientes, false, termo) == Cartoes(Filtrar(pacientes, termo))
    ensures p in Renderizar(pacientes, false, termo).itens
  {
    FiltrarMantemSse(pacientes, termo, p);
  }

  /** Without a search term the page says "cadastrado" exactly when nothing is loaded,
      and otherwise shows every loaded patient. */
  lemma SemTermo(pacientes: seq<ItemLista>)
    ensures Renderizar(pacientes, false, "").Vazia? <==> pacientes == []
    ensures pacientes == [] ==> Renderizar(pacientes, false, "") == Vazia(TituloCadastrado, DicaCadastrado, true)
    ensures pacientes != [] ==> Renderizar(pacientes, false, "") == Cartoes(pacientes)
  {
    FiltrarTermoVazio(pacientes);
  }

  /** The cards shown are the whole filtered list: loaded patients that match, in loaded
      order, and never none; with `FiltrarMantemSse`, every matching patient gets a card. */
  lemma CartoesCorrespondem(pacientes: seq<ItemLista>, termo: string)
    requires Renderizar(pacientes, false, termo).Cartoes?
    ensures var itens := Renderizar(pacientes, false, termo).itens;
      && itens == Filtrar(pacientes, termo)
      && itens != []
      && Subsequencia(itens, pacientes)
      && forall k :: 0 <= k < |itens| ==> Corresponde(termo, itens[k])
  {
    FiltrarSubsequencia(pacientes, termo);
  }

  // ---------------------------------------------------------------------------
  // Page state
  // ---------------------------------------------------------------------------

  const AlertaErroCarregar := "Erro ao carregar pacientes"
  const AlertaExcluido := "Paciente excluído com sucesso"
  const AlertaErroExcluir := "Erro ao excluir paciente"

  /** The question `excluirPaciente` asks before deleting. */
  function PerguntaExclusao(nome: string): string
  {
    "Deseja realmente excluir o paciente " + nome + "?"
  }

  /** `PacientesPage`: the state its setters replace. Service outcomes and the answer
      to the confirmation are parameters; what the handlers do besides changing the
      state is returned as a list of effects. */
  class PaginaPacientes {
    var pacientes: seq<ItemLista>
    var loading: bool
    var searchTerm: string

    /** The initial state, before the mount effect loads the list. */
    constructor()
      ensures pacientes == [] && loading && searchTerm == ""
    {
      pacientes := [];
      loading := true;
      searchTerm := "";
    }

    /** What the page renders in its current state. */
    function Tela(): Tela
      reads this
    {
      Renderizar(pacientes, loading, searchTerm)
    }

    /** The count line above the cards: it counts every loaded patient, whatever the
        search term, and is plural unless exactly one is loaded. */
    function Rotulo(): (r: string)
      reads this
      ensures Decimal(|pacientes|) <= r
      ensures r[|r| - 1] == 's' <==> |pacientes| != 1
    {
      RotuloPluralSse(|pacientes|);
      RotuloContagem(|pacientes|)
    }

    /** The search box's `onChange`. */
    method Pesquisar(termo: string)
      modifies this
      ensures searchTerm == termo && pacientes == old(pacientes) && loading == old(loading)
    {
      searchTerm := termo;
    }

    /** `carregarPacientes()`: `resposta` is what `listarPacientes` returned. On success
        the list is replaced; on failure it is kept and an alert is shown. Either way
        loading ends. */
    method CarregarPacientes(resposta: Resultado<seq<ItemLista>>) returns (efeitos: seq<Efeito>)
      modifies this
      ensures !loading && searchTerm == old(searchTerm)
      ensures resposta.Ok? ==> pacientes == resposta.valor && efeitos == [ChamarListar]
      ensures resposta.Falha? ==> pacientes == old(pacientes) && efeitos == [ChamarListar, Alertar(AlertaErroCarregar)]
    {
      loading := true;
      efeitos := [ChamarListar];
      if resposta.Ok? {
        pacientes := resposta.valor;
      } else {
        efeitos := efeitos + [Alertar(AlertaErroCarregar)];
      }
      loading := false;
    }

    /** `excluirPaciente(id, nome)`: `confirmado` is the answer to the question,
        `exclusao` the outcome of the delete call and `recarga` that of the reload
        that follows a successful delete. */
    method ExcluirPaciente(id: string, nome: string, confirmado: bool, exclusao: Resultado<()>, recarga: Resultado<seq<ItemLista>>)
      returns (efeitos: seq<Efeito>)
      modifies this
      ensures |efeitos| >= 1 && efeitos[0] == Confirmar(PerguntaExclusao(nome))
      ensures !confirmado ==> efeitos == [Confirmar(PerguntaExclusao(nome))] && unchanged(this)
      ensures confirmado && exclusao.Falha? ==>
        efeitos == [Confirmar(PerguntaExclusao(nome)), ChamarExcluir(id), Alertar(AlertaErroExcluir)] && unchanged(this)
      ensures confirmado && exclusao.Ok? ==>
        && efeitos == [Confirmar(PerguntaExclusao(nome)), ChamarExcluir(id), Alertar(AlertaExcluido), ChamarListar]
                      + (if recarga.Falha? then [Alertar(AlertaErroCarregar)] else [])
        && !loading && searchTerm == old(searchTerm)
        && pacientes == (if recarga.Ok? then recarga.valor else old(pacientes))
    {
      efeitos := [Confirmar(PerguntaExclusao(nome))];
      if !confirmado {
        return;
      }
      efeitos := efeitos + [ChamarExcluir(id)];
      if exclusao.Falha? {
        efeitos := efeitos + [Alertar(AlertaErroExcluir)];
        return;
      }
      efeitos := efeitos + [Alertar(AlertaExcluido)];
      var recarregar := CarregarPacientes(recarga);
      efeitos := efeitos + recarregar;
    }
  }
}
