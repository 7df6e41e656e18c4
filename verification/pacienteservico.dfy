/** src/lib/paciente-service.ts: the data-access service over the `paciente`
    collection. The store is a map from document id to document; whether a store
    call throws, the id `addDoc` picks and the instants `Timestamp.now()` returns
    are parameters. */
module PacienteServico {
  import opened Sequencias
  import opened Texto
  import opened Tipos

  /** The operations of the service, each with the one message its failures are rethrown as. */
  datatype Operacao = Listar | Buscar | Criar | Atualizar | Excluir | BuscarPorCidade

  function MensagemErro(op: Operacao): string
  {
    match op
    case Listar => "Erro ao carregar pacientes"
    case Buscar => "Erro ao carregar paciente"
    case Criar => "Erro ao criar paciente"
    case Atualizar => "Erro ao atualizar paciente"
    case Excluir => "Erro ao excluir paciente"
    case BuscarPorCidade => "Erro ao buscar pacientes"
  }

  /** Each operation's failures are told apart by their message. */
  lemma MensagensErroDistintas(a: Operacao, b: Operacao)
    ensures MensagemErro(a) == MensagemErro(b) ==> a == b
  {
  }

  /** A resolved promise with its value, or a rejected one with the message of its `Error`. */
  datatype Resultado<T> = Ok(valor: T) | Falha(mensagem: string)

  /** The `paciente` collection: documents by id. */
  type Colecao = map<string, Documento>

  /** `doc.data()[campo]`, `Indefinido` when the document has no such field. */
  function Campo(doc: Documento, campo: string): Valor
  {
    if campo in doc then doc[campo] else Indefinido
  }

  // ---------------------------------------------------------------------------
  // Write payloads
  // ---------------------------------------------------------------------------

  const CamposFormulario: set<string> :=
    {"nome", "dataNascimento", "peso", "altura", "tipoSanguineo", "endereco", "telefones", "emails"}

  const CamposEndereco: set<string> := {"rua", "numero", "bairro", "cidade", "estado"}

  /** The fields the service adds are not form fields. */
  lemma CamposDoServico()
    ensures "id" !in CamposFormulario && "criadoEm" !in CamposFormulario && "atualizadoEm" !in CamposFormulario
  {
  }

  /** `{...dados}`: the form data as document fields. */
  function ParaDocumento(d: PacienteFormData): (doc: Documento)
    ensures doc.Keys == CamposFormulario
  {
    map[
      "nome" := Texto(d.nome),
      "dataNascimento" := Texto(d.dataNascimento),
      "peso" := Numero(d.peso),
      "altura" := Numero(d.altura),
      "tipoSanguineo" := Texto(d.tipoSanguineo),
      "endereco" := Objeto(map[
        "rua" := d.endereco.rua,
        "numero" := d.endereco.numero,
        "bairro" := d.endereco.bairro,
        "cidade" := d.endereco.cidade,
        "estado" := d.endereco.estado]),
      "telefones" := Lista(d.telefones),
      "emails" := Lista(d.emails)]
  }

  /** Reading form data back from a document: `None` when a field is missing or of another kind. */
  function LerFormulario(doc: Documento): Option<PacienteFormData>
  {
    if && Campo(doc, "nome").Texto? && Campo(doc, "dataNascimento").Texto?
       && Campo(doc, "peso").Numero? && Campo(doc, "altura").Numero?
       && Campo(doc, "tipoSanguineo").Texto? && Campo(doc, "endereco").Objeto?
       && CamposEndereco <= Campo(doc, "endereco").campos.Keys
       && Campo(doc, "telefones").Lista? && Campo(doc, "emails").Lista?
    then
      var e := Campo(doc, "endereco").campos;
      Some(PacienteFormData(
        doc["nome"].s, doc["dataNascimento"].s, doc["peso"].x, doc["altura"].x, doc["tipoSanguineo"].s,
        Endereco(e["rua"], e["numero"], e["bairro"], e["cidade"], e["estado"]),
        doc["telefones"].itens, doc["emails"].itens))
    else None
  }

  /** The form data survives being written: a document that holds the form fields,
      whatever else it holds, reads back as the form data. */
  lemma LerFormularioGravado(d: PacienteFormData, doc: Documento)
    requires forall c :: c in CamposFormulario ==> c in doc && doc[c] == ParaDocumento(d)[c]
    ensures LerFormulario(doc) == Some(d)
  {
    ParaDocumentoValores(d);
  }

  lemma ParaDocumentoValores(d: PacienteFormData)
    ensures var doc := ParaDocumento(d);
      && doc["nome"] == Texto(d.nome) && doc["dataNascimento"] == Texto(d.dataNascimento)
      && doc["peso"] == Numero(d.peso) && doc["altura"] == Numero(d.altura)
      && doc["tipoSanguineo"] == Texto(d.tipoSanguineo)
      && doc["telefones"] == Lista(d.telefones) && doc["emails"] == Lista(d.emails)
      && doc["endereco"].Objeto? && doc["endereco"].campos.Keys == CamposEndereco
      && doc["endereco"].campos["rua"] == d.endereco.rua
      && doc["endereco"].campos["numero"] == d.endereco.numero
      && doc["endereco"].campos["bairro"] == d.endereco.bairro
      && doc["endereco"].campos["cidade"] == d.endereco.cidade
      && doc["endereco"].campos["estado"] == d.endereco.estado
  {
  }

  /** `criarPaciente`'s payload: the form data and two instants, from two separate `now()` calls. */
  function PayloadCriacao(d: PacienteFormData, criadoEm: int, atualizadoEm: int): (doc: Documento)
    ensures doc.Keys == CamposFormulario + {"criadoEm", "atualizadoEm"}
    ensures forall c :: c in CamposFormulario ==> doc[c] == ParaDocumento(d)[c]
    ensures doc["criadoEm"] == Instante(criadoEm) && doc["atualizadoEm"] == Instante(atualizadoEm)
  {
    CamposDoServico();
    ParaDocumento(d) + map["criadoEm" := Instante(criadoEm), "atualizadoEm" := Instante(atualizadoEm)]
  }

  /** `atualizarPaciente`'s payload: the form data and the new `atualizadoEm`; no `criadoEm`. */
  function PayloadAtualizacao(d: PacienteFormData, atualizadoEm: int): (doc: Documento)
    ensures doc.Keys == CamposFormulario + {"atualizadoEm"}
    ensures forall c :: c in CamposFormulario ==> doc[c] == ParaDocumento(d)[c]
    ensures doc["atualizadoEm"] == Instante(atualizadoEm)
  {
    CamposDoServico();
    ParaDocumento(d)["atualizadoEm" := Instante(atualizadoEm)]
  }

  /** `excluirPaciente`'s payload: only a new `atualizadoEm`. */
  function PayloadExclusao(atualizadoEm: int): (doc: Documento)
    ensures doc.Keys == {"atualizadoEm"}
  {
    map["atualizadoEm" := Instante(atualizadoEm)]
  }

  // ---------------------------------------------------------------------------
  // Store operations
  // ---------------------------------------------------------------------------

  /** `updateDoc`: the document must exist; the payload's fields replace or add to its fields. */
  function Atualizado(col: Colecao, id: string, payload: Documento): (r: Option<Colecao>)
  {
    if id in col then Some(col[id := col[id] + payload]) else None
  }

  /** `buscarPaciente(id)`: `{id: docSnap.id, ...docSnap.data()}` when the document exists, `null` when not. */
  function BuscarPaciente(col: Colecao, id: string, falhou: bool): Resultado<Option<Documento>>
  {
    if falhou then Falha(MensagemErro(Buscar))
    else if id in col then Ok(Some(map["id" := Texto(id)] + col[id]))
    else Ok(None)
  }

  /** `criarPaciente(dados)`: adds the payload under the id the store picks and returns that id. */
  function CriarPaciente(col: Colecao, d: PacienteFormData, novoId: string, t1: int, t2: int, falhou: bool): (Colecao, Resultado<string>)
    requires novoId !in col
  {
    if falhou then (col, Falha(MensagemErro(Criar)))
    else (col[novoId := PayloadCriacao(d, t1, t2)], Ok(novoId))
  }

  /** `atualizarPaciente(id, dados)` */
  function AtualizarPaciente(col: Colecao, id: string, d: PacienteFormData, t: int, falhou: bool): (Colecao, Resultado<()>)
  {
    var novo := Atualizado(col, id, PayloadAtualizacao(d, t));
    if falhou || novo.None? then (col, Falha(MensagemErro(Atualizar)))
    else (novo.value, Ok(()))
  }

  /** `excluirPaciente(id)`: only touches `atualizadoEm`; the document stays. */
  function ExcluirPaciente(col: Colecao, id: string, t: int, falhou: bool): (Colecao, Resultado<()>)
  {
    var novo := Atualizado(col, id, PayloadExclusao(t));
    if falhou || novo.None? then (col, Falha(MensagemErro(Excluir)))
    else (novo.value, Ok(()))
  }

  /** Fetching yields `null` exactly when there is no document; otherwise the stored fields
      plus `id`, where a stored `id` field wins over the document id. */
  lemma BuscarPacienteCorreto(col: Colecao, id: string)
    ensures BuscarPaciente(col, id, false).Ok?
    ensures BuscarPaciente(col, id, false).valor.None? <==> id !in col
    ensures id in col ==>
      var p := BuscarPaciente(col, id, false).valor.value;
      && p.Keys == col[id].Keys + {"id"}
      && (forall c :: c in col[id] ==> p[c] == col[id][c])
      && p["id"] == (if "id" in col[id] then col[id]["id"] else Texto(id))
  {
  }

  /** A successful create returns the new id, adds exactly that document and changes no other. */
  lemma CriarPacienteCorreto(col: Colecao, d: PacienteFormData, novoId: string, t1: int, t2: int)
    requires novoId !in col
    ensures
      var (col2, r) := CriarPaciente(col, d, novoId, t1, t2, false);
      && r == Ok(novoId)
      && col2.Keys == col.Keys + {novoId}
      && forall id :: id in col ==> col2[id] == col[id]
  {
  }

  /** A created patient is fetched back under the returned id with the form data. */
  lemma CriarEntaoBuscar(col: Colecao, d: PacienteFormData, novoId: string, t1: int, t2: int)
    requires novoId !in col
    ensures
      var b := BuscarPaciente(CriarPaciente(col, d, novoId, t1, t2, false).0, novoId, false);
      b.Ok? && b.valor.Some? && LerFormulario(b.valor.value) == Some(d)
  {
    var buscado := map["id" := Texto(novoId)] + PayloadCriacao(d, t1, t2);
    assert forall c :: c in CamposFormulario ==> c in buscado && buscado[c] == ParaDocumento(d)[c];
    LerFormularioGravado(d, buscado);
  }

  /** ... and with its own id and the two creation instants. */
  lemma CriarEntaoBuscarMetadados(col: Colecao, d: PacienteFormData, novoId: string, t1: int, t2: int)
    requires novoId !in col
    ensures
      var b := BuscarPaciente(CriarPaciente(col, d, novoId, t1, t2, false).0, novoId, false);
      && b.Ok? && b.valor.Some?
      && b.valor.value["id"] == Texto(novoId)
      && b.valor.value["criadoEm"] == Instante(t1)
      && b.valor.value["atualizadoEm"] == Instante(t2)
  {
    CamposDoServico();
  }

  /** A successful update replaces the form fields, sets `atualizadoEm`, keeps every other
      field (among them `criadoEm`) and no other document changes. An update of a missing
      document fails and changes nothing. */
  lemma AtualizarCorreto(col: Colecao, id: string, d: PacienteFormData, t: int)
    ensures
      var (col2, r) := AtualizarPaciente(col, id, d, t, false);
      && (r.Ok? <==> id in col)
      && (r.Falha? ==> r.mensagem == MensagemErro(Atualizar) && col2 == col)
      && col2.Keys == col.Keys
      && (forall o :: o in col && o != id ==> col2[o] == col[o])
      && (id in col ==>
            && col2[id].Keys == col[id].Keys + CamposFormulario + {"atualizadoEm"}
            && LerFormulario(col2[id]) == Some(d)
            && (forall c :: c in CamposFormulario ==> col2[id][c] == ParaDocumento(d)[c])
            && col2[id]["atualizadoEm"] == Instante(t)
            && forall c :: c in col[id] && c !in CamposFormulario && c != "atualizadoEm" ==> col2[id][c] == col[id][c])
  {
    if id in col {
      LerFormularioGravado(d, col[id] + PayloadAtualizacao(d, t));
    }
  }

  /** Delete is a soft delete: the document stays, only `atualizadoEm` changes. */
  lemma ExcluirCorreto(col: Colecao, id: string, t: int)
    ensures
      var (col2, r) := ExcluirPaciente(col, id, t, false);
      && (r.Ok? <==> id in col)
      && (r.Falha? ==> r.mensagem == MensagemErro(Excluir) && col2 == col)
      && col2.Keys == col.Keys
      && (forall o :: o in col && o != id ==> col2[o] == col[o])
      && (id in col ==>
            && col2[id].Keys == col[id].Keys + {"atualizadoEm"}
            && col2[id]["atualizadoEm"] == Instante(t)
            && forall c :: c in col[id] && c != "atualizadoEm" ==> col2[id][c] == col[id][c])
  {
  }

  /** Every operation rethrows a failed store call as its own fixed message and leaves the store alone. */
  lemma FalhasTemMensagemFixa(col: Colecao, id: string, d: PacienteFormData, novoId: string, t1: int, t2: int)
    requires novoId !in col
    ensures BuscarPaciente(col, id, true) == Falha(MensagemErro(Buscar))
    ensures CriarPaciente(col, d, novoId, t1, t2, true) == (col, Falha(MensagemErro(Criar)))
    ensures AtualizarPaciente(col, id, d, t1, true) == (col, Falha(MensagemErro(Atualizar)))
    ensures ExcluirPaciente(col, id, t1, true) == (col, Falha(MensagemErro(Excluir)))
  {
  }

  // ---------------------------------------------------------------------------
  // listarPacientes
  // ---------------------------------------------------------------------------

  /** `doc.data().endereco?.[campo] || 'N/A'` */
  function CampoEndereco(doc: Documento, campo: string): string
  {
    var e := Campo(doc, "endereco");
    if e.Objeto? && campo in e.campos && e.campos[campo] != "" then e.campos[campo] else "N/A"
  }

  /** The list-item projection of one document. The name is compared with
      `localeCompare` afterwards, so a document whose `nome` is not text makes the
      listing fail; that case is `None`. */
  function ProjetarItem(id: string, doc: Documento): (r: Option<ItemLista>)
    ensures r.Some? <==> Campo(doc, "nome").Texto?
    ensures r.Some? ==>
      && r.value.id == id && Texto(r.value.nome) == doc["nome"]
      && r.value.dataNascimento == Campo(doc, "dataNascimento")
      && r.value.bairro == CampoEndereco(doc, "bairro")
      && r.value.cidade == CampoEndereco(doc, "cidade")
  {
    var nome := Campo(doc, "nome");
    if nome.Texto? then
      Some(ItemLista(id, nome.s, Campo(doc, "dataNascimento"), CampoEndereco(doc, "bairro"), CampoEndereco(doc, "cidade")))
    else None
  }

  /** `bairro` and `cidade` fall back to 'N/A' when there is no address object, no such
      field, or the field is the empty string; otherwise they are the stored value. */
  lemma CampoEnderecoPadrao(doc: Documento, campo: string)
    ensures
      var e := Campo(doc, "endereco");
      (!e.Objeto? || campo !in e.campos || e.campos[campo] == "" ==> CampoEndereco(doc, campo) == "N/A")
      && (e.Objeto? && campo in e.campos && e.campos[campo] != "" ==> CampoEndereco(doc, campo) == e.campos[campo])
  {
  }

  /** Deleting leaves the list item of the document as it was: the listing does not
      read `atualizadoEm`. */
  lemma ExcluidoSegueListado(id: string, doc: Documento, t: int)
    ensures ProjetarItem(id, doc + PayloadExclusao(t)) == ProjetarItem(id, doc)
  {
    var novo := doc + PayloadExclusao(t);
    assert Campo(novo, "nome") == Campo(doc, "nome");
    assert Campo(novo, "dataNascimento") == Campo(doc, "dataNascimento");
    assert Campo(novo, "endereco") == Campo(doc, "endereco");
  }

  /** `querySnapshot.docs.map(...)`: every document projected, in snapshot order. */
  function Projetar(docs: seq<(string, Documento)>): (r: Option<seq<ItemLista>>)
    ensures r.Some? <==> forall k :: 0 <= k < |docs| ==> Campo(docs[k].1, "nome").Texto?
    ensures r.Some? ==> |r.value| == |docs| && forall k :: 0 <= k < |docs| ==> Some(r.value[k]) == ProjetarItem(docs[k].0, docs[k].1)
  {
    if docs == [] then Some([])
    else
      var cabeca := ProjetarItem(docs[0].0, docs[0].1);
      var resto := Projetar(docs[1..]);
      if cabeca.Some? && resto.Some? then Some([cabeca.value] + resto.value)
      else
        assert cabeca.None? ==> !Campo(docs[0].1, "nome").Texto?;
        None
  }

  /** The comparator: `a.nome.localeCompare(b.nome) <= 0`. */
  predicate ItemAntes(a: ItemLista, b: ItemLista)
  {
    NomeAntes(a.nome, b.nome)
  }

  /** The comparator is a total preorder. */
  lemma ItemAntesPreordemTotal()
    ensures PreordemTotal(ItemAntes)
  {
    forall x, y ensures ItemAntes(x, y) || ItemAntes(y, x) {
      NomeAntesPreordemTotal(x.nome, y.nome, y.nome);
    }
    forall x, y, z | ItemAntes(x, y) && ItemAntes(y, z) ensures ItemAntes(x, z) {
      NomeAntesPreordemTotal(x.nome, y.nome, z.nome);
    }
  }

  /** What `getDocs` over the collection yields: every stored document exactly once,
      under its id, in an order the store chooses. */
  ghost predicate Instantaneo(col: Colecao, docs: seq<(string, Documento)>)
  {
    && (forall k :: 0 <= k < |docs| ==> docs[k].0 in col && docs[k].1 == col[docs[k].0])
    && (forall id :: id in col ==> exists k :: 0 <= k < |docs| && docs[k].0 == id)
    && (forall i, j :: 0 <= i < j < |docs| ==> docs[i].0 != docs[j].0)
  }

  /** Every stored document has a text `nome`, so the listing can sort it. */
  ghost predicate NomesTexto(col: Colecao)
  {
    forall id :: id in col ==> Campo(col[id], "nome").Texto?
  }

  /** The ids of a snapshot. */
  function IdsDe(docs: seq<(string, Documento)>): set<string>
  {
    if docs == [] then {} else {docs[0].0} + IdsDe(docs[1..])
  }

  lemma {:induction false} IdsDeTamanho(docs: seq<(string, Documento)>)
    requires forall i, j :: 0 <= i < j < |docs| ==> docs[i].0 != docs[j].0
    ensures |IdsDe(docs)| == |docs|
    ensures forall id :: id in IdsDe(docs) <==> exists k :: 0 <= k < |docs| && docs[k].0 == id
  {
    if docs != [] {
      var resto := docs[1..];
      IdsDeTamanho(resto);
      assert forall k :: 0 <= k < |resto| ==> resto[k] == docs[k + 1];
      assert docs[0].0 !in IdsDe(resto);
      forall id | exists k :: 0 <= k < |docs| && docs[k].0 == id
        ensures id in IdsDe(docs)
      {
        var k :| 0 <= k < |docs| && docs[k].0 == id;
        if k > 0 {
          assert resto[k - 1].0 == id;
        }
      }
    }
  }

  /** A snapshot has as many documents as the store. */
  lemma InstantaneoTamanho(col: Colecao, docs: seq<(string, Documento)>)
    requires Instantaneo(col, docs)
    ensures |docs| == |col|
  {
    IdsDeTamanho(docs);
    assert IdsDe(docs) == col.Keys;
  }

  /** The listing of a snapshot can be made exactly when every stored `nome` is text. */
  lemma ListavelSse(col: Colecao, docs: seq<(string, Documento)>)
    requires Instantaneo(col, docs)
    ensures Projetar(docs).Some? <==> NomesTexto(col)
  {
    if Projetar(docs).Some? {
      forall id | id in col ensures Campo(col[id], "nome").Texto? {
        var k :| 0 <= k < |docs| && docs[k].0 == id;
      }
    }
  }

  /** The projected listing of a snapshot holds each stored document's item and nothing
      else, one item per document. */
  lemma ListagemDaColecao(col: Colecao, docs: seq<(string, Documento)>)
    requires Instantaneo(col, docs) && NomesTexto(col)
    ensures Projetar(docs).Some? && |Projetar(docs).value| == |col|
    ensures forall id :: id in col ==> ProjetarItem(id, col[id]).Some? && ProjetarItem(id, col[id]).value in Projetar(docs).value
    ensures forall x :: x in Projetar(docs).value ==> x.id in col && ProjetarItem(x.id, col[x.id]) == Some(x)
  {
    ListavelSse(col, docs);
    InstantaneoTamanho(col, docs);
    forall id | id in col ensures ProjetarItem(id, col[id]).Some? && ProjetarItem(id, col[id]).value in Projetar(docs).value {
      DocumentoListado(col, docs, id);
    }
    forall x | x in Projetar(docs).value ensures x.id in col && ProjetarItem(x.id, col[x.id]) == Some(x) {
      ItemVemDaColecao(col, docs, x);
    }
  }

  lemma DocumentoListado(col: Colecao, docs: seq<(string, Documento)>, id: string)
    requires Instantaneo(col, docs) && Projetar(docs).Some? && id in col
    ensures ProjetarItem(id, col[id]).Some? && ProjetarItem(id, col[id]).value in Projetar(docs).value
  {
    var k :| 0 <= k < |docs| && docs[k].0 == id;
    assert Some(Projetar(docs).value[k]) == ProjetarItem(id, col[id]);
  }

  lemma ItemVemDaColecao(col: Colecao, docs: seq<(string, Documento)>, x: ItemLista)
    requires Instantaneo(col, docs) && Projetar(docs).Some? && x in Projetar(docs).value
    ensures x.id in col && ProjetarItem(x.id, col[x.id]) == Some(x)
  {
    var itens := Projetar(docs).value;
    var k :| 0 <= k < |itens| && itens[k] == x;
    assert Some(x) == ProjetarItem(docs[k].0, docs[k].1);
  }

  /** `bairro` or `cidade` as the listing shows a value the form stored. */
  function OuNA(s: string): string
  {
    if s != "" then s else "N/A"
  }

  /** The list item of a patient created from form data `d` under `id`. */
  function ItemDe(id: string, d: PacienteFormData): ItemLista
  {
    ItemLista(id, d.nome, Texto(d.dataNascimento), OuNA(d.endereco.bairro), OuNA(d.endereco.cidade))
  }

  /** A created patient shows up in the next listing with its id, name, birth date,
      neighbourhood and city, and the listing grows by one. */
  lemma CriarEntaoListar(col: Colecao, d: PacienteFormData, novoId: string, t1: int, t2: int, docs: seq<(string, Documento)>)
    requires novoId !in col && NomesTexto(col)
    requires Instantaneo(CriarPaciente(col, d, novoId, t1, t2, false).0, docs)
    ensures Projetar(docs).Some? && |Projetar(docs).value| == |col| + 1
    ensures ItemDe(novoId, d) in Projetar(docs).value
  {
    var doc := PayloadCriacao(d, t1, t2);
    ItemDoCriado(novoId, d, t1, t2);
    var col2 := col[novoId := doc];
    assert NomesTexto(col2);
    ListavelSse(col2, docs);
    InstantaneoTamanho(col2, docs);
    DocumentoListado(col2, docs, novoId);
    assert col2[novoId] == doc;
  }

  /** The item of a newly created document is read off the form data. */
  lemma ItemDoCriado(id: string, d: PacienteFormData, t1: int, t2: int)
    ensures ProjetarItem(id, PayloadCriacao(d, t1, t2)) == Some(ItemDe(id, d))
  {
    var doc := PayloadCriacao(d, t1, t2);
    ParaDocumentoValores(d);
    assert Campo(doc, "nome") == Texto(d.nome);
    assert Campo(doc, "dataNascimento") == Texto(d.dataNascimento);
    assert Campo(doc, "endereco") == ParaDocumento(d)["endereco"];
  }

  /** A soft-deleted patient is still listed, as the same item, and the listing keeps its
      size. */
  lemma ExcluirEntaoListar(col: Colecao, id: string, t: int, docs: seq<(string, Documento)>)
    requires id in col && NomesTexto(col)
    requires Instantaneo(ExcluirPaciente(col, id, t, false).0, docs)
    ensures Projetar(docs).Some? && |Projetar(docs).value| == |col|
    ensures ProjetarItem(id, col[id]).Some? && ProjetarItem(id, col[id]).value in Projetar(docs).value
  {
    var col2 := col[id := col[id] + PayloadExclusao(t)];
    ExcluidoSegueListado(id, col[id], t);
    assert NomesTexto(col2) by {
      forall o | o in col2 ensures Campo(col2[o], "nome").Texto? {
        if o == id {
          assert ProjetarItem(o, col2[o]) == ProjetarItem(o, col[o]);
        }
      }
    }
    ListavelSse(col2, docs);
    InstantaneoTamanho(col2, docs);
    DocumentoListado(col2, docs, id);
  }

  /** `listarPacientes()`: `consulta` is what `getDocs` returned for the store `col`,
      `None` when it threw. The result is every stored document's item, rearranged into
      name order; a failure, or a stored `nome` that is not text, becomes the listing
      message. */
  method ListarPacientes(col: Colecao, consulta: Option<seq<(string, Documento)>>) returns (r: Resultado<seq<ItemLista>>)
    requires consulta.Some? ==> Instantaneo(col, consulta.value)
    ensures consulta.None? || !NomesTexto(col) ==> r == Falha(MensagemErro(Listar))
    ensures consulta.Some? && NomesTexto(col) ==>
      && r.Ok?
      && multiset(r.valor) == multiset(Projetar(consulta.value).value)
      && Ordenada(ItemAntes, r.valor)
  {
    if consulta.None? {
      return Falha(MensagemErro(Listar));
    }
    ListavelSse(col, consulta.value);
    var projetados := Projetar(consulta.value);
    if projetados.None? {
      return Falha(MensagemErro(Listar));
    }
    var itens := projetados.value;
    var a := new ItemLista[|itens|](k requires 0 <= k < |itens| => itens[k]);
    assert a[..] == itens;
    ItemAntesPreordemTotal();
    Ordenar(a, ItemAntes);
    return Ok(a[..]);
  }

  /** So the listing, once made, holds every stored document's item and nothing else, one
      item per document. */
  lemma ListagemCompleta(col: Colecao, docs: seq<(string, Documento)>, listagem: seq<ItemLista>)
    requires Instantaneo(col, docs) && NomesTexto(col)
    requires Projetar(docs).Some? && multiset(listagem) == multiset(Projetar(docs).value)
    ensures |listagem| == |col|
    ensures forall id :: id in col ==> ProjetarItem(id, col[id]).Some? && ProjetarItem(id, col[id]).value in listagem
    ensures forall x :: x in listagem ==> x.id in col && ProjetarItem(x.id, col[x.id]) == Some(x)
  {
    ListagemDaColecao(col, docs);
    assert |listagem| == |multiset(listagem)|;
    forall x ensures x in listagem <==> x in Projetar(docs).value {
      assert x in listagem <==> x in multiset(listagem);
    }
  }
}
