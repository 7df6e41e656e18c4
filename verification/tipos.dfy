/** The records the application passes around. The type declarations of
    src/lib/types.ts are not part of this model; these shapes follow how the
    modelled files build and read the records. */
module Tipos {

  datatype Option<T> = None | Some(value: T)

  datatype Endereco = Endereco(rua: string, numero: string, bairro: string, cidade: string, estado: string)

  /** `PacienteFormData`: what the form edits and what is written to the store.
      Weight and height are compared only, so they are reals. */
  datatype PacienteFormData = PacienteFormData(
    nome: string,
    dataNascimento: string,
    peso: real,
    altura: real,
    tipoSanguineo: string,
    endereco: Endereco,
    telefones: seq<string>,
    emails: seq<string>)

  /** `Paciente` as the form receives it in edit mode: the document id and the form fields. */
  datatype Paciente = Paciente(id: string, dados: PacienteFormData)

  /** A field value of a stored document. `Indefinido` is what JavaScript reads
      for a field the document does not have. */
  datatype Valor =
    | Indefinido
    | Texto(s: string)
    | Numero(x: real)
    | Lista(itens: seq<string>)
    | Objeto(campos: map<string, string>)
    | Instante(t: int)

  /** A stored document: its fields by name. */
  type Documento = map<string, Valor>

  /** `PacienteListItem`: the projection shown in the list. `dataNascimento` is
      whatever the document holds. */
  datatype ItemLista = ItemLista(id: string, nome: string, dataNascimento: Valor, bairro: string, cidade: string)

  /** What a UI handler does besides changing its own state: dialogs, navigation
      and calls into the data-access service. */
  datatype Efeito =
    | Confirmar(pergunta: string)
    | Alertar(mensagem: string)
    | Navegar(rota: string)
    | ChamarListar
    | ChamarExcluir(id: string)
    | ChamarCriar(dados: PacienteFormData)
    | ChamarAtualizar(id: string, dados: PacienteFormData)
}
