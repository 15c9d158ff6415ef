/**
 * The institution record ("escola") as the category lists, the search and the
 * API handle it, and the five institution types of the schema's enumeration
 * (models/Escolas.js:10).
 */
module Escolas {

  /** The fields the modelled logic reads; `tipo` stays a free string so that
      records whose type is outside the enumeration can be reasoned about. */
  datatype Escola = Escola(nome: string, tipo: string, localidade: string)

  const Universidade: string := "Universidade"
  const Politecnico: string := "Politécnico"
  const Faculdade: string := "Faculdade"
  const Profissional: string := "Profissional"
  const CursoSuperior: string := "Curso Superior"

  /** The schema's enumeration, in declaration order. */
  const KnownTipos: seq<string> := [Universidade, Politecnico, Faculdade, Profissional, CursoSuperior]

  predicate IsKnownTipo(t: string) {
    t in KnownTipos
  }
}
