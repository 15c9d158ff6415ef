/**
 * `fetchAndDisplayCategories` (script.js:174-223): on success, every
 * category list is rendered from its bucket with a limit of 3 and the
 * search results area shows its placeholder; when the request or its
 * decoding fails, the lists are left as they were and an error banner is
 * shown. The request itself is external: `response` is what it yielded.
 */
module HomePage {
  import opened Wrappers
  import opened Escolas
  import opened Categories
  import opened CategoryList
  import opened LiveSearch

  /** The limit every category list on the home page is rendered with. */
  const HomeLimit: nat := 3

  method FetchAndDisplayCategories(response: Option<seq<Escola>>,
                                   universidades: CategoryView, politecnicos: CategoryView,
                                   faculdades: CategoryView, profissionais: CategoryView,
                                   cursos: CategoryView, search: SearchBox)
    returns (errorShown: bool)
    requires universidades != politecnicos && universidades != faculdades && universidades != profissionais
    requires universidades != cursos && politecnicos != faculdades && politecnicos != profissionais
    requires politecnicos != cursos && faculdades != profissionais && faculdades != cursos
    requires profissionais != cursos
    modifies universidades, politecnicos, faculdades, profissionais, cursos, search`panel
    ensures errorShown <==> response.None?
    ensures response.None? ==> unchanged(universidades, politecnicos, faculdades, profissionais, cursos, search)
    ensures response.Some? ==> search.panel == Placeholder
    ensures response.Some? ==>
      var b := Partition(response.value);
      && universidades.Valid() && universidades.items == b.universidades
      && politecnicos.Valid() && politecnicos.items == b.politecnicos
      && faculdades.Valid() && faculdades.items == b.faculdades
      && profissionais.Valid() && profissionais.items == b.profissionais
      && cursos.Valid() && cursos.items == b.cursos
      && universidades.entries == Collapsed(|b.universidades|, HomeLimit)
      && politecnicos.entries == Collapsed(|b.politecnicos|, HomeLimit)
      && faculdades.entries == Collapsed(|b.faculdades|, HomeLimit)
      && profissionais.entries == Collapsed(|b.profissionais|, HomeLimit)
      && cursos.entries == Collapsed(|b.cursos|, HomeLimit)
  {
    if response.None? {
      return true;
    }
    var all := response.value;
    var b := Partition(all);
    universidades.Display(Some(b.universidades), HomeLimit);
    politecnicos.Display(Some(b.politecnicos), HomeLimit);
    faculdades.Display(Some(b.faculdades), HomeLimit);
    profissionais.Display(Some(b.profissionais), HomeLimit);
    cursos.Display(Some(b.cursos), HomeLimit);
    search.panel := Placeholder;
    errorShown := false;
  }
}
