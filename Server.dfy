/**
 * The two read routes of the API (server.js:18-83): `GET /escolas`, which
 * turns the optional `tipo` and `q` parameters into a store query, and
 * `GET /escolas/:id`, which chooses between 400, 404, 500 and the record.
 *
 * The store is external. Its `$text` matching is the parameter `textMatch`;
 * `ObjectId.isValid` is the parameter `isValid`; whether the store call
 * throws is the parameter `fails`. The collection is the sequence of records
 * in one possible store order, and lookup by id is a map from id to record.
 */
module Server {
  import opened Wrappers
  import opened Escolas
  import opened Sequences
  import Categories

  /** The filter document handed to `Escola.find`. */
  datatype Query = Empty | Tipo(tipo: string) | Text(search: string) | And(left: Query, right: Query)

  /** The JSON the routes send: a list of records, one record, or `{ message }` with an error status. */
  datatype Response = Records(escolas: seq<Escola>) | Record(escola: Escola) | Message(status: nat, message: string)

  const ListErrorMessage: string := "Erro interno ao buscar escolas."
  const InvalidIdMessage: string := "Formato de ID inválido."
  const NotFoundMessage: string := "Escola não encontrada."
  const DetailErrorMessage: string := "Erro interno ao buscar detalhes da escola."

  /** The HTTP status of a response: 200 unless an error status was set. */
  function StatusOf(r: Response): nat {
    if r.Message? then r.status else 200
  }

  /** JavaScript truthiness of a query-string parameter: an absent or empty one is false. */
  predicate Truthy(p: Option<string>) {
    p.Some? && p.value != ""
  }

  /** Whether the store selects record `e` for `query`. */
  predicate Matches(query: Query, e: Escola, textMatch: (string, Escola) -> bool) {
    match query
    case Empty => true
    case Tipo(t) => e.tipo == t
    case Text(q) => textMatch(q, e)
    case And(l, r) => Matches(l, e, textMatch) && Matches(r, e, textMatch)
  }

  /** What a request asks for: the exact type when `tipo` is given, and the text when `q` is given. */
  predicate Requested(tipo: Option<string>, q: Option<string>, e: Escola, textMatch: (string, Escola) -> bool) {
    && (Truthy(tipo) ==> e.tipo == tipo.value)
    && (Truthy(q) ==> textMatch(q.value, e))
  }

  /** The records of `collection` a request asks for, in the order of `collection`. */
  function Selection(collection: seq<Escola>, tipo: Option<string>, q: Option<string>,
                     textMatch: (string, Escola) -> bool): seq<Escola>
  {
    Filter(collection, (e: Escola) => Requested(tipo, q, e, textMatch))
  }

  /** `Escola.find(query)` on a store holding `collection`. */
  function Find(collection: seq<Escola>, query: Query, textMatch: (string, Escola) -> bool): seq<Escola> {
    Filter(collection, (e: Escola) => Matches(query, e, textMatch))
  }

  /** The query-building part of the `GET /escolas` handler. */
  method BuildQuery(tipo: Option<string>, q: Option<string>) returns (query: Query)
    ensures !Truthy(tipo) && !Truthy(q) ==> query == Empty
    ensures Truthy(tipo) && !Truthy(q) ==> query == Tipo(tipo.value)
    ensures !Truthy(tipo) && Truthy(q) ==> query == Text(q.value)
    ensures Truthy(tipo) && Truthy(q) ==> query == And(Tipo(tipo.value), Text(q.value))
    ensures forall e: Escola, textMatch: (string, Escola) -> bool ::
              Matches(query, e, textMatch) <==> Requested(tipo, q, e, textMatch)
  {
    query := Empty;
    if Truthy(tipo) {
      query := Tipo(tipo.value);
    }
    if Truthy(q) {
      var textSearchQuery := Text(q.value);
      if query.Tipo? && query.tipo != "" {
        query := And(Tipo(query.tipo), textSearchQuery);
      } else {
        query := textSearchQuery;
      }
    }
  }

  /** `GET /escolas?tipo=&q=`: the requested records, or 500 when the store call throws. */
  method ListEscolas(tipo: Option<string>, q: Option<string>, collection: seq<Escola>,
                     textMatch: (string, Escola) -> bool, fails: bool) returns (res: Response)
    ensures fails ==> res == Message(500, ListErrorMessage)
    ensures !fails ==> res == Records(Selection(collection, tipo, q, textMatch))
  {
    var query := BuildQuery(tipo, q);
    if fails {
      return Message(500, ListErrorMessage);
    }
    var escolas := Find(collection, query, textMatch);
    FilterAgree(collection, (e: Escola) => Matches(query, e, textMatch),
                (e: Escola) => Requested(tipo, q, e, textMatch));
    res := Records(escolas);
  }

  /** A record is listed exactly when it is in the store and satisfies every given parameter. */
  lemma SelectionMembership(collection: seq<Escola>, tipo: Option<string>, q: Option<string>,
                            textMatch: (string, Escola) -> bool, e: Escola)
    ensures e in Selection(collection, tipo, q, textMatch)
            <==> e in collection && Requested(tipo, q, e, textMatch)
  {
    FilterMembership(collection, (x: Escola) => Requested(tipo, q, x, textMatch), e);
  }

  /** Without a (non-empty) `tipo` or `q` the whole collection is listed. */
  lemma NoParametersListsAll(collection: seq<Escola>, tipo: Option<string>, q: Option<string>,
                             textMatch: (string, Escola) -> bool)
    requires !Truthy(tipo) && !Truthy(q)
    ensures Selection(collection, tipo, q, textMatch) == collection
  {
    FilterKeepsAll(collection, (e: Escola) => Requested(tipo, q, e, textMatch));
  }

  /** With only `tipo`, the list is the category bucket the home page builds for that type. */
  lemma TipoOnlyIsBucket(collection: seq<Escola>, tipo: Option<string>, q: Option<string>,
                         textMatch: (string, Escola) -> bool)
    requires Truthy(tipo) && !Truthy(q)
    ensures Selection(collection, tipo, q, textMatch) == Categories.Bucket(collection, tipo.value)
  {
    FilterAgree(collection, (e: Escola) => Requested(tipo, q, e, textMatch),
                (e: Escola) => e.tipo == tipo.value);
  }

  /** `GET /escolas/:id`: 400 for a malformed id, 500 when the lookup throws, 404 when no record has the id, the record otherwise. */
  function GetById(id: string, isValid: string -> bool, store: map<string, Escola>, fails: bool): (r: Response)
    ensures StatusOf(r) == 400 <==> !isValid(id)
    ensures StatusOf(r) == 500 <==> isValid(id) && fails
    ensures StatusOf(r) == 404 <==> isValid(id) && !fails && id !in store
    ensures StatusOf(r) == 200 <==> isValid(id) && !fails && id in store
    ensures StatusOf(r) == 200 ==> id in store && r == Record(store[id])
    ensures r.Message? ==> r.message != []
  {
    if !isValid(id) then Message(400, InvalidIdMessage)
    else if fails then Message(500, DetailErrorMessage)
    else if id !in store then Message(404, NotFoundMessage)
    else Record(store[id])
  }

  /** A malformed id is answered before the store is consulted: neither its contents nor its failures matter. */
  lemma InvalidIdIgnoresStore(id: string, isValid: string -> bool,
                              store1: map<string, Escola>, fails1: bool,
                              store2: map<string, Escola>, fails2: bool)
    requires !isValid(id)
    ensures GetById(id, isValid, store1, fails1) == GetById(id, isValid, store2, fails2)
  {
  }
}
