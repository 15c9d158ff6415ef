/**
 * The split of the full record list into one list per institution type, as
 * `fetchAndDisplayCategories` does with five `filter` calls before handing
 * each list to its category view.
 */
module Categories {
  import opened Escolas
  import opened Sequences

  /** The records whose `tipo` is exactly `t` (strict string equality), in input order. */
  function Bucket(all: seq<Escola>, t: string): seq<Escola> {
    Filter(all, (e: Escola) => e.tipo == t)
  }

  /** The records whose `tipo` is none of the five known literals; no bucket receives them. */
  function Unclassified(all: seq<Escola>): seq<Escola> {
    Filter(all, (e: Escola) => !IsKnownTipo(e.tipo))
  }

  /** The five category lists. */
  datatype Buckets = Buckets(
    universidades: seq<Escola>,
    politecnicos: seq<Escola>,
    faculdades: seq<Escola>,
    profissionais: seq<Escola>,
    cursos: seq<Escola>)
  {
    /** The list shown under type `t`; a type outside the enumeration has no list. */
    function Get(t: string): seq<Escola> {
      if t == Universidade then universidades
      else if t == Politecnico then politecnicos
      else if t == Faculdade then faculdades
      else if t == Profissional then profissionais
      else if t == CursoSuperior then cursos
      else []
    }

    function TotalSize(): nat {
      |universidades| + |politecnicos| + |faculdades| + |profissionais| + |cursos|
    }
  }

  /** The five `filter` calls: every list holds only records of its own type, and together they hold no more than the input. */
  function Partition(all: seq<Escola>): (b: Buckets)
    ensures forall k :: 0 <= k < |b.universidades| ==> b.universidades[k].tipo == Universidade
    ensures forall k :: 0 <= k < |b.politecnicos| ==> b.politecnicos[k].tipo == Politecnico
    ensures forall k :: 0 <= k < |b.faculdades| ==> b.faculdades[k].tipo == Faculdade
    ensures forall k :: 0 <= k < |b.profissionais| ==> b.profissionais[k].tipo == Profissional
    ensures forall k :: 0 <= k < |b.cursos| ==> b.cursos[k].tipo == CursoSuperior
    ensures b.TotalSize() <= |all|
  {
    PartitionSizes(all);
    Buckets(
      Bucket(all, Universidade),
      Bucket(all, Politecnico),
      Bucket(all, Faculdade),
      Bucket(all, Profissional),
      Bucket(all, CursoSuperior))
  }

  lemma PartitionGet(all: seq<Escola>, t: string)
    ensures Partition(all).Get(t) == if IsKnownTipo(t) then Bucket(all, t) else []
  {
  }

  /** The list for a known type holds exactly the records of that type; an unknown type's list is empty. */
  lemma PartitionMembership(all: seq<Escola>, t: string, x: Escola)
    ensures x in Partition(all).Get(t) <==> x in all && x.tipo == t && IsKnownTipo(t)
  {
    PartitionGet(all, t);
    FilterMembership(all, (e: Escola) => e.tipo == t, x);
  }

  /** Each list keeps every copy of the records it selects (no record is dropped or duplicated). */
  lemma PartitionMultiplicity(all: seq<Escola>, t: string, x: Escola)
    ensures multiset(Partition(all).Get(t))[x]
         == if x.tipo == t && IsKnownTipo(t) then multiset(all)[x] else 0
  {
    PartitionGet(all, t);
    FilterMultiplicity(all, (e: Escola) => e.tipo == t, x);
  }

  /** Each list preserves input order: partitioning a concatenation concatenates the lists. */
  lemma PartitionOrder(a: seq<Escola>, b: seq<Escola>, t: string)
    ensures Partition(a + b).Get(t) == Partition(a).Get(t) + Partition(b).Get(t)
  {
    PartitionGet(a + b, t);
    PartitionGet(a, t);
    PartitionGet(b, t);
    FilterConcat(a, b, (e: Escola) => e.tipo == t);
  }

  /** No record appears under two different types. */
  lemma PartitionDisjoint(all: seq<Escola>, t1: string, t2: string, x: Escola)
    requires t1 != t2
    ensures !(x in Partition(all).Get(t1) && x in Partition(all).Get(t2))
  {
    PartitionMembership(all, t1, x);
    PartitionMembership(all, t2, x);
  }

  /** A record whose type is outside the enumeration appears in no list. */
  lemma UnknownTipoInNoBucket(all: seq<Escola>, x: Escola, t: string)
    requires !IsKnownTipo(x.tipo)
    ensures x !in Partition(all).Get(t)
  {
    PartitionMembership(all, t, x);
  }

  /** Every record lands in exactly one list or among the unclassified ones. */
  lemma {:induction false} PartitionSizes(all: seq<Escola>)
    ensures |Bucket(all, Universidade)| + |Bucket(all, Politecnico)| + |Bucket(all, Faculdade)|
          + |Bucket(all, Profissional)| + |Bucket(all, CursoSuperior)| + |Unclassified(all)| == |all|
  {
    if all != [] {
      PartitionSizes(all[1..]);
    }
  }
}
