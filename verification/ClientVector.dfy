/** One memoised jewel query for every effect. */
module ClientVectors {
  import opened Packing
  import opened Signatures
  import opened SlotRecurrence
  import opened SlotClients
  import opened Datasets
  import opened Candidates
  import opened Residuals

  class ClientVector {
    const data: Data
    const query: Query
    const clients: seq<SlotClient>

    ghost function Caches(): set<object> {
      (set n | 0 <= n < |clients| :: clients[n].buffer as object)
      + (set n | 0 <= n < |clients| :: clients[n].fixedBuffer as object)
    }

    ghost predicate Valid()
      reads Caches()
    {
      && Ready(data, query) && |query.effects| <= EFFECTS && |clients| == |query.effects|
      && (forall n :: 0 <= n < |clients| ==> clients[n].Valid())
      && (forall n :: 0 <= n < |clients| ==> clients[n].classes == EffectClasses(data, query, n))
      && (forall m, n :: 0 <= m < n < |clients| ==>
            clients[m].buffer != clients[n].buffer && clients[m].fixedBuffer != clients[n].fixedBuffer)
    }

    constructor (data: Data, query: Query)
      requires Ready(data, query) && |query.effects| <= EFFECTS
      ensures Valid() && fresh(Caches()) && this.data == data && this.query == query
    {
      hide SlotClient.Valid, EffectClasses, Data.Valid, Query.Valid;
      var made: seq<SlotClient> := [];
      for n := 0 to |query.effects|
        invariant |made| == n
        invariant forall i :: 0 <= i < n ==> made[i].Valid()
        invariant forall i :: 0 <= i < n ==> fresh(made[i].buffer) && fresh(made[i].fixedBuffer)
        invariant forall i :: 0 <= i < n ==> made[i].classes == EffectClasses(data, query, i)
        invariant forall i, j :: 0 <= i < j < n ==>
          made[i].buffer != made[j].buffer && made[i].fixedBuffer != made[j].fixedBuffer
      {
        EffectClassesAre(data, query, n);
        var client := new SlotClient(data, [query.effects[n].id], query.effects, query.jewelFilter);
        made := made + [client];
      }
      clients := made;
      this.data := data;
      this.query := query;
    }

    /** The keys of jewels for effect `n` that fit what the jewels of `existing` leave. */
    method QueryLeft(n: nat, key: Signature, existing: Signature, multiplier: int) returns (answer: set<Signature>)
      requires Valid() && n < |clients| && SlotsInBounds(key) && multiplier == Multiplier(key)
      requires HasPlan(data, query, key, existing)
      modifies Caches()
      ensures Valid() && answer == FillLeft(EffectClasses(data, query, n), key, existing)
    {
      hide SlotClient.Valid, EffectClasses, Ready, HasPlan, SlotsInBounds, Fill, Residual;
      var i, j, k, extra := SlotClient.GetResidual(key, existing);
      LeftInCache(data, query, key, existing);
      BoundsOf(key);
      answer := clients[n].Query(i, j, k, extra, multiplier);
      FillLeftIs(clients[n].classes, key, existing);
    }
  }

  lemma EffectClassesAre(data: Data, query: Query, e: nat)
    requires e < |query.effects| <= EFFECTS
    ensures EffectClasses(data, query, e) == AdmittedClasses(data, [query.effects[e].id], query.effects, query.jewelFilter)
  {
  }

  lemma BoundsOf(key: Signature)
    requires SlotsInBounds(key)
    ensures Multiplier(key) <= 5
  {
  }
}
