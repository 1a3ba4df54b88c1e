/** The model catalog: duplicates dropped by reversing, filtering with a set of seen keys and
    reversing back; and replacing or appending one model. */
module ModelCatalog {
  /** `details` stands for everything but the address. */
  datatype Model = Model(provider: string, id: string, details: string)

  /** Provider and id joined by a NUL. */
  function KeyOf(model: Model): string {
    model.provider + ['\0'] + model.id
  }

  predicate SameAddress(a: Model, b: Model) {
    a.provider == b.provider && a.id == b.id
  }

  // ----- Specification -----

  /** No later model has the key of the one at `i`. */
  predicate IsLast(models: seq<Model>, i: nat)
    requires i < |models|
  {
    forall j :: i < j < |models| ==> KeyOf(models[j]) != KeyOf(models[i])
  }

  /** The models that are the last with their key, in their order. */
  function LastOccurrences(models: seq<Model>): (kept: seq<Model>) {
    if models == [] then []
    else
      var rest := LastOccurrences(models[1..]);
      if exists j :: 1 <= j < |models| && KeyOf(models[j]) == KeyOf(models[0]) then rest else [models[0]] + rest
  }

  function Keys(models: seq<Model>): set<string> {
    set i | 0 <= i < |models| :: KeyOf(models[i])
  }

  predicate DistinctKeys(models: seq<Model>) {
    forall i, j :: 0 <= i < j < |models| ==> KeyOf(models[i]) != KeyOf(models[j])
  }

  /** Every model can be addressed uniquely by provider and id. */
  predicate UniqueAddresses(models: seq<Model>) {
    forall i, j :: 0 <= i < j < |models| ==> !SameAddress(models[i], models[j])
  }

  function Reversed(models: seq<Model>): (r: seq<Model>)
    ensures |r| == |models|
    ensures forall i :: 0 <= i < |r| ==> r[i] == models[|models| - 1 - i]
  {
    seq(|models|, i requires 0 <= i < |models| => models[|models| - 1 - i])
  }

  /** What `upsert` replaces: the first model with this address, if there is one. */
  function Find(models: seq<Model>, model: Model): (i: nat)
    ensures i <= |models|
    ensures i < |models| ==> SameAddress(models[i], model)
    ensures forall j :: 0 <= j < i ==> !SameAddress(models[j], model)
  {
    if models == [] || SameAddress(models[0], model) then 0 else 1 + Find(models[1..], model)
  }

  function Upserted(models: seq<Model>, model: Model): seq<Model> {
    var i := Find(models, model);
    if i < |models| then models[i := model] else models + [model]
  }

  // ----- The code -----

  class Catalog {
    var models: seq<Model>

    constructor (models: seq<Model>)
      ensures this.models == models
    {
      this.models := models;
    }

    method Reverse()
      modifies this
      ensures models == Reversed(old(models))
    {
      var reversed := [];
      for i := 0 to |models|
        invariant models == old(models)
        invariant |reversed| == i && forall k :: 0 <= k < i ==> reversed[k] == models[i - 1 - k]
      {
        reversed := [models[i]] + reversed;
      }
      models := reversed;
    }

    /** Keep the models whose key has not been seen before. */
    method RetainUnseen()
      modifies this
      ensures Reversed(models) == LastOccurrences(Reversed(old(models)))
    {
      var seen: set<string> := {};
      var kept := [];
      for i := 0 to |models|
        invariant models == old(models)
        invariant seen == Keys(models[..i])
        invariant Reversed(kept) == LastOccurrences(Reversed(models[..i]))
      {
        RetainStep(models, i, kept);
        KeysSnoc(models, i);
        var key := KeyOf(models[i]);
        if key !in seen {
          kept := kept + [models[i]];
        }
        seen := seen + {key};
      }
      assert models[..|models|] == models;
      models := kept;
    }

    method Dedupe()
      modifies this
      ensures models == LastOccurrences(old(models))
    {
      Reverse();
      RetainUnseen();
      assert Reversed(Reversed(old(models))) == old(models);
      Reverse();
    }

    method Upsert(model: Model)
      modifies this
      ensures models == Upserted(old(models), model)
    {
      var i := 0;
      while i < |models| && !SameAddress(models[i], model)
        invariant i <= |models| && models == old(models)
        invariant forall j :: 0 <= j < i ==> !SameAddress(models[j], model)
      {
        i := i + 1;
      }
      models := if i < |models| then models[i := model] else models + [model];
    }
  }

  lemma KeysSnoc(models: seq<Model>, i: nat)
    requires i < |models|
    ensures Keys(models[..i + 1]) == Keys(models[..i]) + {KeyOf(models[i])}
  {
  }

  lemma RetainStep(models: seq<Model>, i: nat, kept: seq<Model>)
    requires i < |models| && Reversed(kept) == LastOccurrences(Reversed(models[..i]))
    ensures LastOccurrences(Reversed(models[..i + 1]))
         == Reversed(if KeyOf(models[i]) in Keys(models[..i]) then kept else kept + [models[i]])
  {
    var longer := Reversed(models[..i + 1]);
    assert longer[1..] == Reversed(models[..i]);
    assert Reversed(kept + [models[i]]) == [models[i]] + Reversed(kept);
    if KeyOf(models[i]) in Keys(models[..i]) {
      var k :| 0 <= k < i && KeyOf(models[k]) == KeyOf(models[i]);
      assert longer[i - k] == models[k];
    } else {
      forall j | 1 <= j < |longer| ensures KeyOf(longer[j]) != KeyOf(models[i]) {
        assert longer[j] == models[i - j];
      }
    }
  }

  // ----- What deduplication gives -----

  /** `kept` is `models` with exactly the positions in `at` kept, in order. */
  ghost predicate PickedAt(models: seq<Model>, kept: seq<Model>, at: seq<nat>) {
    && |at| == |kept|
    && (forall i :: 0 <= i < |at| ==> at[i] < |models| && models[at[i]] == kept[i])
    && (forall i, j :: 0 <= i < j < |at| ==> at[i] < at[j])
  }

  function Shifted(at: seq<nat>): (r: seq<nat>)
    ensures |r| == |at| && forall i :: 0 <= i < |r| ==> r[i] == at[i] + 1
  {
    seq(|at|, i requires 0 <= i < |at| => at[i] + 1)
  }

  /** Exactly the last occurrence of every key is kept, in the original order. */
  lemma {:induction false} KeepsLastOccurrences(models: seq<Model>) returns (at: seq<nat>)
    ensures PickedAt(models, LastOccurrences(models), at)
    ensures forall i :: 0 <= i < |models| ==> (i in at <==> IsLast(models, i))
  {
    if models == [] {
      return [];
    }
    var tail := KeepsLastOccurrences(models[1..]);
    at := if IsLast(models, 0) then [0] + Shifted(tail) else Shifted(tail);
    assert IsLast(models, 0) <==> !exists j :: 1 <= j < |models| && KeyOf(models[j]) == KeyOf(models[0]);
    ShiftedPicks(models, LastOccurrences(models[1..]), tail);
    forall i | 0 < i < |models| ensures i in at <==> IsLast(models, i) {
      LastInRest(models, i);
      ShiftedHas(tail, i);
      assert i in at <==> i in Shifted(tail);
    }
    ShiftedHas(tail, 0);
  }

  lemma ShiftedPicks(models: seq<Model>, kept: seq<Model>, at: seq<nat>)
    requires models != [] && PickedAt(models[1..], kept, at)
    ensures PickedAt(models, kept, Shifted(at))
    ensures PickedAt(models, [models[0]] + kept, [0] + Shifted(at))
  {
  }

  lemma ShiftedHas(at: seq<nat>, i: nat)
    ensures i in Shifted(at) <==> i > 0 && i - 1 in at
  {
    if i > 0 && i - 1 in at {
      var k :| 0 <= k < |at| && at[k] == i - 1;
      assert Shifted(at)[k] == i;
    }
  }

  lemma LastInRest(models: seq<Model>, i: nat)
    requires 0 < i < |models|
    ensures IsLast(models, i) <==> IsLast(models[1..], i - 1)
  {
    var rest := models[1..];
    if IsLast(rest, i - 1) {
      forall j | i < j < |models| ensures KeyOf(models[j]) != KeyOf(models[i]) {
        assert rest[j - 1] == models[j];
      }
    }
  }

  /** The result addresses each model uniquely, has every key there was, and is not changed
      by deduplicating again; a catalog without duplicates is left as it is. */
  lemma {:induction false} DedupeIsClean(models: seq<Model>)
    ensures DistinctKeys(LastOccurrences(models)) && Keys(LastOccurrences(models)) == Keys(models)
    ensures LastOccurrences(LastOccurrences(models)) == LastOccurrences(models)
  {
    var at := KeepsLastOccurrences(models);
    var kept := LastOccurrences(models);
    forall i, j | 0 <= i < j < |kept| ensures KeyOf(kept[i]) != KeyOf(kept[j]) {
      assert at[i] in at && IsLast(models, at[i]);
    }
    DistinctAreKept(kept);
    forall key | key in Keys(models) ensures key in Keys(kept) {
      var i :| 0 <= i < |models| && KeyOf(models[i]) == key;
      var last := LastWithKey(models, i);
      var k :| 0 <= k < |at| && at[k] == last;
      assert KeyOf(kept[k]) == key;
    }
  }

  lemma {:induction false} LastWithKey(models: seq<Model>, i: nat) returns (last: nat)
    requires i < |models|
    ensures i <= last < |models| && KeyOf(models[last]) == KeyOf(models[i]) && IsLast(models, last)
    decreases |models| - i
  {
    if IsLast(models, i) {
      last := i;
    } else {
      var j :| i < j < |models| && KeyOf(models[j]) == KeyOf(models[i]);
      last := LastWithKey(models, j);
    }
  }

  lemma {:induction false} DistinctAreKept(models: seq<Model>)
    requires DistinctKeys(models)
    ensures LastOccurrences(models) == models
  {
    if models != [] {
      DistinctAreKept(models[1..]);
    }
  }

  // ----- The key -----

  /** One provider name is another followed by a NUL, and perhaps more. */
  predicate Clash(p: string, q: string) {
    p != q && (p + ['\0'] <= q || q + ['\0'] <= p)
  }

  lemma KeyAt(model: Model, k: nat)
    requires k <= |model.provider|
    ensures k < |KeyOf(model)| && KeyOf(model)[k] == if k < |model.provider| then model.provider[k] else '\0'
  {
  }

  lemma EqualKeysClash(a: Model, b: Model)
    requires KeyOf(a) == KeyOf(b) && |a.provider| < |b.provider|
    ensures a.provider + ['\0'] <= b.provider
  {
    var m := |a.provider|;
    forall k | 0 <= k <= m ensures (a.provider + ['\0'])[k] == b.provider[k] {
      KeyAt(a, k);
      KeyAt(b, k);
    }
  }

  lemma EqualKeysSplit(a: Model, b: Model)
    requires KeyOf(a) == KeyOf(b) && |a.provider| == |b.provider|
    ensures SameAddress(a, b)
  {
    var m := |a.provider|;
    assert a.provider == KeyOf(a)[..m] && b.provider == KeyOf(b)[..m];
    assert a.id == KeyOf(a)[m + 1..] && b.id == KeyOf(b)[m + 1..];
  }

  /** The joined key tells two models apart as their addresses do, unless their providers
      clash; ids may contain anything. */
  lemma KeyIsAddress(a: Model, b: Model)
    requires !Clash(a.provider, b.provider)
    ensures KeyOf(a) == KeyOf(b) <==> SameAddress(a, b)
  {
    if KeyOf(a) == KeyOf(b) {
      if |a.provider| == |b.provider| {
        EqualKeysSplit(a, b);
      } else if |a.provider| < |b.provider| {
        EqualKeysClash(a, b);
      } else {
        EqualKeysClash(b, a);
      }
    }
  }

  predicate Collide(a: Model, b: Model) {
    !SameAddress(a, b) && KeyOf(a) == KeyOf(b)
  }

  /** Models of two providers can collide exactly if the providers clash. */
  lemma ProvidersCollideIff(p: string, q: string)
    ensures (exists a: Model, b: Model :: a.provider == p && b.provider == q && Collide(a, b)) <==> Clash(p, q)
  {
    if Clash(p, q) {
      if p + ['\0'] <= q {
        var a, b := Colliding(p, q);
        assert Collide(a, b);
      } else {
        var b, a := Colliding(q, p);
        assert Collide(a, b);
      }
    } else {
      forall a: Model, b: Model | a.provider == p && b.provider == q ensures !Collide(a, b) {
        KeyIsAddress(a, b);
      }
    }
  }

  lemma Colliding(p: string, q: string) returns (a: Model, b: Model)
    requires p + ['\0'] <= q
    ensures a.provider == p && b.provider == q && Collide(a, b)
  {
    var rest := q[|p| + 1..];
    a, b := Model(p, rest + ['\0'], ""), Model(q, "", "");
    assert q == p + ['\0'] + rest;
    assert KeyOf(a) == p + ['\0'] + (rest + ['\0']) == q + ['\0'] + "" == KeyOf(b);
  }

  /** No later model has the address of the one at `i`. */
  predicate IsLastAddress(models: seq<Model>, i: nat)
    requires i < |models|
  {
    forall j :: i < j < |models| ==> !SameAddress(models[j], models[i])
  }

  predicate NoCollision(models: seq<Model>) {
    forall i, j :: 0 <= i < j < |models| ==> !Collide(models[i], models[j])
  }

  /** Deduplicating keeps the last model of every address, and nothing else, exactly if no two
      models of the catalog collide. */
  lemma KeepsLastAddressesIff(models: seq<Model>)
    ensures (forall i :: 0 <= i < |models| ==> (IsLast(models, i) <==> IsLastAddress(models, i)))
       <==> NoCollision(models)
  {
    if NoCollision(models) {
      forall i | 0 <= i < |models| ensures IsLast(models, i) <==> IsLastAddress(models, i) {
        LastAgrees(models, i);
      }
    } else {
      var i, j :| 0 <= i < j < |models| && Collide(models[i], models[j]);
      var p := LastWithAddress(models, i);
      var q := LastWithAddress(models, j);
      assert Collide(models[p], models[q]) && p != q;
      var first := if p < q then p else q;
      assert IsLastAddress(models, first) && !IsLast(models, first);
    }
  }

  lemma LastAgrees(models: seq<Model>, i: nat)
    requires NoCollision(models) && i < |models|
    ensures IsLast(models, i) <==> IsLastAddress(models, i)
  {
    forall j | i < j < |models| ensures KeyOf(models[j]) == KeyOf(models[i]) <==> SameAddress(models[j], models[i]) {
      assert !Collide(models[i], models[j]);
    }
  }

  lemma {:induction false} LastWithAddress(models: seq<Model>, i: nat) returns (last: nat)
    requires i < |models|
    ensures i <= last < |models| && SameAddress(models[last], models[i]) && IsLastAddress(models, last)
    decreases |models| - i
  {
    if IsLastAddress(models, i) {
      last := i;
    } else {
      var j :| i < j < |models| && SameAddress(models[j], models[i]);
      last := LastWithAddress(models, j);
    }
  }

  /** Without clashing providers in the catalog nothing collides. */
  lemma NoClashNoCollision(models: seq<Model>)
    requires forall i, j :: 0 <= i < j < |models| ==> !Clash(models[i].provider, models[j].provider)
    ensures NoCollision(models)
  {
    forall i, j | 0 <= i < j < |models| ensures !Collide(models[i], models[j]) {
      KeyIsAddress(models[i], models[j]);
    }
  }

  /** A deduplicated catalog addresses every model uniquely, clash or no clash. */
  lemma DedupedIsUnique(models: seq<Model>)
    ensures UniqueAddresses(LastOccurrences(models))
  {
    var kept := LastOccurrences(models);
    DedupeIsClean(models);
    forall i, j | 0 <= i < j < |kept| ensures !SameAddress(kept[i], kept[j]) {
      assert KeyOf(kept[i]) != KeyOf(kept[j]);
    }
  }

  /** After an upsert exactly this model has its address, every other model is where it was,
      and a catalog that was unique still is. */
  lemma UpsertKeepsUnique(models: seq<Model>, model: Model)
    requires UniqueAddresses(models)
    ensures var next := Upserted(models, model);
            && UniqueAddresses(next)
            && (forall i :: 0 <= i < |next| ==> (SameAddress(next[i], model) <==> next[i] == model))
            && model in next
            && |next| >= |models|
            && forall i :: 0 <= i < |models| && !SameAddress(models[i], model) ==> next[i] == models[i]
  {
    var next := Upserted(models, model);
    var i := Find(models, model);
    assert next[i] == model;
    forall j | 0 <= j < |next| && SameAddress(next[j], model) ensures next[j] == model {
      if j != i && i < |models| {
        assert SameAddress(models[i], models[j]);
      }
    }
  }
}
