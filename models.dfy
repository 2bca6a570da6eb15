/** The model catalog (src/lib/ai/models.ts). */
module Models {
  import opened Wrappers

  datatype Model = Model(id: string, name: string, provider: string)

  const MODELS: seq<Model> := [
    Model("google/gemini-3-flash-preview", "Gemini 3 Flash", "Google"),
    Model("google/gemini-3-pro-preview", "Gemini 3 Pro", "Google"),
    Model("anthropic/claude-opus-4.5", "Claude Opus 4.5", "Anthropic"),
    Model("anthropic/claude-haiku-4.5", "Claude Haiku 4.5", "Anthropic"),
    Model("anthropic/claude-sonnet-4.5", "Claude Sonnet 4.5", "Anthropic"),
    Model("moonshotai/kimi-k2-0905", "Kimi K2", "Moonshot")
  ]

  /** Default model for new conversations: the first catalog entry. */
  const DEFAULT_MODEL: string := MODELS[0].id

  // ---------------------------------------------------------------------------
  // Grouping by provider
  // ---------------------------------------------------------------------------

  /** The models of `ms` whose provider is `p`, in catalog order. */
  function ProviderGroup(ms: seq<Model>, p: string): seq<Model> {
    if ms == [] then []
    else ProviderGroup(ms[..|ms| - 1], p) + (if ms[|ms| - 1].provider == p then [ms[|ms| - 1]] else [])
  }

  /** The providers of `ms`, each once, in order of first appearance: the key order of the
      JavaScript Map that `getModelsByProvider` fills. */
  function ProviderOrder(ms: seq<Model>): seq<string> {
    if ms == [] then []
    else
      var order := ProviderOrder(ms[..|ms| - 1]);
      if ms[|ms| - 1].provider in order then order else order + [ms[|ms| - 1].provider]
  }

  /** A JavaScript Map from provider to models: its keys in insertion order, and its entries. */
  datatype Grouping = Grouping(keys: seq<string>, groups: map<string, seq<Model>>)

  /** `getModelsByProvider`: one pass over MODELS that appends each model to the group of
      its provider, creating the group (at the end of the key order) on first sight. */
  method GetModelsByProvider() returns (r: Grouping)
    ensures r.keys == ProviderOrder(MODELS)
    ensures r.groups.Keys == set p | p in r.keys
    ensures forall p :: p in r.groups ==> r.groups[p] == ProviderGroup(MODELS, p)
  {
    var keys: seq<string> := [];
    var groups: map<string, seq<Model>> := map[];
    for i := 0 to |MODELS|
      invariant keys == ProviderOrder(MODELS[..i])
      invariant groups.Keys == set p | p in keys
      invariant forall p :: p in groups ==> groups[p] == ProviderGroup(MODELS[..i], p)
    {
      var model := MODELS[i];
      assert MODELS[..i + 1][..i] == MODELS[..i];
      var existing := if model.provider in groups then groups[model.provider] else [];
      if model.provider !in groups {
        EmptyGroupOfAbsentProvider(MODELS[..i], model.provider);
        keys := keys + [model.provider];
      }
      groups := groups[model.provider := existing + [model]];
    }
    assert MODELS[..|MODELS|] == MODELS;
    r := Grouping(keys, groups);
  }

  /** A provider that has no key yet has no models yet. */
  lemma {:induction false} EmptyGroupOfAbsentProvider(ms: seq<Model>, p: string)
    requires p !in ProviderOrder(ms)
    ensures ProviderGroup(ms, p) == []
  {
    if ms != [] {
      EmptyGroupOfAbsentProvider(ms[..|ms| - 1], p);
    }
  }

  /** Every model lies in the group keyed by its own provider and in no other. */
  lemma {:induction false} GroupMembership(ms: seq<Model>, m: Model, p: string)
    ensures m in ProviderGroup(ms, p) <==> m in ms && m.provider == p
  {
    if ms != [] {
      var init := ms[..|ms| - 1];
      GroupMembership(init, m, p);
      assert ms == init + [ms[|ms| - 1]];
    }
  }

  /** Grouping distributes over concatenation, so each group keeps the catalog's relative order. */
  lemma {:induction false} GroupOfConcat(a: seq<Model>, b: seq<Model>, p: string)
    ensures ProviderGroup(a + b, p) == ProviderGroup(a, p) + ProviderGroup(b, p)
  {
    if b != [] {
      var init := b[..|b| - 1];
      assert (a + b)[..|a + b| - 1] == a + init;
      GroupOfConcat(a, init, p);
    } else {
      assert a + b == a;
    }
  }

  /** The keys are distinct and are exactly the providers that occur. */
  lemma {:induction false} ProviderOrderKeys(ms: seq<Model>)
    ensures forall i, j :: 0 <= i < j < |ProviderOrder(ms)| ==> ProviderOrder(ms)[i] != ProviderOrder(ms)[j]
    ensures forall p :: p in ProviderOrder(ms) <==> exists m :: m in ms && m.provider == p
  {
    if ms != [] {
      var init := ms[..|ms| - 1];
      ProviderOrderKeys(init);
      assert ms == init + [ms[|ms| - 1]];
      forall p ensures p in ProviderOrder(ms) <==> exists m :: m in ms && m.provider == p {
        if p in ProviderOrder(ms) && p !in ProviderOrder(init) {
          assert ms[|ms| - 1] in ms;
        }
        if (exists m :: m in ms && m.provider == p) {
          var m :| m in ms && m.provider == p;
          if m != ms[|ms| - 1] {
            assert m in init;
          }
        }
      }
    }
  }

  /** The sum of the sizes of the groups named by `keys`. */
  function GroupSizes(ms: seq<Model>, keys: seq<string>): nat {
    if keys == [] then 0 else |ProviderGroup(ms, keys[0])| + GroupSizes(ms, keys[1..])
  }

  /** How often `p` occurs in `keys`. */
  function Occurrences(keys: seq<string>, p: string): nat {
    if keys == [] then 0 else (if keys[0] == p then 1 else 0) + Occurrences(keys[1..], p)
  }

  lemma {:induction false} OccursOnce(keys: seq<string>, p: string)
    requires forall i, j :: 0 <= i < j < |keys| ==> keys[i] != keys[j]
    requires p in keys
    ensures Occurrences(keys, p) == 1
  {
    if keys[0] == p {
      NotOccurring(keys[1..], p);
    } else {
      OccursOnce(keys[1..], p);
    }
  }

  lemma {:induction false} NotOccurring(keys: seq<string>, p: string)
    requires p !in keys
    ensures Occurrences(keys, p) == 0
  {
    if keys != [] {
      NotOccurring(keys[1..], p);
    }
  }

  /** Adding one model grows the total by one for each time its provider is named. */
  lemma {:induction false} GroupSizesSnoc(ms: seq<Model>, m: Model, keys: seq<string>)
    ensures GroupSizes(ms + [m], keys) == GroupSizes(ms, keys) + Occurrences(keys, m.provider)
  {
    if keys != [] {
      assert (ms + [m])[..|ms + [m]| - 1] == ms;
      GroupSizesSnoc(ms, m, keys[1..]);
    }
  }

  /** Over any distinct keys that cover the providers, the group sizes add up to the
      number of models. */
  lemma {:induction false} GroupSizesCover(ms: seq<Model>, keys: seq<string>)
    requires forall i, j :: 0 <= i < j < |keys| ==> keys[i] != keys[j]
    requires forall m :: m in ms ==> m.provider in keys
    ensures GroupSizes(ms, keys) == |ms|
  {
    if ms == [] {
      EmptyGroupSizes(keys);
    } else {
      var init := ms[..|ms| - 1];
      var last := ms[|ms| - 1];
      assert ms == init + [last];
      assert forall m :: m in init ==> m in ms;
      GroupSizesCover(init, keys);
      GroupSizesSnoc(init, last, keys);
      OccursOnce(keys, last.provider);
    }
  }

  lemma {:induction false} EmptyGroupSizes(keys: seq<string>)
    ensures GroupSizes([], keys) == 0
  {
    if keys != [] {
      EmptyGroupSizes(keys[1..]);
    }
  }

  /** The groups of `getModelsByProvider` hold MODELS.length models in all. */
  lemma GroupSizesSumToCatalog()
    ensures GroupSizes(MODELS, ProviderOrder(MODELS)) == |MODELS|
  {
    ProviderOrderKeys(MODELS);
    GroupSizesCover(MODELS, ProviderOrder(MODELS));
  }

  // ---------------------------------------------------------------------------
  // Lookup
  // ---------------------------------------------------------------------------

  /** `Array.prototype.find` on the id: the first model with that id, or None. */
  function FindById(ms: seq<Model>, id: string): (r: Option<Model>)
    ensures r.None? <==> forall k :: 0 <= k < |ms| ==> ms[k].id != id
    ensures r.Some? ==> exists k :: 0 <= k < |ms| && ms[k] == r.value && r.value.id == id
                          && forall j :: 0 <= j < k ==> ms[j].id != id
  {
    if ms == [] then None
    else if ms[0].id == id then Some(ms[0])
    else
      var r := FindById(ms[1..], id);
      assert r.Some? ==> exists k :: 0 <= k < |ms[1..]| && ms[1..][k] == r.value && r.value.id == id
                          && (forall j :: 0 <= j < k ==> ms[1..][j].id != id);
      r
  }

  /** `getModelById`: the first catalog model with the given id, or undefined. */
  function GetModelById(id: string): (r: Option<Model>)
    ensures r.Some? ==> r.value in MODELS && r.value.id == id
    ensures r.None? <==> forall m :: m in MODELS ==> m.id != id
  {
    FindById(MODELS, id)
  }

  /** `isValidModel`: some catalog model has the id. */
  predicate IsValidModel(id: string): (valid: bool)
    ensures valid <==> GetModelById(id).Some?
  {
    exists k :: 0 <= k < |MODELS| && MODELS[k].id == id
  }

  /** A model id is valid exactly when looking it up finds a model. */
  lemma ValidIffFound(id: string)
    ensures IsValidModel(id) <==> GetModelById(id).Some?
    ensures GetModelById(id).Some? ==> GetModelById(id).value.id == id
  {
  }

  /** DEFAULT_MODEL is the first catalog id, and it is a valid model. */
  lemma DefaultModelIsValid()
    ensures DEFAULT_MODEL == "google/gemini-3-flash-preview"
    ensures IsValidModel(DEFAULT_MODEL)
    ensures GetModelById(DEFAULT_MODEL) == Some(MODELS[0])
  {
  }
}
