/**
 * Properties of the resolver as a whole: the provider order decides, a
 * failed lookup names the type, and once a marshaler is resolved, applying
 * it to a well-typed host value does not fail.
 */
module CacheFacts {
  import opened Model
  import opened Reflection
  import opened FormulaTypes
  import opened Marshalers
  import opened ObjectRecord
  import opened MarshalCache
  import PrimitiveProvider

  // ---------------------------------------------------------------------
  // One-step unfoldings of the resolver, for the worked examples.

  lemma ResolveMiss(cfg: Config, st: State, t: HostType)
    requires st.depth >= 1 && t !in st.cache
    ensures Resolve(cfg, st, t) == TryProviders(cfg, State(st.cache, st.depth - 1), t, 0, st.depth - 1)
  {
  }

  lemma Declines(cfg: Config, st: State, t: HostType, i: nat, cap: int)
    requires i < |cfg.providers| && 0 <= cap && st.depth <= cap && !Accepts(cfg.providers[i], t)
    ensures TryProviders(cfg, st, t, i, cap) == TryProviders(cfg, st, t, i + 1, cap)
  {
  }

  lemma PrimitiveBuilds(cfg: Config, st: State, t: HostType, i: nat, cap: int)
    requires i < |cfg.providers| && 0 <= cap && st.depth <= cap
    requires cfg.providers[i] == PrimitiveP && PrimitiveProvider.New(t).Some?
    ensures TryProviders(cfg, st, t, i, cap)
            == Built(PrimitiveProvider.New(t).value, State(st.cache[t := PrimitiveProvider.New(t).value], st.depth))
  {
  }

  lemma ObjectBuilds(cfg: Config, mapper: Prop -> Option<string>, st: State, t: HostType, i: nat, cap: int,
                     m: Marshaler, st': State)
    requires i < |cfg.providers| && 0 <= cap && st.depth <= cap
    requires cfg.providers[i] == ObjectP(mapper) && IsClass(t)
    requires FieldsLoop(cfg, mapper, st, t, 0, map[], Record([]), cap) == Built(m, st')
    ensures TryProviders(cfg, st, t, i, cap) == Built(m, State(st'.cache[t := m], st'.depth))
  {
    assert ObjectProviderNew(cfg, mapper, st, t, cap) == Built(m, st');
    assert ProviderNew(cfg, cfg.providers[i], st, t, cap) == Built(m, st');
  }

  lemma LoopTakes(cfg: Config, mapper: Prop -> Option<string>, st: State, t: HostType, i: nat,
                  mapping: map<string, Getter>, fxType: FxType, cap: int, m: Marshaler, st': State)
    requires i < |Properties(cfg.classes, t)| && fxType.Record? && 0 <= cap && st.depth <= cap
    requires Properties(cfg.classes, t)[i].canRead && mapper(Properties(cfg.classes, t)[i]).Some?
    requires Resolve(cfg, st, Properties(cfg.classes, t)[i].ty) == Built(m, st')
    ensures var p := Properties(cfg.classes, t)[i];
            FieldsLoop(cfg, mapper, st, t, i, mapping, fxType, cap)
            == FieldsLoop(cfg, mapper, st', t, i + 1, mapping[mapper(p).value := Getter(p, m)],
                          AddField(fxType, mapper(p).value, TypeOf(m)), cap)
  {
  }

  lemma LoopSkips(cfg: Config, mapper: Prop -> Option<string>, st: State, t: HostType, i: nat,
                  mapping: map<string, Getter>, fxType: FxType, cap: int)
    requires i < |Properties(cfg.classes, t)| && fxType.Record? && 0 <= cap && st.depth <= cap
    requires !Properties(cfg.classes, t)[i].canRead || mapper(Properties(cfg.classes, t)[i]).None?
    ensures FieldsLoop(cfg, mapper, st, t, i, mapping, fxType, cap)
            == FieldsLoop(cfg, mapper, st, t, i + 1, mapping, fxType, cap)
  {
  }

  lemma LoopEnds(cfg: Config, mapper: Prop -> Option<string>, st: State, t: HostType,
                 mapping: map<string, Getter>, fxType: FxType, cap: int)
    requires fxType.Record? && 0 <= cap && st.depth <= cap
    ensures FieldsLoop(cfg, mapper, st, t, |Properties(cfg.classes, t)|, mapping, fxType, cap)
            == Built(ObjectM(fxType, mapping), st)
  {
  }

  /** On a cache miss the top-level call runs the provider loop with the
      counter already lowered once. */
  lemma MissRunsProviders(cfg: Config, cache: Cache, t: HostType)
    requires t !in cache
    ensures New(cfg, cache, t) == Outer(TryProviders(cfg, State(cache, InitialDepth - 1), t, 0, InitialDepth - 1))
  {
  }

  /** The provider list is ordered: on a cache miss the answer is exactly
      what the first provider that accepts the type builds (with the counter
      already lowered once), stored under the type, or that provider's
      failure, whatever the later providers would do. */
  lemma FirstMatchWins(cfg: Config, cache: Cache, t: HostType, j: nat)
    requires t !in cache && j < |cfg.providers| && Accepts(cfg.providers[j], t)
    requires forall k | 0 <= k < j :: !Accepts(cfg.providers[k], t)
    ensures var s := ProviderNew(cfg, cfg.providers[j], State(cache, InitialDepth - 1), t, InitialDepth - 1);
            && (s.Built? ==> New(cfg, cache, t) == Built(s.m, s.st.cache[t := s.m]))
            && (s.Failed? ==> New(cfg, cache, t) == Failed(s.err, s.st.cache))
    ensures New(cfg, cache, t).Built? ==> BuiltBy(cfg.providers[j], New(cfg, cache, t).m)
  {
    var s := ProviderNew(cfg, cfg.providers[j], State(cache, InitialDepth - 1), t, InitialDepth - 1);
    assert FirstAccepting(cfg.providers, t, 0) == Some(j);
    FirstMatchResult(cfg, cache, t, j);
    if New(cfg, cache, t).Built? {
      assert s.Built? && New(cfg, cache, t).m == s.m;
    }
  }

  /** The provider loop's answer on a miss, read through the top-level call. */
  lemma FirstMatchResult(cfg: Config, cache: Cache, t: HostType, j: nat)
    requires t !in cache && FirstAccepting(cfg.providers, t, 0) == Some(j)
    ensures var s := ProviderNew(cfg, cfg.providers[j], State(cache, InitialDepth - 1), t, InitialDepth - 1);
            && (s.Built? ==> New(cfg, cache, t) == Built(s.m, s.st.cache[t := s.m]))
            && (s.Failed? ==> New(cfg, cache, t) == Failed(s.err, s.st.cache))
  {
    MissRunsProviders(cfg, cache, t);
  }

  /** When every provider declines, the lookup fails naming the type and the
      cache is left as it was. */
  lemma NoProviderFails(cfg: Config, cache: Cache, t: HostType)
    requires t !in cache
    requires forall j | 0 <= j < |cfg.providers| :: !Accepts(cfg.providers[j], t)
    ensures New(cfg, cache, t) == Failed(CantMarshal(t), cache)
  {
    MissRunsProviders(cfg, cache, t);
  }

  /** Arrays are classes, so both the table and the object provider accept
      an array type, and their order decides how an array that marshals at
      all is marshaled: as a table when the table provider comes first, as a
      record otherwise. With the table provider first the lookup can also
      fail (`ScalarArrayFails`, `FormulaValueArrayFails`). */
  lemma ArrayPrecedence(classes: ClassTable, cache: Cache, e: HostType, mapper: Prop -> Option<string>)
    requires TArray(e) !in cache
    ensures var r := New(Config(classes, [PrimitiveP, TableP, ObjectP(mapper)]), cache, TArray(e));
            r.Built? ==> r.m.TableM?
    ensures var r := New(Config(classes, [PrimitiveP, ObjectP(mapper), TableP]), cache, TArray(e));
            r.Built? ==> r.m.ObjectM?
  {
    var tableFirst := Config(classes, [PrimitiveP, TableP, ObjectP(mapper)]);
    if New(tableFirst, cache, TArray(e)).Built? {
      FirstMatchWins(tableFirst, cache, TArray(e), 1);
    }
    var objectFirst := Config(classes, [PrimitiveP, ObjectP(mapper), TableP]);
    if New(objectFirst, cache, TArray(e)).Built? {
      FirstMatchWins(objectFirst, cache, TArray(e), 1);
    }
  }

  /** An array of scalars cannot be a table: the element marshaler's Type
      is Number or Text, and the cast to a record type fails. */
  lemma ScalarArrayFails(classes: ClassTable, cache: Cache, e: HostType, mapper: Prop -> Option<string>)
    requires TArray(e) !in cache && e !in cache && PrimitiveProvider.New(e).Some?
    ensures New(Config(classes, [PrimitiveP, TableP, ObjectP(mapper)]), cache, TArray(e))
            == Failed(InvalidCast, cache[e := PrimitiveProvider.New(e).value])
  {
    var cfg := Config(classes, [PrimitiveP, TableP, ObjectP(mapper)]);
    var st := State(cache, InitialDepth - 1);
    MissRunsProviders(cfg, cache, TArray(e));
    Declines(cfg, st, TArray(e), 0, InitialDepth - 1);
    ResolveMiss(cfg, st, e);
    PrimitiveBuilds(cfg, State(cache, InitialDepth - 2), e, 0, InitialDepth - 2);
  }

  /** An array of formula values cannot be a table either: the identity
      marshaler declares a null Type, and turning it into a table type is a
      null reference. */
  lemma FormulaValueArrayFails(classes: ClassTable, cache: Cache, mapper: Prop -> Option<string>)
    requires TArray(TFormulaValue) !in cache && TFormulaValue !in cache
    ensures New(Config(classes, [IdentityP, TableP, ObjectP(mapper)]), cache, TArray(TFormulaValue))
            == Failed(NullReference, cache[TFormulaValue := IdentityM])
  {
    var cfg := Config(classes, [IdentityP, TableP, ObjectP(mapper)]);
    var st := State(cache, InitialDepth - 1);
    MissRunsProviders(cfg, cache, TArray(TFormulaValue));
    Declines(cfg, st, TArray(TFormulaValue), 0, InitialDepth - 1);
    ResolveMiss(cfg, st, TFormulaValue);
  }

  /** With a sound cache and a well-typed heap, `Marshal` can fail only in
      the lookup (no provider for the runtime type, or a table provider's
      cast); applying the resolved marshaler to the value never fails. */
  lemma MarshalFailsOnlyInLookup(cfg: Config, cache: Cache, h: Heap, v: HostValue)
    requires CacheOk(cfg.classes, cache) && HeapTyped(cfg.classes, h) && Allocated(h, v)
    ensures HeapOk(h)
    ensures Marshal(cfg, cache, h, v).0.Err? ==>
              && v != Null
              && New(cfg, cache, RuntimeType(h, v)).Failed?
              && Marshal(cfg, cache, h, v).0.error == New(cfg, cache, RuntimeType(h, v)).err
  {
    TypedHeapIsClosed(cfg.classes, h);
    if v != Null {
      var n := New(cfg, cache, RuntimeType(h, v));
      if n.Built? {
        HasRuntimeType(h, v);
        PairedMarshalSucceeds(cfg.classes, n.m, h, v, RuntimeType(h, v));
      }
    }
  }

  /** With a complete provider list (the default one in particular),
      marshaling a value of a well-typed heap never fails. */
  lemma CompleteMarshalNeverFails(cfg: Config, cache: Cache, h: Heap, v: HostValue)
    requires Complete(cfg.providers) && CacheOk(cfg.classes, cache)
    requires HeapTyped(cfg.classes, h) && Allocated(h, v)
    ensures HeapOk(h)
    ensures Marshal(cfg, cache, h, v).0.Ok?
    ensures CacheOk(cfg.classes, Marshal(cfg, cache, h, v).1)
  {
    MarshalFailsOnlyInLookup(cfg, cache, h, v);
  }

  /** A class instance marshals to a record that holds the very same
      reference as its `Source`, typed by its class's record marshaler. */
  lemma MarshalInstanceKeepsReference(cfg: Config, cache: Cache, h: Heap, a: Addr)
    requires Complete(cfg.providers) && CacheOk(cfg.classes, cache)
    requires HeapOk(h) && a in h && h[a].Instance?
    ensures var r := Marshal(cfg, cache, h, Ref(a)).0;
            && r.Ok? && r.value.ObjRecordV?
            && Source(r.value) == Ref(a)
            && r.value.ty == TypeOf(New(cfg, cache, TClass(h[a].cls)).m)
            && r.value.ty.Record?
  {
    var n := New(cfg, cache, TClass(h[a].cls));
    assert Shape(n.m, TClass(h[a].cls));
  }
}
