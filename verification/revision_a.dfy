/**
 * The earlier revision of the marshaling engine (TypeMarshaller.cs, with the
 * record value of Class1.cs). Its cache has the same provider loop but no
 * depth counter: a record provider resolves every property type through the
 * cache before its own marshaler is stored, so resolution terminates only
 * when no class reaches itself through its properties. The termination
 * argument is a rank on class names that every property type lowers. A
 * fuel-bounded copy of the resolver shows what happens without one: a
 * self-referential class is never built, whatever the fuel.
 */
module RevisionA {
  import opened Model
  import opened Reflection
  import opened FormulaTypes
  import opened Marshalers
  import PrimitiveProvider
  import IdentityProvider
  import MarshalCache
  import ObjectRecord

  /** The providers of this revision; there is no table provider. */
  datatype ProviderA =
    | IdentityA
    | PrimitiveA
    | ObjectA(mapper: Prop -> Option<string>)

  datatype ConfigA = ConfigA(classes: ClassTable, providers: seq<ProviderA>)

  type Cache = map<HostType, Marshaler>

  /** The default list: primitives first, then objects. Every type is
      handled: the scalar types by the primitive provider, every other
      type by the record provider. */
  function DefaultProvidersA(): (r: seq<ProviderA>)
    ensures CompleteA(r)
    ensures forall t :: FirstAcceptingA(r, t, 0) == Some(if PrimitiveProvider.New(t).Some? then 0 else 1)
  {
    var r := [PrimitiveA, ObjectA(MarshalCache.DefaultMapper)];
    assert r[0].PrimitiveA? && r[1].ObjectA?;
    r
  }

  /** The nesting height of a host type under a rank on class names: a
      ranked class sits above every type it does not rank. */
  function Height(rank: map<string, nat>, t: HostType): nat {
    if t.TClass? && t.name in rank then 1 + rank[t.name] else 0
  }

  /** Every class is ranked strictly above the types of its properties: the
      class table has no cycle through properties. */
  predicate Ranked(classes: ClassTable, rank: map<string, nat>) {
    forall c | c in classes ::
      && c in rank
      && forall j | 0 <= j < |classes[c]| :: Height(rank, classes[c][j].ty) < Height(rank, TClass(c))
  }

  lemma PropertyIsLower(classes: ClassTable, rank: map<string, nat>, t: HostType, i: nat)
    requires Ranked(classes, rank) && i < |Properties(classes, t)|
    ensures Height(rank, Properties(classes, t)[i].ty) < Height(rank, t)
  {
  }

  predicate AcceptsA(p: ProviderA, t: HostType) {
    match p
    case IdentityA => IdentityProvider.New(t).Some?
    case PrimitiveA => PrimitiveProvider.New(t).Some?
    case ObjectA(_) => IsClass(t)
  }

  /** Index of the first provider at or after `i` that accepts `t`. */
  function FirstAcceptingA(ps: seq<ProviderA>, t: HostType, i: nat): (r: Option<nat>)
    requires i <= |ps|
    ensures r.Some? ==> i <= r.value < |ps| && AcceptsA(ps[r.value], t)
    ensures r.Some? ==> forall j | i <= j < r.value :: !AcceptsA(ps[j], t)
    ensures r.None? ==> forall j | i <= j < |ps| :: !AcceptsA(ps[j], t)
    decreases |ps| - i
  {
    if i == |ps| then None
    else if AcceptsA(ps[i], t) then Some(i)
    else FirstAcceptingA(ps, t, i + 1)
  }

  /** Marshaler `m` is of the kind provider `p` builds. */
  predicate BuiltByA(p: ProviderA, m: Marshaler) {
    match p
    case IdentityA => m.IdentityM?
    case PrimitiveA => m.PrimitiveM?
    case ObjectA(_) => m.ObjectM?
  }

  /** A provider list with the primitive and the object provider: every
      type is accepted by one of them. */
  predicate CompleteA(ps: seq<ProviderA>) {
    && (exists j | 0 <= j < |ps| :: ps[j].PrimitiveA?)
    && (exists j | 0 <= j < |ps| :: ps[j].ObjectA?)
  }

  /** Marshaler `m` is bound to `t` and, unlike the guarded revision, every
      getter carries a proper marshaler for its property type (there is no
      `Empty` in this revision). */
  predicate FitsA(classes: ClassTable, m: Marshaler, t: HostType) {
    && Shape(m, t)
    && (m.ObjectM? ==>
          forall k | k in m.mapping ::
            && m.mapping[k].prop in Properties(classes, t)
            && m.mapping[k].prop.canRead
            && Shape(m.mapping[k].nested, m.mapping[k].prop.ty))
  }

  predicate CacheOkA(classes: ClassTable, cache: Cache) {
    forall k | k in cache :: FitsA(classes, cache[k], k)
  }

  /** Every entry `c2` adds to `c1` is for a type no higher than `bound`. */
  predicate AddsBelow(rank: map<string, nat>, c1: Cache, c2: Cache, bound: nat) {
    forall k | k in c2 && k !in c1 :: Height(rank, k) <= bound
  }

  /** `TypeMarshallerCache.New(type)` of this revision: a cache hit by exact
      type, otherwise the providers in order; the answer is stored under the
      type once it is built, and a failure names the type. */
  function ResolveA(cfg: ConfigA, ghost rank: map<string, nat>, cache: Cache, t: HostType): (r: Step<Cache>)
    requires Ranked(cfg.classes, rank)
    ensures !r.Declined?
    ensures MarshalCache.Extends(cache, r.st)
    ensures AddsBelow(rank, cache, r.st, Height(rank, t))
    ensures r.Built? ==> t in r.st && r.st[t] == r.m
    ensures t in cache ==> r == Built(cache[t], cache)
    ensures r.Failed? ==> r.err.CantMarshal?
    ensures CacheOkA(cfg.classes, cache) ==> CacheOkA(cfg.classes, r.st)
    ensures CacheOkA(cfg.classes, cache) && r.Built? ==> FitsA(cfg.classes, r.m, t)
    ensures CompleteA(cfg.providers) ==> r.Built?
    decreases Height(rank, t), 3, 0
  {
    if t in cache then Built(cache[t], cache)
    else TryProvidersA(cfg, rank, cache, t, 0)
  }

  /** The provider loop; the winner's marshaler is stored under `t`, which
      the nested resolutions cannot have added (they only add lower types). */
  function TryProvidersA(cfg: ConfigA, ghost rank: map<string, nat>, cache: Cache, t: HostType, i: nat): (r: Step<Cache>)
    requires Ranked(cfg.classes, rank) && i <= |cfg.providers| && t !in cache
    ensures !r.Declined?
    ensures MarshalCache.Extends(cache, r.st)
    ensures AddsBelow(rank, cache, r.st, Height(rank, t))
    ensures r.Built? ==> t in r.st && r.st[t] == r.m
    ensures r.Failed? ==> r.err.CantMarshal?
    ensures (forall j | i <= j < |cfg.providers| :: !AcceptsA(cfg.providers[j], t)) ==>
              r == Failed(CantMarshal(t), cache)
    ensures FirstAcceptingA(cfg.providers, t, i).None? ==> r == Failed(CantMarshal(t), cache)
    ensures FirstAcceptingA(cfg.providers, t, i).Some? && r.Built? ==>
              BuiltByA(cfg.providers[FirstAcceptingA(cfg.providers, t, i).value], r.m)
    ensures FirstAcceptingA(cfg.providers, t, i).Some? ==>
              var s := ProviderNewA(cfg, rank, cache, cfg.providers[FirstAcceptingA(cfg.providers, t, i).value], t);
              && (s.Built? ==> r == Built(s.m, s.st[t := s.m]))
              && (s.Failed? ==> r == s)
    ensures CacheOkA(cfg.classes, cache) ==> CacheOkA(cfg.classes, r.st)
    ensures CacheOkA(cfg.classes, cache) && r.Built? ==> FitsA(cfg.classes, r.m, t)
    ensures CompleteA(cfg.providers) && (exists j | i <= j < |cfg.providers| :: AcceptsA(cfg.providers[j], t)) ==>
              r.Built?
    decreases Height(rank, t), 2, |cfg.providers| - i
  {
    if i == |cfg.providers| then Failed(CantMarshal(t), cache)
    else
      match ProviderNewA(cfg, rank, cache, cfg.providers[i], t)
      case Declined(_) => TryProvidersA(cfg, rank, cache, t, i + 1)
      case Built(m, c) => Built(m, c[t := m])
      case Failed(e, c) => Failed(e, c)
  }

  function ProviderNewA(cfg: ConfigA, ghost rank: map<string, nat>, cache: Cache, p: ProviderA, t: HostType): (r: Step<Cache>)
    requires Ranked(cfg.classes, rank)
    ensures r.Declined? <==> !AcceptsA(p, t)
    ensures r.Declined? ==> r.st == cache
    ensures MarshalCache.Extends(cache, r.st)
    ensures forall k | k in r.st && k !in cache :: Height(rank, k) < Height(rank, t)
    ensures r.Built? ==> BuiltByA(p, r.m)
    ensures r.Failed? ==> r.err.CantMarshal?
    ensures CacheOkA(cfg.classes, cache) ==> CacheOkA(cfg.classes, r.st)
    ensures CacheOkA(cfg.classes, cache) && r.Built? ==> FitsA(cfg.classes, r.m, t)
    ensures CompleteA(cfg.providers) && AcceptsA(p, t) ==> r.Built?
    decreases Height(rank, t), 1, 0
  {
    match p
    case IdentityA =>
      (match IdentityProvider.New(t)
       case Some(m) => Built(m, cache)
       case None => Declined(cache))
    case PrimitiveA =>
      (match PrimitiveProvider.New(t)
       case Some(m) => Built(m, cache)
       case None => Declined(cache))
    case ObjectA(mapper) =>
      if !IsClass(t) then Declined(cache)
      else FieldsLoopA(cfg, rank, mapper, cache, t, 0, map[], Record([]))
  }

  /** The property loop of this revision's `ObjectMarshalerProvider.New`:
      the same skipping, resolving and appending as the guarded one, with
      no budget. */
  function FieldsLoopA(cfg: ConfigA, ghost rank: map<string, nat>, mapper: Prop -> Option<string>, cache: Cache,
                       t: HostType, i: nat, mapping: map<string, Getter>, fxType: FxType): (r: Step<Cache>)
    requires Ranked(cfg.classes, rank) && i <= |Properties(cfg.classes, t)| && fxType.Record?
    ensures !r.Declined?
    ensures MarshalCache.Extends(cache, r.st)
    ensures forall k | k in r.st && k !in cache :: Height(rank, k) < Height(rank, t)
    ensures r.Built? ==> r.m.ObjectM? && r.m.ty.Record?
    ensures r.Failed? ==> r.err.CantMarshal?
    ensures CacheOkA(cfg.classes, cache) ==> CacheOkA(cfg.classes, r.st)
    ensures CacheOkA(cfg.classes, cache) && r.Built? && IsClass(t) &&
            (forall k | k in mapping ::
               && mapping[k].prop in Properties(cfg.classes, t)
               && mapping[k].prop.canRead
               && Shape(mapping[k].nested, mapping[k].prop.ty)) ==>
              FitsA(cfg.classes, r.m, t)
    ensures CompleteA(cfg.providers) ==> r.Built?
    decreases Height(rank, t), 0, |Properties(cfg.classes, t)| - i
  {
    var props := Properties(cfg.classes, t);
    if i == |props| then Built(ObjectM(fxType, mapping), cache)
    else
      var prop := props[i];
      if !prop.canRead then FieldsLoopA(cfg, rank, mapper, cache, t, i + 1, mapping, fxType)
      else
        match mapper(prop)
        case None => FieldsLoopA(cfg, rank, mapper, cache, t, i + 1, mapping, fxType)
        case Some(fxName) =>
          PropertyIsLower(cfg.classes, rank, t, i);
          match ResolveA(cfg, rank, cache, prop.ty)
          case Failed(e, c) => Failed(e, c)
          case Built(tm, c) =>
            FieldsLoopA(cfg, rank, mapper, c, t, i + 1, mapping[fxName := Getter(prop, tm)],
                        AddField(fxType, fxName, TypeOf(tm)))
          case Declined(c) => Declined(c)
  }

  /** One step of the property loop, for a result that was built: a skipped
      property leaves the accumulators alone, a kept one resolves its type
      (which then cannot have failed) and extends both accumulators. */
  lemma FieldsLoopStepA(cfg: ConfigA, rank: map<string, nat>, mapper: Prop -> Option<string>, cache: Cache,
                        t: HostType, i: nat, mapping: map<string, Getter>, fxType: FxType)
    requires Ranked(cfg.classes, rank) && i < |Properties(cfg.classes, t)| && fxType.Record?
    requires FieldsLoopA(cfg, rank, mapper, cache, t, i, mapping, fxType).Built?
    ensures var prop := Properties(cfg.classes, t)[i];
            (!prop.canRead || mapper(prop).None?) ==>
              FieldsLoopA(cfg, rank, mapper, cache, t, i, mapping, fxType)
              == FieldsLoopA(cfg, rank, mapper, cache, t, i + 1, mapping, fxType)
    ensures var prop := Properties(cfg.classes, t)[i];
            var res := ResolveA(cfg, rank, cache, prop.ty);
            (prop.canRead && mapper(prop).Some?) ==>
              && res.Built?
              && FieldsLoopA(cfg, rank, mapper, cache, t, i, mapping, fxType)
                 == FieldsLoopA(cfg, rank, mapper, res.st, t, i + 1, mapping[mapper(prop).value := Getter(prop, res.m)],
                                AddField(fxType, mapper(prop).value, TypeOf(res.m)))
  {
  }

  /** The record type this revision's property loop builds: its field
      names are the retained names, in property order. */
  lemma {:induction false} FieldsLoopNamesA(cfg: ConfigA, rank: map<string, nat>, mapper: Prop -> Option<string>,
                                            cache: Cache, t: HostType, i: nat, mapping: map<string, Getter>, fxType: FxType)
    requires Ranked(cfg.classes, rank) && i <= |Properties(cfg.classes, t)| && fxType.Record?
    requires FieldsLoopA(cfg, rank, mapper, cache, t, i, mapping, fxType).Built?
    ensures FieldNames(FieldsLoopA(cfg, rank, mapper, cache, t, i, mapping, fxType).m.ty.fields)
            == FieldNames(fxType.fields) + MarshalCache.RetainedNames(mapper, Properties(cfg.classes, t)[i..])
    decreases |Properties(cfg.classes, t)| - i, 1
  {
    var props := Properties(cfg.classes, t);
    if i < |props| {
      var prop := props[i];
      MarshalCache.RetainedNamesStep(mapper, props, i);
      FieldsLoopStepA(cfg, rank, mapper, cache, t, i, mapping, fxType);
      if !prop.canRead || mapper(prop).None? {
        FieldsLoopNamesA(cfg, rank, mapper, cache, t, i + 1, mapping, fxType);
      } else {
        KeptFieldNamesA(cfg, rank, mapper, cache, t, i, mapping, fxType);
      }
    }
  }

  /** The step of `FieldsLoopNamesA` for a kept property. */
  lemma {:induction false} KeptFieldNamesA(cfg: ConfigA, rank: map<string, nat>, mapper: Prop -> Option<string>,
                                           cache: Cache, t: HostType, i: nat, mapping: map<string, Getter>, fxType: FxType)
    requires Ranked(cfg.classes, rank) && i < |Properties(cfg.classes, t)| && fxType.Record?
    requires Properties(cfg.classes, t)[i].canRead && mapper(Properties(cfg.classes, t)[i]).Some?
    requires FieldsLoopA(cfg, rank, mapper, cache, t, i, mapping, fxType).Built?
    ensures FieldNames(FieldsLoopA(cfg, rank, mapper, cache, t, i, mapping, fxType).m.ty.fields)
            == FieldNames(fxType.fields) + MarshalCache.RetainedNames(mapper, Properties(cfg.classes, t)[i..])
    decreases |Properties(cfg.classes, t)| - i, 0
  {
    var props := Properties(cfg.classes, t);
    var prop := props[i];
    var name := mapper(prop).value;
    var rest := MarshalCache.RetainedNames(mapper, props[i + 1..]);
    MarshalCache.RetainedNamesStep(mapper, props, i);
    FieldsLoopStepA(cfg, rank, mapper, cache, t, i, mapping, fxType);
    var res := ResolveA(cfg, rank, cache, prop.ty);
    var fx' := AddField(fxType, name, TypeOf(res.m));
    var next := FieldsLoopA(cfg, rank, mapper, res.st, t, i + 1, mapping[name := Getter(prop, res.m)], fx');
    FieldsLoopNamesA(cfg, rank, mapper, res.st, t, i + 1, mapping[name := Getter(prop, res.m)], fx');
    AppendedFieldNames(fxType.fields, Field(name, TypeOf(res.m)));
    MarshalCache.SplicedNames(FieldNames(fxType.fields), name, rest, FieldNames(fx'.fields), FieldNames(next.m.ty.fields));
  }

  /** The accessor table this revision's property loop builds: its keys
      are the retained names. */
  lemma {:induction false} FieldsLoopKeysA(cfg: ConfigA, rank: map<string, nat>, mapper: Prop -> Option<string>,
                                           cache: Cache, t: HostType, i: nat, mapping: map<string, Getter>, fxType: FxType)
    requires Ranked(cfg.classes, rank) && i <= |Properties(cfg.classes, t)| && fxType.Record?
    requires FieldsLoopA(cfg, rank, mapper, cache, t, i, mapping, fxType).Built?
    ensures forall n :: n in FieldsLoopA(cfg, rank, mapper, cache, t, i, mapping, fxType).m.mapping
                        <==> n in mapping || n in MarshalCache.RetainedNames(mapper, Properties(cfg.classes, t)[i..])
    decreases |Properties(cfg.classes, t)| - i
  {
    var props := Properties(cfg.classes, t);
    if i < |props| {
      var prop := props[i];
      assert props[i..] == [prop] + props[i + 1..];
      var rest := MarshalCache.RetainedNames(mapper, props[i + 1..]);
      FieldsLoopStepA(cfg, rank, mapper, cache, t, i, mapping, fxType);
      if !prop.canRead || mapper(prop).None? {
        FieldsLoopKeysA(cfg, rank, mapper, cache, t, i + 1, mapping, fxType);
      } else {
        var name := mapper(prop).value;
        var res := ResolveA(cfg, rank, cache, prop.ty);
        var fx' := AddField(fxType, name, TypeOf(res.m));
        FieldsLoopKeysA(cfg, rank, mapper, res.st, t, i + 1, mapping[name := Getter(prop, res.m)], fx');
        assert forall n :: n in [name] + rest <==> n == name || n in rest;
      }
    }
  }

  /** The getters this revision's property loop builds: each sits under
      its property's mapped name, and its field is in the record with the
      nested marshaler's Type. */
  lemma {:induction false} FieldsLoopGettersA(cfg: ConfigA, rank: map<string, nat>, mapper: Prop -> Option<string>,
                                              cache: Cache, t: HostType, i: nat, mapping: map<string, Getter>, fxType: FxType)
    requires Ranked(cfg.classes, rank) && i <= |Properties(cfg.classes, t)| && fxType.Record?
    requires FieldsLoopA(cfg, rank, mapper, cache, t, i, mapping, fxType).Built?
    requires MarshalCache.NamedByMapper(mapper, mapping) && MarshalCache.TypesAgree(mapping, fxType)
    ensures var r := FieldsLoopA(cfg, rank, mapper, cache, t, i, mapping, fxType);
            MarshalCache.NamedByMapper(mapper, r.m.mapping) && MarshalCache.TypesAgree(r.m.mapping, r.m.ty)
    decreases |Properties(cfg.classes, t)| - i
  {
    var props := Properties(cfg.classes, t);
    if i < |props| {
      var prop := props[i];
      FieldsLoopStepA(cfg, rank, mapper, cache, t, i, mapping, fxType);
      if !prop.canRead || mapper(prop).None? {
        FieldsLoopGettersA(cfg, rank, mapper, cache, t, i + 1, mapping, fxType);
      } else {
        var name := mapper(prop).value;
        var res := ResolveA(cfg, rank, cache, prop.ty);
        var mapping' := mapping[name := Getter(prop, res.m)];
        var fx' := AddField(fxType, name, TypeOf(res.m));
        assert MarshalCache.TypesAgree(mapping', fx') by {
          forall k | k in mapping' ensures Field(k, TypeOf(mapping'[k].nested)) in fx'.fields {
            if k != name {
              assert Field(k, TypeOf(mapping[k].nested)) in fxType.fields;
            }
          }
        }
        FieldsLoopGettersA(cfg, rank, mapper, res.st, t, i + 1, mapping', fx');
      }
    }
  }

  /** The getter this revision's loop keeps under each name belongs to the
      last readable property mapped to that name. */
  lemma {:induction false} FieldsLoopLastWinsA(cfg: ConfigA, rank: map<string, nat>, mapper: Prop -> Option<string>,
                                               cache: Cache, t: HostType, i: nat, mapping: map<string, Getter>, fxType: FxType)
    requires Ranked(cfg.classes, rank) && i <= |Properties(cfg.classes, t)| && fxType.Record?
    requires FieldsLoopA(cfg, rank, mapper, cache, t, i, mapping, fxType).Built?
    ensures var r := FieldsLoopA(cfg, rank, mapper, cache, t, i, mapping, fxType);
            forall n | n in r.m.mapping ::
              && (MarshalCache.LastMapped(mapper, Properties(cfg.classes, t)[i..], n).Some? ==>
                    r.m.mapping[n].prop == MarshalCache.LastMapped(mapper, Properties(cfg.classes, t)[i..], n).value)
              && (MarshalCache.LastMapped(mapper, Properties(cfg.classes, t)[i..], n).None? ==>
                    n in mapping && r.m.mapping[n] == mapping[n])
    decreases |Properties(cfg.classes, t)| - i, 1
  {
    var props := Properties(cfg.classes, t);
    if i == |props| {
      assert props[i..] == [];
    } else {
      var prop := props[i];
      if !prop.canRead || mapper(prop).None? {
        FieldsLoopStepA(cfg, rank, mapper, cache, t, i, mapping, fxType);
        assert props[i..][1..] == props[i + 1..];
        FieldsLoopLastWinsA(cfg, rank, mapper, cache, t, i + 1, mapping, fxType);
      } else {
        KeptLastWinsA(cfg, rank, mapper, cache, t, i, mapping, fxType);
      }
    }
  }

  /** The step of `FieldsLoopLastWinsA` for a kept property: it wins its
      name unless a later property takes it. */
  lemma {:induction false} KeptLastWinsA(cfg: ConfigA, rank: map<string, nat>, mapper: Prop -> Option<string>,
                                         cache: Cache, t: HostType, i: nat, mapping: map<string, Getter>, fxType: FxType)
    requires Ranked(cfg.classes, rank) && i < |Properties(cfg.classes, t)| && fxType.Record?
    requires Properties(cfg.classes, t)[i].canRead && mapper(Properties(cfg.classes, t)[i]).Some?
    requires FieldsLoopA(cfg, rank, mapper, cache, t, i, mapping, fxType).Built?
    ensures var r := FieldsLoopA(cfg, rank, mapper, cache, t, i, mapping, fxType);
            forall n | n in r.m.mapping ::
              && (MarshalCache.LastMapped(mapper, Properties(cfg.classes, t)[i..], n).Some? ==>
                    r.m.mapping[n].prop == MarshalCache.LastMapped(mapper, Properties(cfg.classes, t)[i..], n).value)
              && (MarshalCache.LastMapped(mapper, Properties(cfg.classes, t)[i..], n).None? ==>
                    n in mapping && r.m.mapping[n] == mapping[n])
    decreases |Properties(cfg.classes, t)| - i, 0
  {
    var props := Properties(cfg.classes, t);
    var prop := props[i];
    var name := mapper(prop).value;
    FieldsLoopStepA(cfg, rank, mapper, cache, t, i, mapping, fxType);
    assert props[i..][1..] == props[i + 1..];
    var res := ResolveA(cfg, rank, cache, prop.ty);
    FieldsLoopLastWinsA(cfg, rank, mapper, res.st, t, i + 1, mapping[name := Getter(prop, res.m)],
                        AddField(fxType, name, TypeOf(res.m)));
  }

  /** This revision's `ObjectMarshalerProvider.New` on a class: the record
      type and the accessor table both hold exactly the retained, renamed
      properties, and each name reads the last property mapped to it. */
  lemma ObjectProviderFieldsA(cfg: ConfigA, rank: map<string, nat>, mapper: Prop -> Option<string>, cache: Cache, t: HostType)
    requires Ranked(cfg.classes, rank)
    requires ProviderNewA(cfg, rank, cache, ObjectA(mapper), t).Built?
    ensures var r := ProviderNewA(cfg, rank, cache, ObjectA(mapper), t);
            && FieldNames(r.m.ty.fields) == MarshalCache.RetainedNames(mapper, Properties(cfg.classes, t))
            && (forall n :: n in r.m.mapping <==> n in MarshalCache.RetainedNames(mapper, Properties(cfg.classes, t)))
            && MarshalCache.NamedByMapper(mapper, r.m.mapping)
            && MarshalCache.TypesAgree(r.m.mapping, r.m.ty)
            && (forall n | n in r.m.mapping ::
                  MarshalCache.LastMapped(mapper, Properties(cfg.classes, t), n) == Some(r.m.mapping[n].prop))
  {
    var props := Properties(cfg.classes, t);
    assert props[0..] == props;
    assert FieldNames([]) == [];
    FieldsLoopNamesA(cfg, rank, mapper, cache, t, 0, map[], Record([]));
    FieldsLoopKeysA(cfg, rank, mapper, cache, t, 0, map[], Record([]));
    FieldsLoopGettersA(cfg, rank, mapper, cache, t, 0, map[], Record([]));
    FieldsLoopLastWinsA(cfg, rank, mapper, cache, t, 0, map[], Record([]));
    var r := ProviderNewA(cfg, rank, cache, ObjectA(mapper), t);
    forall n | n in r.m.mapping
      ensures MarshalCache.LastMapped(mapper, props, n) == Some(r.m.mapping[n].prop)
    {
      MarshalCache.LastMappedIsLast(mapper, props, n);
    }
  }

  // ---------------------------------------------------------------------
  // The same resolver with a bound on nesting. `ResolveA` needs a rank to
  // terminate; on a class that reaches itself through its properties the
  // source recurses until the stack overflows. `ResolveF` runs the same
  // steps with `fuel` nested resolutions allowed and answers `None` when
  // they run out.

  function ResolveF(cfg: ConfigA, fuel: nat, cache: Cache, t: HostType): (r: Option<Step<Cache>>)
    ensures r.Some? ==> !r.value.Declined? && MarshalCache.Extends(cache, r.value.st)
    ensures r.Some? && r.value.Built? ==> t in r.value.st && r.value.st[t] == r.value.m
    ensures t in cache ==> r == Some(Built(cache[t], cache))
    ensures t !in cache && fuel == 0 ==> r.None?
    decreases fuel, 0, 0
  {
    if t in cache then Some(Built(cache[t], cache))
    else if fuel == 0 then None
    else TryF(cfg, fuel - 1, cache, t, 0)
  }

  function TryF(cfg: ConfigA, fuel: nat, cache: Cache, t: HostType, i: nat): (r: Option<Step<Cache>>)
    requires i <= |cfg.providers| && t !in cache
    ensures r.Some? ==> !r.value.Declined? && MarshalCache.Extends(cache, r.value.st)
    ensures r.Some? && r.value.Built? ==> t in r.value.st && r.value.st[t] == r.value.m
    ensures FirstAcceptingA(cfg.providers, t, i).None? ==> r == Some(Failed(CantMarshal(t), cache))
    decreases fuel, 3, |cfg.providers| - i
  {
    if i == |cfg.providers| then Some(Failed(CantMarshal(t), cache))
    else
      match ProviderF(cfg, fuel, cache, cfg.providers[i], t)
      case None => None
      case Some(Declined(_)) => TryF(cfg, fuel, cache, t, i + 1)
      case Some(Built(m, c)) => Some(Built(m, c[t := m]))
      case Some(Failed(e, c)) => Some(Failed(e, c))
  }

  function ProviderF(cfg: ConfigA, fuel: nat, cache: Cache, p: ProviderA, t: HostType): (r: Option<Step<Cache>>)
    ensures r.Some? ==> MarshalCache.Extends(cache, r.value.st)
    ensures r.Some? ==> (r.value.Declined? <==> !AcceptsA(p, t))
    ensures !AcceptsA(p, t) ==> r == Some(Declined(cache))
    ensures r.Some? && r.value.Built? ==> BuiltByA(p, r.value.m)
    decreases fuel, 2, 0
  {
    match p
    case IdentityA =>
      (match IdentityProvider.New(t)
       case Some(m) => Some(Built(m, cache))
       case None => Some(Declined(cache)))
    case PrimitiveA =>
      (match PrimitiveProvider.New(t)
       case Some(m) => Some(Built(m, cache))
       case None => Some(Declined(cache)))
    case ObjectA(mapper) =>
      if !IsClass(t) then Some(Declined(cache))
      else LoopF(cfg, fuel, mapper, cache, t, 0, map[], Record([]))
  }

  function LoopF(cfg: ConfigA, fuel: nat, mapper: Prop -> Option<string>, cache: Cache,
                 t: HostType, i: nat, mapping: map<string, Getter>, fxType: FxType): (r: Option<Step<Cache>>)
    requires i <= |Properties(cfg.classes, t)| && fxType.Record?
    ensures r.Some? ==> !r.value.Declined? && MarshalCache.Extends(cache, r.value.st)
    ensures r.Some? && r.value.Built? ==> r.value.m.ObjectM? && r.value.m.ty.Record?
    decreases fuel, 1, |Properties(cfg.classes, t)| - i
  {
    var props := Properties(cfg.classes, t);
    if i == |props| then Some(Built(ObjectM(fxType, mapping), cache))
    else
      var prop := props[i];
      if !prop.canRead then LoopF(cfg, fuel, mapper, cache, t, i + 1, mapping, fxType)
      else
        match mapper(prop)
        case None => LoopF(cfg, fuel, mapper, cache, t, i + 1, mapping, fxType)
        case Some(fxName) =>
          match ResolveF(cfg, fuel, cache, prop.ty)
          case None => None
          case Some(Failed(e, c)) => Some(Failed(e, c))
          case Some(Built(tm, c)) =>
            LoopF(cfg, fuel, mapper, c, t, i + 1, mapping[fxName := Getter(prop, tm)],
                  AddField(fxType, fxName, TypeOf(tm)))
          case Some(Declined(c)) => Some(Declined(c))
  }

  /** With more fuel than the type's height, the bounded resolver never
      runs out and gives exactly `ResolveA`'s answer. */
  lemma {:induction false} ResolveFAgrees(cfg: ConfigA, rank: map<string, nat>, fuel: nat, cache: Cache, t: HostType)
    requires Ranked(cfg.classes, rank) && Height(rank, t) < fuel
    ensures ResolveF(cfg, fuel, cache, t) == Some(ResolveA(cfg, rank, cache, t))
    decreases fuel, 0, 0
  {
    if t !in cache {
      TryFAgrees(cfg, rank, fuel - 1, cache, t, 0);
    }
  }

  lemma {:induction false} TryFAgrees(cfg: ConfigA, rank: map<string, nat>, fuel: nat, cache: Cache, t: HostType, i: nat)
    requires Ranked(cfg.classes, rank) && Height(rank, t) <= fuel
    requires i <= |cfg.providers| && t !in cache
    ensures TryF(cfg, fuel, cache, t, i) == Some(TryProvidersA(cfg, rank, cache, t, i))
    decreases fuel, 3, |cfg.providers| - i
  {
    if i < |cfg.providers| {
      ProviderFAgrees(cfg, rank, fuel, cache, cfg.providers[i], t);
      TryFAgrees(cfg, rank, fuel, cache, t, i + 1);
    }
  }

  lemma {:induction false} ProviderFAgrees(cfg: ConfigA, rank: map<string, nat>, fuel: nat, cache: Cache, p: ProviderA, t: HostType)
    requires Ranked(cfg.classes, rank) && Height(rank, t) <= fuel
    ensures ProviderF(cfg, fuel, cache, p, t) == Some(ProviderNewA(cfg, rank, cache, p, t))
    decreases fuel, 2, 0
  {
    if p.ObjectA? && IsClass(t) {
      LoopFAgrees(cfg, rank, fuel, p.mapper, cache, t, 0, map[], Record([]));
    }
  }

  lemma {:induction false} LoopFAgrees(cfg: ConfigA, rank: map<string, nat>, fuel: nat, mapper: Prop -> Option<string>,
                                       cache: Cache, t: HostType, i: nat, mapping: map<string, Getter>, fxType: FxType)
    requires Ranked(cfg.classes, rank) && Height(rank, t) <= fuel
    requires i <= |Properties(cfg.classes, t)| && fxType.Record?
    ensures LoopF(cfg, fuel, mapper, cache, t, i, mapping, fxType)
            == Some(FieldsLoopA(cfg, rank, mapper, cache, t, i, mapping, fxType))
    decreases fuel, 1, |Properties(cfg.classes, t)| - i, 1
  {
    var props := Properties(cfg.classes, t);
    if i < |props| {
      var prop := props[i];
      if prop.canRead && mapper(prop).Some? {
        KeptLoopFAgrees(cfg, rank, fuel, mapper, cache, t, i, mapping, fxType);
      } else {
        LoopFAgrees(cfg, rank, fuel, mapper, cache, t, i + 1, mapping, fxType);
      }
    }
  }

  /** The step of `LoopFAgrees` for a kept property. */
  lemma {:induction false} KeptLoopFAgrees(cfg: ConfigA, rank: map<string, nat>, fuel: nat, mapper: Prop -> Option<string>,
                                           cache: Cache, t: HostType, i: nat, mapping: map<string, Getter>, fxType: FxType)
    requires Ranked(cfg.classes, rank) && Height(rank, t) <= fuel
    requires i < |Properties(cfg.classes, t)| && fxType.Record?
    requires Properties(cfg.classes, t)[i].canRead && mapper(Properties(cfg.classes, t)[i]).Some?
    ensures LoopF(cfg, fuel, mapper, cache, t, i, mapping, fxType)
            == Some(FieldsLoopA(cfg, rank, mapper, cache, t, i, mapping, fxType))
    decreases fuel, 1, |Properties(cfg.classes, t)| - i, 0
  {
    var prop := Properties(cfg.classes, t)[i];
    var name := mapper(prop).value;
    PropertyIsLower(cfg.classes, rank, t, i);
    ResolveFAgrees(cfg, rank, fuel, cache, prop.ty);
    var res := ResolveA(cfg, rank, cache, prop.ty);
    if res.Built? {
      LoopFAgrees(cfg, rank, fuel, mapper, res.st, t, i + 1, mapping[name := Getter(prop, res.m)],
                  AddField(fxType, name, TypeOf(res.m)));
    }
  }

  /** Class `c` has a readable property `k` of its own type, and every
      record provider of the list keeps that property. */
  predicate SelfReferent(cfg: ConfigA, c: string, k: nat) {
    && c in cfg.classes && k < |cfg.classes[c]|
    && cfg.classes[c][k].ty == TClass(c) && cfg.classes[c][k].canRead
    && forall j | 0 <= j < |cfg.providers| && cfg.providers[j].ObjectA? ::
         cfg.providers[j].mapper(cfg.classes[c][k]).Some?
  }

  /** With a self-referential class missing from the cache, no resolution,
      whatever its fuel, puts that class into the cache: its marshaler
      would be stored only after its own property was resolved, which
      needs the class's marshaler first. */
  lemma {:induction false} ResolveFKeepsOut(cfg: ConfigA, c: string, k: nat, fuel: nat, cache: Cache, t: HostType)
    requires SelfReferent(cfg, c, k) && TClass(c) !in cache
    ensures ResolveF(cfg, fuel, cache, t).Some? ==> TClass(c) !in ResolveF(cfg, fuel, cache, t).value.st
    ensures t == TClass(c) && ResolveF(cfg, fuel, cache, t).Some? ==> !ResolveF(cfg, fuel, cache, t).value.Built?
    decreases fuel, 0, 0
  {
    if t !in cache && fuel > 0 {
      TryFKeepsOut(cfg, c, k, fuel - 1, cache, t, 0);
    }
  }

  lemma {:induction false} TryFKeepsOut(cfg: ConfigA, c: string, k: nat, fuel: nat, cache: Cache, t: HostType, i: nat)
    requires SelfReferent(cfg, c, k) && TClass(c) !in cache
    requires i <= |cfg.providers| && t !in cache
    ensures TryF(cfg, fuel, cache, t, i).Some? ==> TClass(c) !in TryF(cfg, fuel, cache, t, i).value.st
    decreases fuel, 3, |cfg.providers| - i
  {
    if i < |cfg.providers| {
      ProviderFKeepsOut(cfg, c, k, fuel, cache, cfg.providers[i], t);
      TryFKeepsOut(cfg, c, k, fuel, cache, t, i + 1);
    }
  }

  lemma {:induction false} ProviderFKeepsOut(cfg: ConfigA, c: string, k: nat, fuel: nat, cache: Cache, p: ProviderA, t: HostType)
    requires SelfReferent(cfg, c, k) && TClass(c) !in cache
    requires p.ObjectA? ==> p.mapper(cfg.classes[c][k]).Some?
    ensures ProviderF(cfg, fuel, cache, p, t).Some? ==> TClass(c) !in ProviderF(cfg, fuel, cache, p, t).value.st
    ensures t == TClass(c) && ProviderF(cfg, fuel, cache, p, t).Some? ==> !ProviderF(cfg, fuel, cache, p, t).value.Built?
    decreases fuel, 2, 0
  {
    if p.ObjectA? && IsClass(t) {
      if t == TClass(c) {
        SelfLoopNeverBuilds(cfg, c, k, fuel, p.mapper, cache, 0, map[], Record([]));
      } else {
        LoopFKeepsOut(cfg, c, k, fuel, p.mapper, cache, t, 0, map[], Record([]));
      }
    }
  }

  lemma {:induction false} LoopFKeepsOut(cfg: ConfigA, c: string, k: nat, fuel: nat, mapper: Prop -> Option<string>,
                                         cache: Cache, t: HostType, i: nat, mapping: map<string, Getter>, fxType: FxType)
    requires SelfReferent(cfg, c, k) && TClass(c) !in cache
    requires i <= |Properties(cfg.classes, t)| && fxType.Record?
    ensures LoopF(cfg, fuel, mapper, cache, t, i, mapping, fxType).Some? ==>
              TClass(c) !in LoopF(cfg, fuel, mapper, cache, t, i, mapping, fxType).value.st
    decreases fuel, 1, |Properties(cfg.classes, t)| - i
  {
    var props := Properties(cfg.classes, t);
    if i < |props| {
      var prop := props[i];
      if prop.canRead && mapper(prop).Some? {
        ResolveFKeepsOut(cfg, c, k, fuel, cache, prop.ty);
        var res := ResolveF(cfg, fuel, cache, prop.ty);
        if res.Some? && res.value.Built? {
          LoopFKeepsOut(cfg, c, k, fuel, mapper, res.value.st, t, i + 1,
                        mapping[mapper(prop).value := Getter(prop, res.value.m)],
                        AddField(fxType, mapper(prop).value, TypeOf(res.value.m)));
        }
      } else {
        LoopFKeepsOut(cfg, c, k, fuel, mapper, cache, t, i + 1, mapping, fxType);
      }
    }
  }

  /** The property loop of a self-referential class never finishes: it
      reaches property `k`, whose resolution cannot build the class. */
  lemma {:induction false} SelfLoopNeverBuilds(cfg: ConfigA, c: string, k: nat, fuel: nat, mapper: Prop -> Option<string>,
                                               cache: Cache, i: nat, mapping: map<string, Getter>, fxType: FxType)
    requires SelfReferent(cfg, c, k) && TClass(c) !in cache
    requires mapper(cfg.classes[c][k]).Some? && i <= k && fxType.Record?
    ensures LoopF(cfg, fuel, mapper, cache, TClass(c), i, mapping, fxType).Some? ==>
              && !LoopF(cfg, fuel, mapper, cache, TClass(c), i, mapping, fxType).value.Built?
              && TClass(c) !in LoopF(cfg, fuel, mapper, cache, TClass(c), i, mapping, fxType).value.st
    decreases fuel, 1, |cfg.classes[c]| - i
  {
    var prop := cfg.classes[c][i];
    if prop.canRead && mapper(prop).Some? {
      ResolveFKeepsOut(cfg, c, k, fuel, cache, prop.ty);
      var res := ResolveF(cfg, fuel, cache, prop.ty);
      if i < k && res.Some? && res.value.Built? {
        SelfLoopNeverBuilds(cfg, c, k, fuel, mapper, res.value.st, i + 1,
                            mapping[mapper(prop).value := Getter(prop, res.value.m)],
                            AddField(fxType, mapper(prop).value, TypeOf(res.value.m)));
      }
    } else {
      SelfLoopNeverBuilds(cfg, c, k, fuel, mapper, cache, i + 1, mapping, fxType);
    }
  }

  /** A self-referential class has no marshaler in this revision: however
      much fuel the resolver gets, it runs out or fails, and the class
      never reaches the cache. */
  lemma SelfReferenceNeverBuilds(cfg: ConfigA, c: string, k: nat, fuel: nat, cache: Cache)
    requires SelfReferent(cfg, c, k) && TClass(c) !in cache
    ensures ResolveF(cfg, fuel, cache, TClass(c)).Some? ==>
              && !ResolveF(cfg, fuel, cache, TClass(c)).value.Built?
              && TClass(c) !in ResolveF(cfg, fuel, cache, TClass(c)).value.st
  {
    ResolveFKeepsOut(cfg, c, k, fuel, cache, TClass(c));
  }

  /** `ObjectRecordValue.GetField` of this revision: a mapped name returns
      the getter's result as is, null included; an unmapped name gives the
      error value. */
  function GetFieldA(h: Heap, rec: FxValue, name: string): (r: Result<Option<FxValue>>)
    requires rec.ObjRecordV? && HeapOk(h) && Allocated(h, rec.source)
    ensures name !in rec.mapping ==> r == Ok(Some(ErrorV))
    ensures name in rec.mapping ==> r == TryGetField(rec.mapping, h, rec.source, name)
  {
    if name in rec.mapping then TryGetField(rec.mapping, h, rec.source, name)
    else Ok(Some(ErrorV))
  }

  /** The two revisions' field reads agree except on a null: where the
      getter yields null, this revision passes it on and the later one
      answers the error value. */
  lemma GetFieldRevisionsAgreeExceptNull(h: Heap, rec: FxValue, name: string)
    requires rec.ObjRecordV? && HeapOk(h) && Allocated(h, rec.source)
    ensures GetFieldA(h, rec, name) == Ok(None) <==>
              name in rec.mapping && TryGetField(rec.mapping, h, rec.source, name) == Ok(None)
    ensures GetFieldA(h, rec, name) == Ok(None) ==> ObjectRecord.GetField(h, rec, name) == Ok(ErrorV)
    ensures forall x :: GetFieldA(h, rec, name) == Ok(Some(x)) ==> ObjectRecord.GetField(h, rec, name) == Ok(x)
    ensures GetFieldA(h, rec, name).Err? ==> ObjectRecord.GetField(h, rec, name) == Err(GetFieldA(h, rec, name).error)
  {
    if name in rec.mapping {
      match TryGetField(rec.mapping, h, rec.source, name)
      case Ok(Some(x)) =>
        assert ObjectRecord.GetField(h, rec, name) == Ok(x);
      case _ =>
    }
  }
}
