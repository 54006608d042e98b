/**
 * TypeMarshallerCache (the `Marshal/` revision) and the providers that
 * resolve sub-types through it.
 *
 * A top-level `New` starts an inner resolver with a depth counter of 3 that
 * shares the cache and the provider list. Every inner call lowers that one
 * counter before anything else, siblings included; once it is below zero the
 * call answers `Empty` without looking at the cache or the providers. The
 * counter is threaded through the providers as part of `State`, which also
 * carries the shared cache, so entries added by inner calls persist.
 */
module MarshalCache {
  import opened Model
  import opened Reflection
  import opened FormulaTypes
  import opened Marshalers
  import PrimitiveProvider
  import IdentityProvider

  /** The providers this model knows. `ObjectP` carries its
      `PropertyMapperFunc`: property to field name, `None` to omit. */
  datatype Provider =
    | PrimitiveP
    | ObjectP(mapper: Prop -> Option<string>)
    | TableP
    | IdentityP

  datatype Config = Config(classes: ClassTable, providers: seq<Provider>)

  type Cache = map<HostType, Marshaler>

  /** The inner resolver: the shared cache and its depth counter. */
  datatype State = State(cache: Cache, depth: int)

  /** Entries already in `c1` are kept unchanged in `c2`. */
  predicate Extends(c1: Cache, c2: Cache) {
    forall k | k in c1 :: k in c2 && c2[k] == c1[k]
  }

  /** The counter each top-level `New` starts its inner resolver with. */
  const InitialDepth: int := 3

  /** The default `PropertyMapperFunc`: the property's own name. */
  function DefaultMapper(p: Prop): Option<string> {
    Some(p.name)
  }

  /** The default provider list: primitives first, then objects. Every
      type is handled, and `string`, although a class, goes to the
      primitive provider and so becomes text rather than a record. */
  function DefaultProviders(): (r: seq<Provider>)
    ensures Complete(r)
    ensures FirstAccepting(r, TString, 0) == Some(0)
  {
    var r := [PrimitiveP, ObjectP(DefaultMapper)];
    assert r[0].PrimitiveP? && r[1].ObjectP?;
    r
  }

  /** Provider `p` handles type `t` (it does not return null for it). */
  predicate Accepts(p: Provider, t: HostType) {
    match p
    case PrimitiveP => PrimitiveProvider.New(t).Some?
    case ObjectP(_) => IsClass(t)
    case TableP => t.TArray?
    case IdentityP => IdentityProvider.New(t).Some?
  }

  /** Index of the first provider at or after `i` that accepts `t`. */
  function FirstAccepting(ps: seq<Provider>, t: HostType, i: nat): (r: Option<nat>)
    requires i <= |ps|
    ensures r.Some? ==> i <= r.value < |ps| && Accepts(ps[r.value], t)
    ensures r.Some? ==> forall j | i <= j < r.value :: !Accepts(ps[j], t)
    ensures r.None? ==> forall j | i <= j < |ps| :: !Accepts(ps[j], t)
    decreases |ps| - i
  {
    if i == |ps| then None
    else if Accepts(ps[i], t) then Some(i)
    else FirstAccepting(ps, t, i + 1)
  }

  /** Marshaler `m` is of the kind provider `p` builds. */
  predicate BuiltBy(p: Provider, m: Marshaler) {
    match p
    case PrimitiveP => m.PrimitiveM?
    case ObjectP(_) => m.ObjectM?
    case TableP => m.TableM?
    case IdentityP => m.IdentityM?
  }

  /** Every cache entry is bound to its key type; `Empty` never is. */
  predicate CacheOk(classes: ClassTable, cache: Cache) {
    forall k | k in cache :: Fits(classes, cache[k], k)
  }

  function Pos(d: int): nat {
    if d > 0 then d else 0
  }

  /** Cache size plus remaining budget: no inner call increases it. */
  function Potential(st: State): nat {
    |st.cache.Keys| + Pos(st.depth)
  }

  /** A provider list with which resolution cannot fail: it has the
      primitive and the object provider, and no table provider (whose casts
      can fail). */
  predicate Complete(ps: seq<Provider>) {
    && (forall j | 0 <= j < |ps| :: !ps[j].TableP?)
    && (exists j | 0 <= j < |ps| :: ps[j].PrimitiveP?)
    && (exists j | 0 <= j < |ps| :: ps[j].ObjectP?)
  }

  /** With a complete provider list some provider accepts every type. */
  lemma CompleteAcceptsEverything(ps: seq<Provider>, t: HostType)
    ensures Complete(ps) ==> FirstAccepting(ps, t, 0).Some?
  {
    if !Complete(ps) { return; }
    var jp :| 0 <= jp < |ps| && ps[jp].PrimitiveP?;
    var jo :| 0 <= jo < |ps| && ps[jo].ObjectP?;
    if IsClass(t) {
      assert Accepts(ps[jo], t);
    } else {
      assert Accepts(ps[jp], t);
    }
  }

  /** An inner `New`: lower the counter; below zero answer `Empty`; else a
      cache hit by exact type, or the providers in order. */
  function Resolve(cfg: Config, st: State, t: HostType): (r: Step<State>)
    ensures !r.Declined?
    ensures r.st.depth <= st.depth - 1
    ensures Potential(r.st) <= Potential(st)
    ensures st.cache.Keys <= r.st.cache.Keys
    ensures Extends(st.cache, r.st.cache)
    ensures st.depth <= 0 ==> r == Built(EmptyM, State(st.cache, st.depth - 1))
    ensures st.depth >= 1 && t in st.cache ==> r == Built(st.cache[t], State(st.cache, st.depth - 1))
    ensures r.Built? && st.depth >= 1 ==> t in r.st.cache && r.st.cache[t] == r.m
    ensures r.Built? && r.m != EmptyM ==> t in r.st.cache && r.st.cache[t] == r.m
    ensures CacheOk(cfg.classes, st.cache) ==> CacheOk(cfg.classes, r.st.cache)
    ensures CacheOk(cfg.classes, st.cache) && r.Built? ==> NestedFits(r.m, t)
    ensures Complete(cfg.providers) ==> r.Built?
    decreases Pos(st.depth), 4, 0
  {
    var d := st.depth - 1;
    if d < 0 then Built(EmptyM, State(st.cache, d))
    else if t in st.cache then Built(st.cache[t], State(st.cache, d))
    else
      CompleteAcceptsEverything(cfg.providers, t);
      TryProviders(cfg, State(st.cache, d), t, 0, d)
  }

  /** The provider loop: the first provider that does not decline wins and
      its marshaler is stored under the exact type; if all decline, the call
      fails naming the type. */
  function TryProviders(cfg: Config, st: State, t: HostType, i: nat, ghost cap: int): (r: Step<State>)
    requires i <= |cfg.providers| && 0 <= cap && st.depth <= cap
    ensures !r.Declined?
    ensures r.st.depth <= st.depth
    ensures Potential(r.st) <= Potential(st) + 1
    ensures st.cache.Keys <= r.st.cache.Keys
    ensures forall k | k in st.cache && k != t :: k in r.st.cache && r.st.cache[k] == st.cache[k]
    ensures r.Built? ==> r.m != EmptyM && t in r.st.cache && r.st.cache[t] == r.m
    ensures CacheOk(cfg.classes, st.cache) ==> CacheOk(cfg.classes, r.st.cache)
    ensures FirstAccepting(cfg.providers, t, i).None? ==> r == Failed(CantMarshal(t), st)
    ensures FirstAccepting(cfg.providers, t, i).Some? && r.Built? ==>
              BuiltBy(cfg.providers[FirstAccepting(cfg.providers, t, i).value], r.m)
    ensures FirstAccepting(cfg.providers, t, i).Some? ==>
              var s := ProviderNew(cfg, cfg.providers[FirstAccepting(cfg.providers, t, i).value], st, t, cap);
              && (s.Built? ==> r == Built(s.m, State(s.st.cache[t := s.m], s.st.depth)))
              && (s.Failed? ==> r == s)
    ensures Complete(cfg.providers) && FirstAccepting(cfg.providers, t, i).Some? ==> r.Built?
    decreases cap + 1, 3, |cfg.providers| - i
  {
    if i == |cfg.providers| then Failed(CantMarshal(t), st)
    else
      match ProviderNew(cfg, cfg.providers[i], st, t, cap)
      case Declined(_) => TryProviders(cfg, st, t, i + 1, cap)
      case Built(m, st') => Built(m, State(st'.cache[t := m], st'.depth))
      case Failed(e, st') => Failed(e, st')
  }

  /** `ITypeMashalerProvider.New(type, cache, maxDepth)`: decline (null),
      build, or fail; the counter arrives in `st`. */
  function ProviderNew(cfg: Config, p: Provider, st: State, t: HostType, ghost cap: int): (r: Step<State>)
    requires 0 <= cap && st.depth <= cap
    ensures r.Declined? <==> !Accepts(p, t)
    ensures r.Declined? ==> r.st == st
    ensures r.st.depth <= st.depth
    ensures Potential(r.st) <= Potential(st)
    ensures st.cache.Keys <= r.st.cache.Keys
    ensures Extends(st.cache, r.st.cache)
    ensures r.Built? ==> BuiltBy(p, r.m)
    ensures CacheOk(cfg.classes, st.cache) ==> CacheOk(cfg.classes, r.st.cache)
    ensures CacheOk(cfg.classes, st.cache) && r.Built? ==> Fits(cfg.classes, r.m, t)
    ensures Complete(cfg.providers) && !p.TableP? && Accepts(p, t) ==> r.Built?
    decreases cap + 1, 2, 0
  {
    match p
    case PrimitiveP =>
      (match PrimitiveProvider.New(t)
       case Some(m) => Built(m, st)
       case None => Declined(st))
    case IdentityP =>
      (match IdentityProvider.New(t)
       case Some(m) => Built(m, st)
       case None => Declined(st))
    case ObjectP(mapper) => ObjectProviderNew(cfg, mapper, st, t, cap)
    case TableP => TableProviderNew(cfg, st, t, cap)
  }

  /** The field names a mapper keeps, in property order: readable
      properties whose mapped name is not null. */
  function RetainedNames(mapper: Prop -> Option<string>, props: seq<Prop>): seq<string> {
    if props == [] then []
    else
      (if props[0].canRead && mapper(props[0]).Some? then [mapper(props[0]).value] else [])
      + RetainedNames(mapper, props[1..])
  }

  /** Every getter is stored under the name the mapper gives its property. */
  predicate NamedByMapper(mapper: Prop -> Option<string>, mapping: map<string, Getter>) {
    forall k | k in mapping :: mapper(mapping[k].prop) == Some(k)
  }

  /** Every getter's field appears in the record type with the nested
      marshaler's Type. */
  predicate TypesAgree(mapping: map<string, Getter>, rt: FxType)
    requires rt.Record?
  {
    forall k | k in mapping :: Field(k, TypeOf(mapping[k].nested)) in rt.fields
  }

  /** `ObjectMarshalerProvider.New`: declines non-class types; otherwise
      walks the properties building the record type and the accessor table
      together. */
  function ObjectProviderNew(cfg: Config, mapper: Prop -> Option<string>, st: State, t: HostType, ghost cap: int): (r: Step<State>)
    requires 0 <= cap && st.depth <= cap
    ensures r.Declined? <==> !IsClass(t)
    ensures r.Declined? ==> r.st == st
    ensures r.st.depth <= st.depth
    ensures Potential(r.st) <= Potential(st)
    ensures st.cache.Keys <= r.st.cache.Keys
    ensures Extends(st.cache, r.st.cache)
    ensures r.Built? ==> r.m.ObjectM? && r.m.ty.Record?
    ensures CacheOk(cfg.classes, st.cache) ==> CacheOk(cfg.classes, r.st.cache)
    ensures CacheOk(cfg.classes, st.cache) && r.Built? ==> Fits(cfg.classes, r.m, t)
    ensures Complete(cfg.providers) && IsClass(t) ==> r.Built?
    decreases cap + 1, 1, 0
  {
    if !IsClass(t) then Declined(st)
    else FieldsLoop(cfg, mapper, st, t, 0, map[], Record([]), cap)
  }

  /** The property loop of `ObjectMarshalerProvider.New` from property `i`
      on: unreadable and null-named properties are skipped; for the others
      the property type is resolved now, its getter stored (a later property
      with the same name replaces it) and its field appended. */
  function FieldsLoop(cfg: Config, mapper: Prop -> Option<string>, st: State, t: HostType, i: nat,
                      mapping: map<string, Getter>, fxType: FxType, ghost cap: int): (r: Step<State>)
    requires i <= |Properties(cfg.classes, t)| && fxType.Record?
    requires 0 <= cap && st.depth <= cap
    ensures !r.Declined?
    ensures r.st.depth <= st.depth
    ensures Potential(r.st) <= Potential(st)
    ensures st.cache.Keys <= r.st.cache.Keys
    ensures Extends(st.cache, r.st.cache)
    ensures r.Built? ==> r.m.ObjectM? && r.m.ty.Record?
    ensures CacheOk(cfg.classes, st.cache) ==> CacheOk(cfg.classes, r.st.cache)
    ensures CacheOk(cfg.classes, st.cache) && GettersFit(cfg.classes, mapping, t) && r.Built? ==>
              GettersFit(cfg.classes, r.m.mapping, t)
    ensures Complete(cfg.providers) ==> r.Built?
    decreases cap + 1, 0, |Properties(cfg.classes, t)| - i
  {
    var props := Properties(cfg.classes, t);
    if i == |props| then
      match NewObjectMarshaler(fxType, mapping)
      case Ok(m) => Built(m, st)
      case Err(e) => Failed(e, st)
    else
      var prop := props[i];
      assert props[i..] == [prop] + props[i + 1..];
      if !prop.canRead then FieldsLoop(cfg, mapper, st, t, i + 1, mapping, fxType, cap)
      else
        match mapper(prop)
        case None => FieldsLoop(cfg, mapper, st, t, i + 1, mapping, fxType, cap)
        case Some(fxName) =>
          match Resolve(cfg, st, prop.ty)
          case Failed(e, st') => Failed(e, st')
          case Built(tm, st') =>
            FieldsLoop(cfg, mapper, st', t, i + 1, mapping[fxName := Getter(prop, tm)],
                       AddField(fxType, fxName, TypeOf(tm)), cap)
          case Declined(st') => Declined(st')
  }

  /** One step of the property loop, for a result that was built: a skipped
      property leaves the accumulators alone, a kept one resolves its type
      (which then cannot have failed) and extends both accumulators. */
  lemma FieldsLoopStep(cfg: Config, mapper: Prop -> Option<string>, st: State, t: HostType,
                       i: nat, mapping: map<string, Getter>, fxType: FxType, cap: int)
    requires i < |Properties(cfg.classes, t)| && fxType.Record?
    requires 0 <= cap && st.depth <= cap
    requires FieldsLoop(cfg, mapper, st, t, i, mapping, fxType, cap).Built?
    ensures var prop := Properties(cfg.classes, t)[i];
            (!prop.canRead || mapper(prop).None?) ==>
              FieldsLoop(cfg, mapper, st, t, i, mapping, fxType, cap)
              == FieldsLoop(cfg, mapper, st, t, i + 1, mapping, fxType, cap)
    ensures var prop := Properties(cfg.classes, t)[i];
            var res := Resolve(cfg, st, prop.ty);
            (prop.canRead && mapper(prop).Some?) ==>
              && res.Built?
              && FieldsLoop(cfg, mapper, st, t, i, mapping, fxType, cap)
                 == FieldsLoop(cfg, mapper, res.st, t, i + 1, mapping[mapper(prop).value := Getter(prop, res.m)],
                               AddField(fxType, mapper(prop).value, TypeOf(res.m)), cap)
  {
  }

  /** The record type the property loop builds: its field names are the
      retained names, in property order. */
  lemma {:induction false} FieldsLoopNames(cfg: Config, mapper: Prop -> Option<string>, st: State, t: HostType,
                                            i: nat, mapping: map<string, Getter>, fxType: FxType, cap: int)
    requires i <= |Properties(cfg.classes, t)| && fxType.Record?
    requires 0 <= cap && st.depth <= cap
    requires FieldsLoop(cfg, mapper, st, t, i, mapping, fxType, cap).Built?
    ensures FieldNames(FieldsLoop(cfg, mapper, st, t, i, mapping, fxType, cap).m.ty.fields)
            == FieldNames(fxType.fields) + RetainedNames(mapper, Properties(cfg.classes, t)[i..])
    decreases |Properties(cfg.classes, t)| - i, 1
  {
    var props := Properties(cfg.classes, t);
    if i < |props| {
      var prop := props[i];
      RetainedNamesStep(mapper, props, i);
      FieldsLoopStep(cfg, mapper, st, t, i, mapping, fxType, cap);
      if !prop.canRead || mapper(prop).None? {
        FieldsLoopNames(cfg, mapper, st, t, i + 1, mapping, fxType, cap);
      } else {
        KeptFieldNames(cfg, mapper, st, t, i, mapping, fxType, cap);
      }
    }
  }

  /** The step of `FieldsLoopNames` for a kept property. */
  lemma {:induction false} KeptFieldNames(cfg: Config, mapper: Prop -> Option<string>, st: State, t: HostType,
                                           i: nat, mapping: map<string, Getter>, fxType: FxType, cap: int)
    requires i < |Properties(cfg.classes, t)| && fxType.Record?
    requires 0 <= cap && st.depth <= cap
    requires Properties(cfg.classes, t)[i].canRead && mapper(Properties(cfg.classes, t)[i]).Some?
    requires FieldsLoop(cfg, mapper, st, t, i, mapping, fxType, cap).Built?
    ensures FieldNames(FieldsLoop(cfg, mapper, st, t, i, mapping, fxType, cap).m.ty.fields)
            == FieldNames(fxType.fields) + RetainedNames(mapper, Properties(cfg.classes, t)[i..])
    decreases |Properties(cfg.classes, t)| - i, 0
  {
    var props := Properties(cfg.classes, t);
    var prop := props[i];
    var name := mapper(prop).value;
    var rest := RetainedNames(mapper, props[i + 1..]);
    RetainedNamesStep(mapper, props, i);
    FieldsLoopStep(cfg, mapper, st, t, i, mapping, fxType, cap);
    var res := Resolve(cfg, st, prop.ty);
    var fx' := AddField(fxType, name, TypeOf(res.m));
    var next := FieldsLoop(cfg, mapper, res.st, t, i + 1, mapping[name := Getter(prop, res.m)], fx', cap);
    FieldsLoopNames(cfg, mapper, res.st, t, i + 1, mapping[name := Getter(prop, res.m)], fx', cap);
    AppendedFieldNames(fxType.fields, Field(name, TypeOf(res.m)));
    SplicedNames(FieldNames(fxType.fields), name, rest, FieldNames(fx'.fields), FieldNames(next.m.ty.fields));
  }

  /** The accessor table the property loop builds: its keys are the
      retained names. */
  lemma {:induction false} FieldsLoopKeys(cfg: Config, mapper: Prop -> Option<string>, st: State, t: HostType,
                                           i: nat, mapping: map<string, Getter>, fxType: FxType, cap: int)
    requires i <= |Properties(cfg.classes, t)| && fxType.Record?
    requires 0 <= cap && st.depth <= cap
    requires FieldsLoop(cfg, mapper, st, t, i, mapping, fxType, cap).Built?
    ensures forall n :: n in FieldsLoop(cfg, mapper, st, t, i, mapping, fxType, cap).m.mapping
                        <==> n in mapping || n in RetainedNames(mapper, Properties(cfg.classes, t)[i..])
    decreases |Properties(cfg.classes, t)| - i
  {
    var props := Properties(cfg.classes, t);
    if i < |props| {
      var prop := props[i];
      assert props[i..] == [prop] + props[i + 1..];
      var rest := RetainedNames(mapper, props[i + 1..]);
      FieldsLoopStep(cfg, mapper, st, t, i, mapping, fxType, cap);
      if !prop.canRead || mapper(prop).None? {
        FieldsLoopKeys(cfg, mapper, st, t, i + 1, mapping, fxType, cap);
      } else {
        var name := mapper(prop).value;
        var res := Resolve(cfg, st, prop.ty);
        var fx' := AddField(fxType, name, TypeOf(res.m));
        FieldsLoopKeys(cfg, mapper, res.st, t, i + 1, mapping[name := Getter(prop, res.m)], fx', cap);
        assert forall n :: n in [name] + rest <==> n == name || n in rest;
      }
    }
  }

  /** The getters the property loop builds: each sits under its property's
      mapped name, and its field is in the record with the nested
      marshaler's Type. */
  lemma {:induction false} FieldsLoopGetters(cfg: Config, mapper: Prop -> Option<string>, st: State, t: HostType,
                                              i: nat, mapping: map<string, Getter>, fxType: FxType, cap: int)
    requires i <= |Properties(cfg.classes, t)| && fxType.Record?
    requires 0 <= cap && st.depth <= cap
    requires FieldsLoop(cfg, mapper, st, t, i, mapping, fxType, cap).Built?
    requires NamedByMapper(mapper, mapping) && TypesAgree(mapping, fxType)
    ensures var r := FieldsLoop(cfg, mapper, st, t, i, mapping, fxType, cap);
            NamedByMapper(mapper, r.m.mapping) && TypesAgree(r.m.mapping, r.m.ty)
    decreases |Properties(cfg.classes, t)| - i
  {
    var props := Properties(cfg.classes, t);
    if i < |props| {
      var prop := props[i];
      FieldsLoopStep(cfg, mapper, st, t, i, mapping, fxType, cap);
      if !prop.canRead || mapper(prop).None? {
        FieldsLoopGetters(cfg, mapper, st, t, i + 1, mapping, fxType, cap);
      } else {
        var name := mapper(prop).value;
        var res := Resolve(cfg, st, prop.ty);
        var mapping' := mapping[name := Getter(prop, res.m)];
        var fx' := AddField(fxType, name, TypeOf(res.m));
        assert TypesAgree(mapping', fx') by {
          forall k | k in mapping' ensures Field(k, TypeOf(mapping'[k].nested)) in fx'.fields {
            if k != name {
              assert Field(k, TypeOf(mapping[k].nested)) in fxType.fields;
            }
          }
        }
        FieldsLoopGetters(cfg, mapper, res.st, t, i + 1, mapping', fx', cap);
      }
    }
  }

  lemma SplicedNames(before: seq<string>, name: string, rest: seq<string>, mid: seq<string>, after: seq<string>)
    requires mid == before + [name] && after == mid + rest
    ensures after == before + ([name] + rest)
  {
  }

  /** The retained names from property `i` on: property `i`'s name, if
      kept, then those after it. */
  lemma RetainedNamesStep(mapper: Prop -> Option<string>, props: seq<Prop>, i: nat)
    requires i < |props|
    ensures RetainedNames(mapper, props[i..])
            == (if props[i].canRead && mapper(props[i]).Some? then [mapper(props[i]).value] else [])
               + RetainedNames(mapper, props[i + 1..])
  {
    assert props[i..][1..] == props[i + 1..];
  }

  /** `ObjectMarshalerProvider.New` on a class: the record type and the
      accessor table both hold exactly the retained, renamed properties. */
  lemma ObjectProviderFields(cfg: Config, mapper: Prop -> Option<string>, st: State, t: HostType, cap: int)
    requires 0 <= cap && st.depth <= cap
    requires ObjectProviderNew(cfg, mapper, st, t, cap).Built?
    ensures var r := ObjectProviderNew(cfg, mapper, st, t, cap);
            && FieldNames(r.m.ty.fields) == RetainedNames(mapper, Properties(cfg.classes, t))
            && (forall n :: n in r.m.mapping <==> n in RetainedNames(mapper, Properties(cfg.classes, t)))
            && NamedByMapper(mapper, r.m.mapping)
            && TypesAgree(r.m.mapping, r.m.ty)
            && (forall n | n in r.m.mapping :: LastMapped(mapper, Properties(cfg.classes, t), n) == Some(r.m.mapping[n].prop))
  {
    var props := Properties(cfg.classes, t);
    assert props[0..] == props;
    assert FieldNames([]) == [];
    FieldsLoopNames(cfg, mapper, st, t, 0, map[], Record([]), cap);
    FieldsLoopKeys(cfg, mapper, st, t, 0, map[], Record([]), cap);
    FieldsLoopGetters(cfg, mapper, st, t, 0, map[], Record([]), cap);
    FieldsLoopLastWins(cfg, mapper, st, t, 0, map[], Record([]), cap);
    var r := ObjectProviderNew(cfg, mapper, st, t, cap);
    forall n | n in r.m.mapping
      ensures LastMapped(mapper, props, n) == Some(r.m.mapping[n].prop)
    {
      LastMappedIsLast(mapper, props, n);
    }
  }

  /** A name is retained exactly when some readable property maps to it:
      renamed properties appear under their new name, omitted ones not at all. */
  lemma {:induction false} RetainedNamesExactly(mapper: Prop -> Option<string>, props: seq<Prop>, n: string)
    ensures n in RetainedNames(mapper, props) <==> exists p | p in props :: p.canRead && mapper(p) == Some(n)
  {
    if props != [] {
      RetainedNamesExactly(mapper, props[1..], n);
      assert forall p | p in props :: p == props[0] || p in props[1..];
      if n in RetainedNames(mapper, props[1..]) {
        var p :| p in props[1..] && p.canRead && mapper(p) == Some(n);
        assert p in props;
      }
    }
  }

  /** The last readable property mapped to name `n`, if any: the one whose
      getter the dictionary keeps when several properties share a name. */
  function LastMapped(mapper: Prop -> Option<string>, props: seq<Prop>, n: string): Option<Prop> {
    if props == [] then None
    else
      var later := LastMapped(mapper, props[1..], n);
      if later.Some? then later
      else if props[0].canRead && mapper(props[0]) == Some(n) then Some(props[0])
      else None
  }

  /** `LastMapped` picks a readable property mapped to the name, and no
      property after it is readable and mapped to the same name; it finds
      one exactly when the name is retained. */
  lemma {:induction false} LastMappedIsLast(mapper: Prop -> Option<string>, props: seq<Prop>, n: string)
    ensures LastMapped(mapper, props, n).Some? <==> n in RetainedNames(mapper, props)
    ensures LastMapped(mapper, props, n).Some? ==>
              exists j | 0 <= j < |props| ::
                && props[j] == LastMapped(mapper, props, n).value
                && props[j].canRead && mapper(props[j]) == Some(n)
                && forall k | j < k < |props| :: !(props[k].canRead && mapper(props[k]) == Some(n))
  {
    if props != [] {
      var rest := props[1..];
      LastMappedIsLast(mapper, rest, n);
      var later := LastMapped(mapper, rest, n);
      if later.Some? {
        var j :| 0 <= j < |rest| && rest[j] == later.value && rest[j].canRead && mapper(rest[j]) == Some(n)
                 && forall k | j < k < |rest| :: !(rest[k].canRead && mapper(rest[k]) == Some(n));
        assert props[j + 1] == rest[j];
        forall k | j + 1 < k < |props| ensures !(props[k].canRead && mapper(props[k]) == Some(n)) {
          assert props[k] == rest[k - 1];
        }
      } else if props[0].canRead && mapper(props[0]) == Some(n) {
        RetainedNamesExactly(mapper, rest, n);
        forall k | 0 < k < |props| ensures !(props[k].canRead && mapper(props[k]) == Some(n)) {
          assert props[k] == rest[k - 1] && rest[k - 1] in rest;
        }
      }
    }
  }

  /** The getter the property loop keeps under each name belongs to the
      last readable property mapped to that name: a later property replaces
      an earlier getter of the same name. */
  lemma {:induction false} FieldsLoopLastWins(cfg: Config, mapper: Prop -> Option<string>, st: State, t: HostType,
                                               i: nat, mapping: map<string, Getter>, fxType: FxType, cap: int)
    requires i <= |Properties(cfg.classes, t)| && fxType.Record?
    requires 0 <= cap && st.depth <= cap
    requires FieldsLoop(cfg, mapper, st, t, i, mapping, fxType, cap).Built?
    ensures var r := FieldsLoop(cfg, mapper, st, t, i, mapping, fxType, cap);
            forall n | n in r.m.mapping ::
              && (LastMapped(mapper, Properties(cfg.classes, t)[i..], n).Some? ==>
                    r.m.mapping[n].prop == LastMapped(mapper, Properties(cfg.classes, t)[i..], n).value)
              && (LastMapped(mapper, Properties(cfg.classes, t)[i..], n).None? ==>
                    n in mapping && r.m.mapping[n] == mapping[n])
    decreases |Properties(cfg.classes, t)| - i, 1
  {
    var props := Properties(cfg.classes, t);
    if i == |props| {
      assert props[i..] == [];
    } else {
      var prop := props[i];
      if !prop.canRead || mapper(prop).None? {
        FieldsLoopStep(cfg, mapper, st, t, i, mapping, fxType, cap);
        assert props[i..][1..] == props[i + 1..];
        FieldsLoopLastWins(cfg, mapper, st, t, i + 1, mapping, fxType, cap);
      } else {
        KeptLastWins(cfg, mapper, st, t, i, mapping, fxType, cap);
      }
    }
  }

  /** The step of `FieldsLoopLastWins` for a kept property: it wins its
      name unless a later property takes it. */
  lemma {:induction false} KeptLastWins(cfg: Config, mapper: Prop -> Option<string>, st: State, t: HostType,
                                         i: nat, mapping: map<string, Getter>, fxType: FxType, cap: int)
    requires i < |Properties(cfg.classes, t)| && fxType.Record?
    requires 0 <= cap && st.depth <= cap
    requires Properties(cfg.classes, t)[i].canRead && mapper(Properties(cfg.classes, t)[i]).Some?
    requires FieldsLoop(cfg, mapper, st, t, i, mapping, fxType, cap).Built?
    ensures var r := FieldsLoop(cfg, mapper, st, t, i, mapping, fxType, cap);
            forall n | n in r.m.mapping ::
              && (LastMapped(mapper, Properties(cfg.classes, t)[i..], n).Some? ==>
                    r.m.mapping[n].prop == LastMapped(mapper, Properties(cfg.classes, t)[i..], n).value)
              && (LastMapped(mapper, Properties(cfg.classes, t)[i..], n).None? ==>
                    n in mapping && r.m.mapping[n] == mapping[n])
    decreases |Properties(cfg.classes, t)| - i, 0
  {
    var props := Properties(cfg.classes, t);
    var prop := props[i];
    var name := mapper(prop).value;
    FieldsLoopStep(cfg, mapper, st, t, i, mapping, fxType, cap);
    assert props[i..][1..] == props[i + 1..];
    var res := Resolve(cfg, st, prop.ty);
    FieldsLoopLastWins(cfg, mapper, res.st, t, i + 1, mapping[name := Getter(prop, res.m)],
                       AddField(fxType, name, TypeOf(res.m)), cap);
  }

  /** Under the default mapper every readable property becomes a field
      under its own name, and nothing else does. */
  lemma DefaultMapperKeepsReadable(props: seq<Prop>, n: string)
    ensures n in RetainedNames(DefaultMapper, props) <==> exists p | p in props :: p.canRead && p.name == n
  {
    RetainedNamesExactly(DefaultMapper, props, n);
  }

  /** `TableMarshalerProvider.New`: declines non-array types; resolves the
      element type with the same counter; the element marshaler's Type must
      be a record (a null Type fails on `ToTable`, any other on the cast). */
  function TableProviderNew(cfg: Config, st: State, t: HostType, ghost cap: int): (r: Step<State>)
    requires 0 <= cap && st.depth <= cap
    ensures r.Declined? <==> !t.TArray?
    ensures r.Declined? ==> r.st == st
    ensures r.st.depth <= st.depth
    ensures Potential(r.st) <= Potential(st)
    ensures st.cache.Keys <= r.st.cache.Keys
    ensures Extends(st.cache, r.st.cache)
    ensures r.Built? ==> r.m.TableM? && TypeOf(r.m.row).Record? && r.m.ty == Table(TypeOf(r.m.row))
    ensures t.TArray? && Resolve(cfg, st, t.elem).Failed? ==> r == Resolve(cfg, st, t.elem)
    ensures t.TArray? && Resolve(cfg, st, t.elem).Built? ==>
              && (r.Built? <==> TypeOf(Resolve(cfg, st, t.elem).m).Record?)
              && (r.Built? ==> r.m.row == Resolve(cfg, st, t.elem).m && r.st == Resolve(cfg, st, t.elem).st)
    ensures t.TArray? && Resolve(cfg, st, t.elem).Built? && TypeOf(Resolve(cfg, st, t.elem).m) == NullType ==>
              r == Failed(NullReference, Resolve(cfg, st, t.elem).st)
    ensures t.TArray? && Resolve(cfg, st, t.elem).Built? && TypeOf(Resolve(cfg, st, t.elem).m) != NullType
            && !TypeOf(Resolve(cfg, st, t.elem).m).Record? ==>
              r == Failed(InvalidCast, Resolve(cfg, st, t.elem).st)
    ensures CacheOk(cfg.classes, st.cache) ==> CacheOk(cfg.classes, r.st.cache)
    ensures CacheOk(cfg.classes, st.cache) && r.Built? ==> Fits(cfg.classes, r.m, t)
    decreases cap + 1, 1, 0
  {
    if !t.TArray? then Declined(st)
    else
      match Resolve(cfg, st, t.elem)
      case Failed(e, st') => Failed(e, st')
      case Declined(st') => Declined(st')
      case Built(tm, st') =>
        match TypeOf(tm)
        case Record(_) => Built(TableM(ToTable(TypeOf(tm)), tm), st')
        case NullType => Failed(NullReference, st')
        case _ => Failed(InvalidCast, st')
  }

  /** The state's cache, dropping the inner counter. */
  function Outer(r: Step<State>): (o: Step<Cache>)
    ensures o.st == r.st.cache
  {
    match r
    case Declined(st) => Declined(st.cache)
    case Built(m, st) => Built(m, st.cache)
    case Failed(e, st) => Failed(e, st.cache)
  }

  /** The top-level `TypeMarshallerCache.New(type)`: an inner resolver with
      counter 3 over the same cache. It never answers `Empty`, stores its
      answer under the type, and adds at most three cache entries. */
  function New(cfg: Config, cache: Cache, t: HostType): (r: Step<Cache>)
    ensures !r.Declined?
    ensures cache.Keys <= r.st.Keys
    ensures Extends(cache, r.st)
    ensures |r.st.Keys| <= |cache.Keys| + 3
    ensures r.Built? ==> t in r.st && r.st[t] == r.m
    ensures t in cache ==> r == Built(cache[t], cache)
    ensures CacheOk(cfg.classes, cache) ==> CacheOk(cfg.classes, r.st)
    ensures CacheOk(cfg.classes, cache) && r.Built? ==> r.m != EmptyM && Fits(cfg.classes, r.m, t)
    ensures Complete(cfg.providers) ==> r.Built?
  {
    Outer(Resolve(cfg, State(cache, InitialDepth), t))
  }

  /** `TypeMarshallerCache.Marshal(value)`: null is Blank with no
      resolution; otherwise resolve the runtime type and apply. */
  function Marshal(cfg: Config, cache: Cache, h: Heap, v: HostValue): (r: (Result<FxValue>, Cache))
    requires HeapOk(h) && Allocated(h, v)
    ensures v == Null ==> r == (Ok(BlankV), cache)
    ensures v != Null ==> r.1 == New(cfg, cache, RuntimeType(h, v)).st
    ensures v != Null && New(cfg, cache, RuntimeType(h, v)).Failed? ==>
              r.0 == Err(New(cfg, cache, RuntimeType(h, v)).err)
    ensures v != Null && New(cfg, cache, RuntimeType(h, v)).Built? ==>
              (var a := Apply(New(cfg, cache, RuntimeType(h, v)).m, h, v);
               a.Ok? ==> r.0 == Ok(a.value.value))
    ensures v != Null && New(cfg, cache, RuntimeType(h, v)).Built?
            && Apply(New(cfg, cache, RuntimeType(h, v)).m, h, v).Err? ==>
              r.0 == Err(Apply(New(cfg, cache, RuntimeType(h, v)).m, h, v).error)
  {
    if v == Null then (Ok(BlankV), cache)
    else
      var n := New(cfg, cache, RuntimeType(h, v));
      if !n.Built? then (Err(n.err), n.st)
      else
        var a := Apply(n.m, h, v);
        if a.Err? then (Err(a.error), n.st) else (Ok(a.value.value), n.st)
  }
}
