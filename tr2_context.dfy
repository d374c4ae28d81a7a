/** The values the trace2 recorder keeps in a Go context.Context: the session
    id and the innermost region (internal/log/trace2.go, lines 71-81 and
    182-208). A context is immutable; binding a value returns a new context
    that extends the old one, so sibling contexts never see each other's
    bindings. */
module Tr2Context {
  import opened Wrappers

  datatype CtxKey = SidKey | ParentRegionKey

  /** A region's nesting level and the clock reading (in nanoseconds) taken
      when it was entered. */
  datatype Region = Region(level: int, tStart: int)

  datatype CtxValue = SidValue(sid: string) | RegionValue(region: Region)

  /** context.Background() and the chains context.WithValue builds on it. */
  datatype Context = Background | WithValue(parent: Context, key: CtxKey, value: CtxValue)

  /** How many times the chain binds `key`. */
  function Bindings(ctx: Context, key: CtxKey): nat {
    match ctx
    case Background => 0
    case WithValue(p, k, _) => Bindings(p, key) + (if k == key then 1 else 0)
  }

  /** ctx.Value(key): the nearest binding of the key, if any. */
  function Value(ctx: Context, key: CtxKey): (r: Option<CtxValue>)
    ensures r.None? <==> Bindings(ctx, key) == 0
  {
    match ctx
    case Background => None
    case WithValue(p, k, v) => if k == key then Some(v) else Value(p, key)
  }

  /** Whether a value has the Go type the recorder expects under the key:
      a UUID under the session key, a region under the region key. */
  predicate OfKind(key: CtxKey, v: CtxValue) {
    match key
    case SidKey => v.SidValue?
    case ParentRegionKey => v.RegionValue?
  }

  /** getContextValue: the nearest binding, when it has the expected type. */
  function GetContextValue(ctx: Context, key: CtxKey): (r: Option<CtxValue>)
    ensures r.Some? ==> Value(ctx, key) == r && OfKind(key, r.value)
    ensures r.None? ==> Value(ctx, key).None? || !OfKind(key, Value(ctx, key).value)
  {
    var v := Value(ctx, key);
    if v.Some? && OfKind(key, v.value) then v else None
  }

  /** getOrSetContextValue: the bound value and the same context when the
      key is bound; otherwise the minted value, bound in a new context. */
  function GetOrSetContextValue(ctx: Context, key: CtxKey, minted: CtxValue): (r: (Context, CtxValue))
    requires OfKind(key, minted)
    ensures OfKind(key, r.1) && GetContextValue(r.0, key) == Some(r.1)
  {
    var v := GetContextValue(ctx, key);
    if v.Some? then (ctx, v.value) else (WithValue(ctx, key, minted), minted)
  }

  /** A bound key is answered from the context whatever the factory would
      have made, and a second call returns what the first one did. */
  lemma GetOrSetStable(ctx: Context, key: CtxKey, f1: CtxValue, f2: CtxValue)
    requires OfKind(key, f1) && OfKind(key, f2)
    ensures GetContextValue(ctx, key).Some? ==>
      GetOrSetContextValue(ctx, key, f1) == GetOrSetContextValue(ctx, key, f2) == (ctx, GetContextValue(ctx, key).value)
    ensures var (c1, v1) := GetOrSetContextValue(ctx, key, f1);
      GetOrSetContextValue(c1, key, f2) == (c1, v1)
    ensures GetContextValue(ctx, key).None? ==>
      GetOrSetContextValue(ctx, key, f1) == (WithValue(ctx, key, f1), f1)
  {
  }

  /** The session id of the context, creating it from `minted` (the result
      of uuid.New) when the context has none. */
  function GetOrSetSid(ctx: Context, minted: string): (r: (Context, string))
    ensures GetContextValue(r.0, SidKey) == Some(SidValue(r.1))
  {
    var (c, v) := GetOrSetContextValue(ctx, SidKey, SidValue(minted));
    (c, v.sid)
  }

  /** The innermost region of the context, if any. */
  function GetRegion(ctx: Context): (r: Option<Region>)
    ensures r.Some? <==> GetContextValue(ctx, ParentRegionKey).Some?
    ensures r.Some? ==> GetContextValue(ctx, ParentRegionKey) == Some(RegionValue(r.value))
  {
    match GetContextValue(ctx, ParentRegionKey)
    case Some(v) => Some(v.region)
    case None => None
  }

  /** The region entered by Region: level 0 without an enclosing region,
      else one more than the enclosing region's level, started at `tStart`;
      it is bound in a new context extending `ctx`. */
  function EnterRegion(ctx: Context, tStart: int): (r: (Context, Region))
    ensures r.0 == WithValue(ctx, ParentRegionKey, RegionValue(r.1))
    ensures GetRegion(r.0) == Some(r.1) && r.1.tStart == tStart
  {
    var level := match GetRegion(ctx) case None => 0 case Some(parent) => parent.level + 1;
    var region := Region(level, tStart);
    (WithValue(ctx, ParentRegionKey, RegionValue(region)), region)
  }

  /** Every binding has the type its key expects, and every region's level
      counts the regions bound below it: what the recorder's own extensions
      build from context.Background(). */
  predicate WellNested(ctx: Context) {
    match ctx
    case Background => true
    case WithValue(p, k, v) =>
      && WellNested(p)
      && OfKind(k, v)
      && (k == ParentRegionKey ==> v.region.level == Bindings(p, ParentRegionKey))
  }

  /** In a well-nested context the innermost region's level is one less
      than the number of enclosing regions, and a missing session id means
      no session id was ever bound. */
  lemma {:induction false} WellNestedLookup(ctx: Context)
    requires WellNested(ctx)
    ensures GetRegion(ctx).None? <==> Bindings(ctx, ParentRegionKey) == 0
    ensures GetRegion(ctx).Some? ==> GetRegion(ctx).value.level == Bindings(ctx, ParentRegionKey) - 1
    ensures GetContextValue(ctx, SidKey).None? <==> Bindings(ctx, SidKey) == 0
  {
    match ctx
    case Background =>
    case WithValue(p, k, v) =>
      WellNestedLookup(p);
  }

  /** Entering a region keeps the context well nested and gives a level
      equal to the number of regions already entered on this lineage, so
      levels are never negative. */
  lemma EnterRegionLevel(ctx: Context, tStart: int)
    requires WellNested(ctx)
    ensures var (c, r) := EnterRegion(ctx, tStart);
      && WellNested(c)
      && r.level == Bindings(ctx, ParentRegionKey) >= 0
      && Bindings(c, SidKey) == Bindings(ctx, SidKey)
  {
    WellNestedLookup(ctx);
  }

  /** Ensuring a session id keeps the context well nested and never adds a
      second session id to a lineage. */
  lemma GetOrSetSidOnce(ctx: Context, minted: string)
    requires WellNested(ctx) && Bindings(ctx, SidKey) <= 1
    ensures var (c, _) := GetOrSetSid(ctx, minted);
      && WellNested(c)
      && Bindings(c, SidKey) <= 1
      && (Bindings(ctx, SidKey) == 1 ==> c == ctx)
      && Bindings(c, ParentRegionKey) == Bindings(ctx, ParentRegionKey)
  {
    WellNestedLookup(ctx);
  }

  /** The ways the recorder extends a context: ensuring a session id (with
      the id uuid.New would give) and entering a region (at a clock reading). */
  datatype Step = EnsureSid(minted: string) | Enter(tStart: int)

  function Apply(ctx: Context, s: Step): Context {
    match s
    case EnsureSid(minted) => GetOrSetSid(ctx, minted).0
    case Enter(tStart) => EnterRegion(ctx, tStart).0
  }

  function Run(ctx: Context, steps: seq<Step>): Context
    decreases |steps|
  {
    if steps == [] then ctx else Run(Apply(ctx, steps[0]), steps[1..])
  }

  /** Along any lineage the recorder builds from context.Background(), the
      session id is bound at most once and the region levels count the
      enclosing regions. */
  lemma {:induction false} LineageInvariant(ctx: Context, steps: seq<Step>)
    requires WellNested(ctx) && Bindings(ctx, SidKey) <= 1
    ensures WellNested(Run(ctx, steps)) && Bindings(Run(ctx, steps), SidKey) <= 1
    decreases |steps|
  {
    if steps != [] {
      match steps[0] {
        case EnsureSid(minted) => GetOrSetSidOnce(ctx, minted);
        case Enter(tStart) => EnterRegionLevel(ctx, tStart);
      }
      LineageInvariant(Apply(ctx, steps[0]), steps[1..]);
    }
  }

  /** Once a lineage has a session id, every later step keeps it. */
  lemma {:induction false} SidNeverReassigned(ctx: Context, steps: seq<Step>)
    requires WellNested(ctx) && Bindings(ctx, SidKey) <= 1
    requires GetContextValue(ctx, SidKey).Some?
    ensures GetContextValue(Run(ctx, steps), SidKey) == GetContextValue(ctx, SidKey)
    decreases |steps|
  {
    if steps != [] {
      var next := Apply(ctx, steps[0]);
      match steps[0] {
        case EnsureSid(minted) => GetOrSetSidOnce(ctx, minted);
        case Enter(tStart) => EnterRegionLevel(ctx, tStart);
      }
      SidNeverReassigned(next, steps[1..]);
    }
  }
}
