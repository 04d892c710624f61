/**
 * The static-graphics-state fallback (commands.cpp, pipeline.cpp): a dirty-bit cache of pipeline variants
 * with baked state, against the dynamic-state route.
 */
module StaticVariants {
  import opened Bits

  // --- Graphics state ---------------------------------------------------------------------

  datatype FrontFace = CCW | CW

  /** Enumerators by value: cull modes Front, Back, None; comparison and stencil operations. */
  type Cull = n: nat | n < 3
  type Op = n: nat | n < 8
  type StencilOp = n: nat | n < 8

  const CULL_NONE: Cull := 2
  const ALWAYS: Op := 7
  const KEEP: StencilOp := 0

  datatype Stencil = Stencil(test: Op, fail: StencilOp, pass: StencilOp, depthFail: StencilOp)

  /** The depth-stencil members that are baked into a variant. */
  datatype DepthStencil = DepthStencil(
    depthTest: bool, depthWrite: bool, compare: Op, bounds: bool, stencilTest: bool, front: Stencil, back: Stencil)

  /** The members of the logical graphics state that are baked into a variant. */
  datatype Baked = Baked(face: FrontFace, cull: Cull, ds: DepthStencil)

  /** The baked part of a public depth-stencil description. */
  datatype Desc = Desc(read: bool, write: bool, test: Op, front: Stencil, back: Stencil)

  const PLAIN: Stencil := Stencil(ALWAYS, KEEP, KEEP, KEEP)
  const DS_DEFAULT: DepthStencil := DepthStencil(false, false, ALWAYS, false, false, PLAIN, PLAIN)
  const DEFAULT: Baked := Baked(CCW, CULL_NONE, DS_DEFAULT)

  /** apply_depth_stencil_to_shadow. */
  function Applied(d: Desc, was: DepthStencil): DepthStencil {
    DepthStencil(d.read, d.write, d.test, was.bounds, d.front != PLAIN || d.back != PLAIN, d.front, d.back)
  }

  /**
   * What a description asks of a state: each member its own, stencil testing on if and only if some stencil member
   * of either face differs from its default, and the bounds test left as it was.
   */
  predicate Asks(d: Desc, was: DepthStencil, ds: DepthStencil) {
    && (ds.depthTest <==> d.read) && (ds.depthWrite <==> d.write) && ds.compare == d.test
    && ds.front.test == d.front.test && ds.front.fail == d.front.fail
    && ds.front.pass == d.front.pass && ds.front.depthFail == d.front.depthFail
    && ds.back.test == d.back.test && ds.back.fail == d.back.fail
    && ds.back.pass == d.back.pass && ds.back.depthFail == d.back.depthFail
    && (ds.stencilTest <==>
         || d.front.test != 7 || d.front.fail != 0 || d.front.pass != 0 || d.front.depthFail != 0
         || d.back.test != 7 || d.back.fail != 0 || d.back.pass != 0 || d.back.depthFail != 0)
    && ds.bounds == was.bounds
  }

  /** is_default_baked_state. */
  predicate IsDefault(b: Baked) {
    && b.face == CCW && b.cull == CULL_NONE && !b.ds.depthTest && !b.ds.depthWrite && b.ds.compare == ALWAYS
    && !b.ds.bounds && !b.ds.stencilTest
    && b.ds.front.test == ALWAYS && b.ds.front.fail == KEEP && b.ds.front.pass == KEEP && b.ds.front.depthFail == KEEP
    && b.ds.back.test == ALWAYS && b.ds.back.fail == KEEP && b.ds.back.pass == KEEP && b.ds.back.depthFail == KEEP
  }

  /** A description that bakes the default depth-stencil state. */
  predicate Inert(d: Desc) {
    !d.read && !d.write && d.test == ALWAYS && d.front == PLAIN && d.back == PLAIN
  }

  // --- Variant keys -----------------------------------------------------------------------

  const IMPL_VERSION: nat := 1
  const MAGIC: nat := 0x495A5356

  datatype Key = Key(
    base: nat, impl: nat, profile: nat, face: nat, cull: nat, depthTest: nat, depthWrite: nat, compare: nat,
    bounds: nat, stencilTest: nat, frontTest: nat, frontFail: nat, frontPass: nat, frontDepthFail: nat,
    backTest: nat, backFail: nat, backPass: nat, backDepthFail: nat)

  function Flag(b: bool): nat {
    if b then 1 else 0
  }

  /** make_variant_key. */
  function MakeKey(profile: nat, base: nat, b: Baked): Key {
    Key(base, IMPL_VERSION, profile, if b.face == CCW then 0 else 1, b.cull,
        Flag(b.ds.depthTest), Flag(b.ds.depthWrite), b.ds.compare, Flag(b.ds.bounds), Flag(b.ds.stencilTest),
        b.ds.front.test, b.ds.front.fail, b.ds.front.pass, b.ds.front.depthFail,
        b.ds.back.test, b.ds.back.fail, b.ds.back.pass, b.ds.back.depthFail)
  }

  /** The enumerator of a stored code. */
  function Code(n: nat, bound: nat): (c: nat)
    requires bound > 0
    ensures c < bound
  {
    if n < bound then n else bound - 1
  }

  /** state_from_key. */
  function StateFromKey(k: Key): Baked {
    Baked(if k.face == 0 then CCW else CW, Code(k.cull, 3),
          DepthStencil(k.depthTest != 0, k.depthWrite != 0, Code(k.compare, 8), k.bounds != 0, k.stencilTest != 0,
                       Stencil(Code(k.frontTest, 8), Code(k.frontFail, 8), Code(k.frontPass, 8), Code(k.frontDepthFail, 8)),
                       Stencil(Code(k.backTest, 8), Code(k.backFail, 8), Code(k.backPass, 8), Code(k.backDepthFail, 8))))
  }

  /** variant_key_eq, field by field. */
  predicate KeyEq(a: Key, b: Key) {
    && a.base == b.base && a.impl == b.impl && a.profile == b.profile && a.face == b.face && a.cull == b.cull
    && a.depthTest == b.depthTest && a.depthWrite == b.depthWrite && a.compare == b.compare
    && a.bounds == b.bounds && a.stencilTest == b.stencilTest
    && a.frontTest == b.frontTest && a.frontFail == b.frontFail && a.frontPass == b.frontPass && a.frontDepthFail == b.frontDepthFail
    && a.backTest == b.backTest && a.backFail == b.backFail && a.backPass == b.backPass && a.backDepthFail == b.backDepthFail
  }

  /** The worker compiles exactly the state that the draw asked for, on its base pipeline and profile. */
  lemma KeyRoundTrip(profile: nat, base: nat, b: Baked)
    ensures var k := MakeKey(profile, base, b);
      StateFromKey(k) == b && k.base == base && k.profile == profile && k.impl == IMPL_VERSION
  {
  }

  /** Equal keys, equal base and state; and no member of either is missing from the comparison. */
  lemma KeyEqIs(a: Key, b: Key)
    ensures KeyEq(a, b) <==> a == b
  {
  }

  lemma KeysDiffer(p: nat, i: nat, b: Baked, q: nat, j: nat, c: Baked)
    ensures KeyEq(MakeKey(p, i, b), MakeKey(q, j, c)) <==> p == q && i == j && b == c
  {
    KeyEqIs(MakeKey(p, i, b), MakeKey(q, j, c));
    KeyRoundTrip(p, i, b);
    KeyRoundTrip(q, j, c);
  }

  // --- Serialized keys --------------------------------------------------------------------

  /** The n low bytes of a number, least significant first. */
  function Bytes(x: nat, n: nat): (s: seq<nat>)
    ensures |s| == n && forall i :: 0 <= i < n ==> s[i] < 256
  {
    if n == 0 then [] else [x % 256] + Bytes(x / 256, n - 1)
  }

  function Number(s: seq<nat>): nat {
    if s == [] then 0 else s[0] + 256 * Number(s[1..])
  }

  function Range(n: nat): nat {
    if n == 0 then 1 else 256 * Range(n - 1)
  }

  lemma {:induction false} BytesRoundTrip(x: nat, n: nat)
    requires x < Range(n)
    ensures Number(Bytes(x, n)) == x
  {
    if n > 0 {
      BytesRoundTrip(x / 256, n - 1);
      assert Bytes(x, n)[1..] == Bytes(x / 256, n - 1);
    }
  }

  function Body(k: Key): (s: seq<nat>)
    ensures |s| == 15
  {
    [k.face, k.cull, k.depthTest, k.depthWrite, k.compare, k.bounds, k.stencilTest, k.frontTest, k.frontFail,
     k.frontPass, k.frontDepthFail, k.backTest, k.backFail, k.backPass, k.backDepthFail]
  }

  /**
   * serialize_variant_key: magic, version and profile, the base identity, and fifteen bytes. That makes 35;
   * the declared serialized size of 43 counts version and profile twice.
   */
  function Serialized(k: Key): (s: seq<nat>)
    ensures |s| == 35
  {
    Bytes(MAGIC, 4) + Bytes(k.impl, 4) + Bytes(k.profile, 4) + Bytes(k.base, 8) + Body(k)
  }

  /** The fields fit their widths. */
  predicate Fits(k: Key) {
    k.impl < Range(4) && k.profile < Range(4) && k.base < Range(8)
  }

  /** Different keys have different bytes. */
  lemma SerializedInjective(a: Key, b: Key)
    requires Fits(a) && Fits(b) && Serialized(a) == Serialized(b)
    ensures a == b
  {
    var s := Serialized(a);
    Sections(a);
    Sections(b);
    BytesRoundTrip(a.impl, 4);
    BytesRoundTrip(b.impl, 4);
    BytesRoundTrip(a.profile, 4);
    BytesRoundTrip(b.profile, 4);
    BytesRoundTrip(a.base, 8);
    BytesRoundTrip(b.base, 8);
    SameBody(a, b);
    hide Bytes, Range, Body, Serialized, Number;
  }

  /** The header and the base identity read back as numbers, and each byte is its member's. */
  lemma SerializedFields(k: Key)
    requires Fits(k)
    ensures var s := Serialized(k);
      && Number(s[..4]) == 0x495A5356 && Number(s[4..8]) == k.impl && Number(s[8..12]) == k.profile && Number(s[12..20]) == k.base
      && s[20..] == [k.face, k.cull, k.depthTest, k.depthWrite, k.compare, k.bounds, k.stencilTest, k.frontTest, k.frontFail,
                     k.frontPass, k.frontDepthFail, k.backTest, k.backFail, k.backPass, k.backDepthFail]
  {
    Sections(k);
    assert MAGIC < Range(4);
    BytesRoundTrip(MAGIC, 4);
    BytesRoundTrip(k.impl, 4);
    BytesRoundTrip(k.profile, 4);
    BytesRoundTrip(k.base, 8);
    hide Bytes, Range, Serialized, Number;
  }

  lemma Sections(k: Key)
    ensures var s := Serialized(k);
      && s[..4] == Bytes(MAGIC, 4)
      && s[4..8] == Bytes(k.impl, 4) && s[8..12] == Bytes(k.profile, 4) && s[12..20] == Bytes(k.base, 8) && s[20..] == Body(k)
  {
    hide Bytes, Body;
  }

  lemma SameBody(a: Key, b: Key)
    ensures Body(a) == Body(b) ==> b == a.(base := b.base, impl := b.impl, profile := b.profile)
  {
    var s, t := Body(a), Body(b);
    assert s == t ==> forall i :: 0 <= i < 15 ==> s[i] == t[i];
  }

  // --- The two routes ---------------------------------------------------------------------

  /** A native pipeline: a base pipeline (which bakes the defaults) or a private variant. */
  datatype Native = Unbound | BaseOf(base: nat) | VariantOf(key: Key)

  /** The base pipeline and the state that a native pipeline draws with. */
  function Draws(n: Native): Option<(nat, Baked)> {
    match n
    case Unbound => None
    case BaseOf(p) => Some((p, DEFAULT))
    case VariantOf(k) => Some((k.base, StateFromKey(k)))
  }

  /** What a command buffer tracks on the static route, and the native pipeline bound for graphics. */
  datatype Cb = Cb(shadow: Baked, dirty: bool, base: Option<nat>, variant: Option<Key>, native: Native)

  /** Recorded commands; a draw comes with what it meets: whether its variant is there or can be made, and is ready. */
  datatype Cmd =
    | SetPipeline(base: nat)
    | SetComputePipeline(base: nat)
    | SetDepthStencil(desc: Desc)
    | SetFrontFace(face: FrontFace)
    | SetCull(cull: Cull)
    | BeginPass
    | Draw(available: bool, ready: bool)

  const FRESH: Cb := Cb(DEFAULT, true, None, None, Unbound)

  /** prepare_static_graphics: the buffer after it, and whether the draw is recorded. */
  function Prepared(cb: Cb, profile: nat, available: bool, ready: bool): (Cb, bool) {
    if cb.base == None then (cb, false)
    else if !cb.dirty && cb.variant.Some? && cb.variant.value.base == cb.base.value then (cb, true)
    else if IsDefault(cb.shadow) then
      (if cb.variant.Some? then cb.(native := BaseOf(cb.base.value), variant := None, dirty := false)
       else cb.(dirty := false), true)
    else if !available || !ready then (cb, false)
    else
      var key := MakeKey(profile, cb.base.value, cb.shadow);
      (cb.(native := VariantOf(key), variant := Some(key), dirty := false), true)
  }

  /** One command on the static route. Beginning a pass resets front face and cull mode, and nothing else. */
  function Static(cb: Cb, profile: nat, c: Cmd): Cb {
    match c
    case SetPipeline(p) => cb.(native := BaseOf(p), base := Some(p), dirty := true)
    case SetComputePipeline(p) => cb.(base := Some(p), dirty := true)
    case SetDepthStencil(d) => cb.(shadow := cb.shadow.(ds := Applied(d, cb.shadow.ds)), dirty := true)
    case SetFrontFace(f) => cb.(shadow := cb.shadow.(face := f), dirty := true)
    case SetCull(m) => cb.(shadow := cb.shadow.(cull := m), dirty := true)
    case BeginPass => cb.(shadow := cb.shadow.(face := CCW, cull := CULL_NONE), dirty := true)
    case Draw(available, ready) => Prepared(cb, profile, available, ready).0
  }

  /** The dynamic route: the bound graphics pipeline and the state in effect. */
  datatype Effect = Effect(pipeline: Option<nat>, state: Baked)

  /**
   * The dynamic-state commands of cmd_set_depth_stencil_state, one by one; whether stencil testing is on is read
   * back from the shadow.
   */
  function Recorded(d: Desc, was: DepthStencil): DepthStencil {
    was.(depthWrite := d.write).(depthTest := d.read).(compare := d.test).(stencilTest := Applied(d, was).stencilTest)
      .(front := Stencil(d.front.test, d.front.fail, d.front.pass, d.front.depthFail))
      .(back := Stencil(d.back.test, d.back.fail, d.back.pass, d.back.depthFail))
  }

  function Dynamic(e: Effect, c: Cmd): Effect {
    match c
    case SetPipeline(p) => e.(pipeline := Some(p))
    case SetComputePipeline(p) => e
    case SetDepthStencil(d) => e.(state := e.state.(ds := Recorded(d, e.state.ds)))
    case SetFrontFace(f) => e.(state := e.state.(face := f))
    case SetCull(m) => e.(state := e.state.(cull := m))
    case BeginPass => e.(state := DEFAULT)
    case Draw(_, _) => e
  }

  /** Both routes after a command stream. */
  function After(cmds: seq<Cmd>, profile: nat): (Cb, Effect) {
    if cmds == [] then (FRESH, Effect(None, DEFAULT))
    else
      var (cb, e) := After(cmds[..|cmds| - 1], profile);
      (Static(cb, profile, cmds[|cmds| - 1]), Dynamic(e, cmds[|cmds| - 1]))
  }

  // --- The cache refines eager resolution -------------------------------------------------

  /** A variant tracked and not dirty is of the tracked base, is bound, and bakes the shadow, not the defaults. */
  predicate CacheOk(cb: Cb) {
    && (cb.base == None ==> cb.variant == None && cb.native == Unbound)
    && (cb.variant.Some? && !cb.dirty ==>
         && cb.base.Some? && cb.variant.value.base == cb.base.value && cb.native == VariantOf(cb.variant.value)
         && StateFromKey(cb.variant.value) == cb.shadow && cb.shadow != DEFAULT)
  }

  lemma DefaultIs(b: Baked)
    ensures IsDefault(b) <==> b == DEFAULT
  {
  }

  /**
   * A recorded draw uses the tracked base with the shadow's state, as if resolved eagerly; only a default
   * state with no variant tracked leaves what is bound as it is.
   */
  lemma DrawResolves(cb: Cb, profile: nat, available: bool, ready: bool)
    requires CacheOk(cb)
    ensures var (after, recorded) := Prepared(cb, profile, available, ready);
      && CacheOk(after) && after.shadow == cb.shadow && after.base == cb.base
      && (recorded ==> cb.base.Some? && (after.variant == None <==> cb.shadow == DEFAULT))
      && (recorded && (cb.shadow != DEFAULT || cb.variant.Some?) ==> Draws(after.native) == Some((cb.base.value, cb.shadow)))
      && (recorded && cb.shadow == DEFAULT && cb.variant.Some? ==> after.native == BaseOf(cb.base.value))
      && (recorded && cb.shadow == DEFAULT && cb.variant == None ==> after.native == cb.native)
      && (!recorded ==> after == cb)
  {
    DefaultIs(cb.shadow);
    if cb.base.Some? {
      KeyRoundTrip(profile, cb.base.value, cb.shadow);
    }
    hide MakeKey, StateFromKey, IsDefault;
  }

  lemma StaticKeeps(cb: Cb, profile: nat, c: Cmd)
    requires CacheOk(cb)
    ensures CacheOk(Static(cb, profile, c))
  {
    if c.Draw? {
      DrawResolves(cb, profile, c.available, c.ready);
    }
    hide MakeKey, StateFromKey, IsDefault;
  }

  // --- What a stream did last -------------------------------------------------------------

  /** A depth-stencil state was set since the last pass began. */
  predicate SetSincePass(cmds: seq<Cmd>) {
    cmds != [] && !cmds[|cmds| - 1].BeginPass? &&
    (cmds[|cmds| - 1].SetDepthStencil? || SetSincePass(cmds[..|cmds| - 1]))
  }

  /** The last depth-stencil state set in the stream. */
  function LastDesc(cmds: seq<Cmd>): Option<Desc> {
    if cmds == [] then None
    else match cmds[|cmds| - 1]
      case SetDepthStencil(d) => Some(d)
      case _ => LastDesc(cmds[..|cmds| - 1])
  }

  function LastFace(cmds: seq<Cmd>): FrontFace {
    if cmds == [] then CCW
    else match cmds[|cmds| - 1]
      case SetFrontFace(f) => f
      case BeginPass => CCW
      case _ => LastFace(cmds[..|cmds| - 1])
  }

  function LastCull(cmds: seq<Cmd>): Cull {
    if cmds == [] then CULL_NONE
    else match cmds[|cmds| - 1]
      case SetCull(m) => m
      case BeginPass => CULL_NONE
      case _ => LastCull(cmds[..|cmds| - 1])
  }

  datatype Bind = Bind(pipeline: nat, graphics: bool)

  /** The last pipeline bound, of either kind. */
  function LastBind(cmds: seq<Cmd>): Option<Bind> {
    if cmds == [] then None
    else match cmds[|cmds| - 1]
      case SetPipeline(p) => Some(Bind(p, true))
      case SetComputePipeline(p) => Some(Bind(p, false))
      case _ => LastBind(cmds[..|cmds| - 1])
  }

  function LastGraphics(cmds: seq<Cmd>): Option<nat> {
    if cmds == [] then None
    else match cmds[|cmds| - 1]
      case SetPipeline(p) => Some(p)
      case _ => LastGraphics(cmds[..|cmds| - 1])
  }

  /** The commands leave the default state behind. */
  predicate Plain(cmds: seq<Cmd>) {
    LastFace(cmds) == CCW && LastCull(cmds) == CULL_NONE && (LastDesc(cmds) == None || Inert(LastDesc(cmds).value))
  }

  /** The last draw to find its pipeline drew with a state that was not the default. */
  predicate VariantLeft(cmds: seq<Cmd>) {
    cmds != [] &&
    var before := cmds[..|cmds| - 1];
    match cmds[|cmds| - 1]
    case Draw(available, ready) => LastBind(before).Some? && !Plain(before) && ((available && ready) || VariantLeft(before))
    case _ => VariantLeft(before)
  }

  /** Since the last graphics pipeline was bound, a draw after a compute pipeline bound something. */
  predicate Strayed(cmds: seq<Cmd>) {
    cmds != [] && !cmds[|cmds| - 1].SetPipeline? &&
    (Strayed(cmds[..|cmds| - 1]) || Strays(cmds[..|cmds| - 1], cmds[|cmds| - 1]))
  }

  predicate Strays(before: seq<Cmd>, c: Cmd) {
    && c.Draw? && LastBind(before).Some? && !LastBind(before).value.graphics
    && if Plain(before) then VariantLeft(before) else c.available && c.ready
  }

  /** The pass has set its own depth-stencil state, or none that matters is left over. */
  predicate Covered(cmds: seq<Cmd>) {
    SetSincePass(cmds) || LastDesc(cmds) == None || Inert(LastDesc(cmds).value)
  }

  /**
   * What a caller can check before a draw: a graphics pipeline was bound last and the draw is covered; or a
   * compute pipeline was, but the state is the default one, no variant was left, and no draw has strayed.
   */
  predicate Agreeable(cmds: seq<Cmd>) {
    match LastBind(cmds)
    case None => true
    case Some(b) => if b.graphics then Covered(cmds) else Plain(cmds) && !VariantLeft(cmds) && !Strayed(cmds)
  }

  /** A pipeline is of one kind. */
  predicate Kinds(cmds: seq<Cmd>, compute: set<nat>) {
    forall i :: 0 <= i < |cmds| ==>
      (cmds[i].SetPipeline? ==> cmds[i].base !in compute) && (cmds[i].SetComputePipeline? ==> cmds[i].base in compute)
  }

  // --- When the two routes agree ----------------------------------------------------------

  /** Both routes' states. */
  predicate Shadows(cmds: seq<Cmd>, cb: Cb, e: Effect) {
    && cb.shadow.face == e.state.face == LastFace(cmds) && cb.shadow.cull == e.state.cull == LastCull(cmds)
    && (match LastDesc(cmds) case Some(d) => Asks(d, DS_DEFAULT, cb.shadow.ds) case None => cb.shadow.ds == DS_DEFAULT)
    && e.state.ds == (if SetSincePass(cmds) then cb.shadow.ds else DS_DEFAULT)
  }

  /** Both routes' pipelines: the static one is off where a draw has strayed. */
  predicate Binds(cmds: seq<Cmd>, cb: Cb, e: Effect, compute: set<nat>) {
    && e.pipeline == LastGraphics(cmds) && (e.pipeline.Some? ==> e.pipeline.value !in compute)
    && (match LastBind(cmds)
        case None => cb.base == None && e.pipeline == None && !Strayed(cmds)
        case Some(b) => (
          && cb.base == Some(b.pipeline) && (b.pipeline in compute <==> !b.graphics)
          && (b.graphics ==> e.pipeline == cb.base && !Strayed(cmds))))
    && (cb.variant.Some? <==> VariantLeft(cmds))
    && (cb.variant == None && !Strayed(cmds) ==> cb.native == match e.pipeline case Some(p) => BaseOf(p) case None => Unbound)
    && (cb.variant == None && Strayed(cmds) ==> cb.native.BaseOf? && cb.native.base in compute)
  }

  lemma PlainIs(cmds: seq<Cmd>, cb: Cb, e: Effect)
    requires Shadows(cmds, cb, e)
    ensures cb.shadow == DEFAULT <==> Plain(cmds)
    ensures cb.shadow == e.state <==> Covered(cmds)
  {
    if LastDesc(cmds).Some? {
      InertIs(LastDesc(cmds).value, cb.shadow.ds);
    }
    hide Asks, Inert, LastDesc, LastFace, LastCull, SetSincePass;
  }

  lemma InertIs(d: Desc, ds: DepthStencil)
    requires Asks(d, DS_DEFAULT, ds)
    ensures ds == DS_DEFAULT <==> Inert(d)
  {
  }

  /** Both routes set what the description asks. */
  lemma BothAsk(d: Desc, was: DepthStencil)
    ensures Asks(d, was, Applied(d, was)) && Recorded(d, was) == Applied(d, was)
  {
  }

  lemma ShadowStep(before: seq<Cmd>, c: Cmd, cb: Cb, e: Effect, profile: nat)
    requires CacheOk(cb) && Shadows(before, cb, e)
    ensures Shadows(before + [c], Static(cb, profile, c), Dynamic(e, c))
  {
    assert (before + [c])[..|before|] == before;
    if c.Draw? {
      DrawResolves(cb, profile, c.available, c.ready);
    }
    hide MakeKey, StateFromKey, IsDefault, CacheOk, Prepared, Inert;
  }

  lemma DrawBinds(before: seq<Cmd>, c: Cmd, cb: Cb, e: Effect, compute: set<nat>, profile: nat)
    requires CacheOk(cb) && Shadows(before, cb, e) && Binds(before, cb, e, compute) && c.Draw?
    ensures Binds(before + [c], Static(cb, profile, c), e, compute)
  {
    assert (before + [c])[..|before|] == before;
    PlainIs(before, cb, e);
    DefaultIs(cb.shadow);
    DrawResolves(cb, profile, c.available, c.ready);
    RecordedWhen(cb, profile, c.available, c.ready);
    hide MakeKey, StateFromKey, IsDefault, Prepared, Plain, Shadows, Draws;
  }

  /** A draw is recorded exactly when a base is tracked and its variant, if it needs one, is there and ready. */
  lemma RecordedWhen(cb: Cb, profile: nat, available: bool, ready: bool)
    requires CacheOk(cb)
    ensures Prepared(cb, profile, available, ready).1 <==>
      cb.base.Some? && (cb.shadow == DEFAULT || (available && ready) || (!cb.dirty && cb.variant.Some?))
  {
    DefaultIs(cb.shadow);
    hide MakeKey, StateFromKey, IsDefault;
  }

  lemma OtherBinds(before: seq<Cmd>, c: Cmd, cb: Cb, e: Effect, compute: set<nat>, profile: nat)
    requires Binds(before, cb, e, compute) && !c.Draw?
    requires (c.SetPipeline? ==> c.base !in compute) && (c.SetComputePipeline? ==> c.base in compute)
    ensures Binds(before + [c], Static(cb, profile, c), Dynamic(e, c), compute)
  {
    assert (before + [c])[..|before|] == before;
    hide Plain, Applied, Recorded;
  }

  lemma {:induction false} AfterTracks(cmds: seq<Cmd>, compute: set<nat>, profile: nat)
    requires Kinds(cmds, compute)
    ensures var (cb, e) := After(cmds, profile);
      CacheOk(cb) && Shadows(cmds, cb, e) && Binds(cmds, cb, e, compute)
  {
    if cmds != [] {
      var before, c := cmds[..|cmds| - 1], cmds[|cmds| - 1];
      assert cmds == before + [c];
      var (cb, e) := After(before, profile);
      AfterTracks(before, compute, profile);
      hide CacheOk, Shadows, Binds, Static, Dynamic;
      StaticKeeps(cb, profile, c);
      ShadowStep(before, c, cb, e, profile);
      if c.Draw? {
        DrawBinds(before, c, cb, e, compute, profile);
        DrawKeepsEffect(e, c);
      } else {
        OtherBinds(before, c, cb, e, compute, profile);
      }
    }
  }

  lemma DrawKeepsEffect(e: Effect, c: Cmd)
    requires c.Draw?
    ensures Dynamic(e, c) == e
  {
  }

  /** A native pipeline draws as the dynamic route would: with its graphics pipeline and the state in effect. */
  predicate Same(n: Native, e: Effect) {
    match e.pipeline
    case None => Draws(n) == None
    case Some(p) => Draws(n) == Some((p, e.state))
  }

  /**
   * For every stream, compute pipelines included, and every draw after it that is recorded: the two routes
   * draw with the same pipeline and state if and only if the stream is agreeable.
   */
  lemma RoutesAgreeExactly(cmds: seq<Cmd>, compute: set<nat>, profile: nat, available: bool, ready: bool)
    requires Kinds(cmds, compute)
    ensures var (cb, e) := After(cmds, profile);
      var (after, recorded) := Prepared(cb, profile, available, ready);
      recorded ==> (Same(after.native, e) <==> Agreeable(cmds))
  {
    var (cb, e) := After(cmds, profile);
    AfterTracks(cmds, compute, profile);
    PlainIs(cmds, cb, e);
    DrawResolves(cb, profile, available, ready);
    if cb.shadow == DEFAULT && cb.variant == None {
      PlainBound(cmds, cb, e, compute);
    }
    hide MakeKey, StateFromKey, IsDefault, Prepared, After, Plain, Covered, VariantLeft, Strayed, LastBind, LastGraphics;
  }

  lemma PlainBound(cmds: seq<Cmd>, cb: Cb, e: Effect, compute: set<nat>)
    requires Binds(cmds, cb, e, compute) && cb.shadow == DEFAULT && cb.variant == None
    ensures cb.native == Unbound ==> Draws(cb.native) == None
    ensures cb.native.BaseOf? ==> Draws(cb.native) == Some((cb.native.base, cb.shadow))
  {
  }

  /** What a recorded draw bakes, from the commands before it: the last face, cull mode and depth-stencil description. */
  lemma DrawBakes(cmds: seq<Cmd>, compute: set<nat>, profile: nat, available: bool, ready: bool)
    requires Kinds(cmds, compute)
    ensures var (after, recorded) := Prepared(After(cmds, profile).0, profile, available, ready);
      recorded && Draws(after.native).Some? ==>
        var state := Draws(after.native).value.1;
        && state.face == LastFace(cmds) && state.cull == LastCull(cmds)
        && match LastDesc(cmds) case Some(d) => Asks(d, DS_DEFAULT, state.ds) case None => state.ds == DS_DEFAULT
  {
    var (cb, e) := After(cmds, profile);
    AfterTracks(cmds, compute, profile);
    DrawResolves(cb, profile, available, ready);
    if cb.shadow == DEFAULT && cb.variant == None {
      PlainBound(cmds, cb, e, compute);
    }
    hide MakeKey, StateFromKey, IsDefault, Prepared, After, Asks, VariantLeft, Strayed, LastBind, LastGraphics, Binds;
  }

  predicate GraphicsOnly(cmds: seq<Cmd>) {
    forall i :: 0 <= i < |cmds| ==> !cmds[i].SetComputePipeline?
  }

  lemma {:induction false} OnlyGraphicsBound(cmds: seq<Cmd>)
    requires GraphicsOnly(cmds)
    ensures LastBind(cmds) == match LastGraphics(cmds) case Some(p) => Some(Bind(p, true)) case None => None
  {
    if cmds != [] {
      OnlyGraphicsBound(cmds[..|cmds| - 1]);
    }
  }

  /**
   * In particular, for every stream that binds graphics pipelines only: a recorded draw uses the bound
   * pipeline, and its baked state is the one in effect if and only if the draw is covered.
   */
  lemma RoutesAgree(cmds: seq<Cmd>, profile: nat, available: bool, ready: bool)
    requires GraphicsOnly(cmds)
    ensures var (cb, e) := After(cmds, profile);
      var (after, recorded) := Prepared(cb, profile, available, ready);
      recorded ==>
        && e.pipeline.Some? && Draws(after.native).Some? && Draws(after.native).value.0 == e.pipeline.value
        && (Draws(after.native).value.1 == e.state <==> Covered(cmds))
  {
    var (cb, e) := After(cmds, profile);
    AfterTracks(cmds, {}, profile);
    OnlyGraphicsBound(cmds);
    PlainIs(cmds, cb, e);
    DrawResolves(cb, profile, available, ready);
    hide MakeKey, StateFromKey, IsDefault, Prepared, After, Plain, Covered, VariantLeft, LastBind, LastGraphics, Strayed;
  }

  /**
   * Where the routes part: a second pass that draws without setting a depth-stencil state of its own gets
   * the state of the first pass from the static route, and the defaults from the dynamic one.
   */
  lemma LeftoverState(p: nat, d: Desc, profile: nat)
    requires !Inert(d)
    ensures var cmds := [SetPipeline(p), BeginPass, SetDepthStencil(d), BeginPass];
      var (cb, e) := After(cmds, profile);
      var (after, recorded) := Prepared(cb, profile, true, true);
      recorded && Draws(after.native).Some? && Draws(after.native).value.1 != e.state
  {
    var cmds := [SetPipeline(p), BeginPass, SetDepthStencil(d), BeginPass];
    var three := cmds[..3];
    assert three[..2][..1] == [SetPipeline(p)] && LastBind(three[..2][..1]) == Some(Bind(p, true));
    assert LastBind(three[..2]) == Some(Bind(p, true)) && LastDesc(three) == Some(d);
    assert LastBind(three) == Some(Bind(p, true)) && LastDesc(cmds) == Some(d);
    assert LastBind(cmds) == Some(Bind(p, true)) && !Covered(cmds);
    var (cb, e) := After(cmds, profile);
    AfterTracks(cmds, {}, profile);
    RecordedWhen(cb, profile, true, true);
    RoutesAgree(cmds, profile, true, true);
    hide MakeKey, StateFromKey, IsDefault, Inert, Asks, Prepared, After, Covered, Strayed, VariantLeft, LastGraphics;
  }

  /**
   * And with compute pipelines, which cmd_set_pipeline tracks as the base too: a culled draw, then a compute
   * pipeline, then a pass that draws with the default state. The draw binds the compute pipeline for graphics.
   */
  function Confusing(graphics: nat, compute: nat): seq<Cmd> {
    [SetPipeline(graphics), BeginPass, SetCull(0), Draw(true, true), SetComputePipeline(compute), BeginPass]
  }

  lemma ComputeConfuses(graphics: nat, compute: nat, profile: nat, available: bool, ready: bool)
    requires graphics != compute
    ensures !Agreeable(Confusing(graphics, compute))
    ensures var (cb, e) := After(Confusing(graphics, compute), profile);
      var (after, recorded) := Prepared(cb, profile, available, ready);
      recorded && e.pipeline == Some(graphics) && after.native == BaseOf(compute)
  {
    var cmds := Confusing(graphics, compute);
    LastOfConfusing(graphics, compute);
    AfterTracks(cmds, {compute}, profile);
    var (cb, e) := After(cmds, profile);
    PlainIs(cmds, cb, e);
    RecordedWhen(cb, profile, available, ready);
    DrawResolves(cb, profile, available, ready);
    hide MakeKey, StateFromKey, IsDefault, Prepared, After, Strayed, VariantLeft, LastGraphics, LastBind, Plain, Shadows;
  }

  lemma LastOfConfusing(graphics: nat, compute: nat)
    ensures var cmds := Confusing(graphics, compute);
      && Plain(cmds) && VariantLeft(cmds) && LastGraphics(cmds) == Some(graphics)
      && LastBind(cmds) == Some(Bind(compute, false))
  {
    var cmds := Confusing(graphics, compute);
    var five, four, three, two, one := cmds[..5], cmds[..4], cmds[..3], cmds[..2], cmds[..1];
    assert five[..4] == four && four[..3] == three && three[..2] == two && two[..1] == one && one[..0] == [];
    assert LastBind(one) == Some(Bind(graphics, true)) && LastGraphics(one) == Some(graphics) && LastDesc(one) == None;
    assert LastBind(two) == Some(Bind(graphics, true)) && LastGraphics(two) == Some(graphics) && LastDesc(two) == None;
    assert LastBind(three) == Some(Bind(graphics, true)) && LastGraphics(three) == Some(graphics) && LastDesc(three) == None;
    assert VariantLeft(four) && LastGraphics(four) == Some(graphics) && LastDesc(four) == None;
    assert VariantLeft(five) && LastGraphics(five) == Some(graphics) && LastDesc(five) == None;
  }

  // --- The command buffer -----------------------------------------------------------------

  /** The device's map of private variants. */
  class VariantMap {
    var variants: seq<Key>

    ghost predicate Valid()
      reads this
    {
      forall i, j :: 0 <= i < j < |variants| ==> variants[i] != variants[j]
    }

    constructor ()
      ensures Valid() && variants == []
    {
      variants := [];
    }

    /** find_or_request_static_variant: the variant of a base and a state, made when it is not there. */
    method FindOrRequest(profile: nat, base: nat, state: Baked, allocate: bool) returns (r: Option<Key>)
      requires Valid()
      modifies this
      ensures Valid()
      ensures r == None <==> !allocate && MakeKey(profile, base, state) !in old(variants)
      ensures r.Some? ==> r.value == MakeKey(profile, base, state) && r.value in variants
      ensures variants == old(variants) || (r.Some? && variants == old(variants) + [r.value])
    {
      hide MakeKey;
      var key := MakeKey(profile, base, state);
      var i := 0;
      while i < |variants|
        invariant i <= |variants| && variants == old(variants) && key !in variants[..i]
      {
        KeyEqIs(variants[i], key);
        if KeyEq(variants[i], key) {
          return Some(variants[i]);
        }
        assert variants[..i + 1] == variants[..i] + [variants[i]];
        i := i + 1;
      }
      assert variants[..i] == variants;
      if !allocate {
        return None;
      }
      variants := variants + [key];
      r := Some(key);
    }
  }

  /** The static-route state of a command buffer. */
  class CommandBuffer {
    var shadow: Baked
    var dirty: bool
    var base: Option<nat>
    var variant: Option<Key>
    var native: Native
    var failed: bool

    ghost function State(): Cb
      reads this
    {
      Cb(shadow, dirty, base, variant, native)
    }

    /** reset_logical_graphics_state. */
    constructor ()
      ensures State() == FRESH && !failed
    {
      shadow, dirty, base, variant, native, failed := DEFAULT, true, None, None, Unbound, false;
    }

    method BindPipeline(p: nat, graphics: bool)
      modifies this
      ensures State() == Static(old(State()), 0, if graphics then SetPipeline(p) else SetComputePipeline(p))
      ensures failed == old(failed)
    {
      if graphics {
        native := BaseOf(p);
      }
      base, dirty := Some(p), true;
    }

    method SetDepthStencilState(d: Desc)
      modifies this
      ensures State() == Static(old(State()), 0, SetDepthStencil(d)) && failed == old(failed)
      ensures Asks(d, old(shadow).ds, shadow.ds) && shadow == old(shadow).(ds := shadow.ds) && dirty
    {
      shadow := shadow.(ds := Applied(d, shadow.ds));
      dirty := true;
    }

    method SetFace(f: FrontFace)
      modifies this
      ensures State() == Static(old(State()), 0, SetFrontFace(f)) && failed == old(failed)
    {
      shadow := shadow.(face := f);
      dirty := true;
    }

    method SetCullMode(m: Cull)
      modifies this
      ensures State() == Static(old(State()), 0, SetCull(m)) && failed == old(failed)
    {
      shadow := shadow.(cull := m);
      dirty := true;
    }

    method BeginRenderPass()
      modifies this
      ensures State() == Static(old(State()), 0, BeginPass) && failed == old(failed)
    {
      SetFace(CCW);
      SetCullMode(CULL_NONE);
    }

    /** prepare_static_graphics: whether the draw is recorded; if not, the recording has failed. */
    method PrepareStaticGraphics(shared: VariantMap, profile: nat, allocate: bool, ready: bool) returns (ok: bool)
      requires shared.Valid()
      modifies this, shared
      ensures shared.Valid()
      ensures ok == Prepared(old(State()), profile, MadeOrThere(old(shared.variants), old(State()), profile, allocate), ready).1
      ensures State() == Prepared(old(State()), profile, MadeOrThere(old(shared.variants), old(State()), profile, allocate), ready).0
      ensures failed == (old(failed) || !ok)
    {
      hide MakeKey, IsDefault;
      if base == None {
        failed := true;
        return false;
      }
      if !dirty && variant.Some? && variant.value.base == base.value {
        return true;
      }
      if IsDefault(shadow) {
        if variant.Some? {
          native := BaseOf(base.value);
          variant := None;
        }
        dirty := false;
        return true;
      }
      var v := shared.FindOrRequest(profile, base.value, shadow, allocate);
      if v == None || !ready {
        failed := true;
        return false;
      }
      native := VariantOf(v.value);
      variant := v;
      dirty := false;
      ok := true;
    }
  }

  /** A variant for the buffer's base and shadow is in the map or can be made. */
  predicate MadeOrThere(variants: seq<Key>, cb: Cb, profile: nat, allocate: bool) {
    allocate || (cb.base.Some? && MakeKey(profile, cb.base.value, cb.shadow) in variants)
  }
}
