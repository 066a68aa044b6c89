/** Execution profiles of a Delivery Run: an incremental resolver, its revisions, and frozen thread bindings. */
module AgentProfiles {
  import opened Common

  datatype Role = Development | Review | Publication

  datatype Effort = Minimal | Low | Medium | High | XHigh | MaxEffort | Ultra

  datatype Preset = Economy | Premium

  const DEFAULT_PRESET := Economy

  datatype Field = ModelField | EffortField

  type Model = string

  /** Where a role's values come from; `inherited` is kept by a Publication that stopped following Development. */
  datatype Provenance = Provenance(preset: Preset, overrides: seq<Field>, follows: bool, inherited: seq<Field>)

  datatype Profile = Profile(model: Model, effort: Effort, follows: bool, provenance: Provenance)

  datatype Snapshot = Snapshot(preset: Preset, development: Profile, review: Profile, publication: Profile)

  datatype Override = Override(model: Option<Model>, effort: Option<Effort>)

  datatype Options = Options(
    preset: Option<Preset>, development: Override, review: Override, publication: Override, fromDevelopment: bool)

  predicate Overridden(o: Override) { o.model.Some? || o.effort.Some? }

  predicate Present(o: Options) {
    Overridden(o.development) || Overridden(o.review) || Overridden(o.publication) || o.fromDevelopment
  }

  /** A Publication cannot be told to follow Development and be overridden at once. */
  predicate Contradictory(o: Options) { o.fromDevelopment && Overridden(o.publication) }

  // ---- Resolving ----

  /** A role before overrides are applied; a preset baseline has no provenance of its own. */
  datatype Draft = Draft(model: Model, effort: Effort, follows: bool, prior: Option<Provenance>)

  function Baseline(preset: Preset, role: Role): Draft {
    match (preset, role)
    case (Economy, Development) => Draft("gpt-5.6-luna", XHigh, false, None)
    case (Economy, Review) => Draft("gpt-6-astra", Low, false, None)
    case (Economy, Publication) => Draft("gpt-5.6-luna", XHigh, true, None)
    case (Premium, Development) => Draft("gpt-6-astra", Low, false, None)
    case (Premium, Review) => Draft("gpt-6-astra", Low, false, None)
    case (Premium, Publication) => Draft("gpt-5.6-luna", XHigh, false, None)
  }

  function Kept(p: Profile): Draft { Draft(p.model, p.effort, p.follows, Some(p.provenance)) }

  function Applied(d: Draft, o: Override): Draft {
    d.(model := if o.model.Some? then o.model.value else d.model,
       effort := if o.effort.Some? then o.effort.value else d.effort)
  }

  function Fields(o: Override): seq<Field> {
    (if o.model.Some? then [ModelField] else []) + (if o.effort.Some? then [EffortField] else [])
  }

  /** The list without repetitions, in order of first appearance. */
  function Unique(fields: seq<Field>): (r: seq<Field>)
    ensures forall f :: f in r <==> f in fields
    ensures forall i, j :: 0 <= i < j < |r| ==> r[i] != r[j]
  {
    if fields == [] then []
    else
      var before, f := Unique(fields[..|fields| - 1]), fields[|fields| - 1];
      assert fields == fields[..|fields| - 1] + [f];
      if f in before then before else before + [f]
  }

  function Without(fields: seq<Field>, drop: seq<Field>): seq<Field> {
    if fields == [] then []
    else Without(fields[..|fields| - 1], drop)
         + if fields[|fields| - 1] in drop then [] else [fields[|fields| - 1]]
  }

  /** Development and Review: only an own draft and own overrides matter. */
  function ResolveOwn(preset: Preset, d: Draft, o: Override): Profile {
    var a := Applied(d, o);
    var prior := if d.prior.Some? then d.prior.value.overrides else [];
    Profile(a.model, a.effort, false, Provenance(preset, Unique(prior + Fields(o)), false, []))
  }

  /** The Publication draft: an independent Publication outlives a new preset unless it is told to follow again. */
  function PublicationDraft(current: Option<Snapshot>, o: Options, preset: Preset): Draft {
    if current.Some? && o.preset.None? then Kept(current.value.publication)
    else if current.Some? && !o.fromDevelopment && !current.value.publication.follows then Kept(current.value.publication)
    else Baseline(preset, Publication)
  }

  function ResolvePublication(current: Option<Snapshot>, o: Options, preset: Preset, development: Profile): Profile {
    var d := PublicationDraft(current, o, preset);
    var named := if d.prior.Some? && current.Some? && !current.value.publication.follows then d.prior.value.preset else preset;
    if o.fromDevelopment || (!Overridden(o.publication) && d.follows) then
      Profile(development.model, development.effort, true, Provenance(named, [], true, []))
    else
      var a := Applied(d, o.publication);
      var prior := if d.prior.Some? then d.prior.value.overrides else [];
      var wasFollowing := current.Some? && o.preset.None? && current.value.publication.follows;
      var leaving := if wasFollowing then current.value.development.provenance.overrides else [];
      var inherited := if leaving != [] then leaving else if d.prior.Some? then d.prior.value.inherited else [];
      Profile(a.model, a.effort, false,
              Provenance(named, Unique(prior + Fields(o.publication)), false, Unique(Without(inherited, Fields(o.publication)))))
  }

  /** One exact snapshot from the current one, a preset and explicit values. */
  function Resolve(current: Option<Snapshot>, o: Options): Snapshot {
    var preset := if o.preset.Some? then o.preset.value else if current.Some? then current.value.preset else DEFAULT_PRESET;
    var keep := current.Some? && o.preset.None?;
    var development := ResolveOwn(
      preset, if keep then Kept(current.value.development) else Baseline(preset, Development), o.development);
    var review := ResolveOwn(preset, if keep then Kept(current.value.review) else Baseline(preset, Review), o.review);
    Snapshot(preset, development, review, ResolvePublication(current, o, preset, development))
  }

  // ---- Laws of the resolver ----

  predicate Usable(o: Options) { !Contradictory(o) && (o.preset.Some? || Present(o)) }

  /** The snapshot after an initialization and any number of configurations; refused ones change nothing. */
  function Fold(first: Options, calls: seq<Options>): Snapshot {
    if calls == [] then Resolve(None, first)
    else
      var before, o := Fold(first, calls[..|calls| - 1]), calls[|calls| - 1];
      if Usable(o) then Resolve(Some(before), o) else before
  }

  function OverrideOf(o: Options, role: Role): Override {
    match role case Development => o.development case Review => o.review case Publication => o.publication
  }

  function ProfileOf(s: Snapshot, role: Role): Profile {
    match role case Development => s.development case Review => s.review case Publication => s.publication
  }

  /** The last explicit model since the last preset, else the preset's own. */
  function LastModel(first: Options, calls: seq<Options>, role: Role): Model {
    var o := if calls == [] then first else calls[|calls| - 1];
    if calls != [] && !Usable(o) then LastModel(first, calls[..|calls| - 1], role)
    else if OverrideOf(o, role).model.Some? then OverrideOf(o, role).model.value
    else if o.preset.Some? then Baseline(o.preset.value, role).model
    else if calls == [] then Baseline(DEFAULT_PRESET, role).model
    else LastModel(first, calls[..|calls| - 1], role)
  }

  function LastEffort(first: Options, calls: seq<Options>, role: Role): Effort {
    var o := if calls == [] then first else calls[|calls| - 1];
    if calls != [] && !Usable(o) then LastEffort(first, calls[..|calls| - 1], role)
    else if OverrideOf(o, role).effort.Some? then OverrideOf(o, role).effort.value
    else if o.preset.Some? then Baseline(o.preset.value, role).effort
    else if calls == [] then Baseline(DEFAULT_PRESET, role).effort
    else LastEffort(first, calls[..|calls| - 1], role)
  }

  lemma {:induction false} LastOverrideWins(first: Options, calls: seq<Options>, role: Role)
    requires role != Publication
    ensures ProfileOf(Fold(first, calls), role).model == LastModel(first, calls, role)
    ensures ProfileOf(Fold(first, calls), role).effort == LastEffort(first, calls, role)
  {
    if calls != [] { LastOverrideWins(first, calls[..|calls| - 1], role); }
  }

  /** A Publication that follows Development always has exactly its values, whatever was configured. */
  lemma {:induction false} FollowersFollow(first: Options, calls: seq<Options>)
    requires !Contradictory(first)
    ensures var s := Fold(first, calls);
            && (s.publication.follows ==> s.publication.model == s.development.model && s.publication.effort == s.development.effort)
            && s.publication.provenance.follows == s.publication.follows
  {
    if calls != [] { FollowersFollow(first, calls[..|calls| - 1]); }
  }

  predicate LeavesPublication(o: Options) { !o.fromDevelopment && !Overridden(o.publication) }

  /** Once independent, a Publication keeps its values through any presets and overrides of other roles. */
  lemma {:induction false} IndependentPublicationSurvives(first: Options, calls: seq<Options>, later: seq<Options>)
    requires !Fold(first, calls).publication.follows
    requires forall k :: 0 <= k < |later| ==> LeavesPublication(later[k])
    ensures var before, after := Fold(first, calls).publication, Fold(first, calls + later).publication;
            && !after.follows && after.model == before.model && after.effort == before.effort
            && after.provenance.preset == before.provenance.preset
  {
    if later == [] {
      assert calls + later == calls;
    } else {
      var shorter := later[..|later| - 1];
      assert (calls + later)[..|calls + later| - 1] == calls + shorter;
      IndependentPublicationSurvives(first, calls, shorter);
    }
  }

  /** It follows again exactly when it is told to, or when a new preset meets one that still follows and does not override it. */
  lemma WhoFollows(current: Snapshot, o: Options)
    requires !Contradictory(o)
    ensures Resolve(Some(current), o).publication.follows <==>
              o.fromDevelopment
              || (!Overridden(o.publication) && current.publication.follows && (o.preset.None? || o.preset == Some(Economy)))
  {
  }

  lemma UniqueTwice(fields: seq<Field>)
    ensures Unique(Unique(fields) + fields) == Unique(fields)
  {
    AbsorbKnown(Unique(fields), fields);
    UniqueOfUnique(Unique(fields));
  }

  lemma {:induction false} AbsorbKnown(known: seq<Field>, more: seq<Field>)
    requires forall f :: f in more ==> f in known
    ensures Unique(known + more) == Unique(known)
  {
    if more == [] {
      assert known + more == known;
    } else {
      AbsorbKnown(known, more[..|more| - 1]);
      assert (known + more)[..|known + more| - 1] == known + more[..|more| - 1];
    }
  }

  lemma {:induction false} UniqueOfUnique(fields: seq<Field>)
    requires forall i, j :: 0 <= i < j < |fields| ==> fields[i] != fields[j]
    ensures Unique(fields) == fields
  {
    if fields != [] { UniqueOfUnique(fields[..|fields| - 1]); }
  }

  lemma OwnTwice(preset: Preset, d: Draft, o: Override)
    requires d.prior.None?
    ensures ResolveOwn(preset, Kept(ResolveOwn(preset, d, o)), o) == ResolveOwn(preset, d, o)
  {
    assert [] + Fields(o) == Fields(o);
    UniqueTwice(Fields(o));
  }

  lemma DefaultPublicationFollows()
    ensures var d := Baseline(DEFAULT_PRESET, Publication); d.follows && d.prior.None?
  {
  }

  lemma ListFacts(fields: seq<Field>)
    ensures Unique([] + fields) == Unique(fields) && Unique(Unique(fields) + fields) == Unique(fields)
    ensures Without([], fields) == [] && Unique([]) == []
  {
    assert [] + fields == fields;
    UniqueTwice(fields);
  }

  lemma PublicationTwice(o: Options, development: Profile, review: Profile)
    requires !Contradictory(o) && o.preset.None?
    ensures var first := ResolvePublication(None, o, DEFAULT_PRESET, development);
            ResolvePublication(Some(Snapshot(DEFAULT_PRESET, development, review, first)), o, DEFAULT_PRESET, development) == first
  {
    hide Unique;
    hide Without;
    hide Baseline;
    DefaultPublicationFollows();
    ListFacts(Fields(o.publication));
  }

  /** Initializing twice with the same options asks for exactly the stored snapshot, provenance included. */
  lemma InitializeTwice(o: Options)
    requires !Contradictory(o)
    ensures Resolve(if o.preset.Some? then None else Some(Resolve(None, o)), o) == Resolve(None, o)
  {
    if o.preset.None? {
      OwnTwice(DEFAULT_PRESET, Baseline(DEFAULT_PRESET, Development), o.development);
      OwnTwice(DEFAULT_PRESET, Baseline(DEFAULT_PRESET, Review), o.review);
      PublicationTwice(o, Resolve(None, o).development, Resolve(None, o).review);
    }
  }

  // ---- The store ----

  datatype Revision = Revision(number: nat, snapshot: Snapshot)

  datatype Binding = Binding(id: nat, role: Role, thread: Option<nat>, model: Model, effort: Effort, revision: nat)

  datatype Answer<+T> = Ok(value: T) | Refused

  predicate UniqueThreads(bindings: seq<Binding>) {
    forall i, j :: 0 <= i < j < |bindings| && bindings[i].thread.Some? ==> bindings[i].thread != bindings[j].thread
  }

  predicate UniqueIds(bindings: seq<Binding>, nextId: nat) {
    && (forall i, j :: 0 <= i < j < |bindings| ==> bindings[i].id != bindings[j].id)
    && (forall i :: 0 <= i < |bindings| ==> bindings[i].id < nextId)
  }

  /** The binding runs on what its role's profile said in the revision it names. */
  predicate Faithful(b: Binding, revisions: seq<Revision>) {
    && 1 <= b.revision <= |revisions|
    && b.model == ProfileOf(revisions[b.revision - 1].snapshot, b.role).model
    && b.effort == ProfileOf(revisions[b.revision - 1].snapshot, b.role).effort
  }

  predicate AllFaithful(bindings: seq<Binding>, revisions: seq<Revision>) {
    forall b :: b in bindings ==> Faithful(b, revisions)
  }

  predicate SameFacts(a: Binding, b: Binding) {
    a.role == b.role && a.model == b.model && a.effort == b.effort && a.revision == b.revision
  }

  // ---- What one request does to the document ----

  datatype Document = Document(
    created: bool, current: Snapshot, revisions: seq<Revision>, bindings: seq<Binding>, nextId: nat)

  const NO_OPTIONS := Options(None, Override(None, None), Override(None, None), Override(None, None), false)

  function Empty(): Document { Document(false, Resolve(None, NO_OPTIONS), [], [], 0) }

  function AfterInit(d: Document, o: Options): Document {
    if Contradictory(o) || d.created then d
    else d.(created := true, current := Resolve(None, o), revisions := [Revision(1, Resolve(None, o))])
  }

  function AfterConfig(d: Document, o: Options): Document {
    if !d.created || !Usable(o) then d
    else
      var next := Resolve(Some(d.current), o);
      d.(current := next, revisions := d.revisions + [Revision(|d.revisions| + 1, next)])
  }

  function BoundTo(bindings: seq<Binding>, thread: nat): (r: Option<Binding>)
    ensures r.Some? ==> r.value in bindings && r.value.thread == Some(thread)
    ensures r.None? ==> forall b :: b in bindings ==> b.thread != Some(thread)
  {
    if bindings == [] then None
    else if bindings[0].thread == Some(thread) then Some(bindings[0])
    else BoundTo(bindings[1..], thread)
  }

  function NewBinding(d: Document, role: Role, thread: Option<nat>): Binding {
    Binding(d.nextId, role, thread, ProfileOf(d.current, role).model, ProfileOf(d.current, role).effort, |d.revisions|)
  }

  /** An independent Publication must not inherit a thread that was bound for another role. */
  predicate StartsAfresh(d: Document, role: Role, bound: Binding) {
    role == Publication && bound.role != Publication && !d.current.publication.follows
  }

  function Bound(d: Document, thread: Option<nat>): Option<Binding> {
    if thread.Some? then BoundTo(d.bindings, thread.value) else None
  }

  predicate Reuses(d: Document, role: Role, thread: Option<nat>) {
    Bound(d, thread).Some? && !StartsAfresh(d, role, Bound(d, thread).value)
  }

  /** The binding that a request gets: the one its thread has, or a new one. */
  function BindingFor(d: Document, role: Role, thread: Option<nat>): Binding {
    if Reuses(d, role, thread) then Bound(d, thread).value
    else NewBinding(d, role, if Bound(d, thread).Some? then None else thread)
  }

  function AfterBind(d: Document, role: Role, thread: Option<nat>): Document {
    if !d.created || Reuses(d, role, thread) then d
    else d.(bindings := d.bindings + [BindingFor(d, role, thread)], nextId := d.nextId + 1)
  }

  function Removed(bindings: seq<Binding>, k: nat): seq<Binding>
    requires k < |bindings|
  {
    bindings[..k] + bindings[k + 1..]
  }

  function Position(bindings: seq<Binding>, id: nat): (k: Option<nat>)
    ensures k.Some? ==> k.value < |bindings| && bindings[k.value].id == id
    ensures k.None? ==> forall m :: 0 <= m < |bindings| ==> bindings[m].id != id
  {
    if bindings == [] then None
    else if bindings[0].id == id then Some(0)
    else
      var k := Position(bindings[1..], id);
      if k.Some? then Some(k.value + 1) else assert forall m :: 0 < m < |bindings| ==> bindings[m] == bindings[1..][m - 1]; None
  }

  /** A reported thread that another binding has keeps that one; the pending binding is dropped. */
  function Attached(bindings: seq<Binding>, k: nat, thread: nat): seq<Binding>
    requires k < |bindings|
  {
    if BoundTo(Removed(bindings, k), thread).Some? then Removed(bindings, k)
    else bindings[k := bindings[k].(thread := Some(thread))]
  }

  function AfterAttach(d: Document, id: nat, thread: nat): Document {
    var k := Position(d.bindings, id);
    if k.None? then d else d.(bindings := Attached(d.bindings, k.value, thread))
  }

  /** Only a binding that never got a thread can be discarded. */
  function AfterDiscard(d: Document, id: nat): Document {
    var k := Position(d.bindings, id);
    if k.None? || d.bindings[k.value].thread.Some? then d else d.(bindings := Removed(d.bindings, k.value))
  }

  datatype Request =
    | Init(options: Options) | Config(options: Options) | Bind(role: Role, thread: Option<nat>)
    | Attach(id: nat, reported: nat) | Discard(id: nat)

  function Answered(d: Document, q: Request): Document {
    match q
    case Init(o) => AfterInit(d, o)
    case Config(o) => AfterConfig(d, o)
    case Bind(role, thread) => AfterBind(d, role, thread)
    case Attach(id, thread) => AfterAttach(d, id, thread)
    case Discard(id) => AfterDiscard(d, id)
  }

  function Served(requests: seq<Request>): Document {
    if requests == [] then Empty() else Answered(Served(requests[..|requests| - 1]), requests[|requests| - 1])
  }

  // ---- What every document keeps ----

  predicate Sound(d: Document) {
    && (if d.created then |d.revisions| > 0 && d.revisions[|d.revisions| - 1].snapshot == d.current
        else d.revisions == [] && d.bindings == [])
    && (forall k :: 0 <= k < |d.revisions| ==> d.revisions[k].number == k + 1)
    && UniqueThreads(d.bindings) && UniqueIds(d.bindings, d.nextId)
    && AllFaithful(d.bindings, d.revisions)
  }

  /** No thread lost or changed its binding. */
  predicate Frozen(before: seq<Binding>, after: seq<Binding>) {
    forall b :: b in before && b.thread.Some? ==> b in after
  }

  lemma MoreRevisions(bindings: seq<Binding>, before: seq<Revision>, after: seq<Revision>)
    requires AllFaithful(bindings, before) && before <= after
    ensures AllFaithful(bindings, after)
  {
    forall b | b in bindings ensures Faithful(b, after) {
      assert Faithful(b, before);
    }
  }

  lemma RemovalKeeps(bindings: seq<Binding>, nextId: nat, k: nat)
    requires k < |bindings| && UniqueThreads(bindings) && UniqueIds(bindings, nextId)
    ensures UniqueThreads(Removed(bindings, k)) && UniqueIds(Removed(bindings, k), nextId)
    ensures forall b :: b in Removed(bindings, k) <==> b in bindings && b.id != bindings[k].id
    ensures Frozen(bindings, Removed(bindings, k)) <==> bindings[k].thread.None?
  {
    var r := Removed(bindings, k);
    forall b | b in bindings && b.id != bindings[k].id ensures b in r {
      var m :| 0 <= m < |bindings| && bindings[m] == b;
      assert r[if m < k then m else m - 1] == b;
    }
    assert bindings[k] in bindings && bindings[k] !in r;
  }

  lemma ReplacementKeeps(bindings: seq<Binding>, k: nat, thread: nat)
    requires k < |bindings| && forall i, j :: 0 <= i < j < |bindings| ==> bindings[i].id != bindings[j].id
    ensures Frozen(bindings, bindings[k := bindings[k].(thread := Some(thread))])
            <==> bindings[k].thread in {None, Some(thread)}
    ensures forall b :: b in bindings[k := bindings[k].(thread := Some(thread))] ==>
              (b in bindings && b.id != bindings[k].id) || b == bindings[k].(thread := Some(thread))
  {
    var after := bindings[k := bindings[k].(thread := Some(thread))];
    forall b | b in bindings && b != bindings[k] ensures b in after {
      var m :| 0 <= m < |bindings| && bindings[m] == b;
      assert after[m] == b;
    }
    assert after[k] in after;
    if bindings[k].thread.Some? && bindings[k].thread != Some(thread) {
      assert bindings[k] in bindings && bindings[k] !in after;
    }
  }

  /** All threads keep their bindings exactly if the reported thread is the requested one, or none was requested. */
  lemma AttachmentKeeps(bindings: seq<Binding>, nextId: nat, k: nat, thread: nat)
    requires k < |bindings| && UniqueThreads(bindings) && UniqueIds(bindings, nextId)
    ensures var after := Attached(bindings, k, thread);
            && UniqueThreads(after) && UniqueIds(after, nextId)
            && (Frozen(bindings, after) <==> bindings[k].thread in {None, Some(thread)})
            && forall b :: b in after ==> b in bindings || b == bindings[k].(thread := Some(thread))
  {
    RemovalKeeps(bindings, nextId, k);
    ReplacementKeeps(bindings, k, thread);
    var other := BoundTo(Removed(bindings, k), thread);
    if other.Some? {
      assert other.value in bindings;
    } else {
      forall m | 0 <= m < |bindings| && m != k ensures bindings[m].thread != Some(thread) {
        assert bindings[m] in Removed(bindings, k);
      }
    }
  }

  lemma BindIsSound(d: Document, role: Role, thread: Option<nat>)
    requires Sound(d)
    ensures Sound(AfterBind(d, role, thread)) && Frozen(d.bindings, AfterBind(d, role, thread).bindings)
    ensures d.created ==> BindingFor(d, role, thread) in AfterBind(d, role, thread).bindings
  {
    hide Resolve;
    var b := BindingFor(d, role, thread);
    if d.created && !Reuses(d, role, thread) {
      var after := d.bindings + [b];
      assert after[|d.bindings|] == b;
      assert Faithful(b, d.revisions);
      forall i | 0 <= i < |d.bindings| ensures after[i].thread.None? || after[i].thread != b.thread {
        assert d.bindings[i] in d.bindings;
      }
    }
  }

  lemma ConfigIsSound(d: Document, o: Options)
    requires Sound(d)
    ensures Sound(AfterConfig(d, o))
  {
    hide Resolve;
    MoreRevisions(d.bindings, d.revisions, AfterConfig(d, o).revisions);
  }

  lemma AttachIsSound(d: Document, id: nat, thread: nat)
    requires Sound(d)
    ensures Sound(AfterAttach(d, id, thread))
    ensures Frozen(d.bindings, AfterAttach(d, id, thread).bindings) <==> Matches(d, Attach(id, thread))
  {
    var k := Position(d.bindings, id);
    if k.Some? {
      AttachmentKeeps(d.bindings, d.nextId, k.value, thread);
      forall b | b in AfterAttach(d, id, thread).bindings ensures Faithful(b, d.revisions) {
        assert Faithful(d.bindings[k.value], d.revisions);
      }
    }
  }

  lemma DiscardIsSound(d: Document, id: nat)
    requires Sound(d)
    ensures Sound(AfterDiscard(d, id)) && Frozen(d.bindings, AfterDiscard(d, id).bindings)
  {
    var k := Position(d.bindings, id);
    if k.Some? { RemovalKeeps(d.bindings, d.nextId, k.value); }
  }

  /** A reported thread is the one that was requested, if one was. */
  predicate Matches(d: Document, q: Request) {
    q.Attach? ==>
      var k := Position(d.bindings, q.id);
      k.None? || d.bindings[k.value].thread in {None, Some(q.reported)}
  }

  /** Every request keeps the document sound, and no thread loses its binding exactly if a reported thread matches. */
  lemma RequestFreezesExactly(d: Document, q: Request)
    requires Sound(d)
    ensures Sound(Answered(d, q))
    ensures Frozen(d.bindings, Answered(d, q).bindings) <==> Matches(d, q)
  {
    hide Resolve, Faithful, UniqueThreads, UniqueIds;
    match q {
      case Init(o) => assert !d.created ==> d.bindings == [];
                      EmptyIsUnique(d.nextId);
      case Config(o) => ConfigIsSound(d, o);
      case Bind(role, thread) => BindIsSound(d, role, thread);
      case Attach(id, thread) => AttachIsSound(d, id, thread);
      case Discard(id) => DiscardIsSound(d, id);
    }
  }

  lemma EmptyIsUnique(nextId: nat)
    ensures UniqueThreads([]) && UniqueIds([], nextId)
  {
  }

  /** Every reachable document has unique threads and faithful bindings. */
  lemma {:induction false} DocumentsAreSound(requests: seq<Request>)
    ensures Sound(Served(requests))
  {
    if requests != [] {
      DocumentsAreSound(requests[..|requests| - 1]);
      RequestFreezesExactly(Served(requests[..|requests| - 1]), requests[|requests| - 1]);
    } else {
      EmptyIsUnique(0);
    }
  }

  /** As long as reported threads match, whoever got a thread keeps its binding through all later requests. */
  lemma {:induction false} BindingsLast(requests: seq<Request>, n: nat)
    requires n <= |requests|
    requires forall k :: n <= k < |requests| ==> Matches(Served(requests[..k]), requests[k])
    ensures Frozen(Served(requests[..n]).bindings, Served(requests).bindings)
    decreases |requests|
  {
    hide Answered, Matches;
    if n == |requests| {
      assert requests[..n] == requests;
    } else {
      var last := |requests| - 1;
      var before := requests[..last];
      forall k | n <= k < last ensures Matches(Served(before[..k]), before[k]) {
        assert before[..k] == requests[..k];
      }
      BindingsLast(before, n);
      assert before[..n] == requests[..n];
      DocumentsAreSound(before);
      RequestFreezesExactly(Served(before), requests[last]);
    }
  }

  // ---- The store that updates the document in place ----

  class ProfileStore {
    var created: bool
    var current: Snapshot
    var revisions: seq<Revision>
    var bindings: seq<Binding>
    var nextId: nat

    constructor ()
      ensures Valid() && View() == Empty()
    {
      created, current, revisions, bindings, nextId := false, Resolve(None, NO_OPTIONS), [], [], 0;
    }

    ghost function View(): Document
      reads this
    {
      Document(created, current, revisions, bindings, nextId)
    }

    ghost predicate Valid()
      reads this
    {
      Sound(View())
    }

    /** Create the document once; asking again for the same profile returns what is stored. */
    method Initialize(o: Options) returns (r: Answer<Snapshot>)
      requires Valid()
      modifies this`created, this`current, this`revisions
      ensures Valid() && View() == AfterInit(old(View()), o)
      ensures r.Ok? ==> created && r.value == current
      ensures !old(created) && !Contradictory(o) ==> r == Ok(Resolve(None, o))
      ensures old(created) && old(current) == Resolve(None, o) && !Contradictory(o) ==> r == Ok(old(current))
      ensures Contradictory(o) ==> r == Refused
      ensures old(created) && Usable(o) ==>
                (r.Ok? <==> Resolve(if o.preset.None? then Some(old(current)) else None, o) == old(current))
    {
      if Contradictory(o) { return Refused; }
      if created {
        if o.preset.None? && !Present(o) { return Ok(current); }
        var requested := Resolve(if o.preset.None? then Some(current) else None, o);
        InitializeTwice(o);
        return if requested == current then Ok(current) else Refused;
      }
      current := Resolve(None, o);
      revisions := [Revision(1, current)];
      created := true;
      r := Ok(current);
    }

    /** Add a revision; bindings made before are left alone. */
    method Configure(o: Options) returns (r: Answer<Snapshot>)
      requires Valid()
      modifies this`current, this`revisions
      ensures Valid() && View() == AfterConfig(old(View()), o)
      ensures r.Ok? <==> created && Usable(o)
      ensures r.Ok? ==> r.value == current && current == Resolve(Some(old(current)), o)
    {
      hide Resolve;
      if Contradictory(o) || (o.preset.None? && !Present(o)) || !created { return Refused; }
      ConfigIsSound(View(), o);
      current := Resolve(Some(current), o);
      revisions := revisions + [Revision(|revisions| + 1, current)];
      r := Ok(current);
    }

    /** A thread that is already bound keeps its binding, except that an independent Publication starts afresh. */
    method BindThread(role: Role, thread: Option<nat>) returns (r: Answer<Binding>)
      requires Valid()
      modifies this`bindings, this`nextId
      ensures Valid() && View() == AfterBind(old(View()), role, thread)
      ensures r == if created then Ok(BindingFor(old(View()), role, thread)) else Refused
    {
      hide Sound;
      BindIsSound(View(), role, thread);
      if !created { return Refused; }
      var bound := None;
      if thread.Some? { bound := FindThread(thread.value); }
      if bound.Some? && !(role == Publication && bound.value.role != Publication && !current.publication.follows) {
        return Ok(bound.value);
      }
      var kept := if bound.Some? then None else thread;
      var b := Binding(nextId, role, kept, ProfileOf(current, role).model, ProfileOf(current, role).effort, |revisions|);
      bindings := bindings + [b];
      nextId := nextId + 1;
      r := Ok(b);
    }

    /** The binding of a thread. */
    method FindThread(thread: nat) returns (r: Option<Binding>)
      ensures r == BoundTo(bindings, thread)
    {
      var k := 0;
      while k < |bindings|
        invariant 0 <= k <= |bindings|
        invariant BoundTo(bindings, thread) == BoundTo(bindings[k..], thread)
      {
        if bindings[k].thread == Some(thread) { return Some(bindings[k]); }
        assert bindings[k..][1..] == bindings[k + 1..];
        k := k + 1;
      }
      r := None;
    }

    /** Which binding carries this id. */
    method Find(id: nat) returns (k: Option<nat>)
      requires Valid()
      ensures k == Position(bindings, id)
    {
      var m := 0;
      while m < |bindings|
        invariant 0 <= m <= |bindings|
        invariant forall n :: 0 <= n < m ==> bindings[n].id != id
      {
        if bindings[m].id == id { return Some(m); }
        m := m + 1;
      }
      k := None;
    }

    /**
     * Give a pending binding its thread. A thread that is bound already keeps its binding and the pending
     * one is dropped.
     */
    method AttachThread(id: nat, thread: nat) returns (r: Answer<Binding>)
      requires Valid()
      modifies this`bindings
      ensures Valid() && View() == AfterAttach(old(View()), id, thread)
      ensures r.Ok? ==> r.value in bindings && r.value.thread == Some(thread)
      ensures Frozen(old(bindings), bindings) <==> Matches(old(View()), Attach(id, thread))
    {
      hide Sound, Matches;
      AttachIsSound(View(), id, thread);
      var found := Find(id);
      if found.None? { return Refused; }
      var k := found.value;
      var existing := bindings[k];
      var other := FindOther(k, thread);
      if other.Some? {
        bindings := Removed(bindings, k);
        return if SameFacts(existing, other.value) then Ok(other.value) else Refused;
      }
      bindings := bindings[k := existing.(thread := Some(thread))];
      assert bindings[k] in bindings;
      r := Ok(bindings[k]);
    }

    /** Another binding than the one at `k` that has the thread. */
    method FindOther(k: nat, thread: nat) returns (r: Option<Binding>)
      requires Valid() && k < |bindings|
      ensures r.Some? <==> BoundTo(Removed(bindings, k), thread).Some?
      ensures r.Some? ==> r.value in Removed(bindings, k) && r.value.thread == Some(thread)
    {
      RemovalKeeps(bindings, nextId, k);
      var m := 0;
      while m < |bindings|
        invariant 0 <= m <= |bindings|
        invariant forall n :: 0 <= n < m ==> bindings[n].thread != Some(thread) || n == k
      {
        if bindings[m].thread == Some(thread) && m != k { return Some(bindings[m]); }
        m := m + 1;
      }
      r := None;
    }

    /** Forget a binding that never got a thread. */
    method DiscardPending(id: nat) returns (r: Answer<bool>)
      requires Valid()
      modifies this`bindings
      ensures Valid() && View() == AfterDiscard(old(View()), id)
      ensures r == if created then Ok(bindings != old(bindings)) else Refused
      ensures forall b :: b in bindings <==> b in old(bindings) && (b.id != id || b.thread.Some?)
    {
      DiscardIsSound(View(), id);
      if !created { return Refused; }
      var found := Find(id);
      if found.Some? && bindings[found.value].thread.None? {
        RemovalKeeps(bindings, nextId, found.value);
        bindings := Removed(bindings, found.value);
        return Ok(true);
      }
      r := Ok(false);
    }

    method Handle(q: Request)
      requires Valid()
      modifies this
      ensures Valid() && View() == Answered(old(View()), q)
    {
      hide Resolve, Sound;
      match q {
        case Init(o) => var _ := Initialize(o);
        case Config(o) => var _ := Configure(o);
        case Bind(role, thread) => var _ := BindThread(role, thread);
        case Discard(id) => var _ := DiscardPending(id);
        case Attach(id, thread) => var _ := AttachThread(id, thread);
      }
    }
  }

  /** The document, updated request by request, is exactly the one that the requests describe. */
  method Serve(requests: seq<Request>) returns (created: bool, current: Snapshot, revisions: seq<Revision>, bindings: seq<Binding>)
    ensures var d := Served(requests);
            created == d.created && current == d.current && revisions == d.revisions && bindings == d.bindings
  {
    hide Resolve, Sound, Answered;
    var store := new ProfileStore();
    for n := 0 to |requests|
      invariant fresh(store) && store.Valid() && store.View() == Served(requests[..n])
    {
      assert requests[..n + 1][..n] == requests[..n];
      store.Handle(requests[n]);
    }
    assert requests[..|requests|] == requests;
    created, current, revisions, bindings := store.created, store.current, store.revisions, store.bindings;
  }
}
