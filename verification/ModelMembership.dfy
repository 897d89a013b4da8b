/** The model list of one provider: inherited models, the user's own, and the commands that edit it. */
module ModelMembership {
  import opened Common
  import opened OwnedOrder

  /** Ids are taken as already trimmed. */
  type ModelId = string

  /** The personal overlay of a provider; a list that is absent counts as empty. */
  datatype Overlay = Overlay(personal: seq<ModelId>, excluded: seq<ModelId>, order: Option<seq<ModelId>>)

  datatype Fault = EmptyId | ProviderMissing | InheritedModel | ModelMissing | ModelExists | ModelDeleted

  /** What the other sources say at a command: the inherited models, and whether the provider is built in. */
  datatype Context = Context(inherited: seq<ModelId>, builtin: bool)

  datatype Command =
    | Add(id: ModelId)
    | Rename(current: ModelId, next: ModelId)
    | SaveDraft(original: ModelId, edited: ModelId)
    | Delete(id: ModelId)
    | Reorder(ids: seq<ModelId>)
    | SaveProvider

  function OrderOf(o: Overlay): seq<ModelId> {
    if o.order.Some? then o.order.value else []
  }

  /** Configs keep every list without repetitions. */
  function Freeze(personal: seq<ModelId>, excluded: seq<ModelId>, order: seq<ModelId>): Overlay {
    Overlay(Unique(personal), Unique(excluded), Some(Unique(order)))
  }

  function NormalizeModelOrder(
    inherited: seq<ModelId>, personal: seq<ModelId>, requested: seq<ModelId>, excluded: seq<ModelId>): seq<ModelId>
  {
    Without(Resolve(inherited, personal, requested), Elements(excluded))
  }

  /** The models that the resolver lists. */
  function Visible(inherited: seq<ModelId>, o: Overlay): seq<ModelId> {
    NormalizeModelOrder(inherited, o.personal, OrderOf(o), o.excluded)
  }

  /** A missing overlay of a built-in provider is created on demand; nothing else is. */
  function Writable(state: Option<Overlay>, builtin: bool): Result<Overlay, Fault> {
    if state.Some? then Ok(state.value)
    else if builtin then Ok(Overlay([], [], None))
    else Err(ProviderMissing)
  }

  function Replaced(s: seq<ModelId>, current: ModelId, next: ModelId): seq<ModelId> {
    seq(|s|, i requires 0 <= i < |s| => if s[i] == current then next else s[i])
  }

  /** The overlay with new members, its order normalized for them. */
  function Commit(
    inherited: seq<ModelId>, personal: seq<ModelId>, excluded: seq<ModelId>, requested: seq<ModelId>): Overlay
  {
    Freeze(personal, excluded, NormalizeModelOrder(inherited, personal, requested, excluded))
  }

  function AddModel(o: Overlay, inherited: seq<ModelId>, id: ModelId): Overlay {
    Commit(inherited, if id in inherited then Without(o.personal, {id}) else o.personal + [id],
           Without(o.excluded, {id}), OrderOf(o))
  }

  function RenameModel(o: Overlay, inherited: seq<ModelId>, current: ModelId, next: ModelId): Overlay {
    Commit(inherited, Replaced(o.personal, current, next), o.excluded, Replaced(OrderOf(o), current, next))
  }

  function DeleteModel(o: Overlay, inherited: seq<ModelId>, id: ModelId): Overlay {
    Commit(inherited, Without(o.personal, {id}), o.excluded + [id], OrderOf(o))
  }

  function ReorderModels(o: Overlay, inherited: seq<ModelId>, ids: seq<ModelId>): Overlay {
    Overlay(o.personal, o.excluded, Some(Unique(NormalizeModelOrder(inherited, o.personal, ids, o.excluded))))
  }

  /** Saving other fields keeps the members, dropping what is inherited or deleted from the personal list. */
  function NormalizeMembership(o: Overlay, inherited: seq<ModelId>): Overlay {
    var personal := Without(Without(Unique(o.personal), Elements(inherited)), Elements(o.excluded));
    Overlay(personal, o.excluded,
            if o.order.None? then None
            else Some(Unique(NormalizeModelOrder(inherited, personal, o.order.value, o.excluded))))
  }

  function RenameFault(o: Option<Overlay>, inherited: seq<ModelId>, current: ModelId, next: ModelId): Option<Fault> {
    if current in inherited then Some(InheritedModel)
    else if o.None? || current in o.value.excluded || current !in o.value.personal then Some(ModelMissing)
    else if next in o.value.excluded then Some(ModelDeleted)
    else if next in o.value.personal || next in inherited then Some(ModelExists)
    else None
  }

  function DraftFault(o: Option<Overlay>, inherited: seq<ModelId>, original: ModelId, edited: ModelId): Option<Fault> {
    var overlay := if o.Some? then o.value else Overlay([], [], None);
    if original in overlay.excluded then Some(ModelMissing)
    else if edited in overlay.excluded then Some(ModelDeleted)
    else if original != edited && original in inherited then Some(InheritedModel)
    else if original != edited && edited in inherited then Some(ModelExists)
    else if original !in inherited && original !in overlay.personal then Some(ModelMissing)
    else if original != edited && edited in overlay.personal then Some(ModelExists)
    else None
  }

  /** The stored overlay after a command, or why it is refused; a refused command changes nothing. */
  function Execute(state: Option<Overlay>, ctx: Context, command: Command): Result<Option<Overlay>, Fault> {
    match command
    case Add(id) =>
      if id == "" then Err(EmptyId)
      else
        var o :- Writable(state, ctx.builtin);
        if id !in o.excluded && (id in ctx.inherited || id in o.personal) then Ok(state)
        else Ok(Some(AddModel(o, ctx.inherited, id)))
    case Rename(current, next) =>
      if current == "" || next == "" then Err(EmptyId)
      else if current == next then Ok(state)
      else
        var fault := RenameFault(state, ctx.inherited, current, next);
        if fault.Some? then Err(fault.value) else Ok(Some(RenameModel(state.value, ctx.inherited, current, next)))
    case SaveDraft(original, edited) =>
      if original == "" || edited == "" then Err(EmptyId)
      else
        var fault := DraftFault(state, ctx.inherited, original, edited);
        if fault.Some? then Err(fault.value)
        else if original == edited then Ok(state)
        else Ok(Some(RenameModel(state.value, ctx.inherited, original, edited)))
    case Delete(id) =>
      if id == "" then Err(EmptyId)
      else
        var o :- Writable(state, ctx.builtin);
        if id !in ctx.inherited && id !in o.personal then Err(ModelMissing)
        else Ok(Some(DeleteModel(o, ctx.inherited, id)))
    case Reorder(ids) =>
      var o :- Writable(state, ctx.builtin);
      if "" in ids then Err(EmptyId) else Ok(Some(ReorderModels(o, ctx.inherited, ids)))
    case SaveProvider =>
      var o :- Writable(state, ctx.builtin);
      Ok(Some(NormalizeMembership(o, ctx.inherited)))
  }

  function Next(state: Option<Overlay>, ctx: Context, command: Command): Option<Overlay> {
    var result := Execute(state, ctx, command);
    if result.Ok? then result.value else state
  }

  datatype Step = Step(ctx: Context, command: Command)

  function Run(state: Option<Overlay>, steps: seq<Step>): Option<Overlay>
    decreases |steps|
  {
    if steps == [] then state else Run(Next(state, steps[0].ctx, steps[0].command), steps[1..])
  }

  function Shown(inherited: seq<ModelId>, state: Option<Overlay>): seq<ModelId> {
    Visible(inherited, Current(state))
  }

  /******* Visible models *******/

  lemma NormalizeMembers(
    inherited: seq<ModelId>, personal: seq<ModelId>, requested: seq<ModelId>, excluded: seq<ModelId>)
    ensures var list := NormalizeModelOrder(inherited, personal, requested, excluded);
      NoDup(list) && forall x :: x in list <==> (x in inherited || x in personal) && x !in excluded
  {
    var resolved := Resolve(inherited, personal, requested);
    ResolveMembers(inherited, personal, requested);
    hide Resolve;
    WithoutNoDup(resolved, Elements(excluded));
    forall x
      ensures x in Without(resolved, Elements(excluded)) <==> x in resolved && x !in excluded
    {
      WithoutMember(resolved, Elements(excluded), x);
    }
  }

  lemma NormalizeOrder(
    inherited: seq<ModelId>, personal: seq<ModelId>, requested: seq<ModelId>, excluded: seq<ModelId>,
    x: ModelId, y: ModelId)
    requires (x in inherited || x in personal) && x !in excluded && (y in inherited || y in personal) && y !in excluded
    ensures var gx, gy := Group(inherited, requested, x), Group(inherited, requested, y);
      Comes(NormalizeModelOrder(inherited, personal, requested, excluded), x, y) <==>
        gx < gy || (gx == gy && Comes(if gx == 0 then inherited else if gx == 1 then requested else personal, x, y))
  {
    hide Resolve, Comes, Group;
    ResolveOrder(inherited, personal, requested, x, y);
    WithoutComes(Resolve(inherited, personal, requested), Elements(excluded), x, y);
  }

  function Current(state: Option<Overlay>): Overlay {
    if state.Some? then state.value else Overlay([], [], None)
  }

  function Members(inherited: seq<ModelId>, o: Overlay): set<ModelId> {
    (Elements(inherited) + Elements(o.personal)) - Elements(o.excluded)
  }

  /** At any time the visible models are the inherited and the personal ones without the deleted, once each. */
  lemma VisibleMembers(inherited: seq<ModelId>, state: Option<Overlay>)
    ensures NoDup(Shown(inherited, state))
    ensures Elements(Shown(inherited, state)) == Members(inherited, Current(state))
  {
    var o := Current(state);
    NormalizeMembers(inherited, o.personal, OrderOf(o), o.excluded);
  }

  /** A normalized order of just these members is a fixed point of normalizing. */
  lemma NormalizeFixed(
    inherited: seq<ModelId>, personal: seq<ModelId>, order: seq<ModelId>, excluded: seq<ModelId>)
    requires NoDup(order)
    requires forall x :: x in order <==> (x in inherited || x in personal) && x !in excluded
    ensures NormalizeModelOrder(inherited, personal, order, excluded) == order
  {
    var list := NormalizeModelOrder(inherited, personal, order, excluded);
    NormalizeMembers(inherited, personal, order, excluded);
    forall x, y | x in list && y in list
      ensures Comes(list, x, y) <==> Comes(order, x, y)
    {
      NormalizeOrder(inherited, personal, order, excluded, x, y);
    }
    hide NormalizeModelOrder, Comes;
    SameOrder(list, order);
  }

  /******* What a command does to the visible models *******/

  /** What a committed overlay shows is its stored order, and that order is a fixed point. */
  lemma CommitShows(inherited: seq<ModelId>, personal: seq<ModelId>, excluded: seq<ModelId>, requested: seq<ModelId>)
    ensures var o := Commit(inherited, personal, excluded, requested);
      && Visible(inherited, o) == OrderOf(o) == NormalizeModelOrder(inherited, personal, requested, excluded)
      && (forall x :: x in o.personal <==> x in personal)
      && (forall x :: x in o.excluded <==> x in excluded)
      && NoDup(o.personal) && NoDup(o.excluded) && NoDup(OrderOf(o))
  {
    var list := NormalizeModelOrder(inherited, personal, requested, excluded);
    NormalizeMembers(inherited, personal, requested, excluded);
    UniqueOfNoDup(list);
    UniqueNoDup(personal);
    UniqueNoDup(excluded);
    forall x
      ensures (x in Unique(personal) <==> x in personal) && (x in Unique(excluded) <==> x in excluded)
    {
      UniqueMember(personal, x);
      UniqueMember(excluded, x);
    }
    hide NormalizeModelOrder, Unique;
    NormalizeFixed(inherited, Unique(personal), list, Unique(excluded));
  }

  lemma ReorderShows(o: Overlay, inherited: seq<ModelId>, ids: seq<ModelId>)
    ensures var o' := ReorderModels(o, inherited, ids);
      Visible(inherited, o') == OrderOf(o') == NormalizeModelOrder(inherited, o.personal, ids, o.excluded)
  {
    var list := NormalizeModelOrder(inherited, o.personal, ids, o.excluded);
    NormalizeMembers(inherited, o.personal, ids, o.excluded);
    UniqueOfNoDup(list);
    hide NormalizeModelOrder, Unique;
    NormalizeFixed(inherited, o.personal, list, o.excluded);
  }

  lemma ReplacedMember(s: seq<ModelId>, current: ModelId, next: ModelId, x: ModelId)
    requires current != next
    ensures x in Replaced(s, current, next) <==> (x in s && x != current) || (x == next && current in s)
  {
    var t := Replaced(s, current, next);
    if x in t {
      var i :| 0 <= i < |t| && t[i] == x;
      assert s[i] in s;
    }
    if x in s && x != current {
      var i :| 0 <= i < |s| && s[i] == x;
      assert t[i] == x;
    }
    if x == next && current in s {
      var i :| 0 <= i < |s| && s[i] == current;
      assert t[i] == next;
    }
  }

  /** The members shown under the same inherited list before and after a command that succeeds. */
  function ShownAfter(before: set<ModelId>, command: Command): set<ModelId> {
    match command
    case Add(id) => before + {id}
    case Rename(current, next) => if current == next then before else before - {current} + {next}
    case SaveDraft(original, edited) => if original == edited then before else before - {original} + {edited}
    case Delete(id) => before - {id}
    case Reorder(_) => before
    case SaveProvider => before
  }

  lemma AddMembers(o: Overlay, inherited: seq<ModelId>, id: ModelId)
    ensures Members(inherited, AddModel(o, inherited, id)) == Members(inherited, o) + {id}
  {
    CommitShows(inherited, if id in inherited then Without(o.personal, {id}) else o.personal + [id],
                Without(o.excluded, {id}), OrderOf(o));
    hide NormalizeModelOrder, Commit;
    forall x
      ensures x in Without(o.personal, {id}) <==> x in o.personal && x != id
      ensures x in Without(o.excluded, {id}) <==> x in o.excluded && x != id
    {
      WithoutMember(o.personal, {id}, x);
      WithoutMember(o.excluded, {id}, x);
    }
  }

  lemma DeleteMembers(o: Overlay, inherited: seq<ModelId>, id: ModelId)
    ensures Members(inherited, DeleteModel(o, inherited, id)) == Members(inherited, o) - {id}
    ensures forall x :: x in DeleteModel(o, inherited, id).excluded <==> x in o.excluded || x == id
  {
    CommitShows(inherited, Without(o.personal, {id}), o.excluded + [id], OrderOf(o));
    hide NormalizeModelOrder, Commit;
    forall x
      ensures x in Without(o.personal, {id}) <==> x in o.personal && x != id
    {
      WithoutMember(o.personal, {id}, x);
    }
  }

  lemma RenameChanges(o: Overlay, inherited: seq<ModelId>, current: ModelId, next: ModelId)
    requires current != next && current in o.personal && current !in inherited && next !in o.excluded
    ensures Members(inherited, RenameModel(o, inherited, current, next)) == Members(inherited, o) - {current} + {next}
  {
    RenameMembers(o, inherited, current, next);
    hide RenameModel;
  }

  lemma CommandMembers(state: Option<Overlay>, ctx: Context, command: Command)
    requires Execute(state, ctx, command).Ok?
    ensures var before, after := Shown(ctx.inherited, state), Shown(ctx.inherited, Next(state, ctx, command));
      NoDup(after) && Elements(after) == ShownAfter(Elements(before), command)
  {
    VisibleMembers(ctx.inherited, state);
    VisibleMembers(ctx.inherited, Next(state, ctx, command));
    var o := Current(state);
    hide Shown, AddModel, DeleteModel, RenameModel, ReorderModels, NormalizeMembership, NoDup;
    match command
    case Add(id) => AddMembers(o, ctx.inherited, id);
    case Rename(current, next) =>
      if current != next {
        RenameChanges(o, ctx.inherited, current, next);
      }
    case SaveDraft(original, edited) =>
      if original != edited {
        RenameChanges(o, ctx.inherited, original, edited);
      }
    case Delete(id) => DeleteMembers(o, ctx.inherited, id);
    case Reorder(ids) => ReorderMembers(o, ctx.inherited, ids);
    case SaveProvider => SavedMembers(o, ctx.inherited);
  }

  /** Neither inherited nor the user's own, and not deleted either. */
  predicate Free(state: Option<Overlay>, ctx: Context, id: ModelId) {
    id !in ctx.inherited && id !in Current(state).personal && id !in Current(state).excluded
  }

  predicate HasOverlay(state: Option<Overlay>, ctx: Context) {
    state.Some? || ctx.builtin
  }

  lemma ShownMember(inherited: seq<ModelId>, state: Option<Overlay>, x: ModelId)
    ensures x in Shown(inherited, state) <==>
      (x in inherited || x in Current(state).personal) && x !in Current(state).excluded
  {
    VisibleMembers(inherited, state);
    hide Shown;
    assert x in Shown(inherited, state) <==> x in Elements(Shown(inherited, state));
  }

  lemma RenameIsFree(state: Option<Overlay>, ctx: Context, current: ModelId, next: ModelId)
    ensures
      var o := Current(state);
      RenameFault(state, ctx.inherited, current, next).None? <==>
        && current !in ctx.inherited && current in o.personal && current !in o.excluded
        && Free(state, ctx, next)
  {
  }

  lemma DraftIsFree(state: Option<Overlay>, ctx: Context, original: ModelId, edited: ModelId)
    ensures
      var o := Current(state);
      DraftFault(state, ctx.inherited, original, edited).None? <==>
        && (original in ctx.inherited || original in o.personal) && original !in o.excluded
        && (original == edited || (original !in ctx.inherited && Free(state, ctx, edited)))
  {
  }

  /** Exactly which commands are accepted, by what is shown and what is free. */
  lemma CommandAccepted(state: Option<Overlay>, ctx: Context, command: Command)
    ensures var shown, inherited := Shown(ctx.inherited, state), ctx.inherited;
      Execute(state, ctx, command).Ok? <==>
        match command
        case Add(id) => id != "" && HasOverlay(state, ctx)
        case Rename(current, next) =>
          && current != "" && next != ""
          && (current == next || (current in shown && current !in inherited && Free(state, ctx, next)))
        case SaveDraft(original, edited) =>
          && original != "" && edited != "" && original in shown
          && (original == edited || (original !in inherited && Free(state, ctx, edited)))
        case Delete(id) =>
          id != "" && HasOverlay(state, ctx) && (id in inherited || id in Current(state).personal)
        case Reorder(ids) => "" !in ids && HasOverlay(state, ctx)
        case SaveProvider => HasOverlay(state, ctx)
  {
    hide Shown, AddModel, RenameModel, DeleteModel, ReorderModels, NormalizeMembership, RenameFault, DraftFault, Free;
    match command
    case Rename(current, next) =>
      ShownMember(ctx.inherited, state, current);
      RenameIsFree(state, ctx, current, next);
    case SaveDraft(original, edited) =>
      ShownMember(ctx.inherited, state, original);
      DraftIsFree(state, ctx, original, edited);
    case _ =>
  }

  /** The ids that a command names, the one it replaces first. */
  function Given(command: Command): seq<ModelId> {
    match command
    case Add(id) => [id]
    case Rename(current, next) => [current, next]
    case SaveDraft(original, edited) => [original, edited]
    case Delete(id) => [id]
    case Reorder(ids) => ids
    case SaveProvider => []
  }

  lemma RenameFaultIsTrue(state: Option<Overlay>, inherited: seq<ModelId>, current: ModelId, next: ModelId)
    ensures
      var o := Current(state);
      match RenameFault(state, inherited, current, next)
      case None => true
      case Some(fault) =>
        && (fault == InheritedModel || fault == ModelMissing || fault == ModelExists || fault == ModelDeleted)
        && (fault == InheritedModel ==> current in inherited)
        && (fault == ModelMissing ==> current !in inherited && (current !in o.personal || current in o.excluded))
        && (fault == ModelExists ==> next in inherited || next in o.personal)
        && (fault == ModelDeleted ==> next in o.excluded)
  {
  }

  lemma DraftFaultIsTrue(state: Option<Overlay>, inherited: seq<ModelId>, original: ModelId, edited: ModelId)
    ensures
      var o := Current(state);
      match DraftFault(state, inherited, original, edited)
      case None => true
      case Some(fault) =>
        && (fault == InheritedModel || fault == ModelMissing || fault == ModelExists || fault == ModelDeleted)
        && (fault == InheritedModel ==> original in inherited && original != edited)
        && (fault == ModelMissing ==>
              (original !in inherited && original !in o.personal) || original in o.excluded)
        && (fault == ModelExists ==> (edited in inherited || edited in o.personal) && original != edited)
        && (fault == ModelDeleted ==> edited in o.excluded)
  {
  }

  /** A refusal tells the truth: what it says is missing, inherited, taken or deleted is. */
  lemma FaultIsTrue(state: Option<Overlay>, ctx: Context, command: Command)
    requires Execute(state, ctx, command).Err?
    ensures
      var shown, o, given := Shown(ctx.inherited, state), Current(state), Given(command);
      match Execute(state, ctx, command).error
      case EmptyId => "" in given
      case ProviderMissing => !HasOverlay(state, ctx)
      case InheritedModel => |given| == 2 && given[0] in ctx.inherited && given[0] != given[1]
      case ModelMissing => given != [] && given[0] !in shown
      case ModelExists =>
        |given| == 2 && (given[1] in ctx.inherited || given[1] in o.personal) && given[0] != given[1]
      case ModelDeleted => |given| == 2 && given[1] in o.excluded
  {
    hide Shown, AddModel, RenameModel, DeleteModel, ReorderModels, NormalizeMembership, RenameFault, DraftFault;
    match command
    case Rename(current, next) =>
      ShownMember(ctx.inherited, state, current);
      RenameFaultIsTrue(state, ctx.inherited, current, next);
    case SaveDraft(original, edited) =>
      ShownMember(ctx.inherited, state, original);
      DraftFaultIsTrue(state, ctx.inherited, original, edited);
    case Delete(id) => ShownMember(ctx.inherited, state, id);
    case _ =>
  }

  lemma ReorderMembers(o: Overlay, inherited: seq<ModelId>, ids: seq<ModelId>)
    ensures Members(inherited, ReorderModels(o, inherited, ids)) == Members(inherited, o)
  {
  }

  lemma RenameMembers(o: Overlay, inherited: seq<ModelId>, current: ModelId, next: ModelId)
    requires current != next
    ensures var o' := RenameModel(o, inherited, current, next);
      && (forall x :: x in o'.personal <==> (x in o.personal && x != current) || (x == next && current in o.personal))
      && (forall x :: x in o'.excluded <==> x in o.excluded)
  {
    CommitShows(inherited, Replaced(o.personal, current, next), o.excluded, Replaced(OrderOf(o), current, next));
    hide NormalizeModelOrder, Unique;
    forall x
      ensures x in Replaced(o.personal, current, next) <==>
        (x in o.personal && x != current) || (x == next && current in o.personal)
    {
      ReplacedMember(o.personal, current, next, x);
    }
  }

  lemma SavedMembers(o: Overlay, inherited: seq<ModelId>)
    ensures var o' := NormalizeMembership(o, inherited);
      && (forall x :: x in o'.personal <==> x in o.personal && x !in inherited && x !in o.excluded)
      && o'.excluded == o.excluded
  {
    hide NormalizeModelOrder;
    forall x
      ensures x in Without(Without(Unique(o.personal), Elements(inherited)), Elements(o.excluded)) <==>
        x in o.personal && x !in inherited && x !in o.excluded
    {
      UniqueMember(o.personal, x);
      WithoutMember(Unique(o.personal), Elements(inherited), x);
      WithoutMember(Without(Unique(o.personal), Elements(inherited)), Elements(o.excluded), x);
    }
  }

  /** The stored order is a fixed point, and it is what is shown. */
  predicate ShowsStoredOrder(inherited: seq<ModelId>, o: Overlay) {
    && NormalizeModelOrder(inherited, o.personal, OrderOf(o), o.excluded) == OrderOf(o)
    && Visible(inherited, o) == OrderOf(o)
  }

  lemma CommitStores(inherited: seq<ModelId>, personal: seq<ModelId>, excluded: seq<ModelId>, requested: seq<ModelId>)
    ensures ShowsStoredOrder(inherited, Commit(inherited, personal, excluded, requested))
  {
    CommitShows(inherited, personal, excluded, requested);
  }

  /** Every command that stores an order stores a fixed point of normalizing, and that is what is then shown. */
  lemma StoredOrderIsFixed(state: Option<Overlay>, ctx: Context, command: Command)
    requires Execute(state, ctx, command).Ok? && Next(state, ctx, command) != state
    requires command.SaveProvider? ==> Current(state).order.Some?
    ensures Next(state, ctx, command).Some? && ShowsStoredOrder(ctx.inherited, Next(state, ctx, command).value)
  {
    var o, inherited := Current(state), ctx.inherited;
    hide Commit, ShowsStoredOrder, ReorderModels, NormalizeMembership;
    match command
    case Add(id) =>
      CommitStores(inherited, if id in inherited then Without(o.personal, {id}) else o.personal + [id],
                   Without(o.excluded, {id}), OrderOf(o));
    case Rename(current, next) =>
      CommitStores(inherited, Replaced(o.personal, current, next), o.excluded, Replaced(OrderOf(o), current, next));
    case SaveDraft(original, edited) =>
      CommitStores(inherited, Replaced(o.personal, original, edited), o.excluded,
                   Replaced(OrderOf(o), original, edited));
    case Delete(id) =>
      CommitStores(inherited, Without(o.personal, {id}), o.excluded + [id], OrderOf(o));
    case Reorder(ids) => ReorderStores(o, inherited, ids);
    case SaveProvider => SaveStores(o, inherited);
  }

  lemma ReorderStores(o: Overlay, inherited: seq<ModelId>, ids: seq<ModelId>)
    ensures ShowsStoredOrder(inherited, ReorderModels(o, inherited, ids))
  {
    ReorderShows(o, inherited, ids);
  }

  lemma SaveStores(o: Overlay, inherited: seq<ModelId>)
    requires o.order.Some?
    ensures ShowsStoredOrder(inherited, NormalizeMembership(o, inherited))
  {
    SaveShows(o, inherited);
  }

  /** Saving other fields shows exactly the same list. */
  lemma SaveShows(o: Overlay, inherited: seq<ModelId>)
    ensures var o' := NormalizeMembership(o, inherited);
      && Visible(inherited, o') == Visible(inherited, o)
      && (o.order.Some? ==> OrderOf(o') == Visible(inherited, o))
      && o'.order.Some? == o.order.Some?
  {
    var o' := NormalizeMembership(o, inherited);
    SavedMembers(o, inherited);
    var list := NormalizeModelOrder(inherited, o'.personal, OrderOf(o), o.excluded);
    SavedOrder(o, inherited);
    if o.order.Some? {
      NormalizeMembers(inherited, o'.personal, OrderOf(o), o.excluded);
      UniqueOfNoDup(list);
      hide NormalizeModelOrder, Unique, Without;
      NormalizeFixed(inherited, o'.personal, list, o.excluded);
    }
  }

  /** Dropping inherited and deleted models from the personal list does not change the normalized order. */
  lemma SavedOrder(o: Overlay, inherited: seq<ModelId>)
    ensures NormalizeModelOrder(inherited, NormalizeMembership(o, inherited).personal, OrderOf(o), o.excluded)
         == Visible(inherited, o)
  {
    var personal := NormalizeMembership(o, inherited).personal;
    var a, b := NormalizeModelOrder(inherited, personal, OrderOf(o), o.excluded), Visible(inherited, o);
    SavedMembers(o, inherited);
    NormalizeMembers(inherited, personal, OrderOf(o), o.excluded);
    NormalizeMembers(inherited, o.personal, OrderOf(o), o.excluded);
    hide NormalizeModelOrder, Comes;
    forall x, y | x in a && y in a
      ensures Comes(a, x, y) <==> Comes(b, x, y)
    {
      NormalizeOrder(inherited, personal, OrderOf(o), o.excluded, x, y);
      NormalizeOrder(inherited, o.personal, OrderOf(o), o.excluded, x, y);
      if x !in inherited && y !in inherited {
        PersonalOrder(o, inherited, x, y);
      }
    }
    SameOrder(a, b);
  }

  lemma PersonalOrder(o: Overlay, inherited: seq<ModelId>, x: ModelId, y: ModelId)
    requires x !in inherited && y !in inherited && x !in o.excluded && y !in o.excluded
    ensures Comes(NormalizeMembership(o, inherited).personal, x, y) <==> Comes(o.personal, x, y)
  {
    hide NormalizeModelOrder, Comes;
    UniqueComes(o.personal, x, y);
    WithoutComes(Unique(o.personal), Elements(inherited), x, y);
    WithoutComes(Without(Unique(o.personal), Elements(inherited)), Elements(o.excluded), x, y);
  }

  /******* Deleted models *******/

  predicate IsExcluded(state: Option<Overlay>, id: ModelId) {
    state.Some? && id in state.value.excluded
  }

  lemma DeletedNext(state: Option<Overlay>, ctx: Context, command: Command, id: ModelId)
    requires IsExcluded(state, id) && command != Add(id)
    ensures IsExcluded(Next(state, ctx, command), id)
  {
    var o, inherited := Current(state), ctx.inherited;
    hide Commit, ReorderModels, NormalizeMembership, Without, Replaced;
    match command
    case Add(other) =>
      CommitShows(inherited, if other in inherited then Without(o.personal, {other}) else o.personal + [other],
                  Without(o.excluded, {other}), OrderOf(o));
      WithoutMember(o.excluded, {other}, id);
    case Rename(current, next) =>
      CommitShows(inherited, Replaced(o.personal, current, next), o.excluded, Replaced(OrderOf(o), current, next));
    case SaveDraft(original, edited) =>
      CommitShows(inherited, Replaced(o.personal, original, edited), o.excluded,
                  Replaced(OrderOf(o), original, edited));
    case Delete(other) =>
      CommitShows(inherited, Without(o.personal, {other}), o.excluded + [other], OrderOf(o));
    case Reorder(ids) => KeepsExcluded(o, inherited, ids);
    case SaveProvider => KeepsExcluded(o, inherited, []);
  }

  lemma KeepsExcluded(o: Overlay, inherited: seq<ModelId>, ids: seq<ModelId>)
    ensures ReorderModels(o, inherited, ids).excluded == o.excluded
    ensures NormalizeMembership(o, inherited).excluded == o.excluded
  {
  }

  /** After a deletion, no run without an explicit add shows the model again, whatever the other sources list. */
  lemma {:induction false} DeletedStaysDeleted(
    state: Option<Overlay>, steps: seq<Step>, id: ModelId, inherited: seq<ModelId>)
    requires IsExcluded(state, id)
    requires forall s :: s in steps ==> s.command != Add(id)
    ensures IsExcluded(Run(state, steps), id) && id !in Shown(inherited, Run(state, steps))
    decreases |steps|
  {
    hide Next, Visible;
    if steps != [] {
      assert steps[0] in steps;
      DeletedNext(state, steps[0].ctx, steps[0].command, id);
      DeletedStaysDeleted(Next(state, steps[0].ctx, steps[0].command), steps[1..], id, inherited);
    } else {
      VisibleMembers(inherited, state);
      assert id !in Elements(Shown(inherited, state));
    }
  }

  lemma DeletionExcludes(state: Option<Overlay>, ctx: Context, id: ModelId)
    requires Execute(state, ctx, Delete(id)).Ok?
    ensures IsExcluded(Next(state, ctx, Delete(id)), id)
  {
    hide DeleteModel;
    DeleteMembers(Current(state), ctx.inherited, id);
  }

  /** From the deletion on: only an explicit add of the model itself brings it back. */
  lemma DeletionIsFinal(state: Option<Overlay>, ctx: Context, id: ModelId, steps: seq<Step>, inherited: seq<ModelId>)
    requires Execute(state, ctx, Delete(id)).Ok?
    requires forall s :: s in steps ==> s.command != Add(id)
    ensures id !in Shown(inherited, Run(Next(state, ctx, Delete(id)), steps))
  {
    DeletionExcludes(state, ctx, id);
    DeletedStaysDeleted(Next(state, ctx, Delete(id)), steps, id, inherited);
  }

  /******* Order *******/

  /** Models that are reordered appear as requested; a full list is taken as it is. */
  lemma ReorderTakesEffect(state: Option<Overlay>, ctx: Context, ids: seq<ModelId>, x: ModelId, y: ModelId)
    requires Execute(state, ctx, Reorder(ids)).Ok?
    requires x in Shown(ctx.inherited, state) && y in Shown(ctx.inherited, state) && x in ids && y in ids
    ensures Comes(Shown(ctx.inherited, Next(state, ctx, Reorder(ids))), x, y) <==> Comes(ids, x, y)
  {
    var o := Current(state);
    NormalizeMembers(ctx.inherited, o.personal, OrderOf(o), o.excluded);
    ReorderShows(o, ctx.inherited, ids);
    hide NormalizeModelOrder, ReorderModels, Comes;
    NormalizeOrder(ctx.inherited, o.personal, ids, o.excluded, x, y);
  }

  lemma FullReorder(state: Option<Overlay>, ctx: Context, ids: seq<ModelId>)
    requires Execute(state, ctx, Reorder(ids)).Ok? && NoDup(ids)
    requires Elements(ids) == Elements(Shown(ctx.inherited, state))
    ensures Shown(ctx.inherited, Next(state, ctx, Reorder(ids))) == ids
  {
    var o := Current(state);
    NormalizeMembers(ctx.inherited, o.personal, OrderOf(o), o.excluded);
    ReorderShows(o, ctx.inherited, ids);
    hide NormalizeModelOrder, ReorderModels;
    forall x
      ensures x in ids <==> (x in ctx.inherited || x in o.personal) && x !in o.excluded
    {
      ElementsMember(ids, x);
      ElementsMember(Shown(ctx.inherited, state), x);
    }
    NormalizeFixed(ctx.inherited, o.personal, ids, o.excluded);
  }

  /** Adding a model leaves the others where they are. */
  lemma AddKeepsOrder(state: Option<Overlay>, ctx: Context, id: ModelId, x: ModelId, y: ModelId)
    requires Execute(state, ctx, Add(id)).Ok?
    requires x in Shown(ctx.inherited, state) && y in Shown(ctx.inherited, state)
    ensures Comes(Shown(ctx.inherited, Next(state, ctx, Add(id))), x, y) <==> Comes(Shown(ctx.inherited, state), x, y)
  {
    hide NormalizeModelOrder, Commit, Comes, Without;
    var o, inherited := Current(state), ctx.inherited;
    NormalizeMembers(inherited, o.personal, OrderOf(o), o.excluded);
    if id in o.excluded || (id !in inherited && id !in o.personal) {
      var personal := if id in inherited then Without(o.personal, {id}) else o.personal + [id];
      var excluded := Without(o.excluded, {id});
      CommitShows(inherited, personal, excluded, OrderOf(o));
      WithoutMember(o.excluded, {id}, x);
      WithoutMember(o.excluded, {id}, y);
      WithoutMember(o.personal, {id}, x);
      WithoutMember(o.personal, {id}, y);
      NormalizeOrder(inherited, o.personal, OrderOf(o), o.excluded, x, y);
      NormalizeOrder(inherited, personal, OrderOf(o), excluded, x, y);
      if id in inherited {
        WithoutComes(o.personal, {id}, x, y);
      } else {
        ComesPrefix(o.personal, id, x, y);
      }
    }
  }

  /** So does deleting one. */
  lemma DeleteKeepsOrder(state: Option<Overlay>, ctx: Context, id: ModelId, x: ModelId, y: ModelId)
    requires Execute(state, ctx, Delete(id)).Ok? && x != id && y != id
    requires x in Shown(ctx.inherited, state) && y in Shown(ctx.inherited, state)
    ensures
      Comes(Shown(ctx.inherited, Next(state, ctx, Delete(id))), x, y) <==> Comes(Shown(ctx.inherited, state), x, y)
  {
    var o, inherited := Current(state), ctx.inherited;
    NormalizeMembers(inherited, o.personal, OrderOf(o), o.excluded);
    var personal := Without(o.personal, {id});
    CommitShows(inherited, personal, o.excluded + [id], OrderOf(o));
    WithoutMember(o.personal, {id}, x);
    WithoutMember(o.personal, {id}, y);
    hide NormalizeModelOrder, Commit, Comes, Without;
    NormalizeOrder(inherited, o.personal, OrderOf(o), o.excluded, x, y);
    NormalizeOrder(inherited, personal, OrderOf(o), o.excluded + [id], x, y);
    WithoutComes(o.personal, {id}, x, y);
  }

  /** A model that was in no list before goes last. */
  lemma AddedGoesLast(state: Option<Overlay>, ctx: Context, id: ModelId, x: ModelId)
    requires Execute(state, ctx, Add(id)).Ok? && x in Shown(ctx.inherited, state)
    requires id !in ctx.inherited && id !in Current(state).personal && id !in OrderOf(Current(state))
    ensures Precedes(Shown(ctx.inherited, Next(state, ctx, Add(id))), x, id)
  {
    var o, inherited := Current(state), ctx.inherited;
    var personal, excluded := o.personal + [id], Without(o.excluded, {id});
    NormalizeMembers(inherited, o.personal, OrderOf(o), o.excluded);
    NormalizeMembers(inherited, personal, OrderOf(o), excluded);
    CommitShows(inherited, personal, excluded, OrderOf(o));
    WithoutMember(o.excluded, {id}, x);
    WithoutMember(o.excluded, {id}, id);
    hide NormalizeModelOrder, Commit, Comes, Without;
    NormalizeOrder(inherited, personal, OrderOf(o), excluded, x, id);
    if x in o.personal {
      ComesPrefix(o.personal, id, x, id);
      SomeComes(o.personal, x, id);
    }
  }

  /******* Renaming in place *******/

  lemma NotBefore(s: seq<ModelId>, i: nat, y: ModelId)
    requires i < |s|
    ensures y !in s[..i + 1] <==> forall k :: 0 <= k <= i ==> s[k] != y
  {
    assert forall k :: 0 <= k <= i ==> s[..i + 1][k] == s[k];
  }

  lemma RenamedComes(s: seq<ModelId>, current: ModelId, next: ModelId, x: ModelId, y: ModelId)
    requires x != current && x != next && y != current && y != next
    ensures Comes(Replaced(s, current, next), x, y) <==> Comes(s, x, y)
  {
    var t := Replaced(s, current, next);
    if Comes(t, x, y) {
      var i: nat :| i < |t| && t[i] == x && y !in t[..i + 1];
      NotBefore(t, i, y);
      forall k | 0 <= k <= i
        ensures s[k] != y
      {
        assert t[k] != y;
      }
      NotBefore(s, i, y);
      assert s[i] == x && y !in s[..i + 1];
    }
    if Comes(s, x, y) {
      var i: nat :| i < |s| && s[i] == x && y !in s[..i + 1];
      NotBefore(s, i, y);
      NotBefore(t, i, y);
      assert t[i] == x && y !in t[..i + 1];
    }
  }

  lemma ComesBeforeRenamed(s: seq<ModelId>, current: ModelId, next: ModelId, x: ModelId)
    requires x != current && x != next
    ensures Comes(Replaced(s, current, next), x, next) <==> Comes(s, x, current) && Comes(s, x, next)
  {
    var t := Replaced(s, current, next);
    if Comes(t, x, next) {
      var i: nat :| i < |t| && t[i] == x && next !in t[..i + 1];
      NotBefore(t, i, next);
      forall k | 0 <= k <= i
        ensures s[k] != next && s[k] != current
      {
        assert t[k] != next;
      }
      NotBefore(s, i, next);
      NotBefore(s, i, current);
      assert s[i] == x && next !in s[..i + 1] && current !in s[..i + 1];
    }
    if Comes(s, x, current) && Comes(s, x, next) {
      var i: nat :| i < |s| && s[i] == x && current !in s[..i + 1];
      var j: nat :| j < |s| && s[j] == x && next !in s[..j + 1];
      NotBefore(s, i, current);
      NotBefore(s, j, next);
      var k := if i <= j then i else j;
      NotBefore(t, k, next);
      assert t[k] == x && next !in t[..k + 1];
    }
  }

  /**
   * The new id is still in the stored order, from a time when it was an inherited model, and `x` is shown
   * after it but before the model that is renamed.
   */
  predicate Overtaken(o: Overlay, inherited: seq<ModelId>, current: ModelId, next: ModelId, x: ModelId) {
    && next in OrderOf(o)
    && Comes(Visible(inherited, o), x, current)
    && (x in OrderOf(o) ==> Comes(OrderOf(o), next, x))
    && (x !in OrderOf(o) ==> x !in inherited)
  }

  /** Where a model lies with respect to the renamed one. */
  lemma RenamedPosition(o: Overlay, inherited: seq<ModelId>, current: ModelId, next: ModelId, x: ModelId)
    requires RenameFault(Some(o), inherited, current, next).None? && current != next
    requires x in Visible(inherited, o) && x != current
    ensures Comes(Visible(inherited, RenameModel(o, inherited, current, next)), x, next) <==>
      Comes(Visible(inherited, o), x, current) && !Overtaken(o, inherited, current, next, x)
  {
    var personal, order := Replaced(o.personal, current, next), Replaced(OrderOf(o), current, next);
    CommitShows(inherited, personal, o.excluded, order);
    NormalizeMembers(inherited, o.personal, OrderOf(o), o.excluded);
    ReplacedMember(o.personal, current, next, x);
    ReplacedMember(o.personal, current, next, next);
    ReplacedMember(OrderOf(o), current, next, x);
    ReplacedMember(OrderOf(o), current, next, next);
    hide NormalizeModelOrder, Commit, Comes, Replaced;
    NormalizeOrder(inherited, personal, order, o.excluded, x, next);
    NormalizeOrder(inherited, o.personal, OrderOf(o), o.excluded, x, current);
    ComesBeforeRenamed(OrderOf(o), current, next, x);
    ComesBeforeRenamed(o.personal, current, next, x);
    if x in o.personal {
      SomeComes(o.personal, x, next);
    }
    if x in OrderOf(o) {
      FirstOf(OrderOf(o), x, next);
      FirstOf(OrderOf(o), x, current);
    }
  }

  lemma FirstOf(s: seq<ModelId>, x: ModelId, y: ModelId)
    requires x in s && x != y
    ensures Comes(s, x, y) <==> !Comes(s, y, x)
    ensures y !in s ==> Comes(s, x, y)
  {
    var u := Unique(s);
    UniqueNoDup(s);
    UniqueMember(s, x);
    UniqueMember(s, y);
    UniqueComes(s, x, y);
    UniqueComes(s, y, x);
    if y in s {
      ComesTotal(u, x, y);
    } else {
      SomeComes(s, x, y);
    }
  }

  /** Models other than the renamed one keep their order. */
  lemma RenamedOthers(o: Overlay, inherited: seq<ModelId>, current: ModelId, next: ModelId, x: ModelId, y: ModelId)
    requires RenameFault(Some(o), inherited, current, next).None? && current != next
    requires x in Visible(inherited, o) && x != current && y in Visible(inherited, o) && y != current
    ensures
      Comes(Visible(inherited, RenameModel(o, inherited, current, next)), x, y) <==> Comes(Visible(inherited, o), x, y)
  {
    var personal, order := Replaced(o.personal, current, next), Replaced(OrderOf(o), current, next);
    CommitShows(inherited, personal, o.excluded, order);
    NormalizeMembers(inherited, o.personal, OrderOf(o), o.excluded);
    ReplacedMember(o.personal, current, next, x);
    ReplacedMember(o.personal, current, next, y);
    ReplacedMember(OrderOf(o), current, next, x);
    ReplacedMember(OrderOf(o), current, next, y);
    hide NormalizeModelOrder, Commit, Comes, Replaced;
    NormalizeOrder(inherited, personal, order, o.excluded, x, y);
    NormalizeOrder(inherited, o.personal, OrderOf(o), o.excluded, x, y);
    RenamedComes(OrderOf(o), current, next, x, y);
    RenamedComes(o.personal, current, next, x, y);
  }

  lemma ReplacedDistinct(v: seq<ModelId>, current: ModelId, next: ModelId)
    requires NoDup(v) && next !in v
    ensures NoDup(Replaced(v, current, next))
  {
  }

  /** The lists before and after a rename, compared member by member. */
  lemma RenamedMembers(o: Overlay, inherited: seq<ModelId>, current: ModelId, next: ModelId)
    requires RenameFault(Some(o), inherited, current, next).None? && current != next
    ensures var v, n := Visible(inherited, o), Visible(inherited, RenameModel(o, inherited, current, next));
      && NoDup(n) && NoDup(Replaced(v, current, next)) && NoDup(v)
      && current in v && next !in v && next in n
      && (forall x :: x in n <==> (x in v && x != current) || x == next)
      && (forall x :: x in Replaced(v, current, next) <==> (x in v && x != current) || x == next)
  {
    hide NormalizeModelOrder, RenameModel, Replaced;
    var v := Visible(inherited, o);
    NormalizeMembers(inherited, o.personal, OrderOf(o), o.excluded);
    RenameMembers(o, inherited, current, next);
    var o' := RenameModel(o, inherited, current, next);
    NormalizeMembers(inherited, o'.personal, OrderOf(o'), o'.excluded);
    ReplacedDistinct(v, current, next);
    forall x
      ensures x in Replaced(v, current, next) <==> (x in v && x != current) || x == next
    {
      ReplacedMember(v, current, next, x);
    }
  }

  lemma RenamedTotal(o: Overlay, inherited: seq<ModelId>, current: ModelId, next: ModelId, x: ModelId)
    requires RenameFault(Some(o), inherited, current, next).None? && current != next
    requires x in Visible(inherited, o) && x != current
    ensures var r := Replaced(Visible(inherited, o), current, next);
      && (Comes(r, x, next) <==> Comes(Visible(inherited, o), x, current))
      && (Comes(r, next, x) <==> !Comes(r, x, next))
    ensures var n := Visible(inherited, RenameModel(o, inherited, current, next));
      Comes(n, next, x) <==> !Comes(n, x, next)
  {
    var v := Visible(inherited, o);
    var n := Visible(inherited, RenameModel(o, inherited, current, next));
    RenamedMembers(o, inherited, current, next);
    hide Visible, Comes, Replaced, RenameModel, NoDup;
    ComesBeforeRenamed(v, current, next, x);
    SomeComes(v, x, next);
    ComesTotal(Replaced(v, current, next), x, next);
    ComesTotal(n, x, next);
  }

  /** Exactly when a rename happens in place: no shown model lies between a left-over entry and the renamed one. */
  lemma RenameInPlace(o: Overlay, inherited: seq<ModelId>, current: ModelId, next: ModelId)
    requires RenameFault(Some(o), inherited, current, next).None? && current != next
    ensures
      Visible(inherited, RenameModel(o, inherited, current, next)) == Replaced(Visible(inherited, o), current, next)
      <==> !(exists x :: x in Visible(inherited, o) && Overtaken(o, inherited, current, next, x))
  {
    var v, n := Visible(inherited, o), Visible(inherited, RenameModel(o, inherited, current, next));
    var r := Replaced(v, current, next);
    RenamedMembers(o, inherited, current, next);
    hide Visible, Comes, Replaced, RenameModel;
    forall x | x in v && x != current
      ensures Comes(n, x, next) <==> Comes(v, x, current) && !Overtaken(o, inherited, current, next, x)
      ensures Comes(r, x, next) <==> Comes(v, x, current)
      ensures (Comes(r, next, x) <==> !Comes(r, x, next)) && (Comes(n, next, x) <==> !Comes(n, x, next))
    {
      RenamedPosition(o, inherited, current, next, x);
      RenamedTotal(o, inherited, current, next, x);
    }
    if x :| x in v && Overtaken(o, inherited, current, next, x) {
      OvertakenComes(o, inherited, current, next, x);
      assert Comes(r, x, next) && !Comes(n, x, next);
    } else {
      forall x, y | x in n && y in n
        ensures Comes(n, x, y) <==> Comes(r, x, y)
      {
        if x != next && y != next {
          RenamedOthers(o, inherited, current, next, x, y);
          RenamedComes(v, current, next, x, y);
        } else if x == next && y == next {
          NotItself(n, next);
          NotItself(r, next);
        }
      }
      SameOrder(n, r);
    }
  }

  lemma NotItself(s: seq<ModelId>, x: ModelId)
    ensures !Comes(s, x, x)
  {
    forall i | 0 <= i < |s| && s[i] == x
      ensures x in s[..i + 1]
    {
      assert s[..i + 1][i] == x;
    }
  }

  lemma OvertakenComes(o: Overlay, inherited: seq<ModelId>, current: ModelId, next: ModelId, x: ModelId)
    requires Overtaken(o, inherited, current, next, x)
    ensures Comes(Visible(inherited, o), x, current) && x != current
  {
    ComesIn(Visible(inherited, o), x, current);
  }

  /** In particular whenever the stored order has no left-over entry for the new id. */
  lemma RenameKeepsPlace(o: Overlay, inherited: seq<ModelId>, current: ModelId, next: ModelId)
    requires RenameFault(Some(o), inherited, current, next).None? && current != next && next !in OrderOf(o)
    ensures
      Visible(inherited, RenameModel(o, inherited, current, next)) == Replaced(Visible(inherited, o), current, next)
  {
    RenameInPlace(o, inherited, current, next);
  }

  /** The commands that leave such an entry: two models are added and moved while `b` is inherited. */
  function LeavingEntry(x: ModelId, a: ModelId, b: ModelId): seq<Step> {
    var ctx := Context([b], true);
    [Step(ctx, Add(x)), Step(ctx, Add(a)), Step(ctx, Reorder([b, x, a]))]
  }

  lemma AddPersonal(o: Overlay, inherited: seq<ModelId>, id: ModelId)
    requires id !in inherited && id !in o.personal && NoDup(o.personal) && o.excluded == []
    ensures AddModel(o, inherited, id).personal == o.personal + [id]
    ensures AddModel(o, inherited, id).excluded == []
  {
    hide NormalizeModelOrder;
    UniqueOfNoDup(o.personal + [id]);
  }

  lemma ReorderAll(o: Overlay, inherited: seq<ModelId>, ids: seq<ModelId>)
    requires NoDup(ids) && forall x :: x in ids <==> (x in inherited || x in o.personal) && x !in o.excluded
    ensures ReorderModels(o, inherited, ids) == o.(order := Some(ids))
  {
    hide NormalizeModelOrder;
    NormalizeFixed(inherited, o.personal, ids, o.excluded);
    UniqueOfNoDup(ids);
  }

  lemma LeavesEntry(x: ModelId, a: ModelId, b: ModelId)
    requires x != a && x != b && a != b && "" !in [x, a, b]
    ensures Run(None, LeavingEntry(x, a, b)) == Some(Overlay([x, a], [], Some([b, x, a])))
  {
    hide AddModel, ReorderModels, RenameModel, DeleteModel, NormalizeMembership;
    var ctx, ids, o0 := Context([b], true), [b, x, a], Overlay([], [], None);
    assert x in [x, a, b] && a in [x, a, b] && b in [x, a, b];
    var o1 := AddModel(o0, [b], x);
    AddPersonal(o0, [b], x);
    var o2 := AddModel(o1, [b], a);
    AddPersonal(o1, [b], a);
    assert o2.personal == [x, a];
    ReorderAll(o2, [b], ids);
    assert Next(None, ctx, Add(x)) == Some(o1);
    assert Next(Some(o1), ctx, Add(a)) == Some(o2);
    assert Next(Some(o2), ctx, Reorder(ids)) == Some(Overlay([x, a], [], Some(ids)));
    hide Next;
    ThreeCommands(None, Step(ctx, Add(x)), Step(ctx, Add(a)), Step(ctx, Reorder(ids)));
  }

  lemma ThreeCommands(state: Option<Overlay>, p: Step, q: Step, r: Step)
    ensures
      var second := Next(Next(state, p.ctx, p.command), q.ctx, q.command);
      Run(state, [p, q, r]) == Next(second, r.ctx, r.command)
  {
    hide Next;
    var first := Next(state, p.ctx, p.command);
    var second := Next(first, q.ctx, q.command);
    assert [r][1..] == [] && Run(second, [r]) == Next(second, r.ctx, r.command);
    assert [q, r][1..] == [r] && Run(first, [q, r]) == Run(second, [r]);
    assert [p, q, r][1..] == [q, r];
  }

  /** After them and once `b` is no longer inherited, `a`, shown last, comes back as `b` at the front. */
  lemma RenameCanMove(x: ModelId, a: ModelId, b: ModelId)
    requires x != a && x != b && a != b && "" !in [x, a, b]
    ensures var state := Run(None, LeavingEntry(x, a, b));
      && Shown([], state) == [x, a]
      && Execute(state, Context([], true), Rename(a, b)).Ok?
      && Shown([], Next(state, Context([], true), Rename(a, b))) != [x, b]
  {
    hide Visible, RenameModel, Execute, Run, LeavingEntry, RenameFault, Comes;
    var o, ctx := Overlay([x, a], [], Some([b, x, a])), Context([], true);
    LeavesEntry(x, a, b);
    LeftOverOrder(x, a, b);
    assert a in [x, a, b] && b in [x, a, b];
    Overtakes(x, a, b);
    RenameIsAccepted(o, ctx, a, b);
    assert Shown([], Some(o)) == Visible([], o);
  }

  lemma RenameIsAccepted(o: Overlay, ctx: Context, a: ModelId, b: ModelId)
    requires a != "" && b != "" && a != b && RenameFault(Some(o), ctx.inherited, a, b).None?
    ensures Execute(Some(o), ctx, Rename(a, b)) == Ok(Some(RenameModel(o, ctx.inherited, a, b)))
  {
    hide RenameModel, RenameFault;
  }

  lemma Overtakes(x: ModelId, a: ModelId, b: ModelId)
    requires x != a && x != b && a != b
    ensures var o := Overlay([x, a], [], Some([b, x, a]));
      && RenameFault(Some(o), [], a, b).None?
      && Visible([], RenameModel(o, [], a, b)) != [x, b]
  {
    hide Visible, RenameModel, Replaced, Comes;
    var order := [b, x, a];
    var o := Overlay([x, a], [], Some(order));
    assert x in [x, a] && a in [x, a] && b !in [x, a];
    LeftOverOrder(x, a, b);
    RenameInPlace(o, [], a, b);
    assert order[0] == b && x !in order[..1];
    ComesAt(order, 0, x);
    assert Overtaken(o, [], a, b, x);
    RenamedPair(x, a, b);
  }

  lemma ComesAt(order: seq<ModelId>, i: nat, x: ModelId)
    requires i < |order| && x !in order[..i + 1]
    ensures Comes(order, order[i], x)
  {
  }

  lemma RenamedPair(x: ModelId, a: ModelId, b: ModelId)
    requires x != a
    ensures Replaced([x, a], a, b) == [x, b]
  {
  }

  lemma LeftOverOrder(x: ModelId, a: ModelId, b: ModelId)
    requires x != a && x != b && a != b
    ensures Visible([], Overlay([x, a], [], Some([b, x, a]))) == [x, a] && Comes([x, a], x, a)
  {
    hide Comes, NormalizeModelOrder;
    var order, t := [b, x, a], [x, a];
    var v := Visible([], Overlay([x, a], [], Some(order)));
    NormalizeMembers([], t, order, []);
    assert order[..2] == [b, x];
    ComesAt(order, 1, a);
    ComesAt(t, 0, a);
    NormalizeOrder([], t, order, [], x, a);
    forall y, z | y in v && z in v
      ensures Comes(v, y, z) <==> Comes(t, y, z)
    {
      if y == z {
        NotItself(v, y);
        NotItself(t, y);
      } else {
        ComesTotal(v, y, z);
        ComesTotal(t, y, z);
      }
    }
    SameOrder(v, t);
  }

  /******* The commands *******/

  method NormalizedOrder(
    inherited: seq<ModelId>, personal: seq<ModelId>, requested: seq<ModelId>, excluded: seq<ModelId>)
    returns (list: seq<ModelId>)
    ensures list == NormalizeModelOrder(inherited, personal, requested, excluded)
  {
    var resolved := ResolveOwnedOrder(inherited, personal, requested);
    list := FilterOut(resolved, Elements(excluded));
  }

  method CommitLists(inherited: seq<ModelId>, personal: seq<ModelId>, excluded: seq<ModelId>, requested: seq<ModelId>)
    returns (o: Overlay)
    ensures o == Commit(inherited, personal, excluded, requested)
  {
    var order := NormalizedOrder(inherited, personal, requested, excluded);
    var frozenPersonal := UniqueInOrder(personal);
    var frozenExcluded := UniqueInOrder(excluded);
    var frozenOrder := UniqueInOrder(order);
    o := Overlay(frozenPersonal, frozenExcluded, Some(frozenOrder));
  }

  /** The personal overlay of the provider, as the repository stores it. */
  class PersonalModels {
    var stored: Option<Overlay>

    constructor ()
      ensures stored == None
    {
      stored := None;
    }

    method AddPersonalModel(ctx: Context, id: ModelId) returns (fault: Option<Fault>)
      modifies this
      ensures stored == Next(old(stored), ctx, Add(id))
      ensures var result := Execute(old(stored), ctx, Add(id));
        if result.Ok? then fault == None else fault == Some(result.error)
    {
      if id == "" {
        return Some(EmptyId);
      }
      if stored.None? && !ctx.builtin {
        return Some(ProviderMissing);
      }
      var o := if stored.Some? then stored.value else Overlay([], [], None);
      var inherited := id in ctx.inherited;
      if id !in o.excluded && (inherited || id in o.personal) {
        return None;
      }
      var excluded := FilterOut(o.excluded, {id});
      var personal := o.personal + [id];
      if inherited {
        personal := FilterOut(o.personal, {id});
      }
      var next := CommitLists(ctx.inherited, personal, excluded, OrderOf(o));
      stored := Some(next);
      return None;
    }

    method RenamePersonalModel(ctx: Context, current: ModelId, next: ModelId) returns (fault: Option<Fault>)
      modifies this
      ensures stored == Next(old(stored), ctx, Rename(current, next))
      ensures var result := Execute(old(stored), ctx, Rename(current, next));
        if result.Ok? then fault == None else fault == Some(result.error)
    {
      if current == "" || next == "" {
        return Some(EmptyId);
      }
      if current == next {
        return None;
      }
      if current in ctx.inherited {
        return Some(InheritedModel);
      }
      if stored.None? || current in stored.value.excluded || current !in stored.value.personal {
        return Some(ModelMissing);
      }
      var o := stored.value;
      if next in o.excluded {
        return Some(ModelDeleted);
      }
      if next in o.personal || next in ctx.inherited {
        return Some(ModelExists);
      }
      var renamed := CommitLists(ctx.inherited, Replaced(o.personal, current, next), o.excluded,
                                 Replaced(OrderOf(o), current, next));
      stored := Some(renamed);
      return None;
    }

    method DeletePersonalModel(ctx: Context, id: ModelId) returns (fault: Option<Fault>)
      modifies this
      ensures stored == Next(old(stored), ctx, Delete(id))
      ensures var result := Execute(old(stored), ctx, Delete(id));
        if result.Ok? then fault == None else fault == Some(result.error)
    {
      hide Without, Commit, AddModel, RenameModel, ReorderModels, NormalizeMembership;
      if id == "" {
        return Some(EmptyId);
      }
      if stored.None? && !ctx.builtin {
        return Some(ProviderMissing);
      }
      var o := if stored.Some? then stored.value else Overlay([], [], None);
      if id !in ctx.inherited && id !in o.personal {
        return Some(ModelMissing);
      }
      var personal := FilterOut(o.personal, {id});
      var next := CommitLists(ctx.inherited, personal, o.excluded + [id], OrderOf(o));
      stored := Some(next);
      return None;
    }

    method ReorderPersonalModels(ctx: Context, ids: seq<ModelId>) returns (fault: Option<Fault>)
      modifies this
      ensures stored == Next(old(stored), ctx, Reorder(ids))
      ensures var result := Execute(old(stored), ctx, Reorder(ids));
        if result.Ok? then fault == None else fault == Some(result.error)
    {
      if stored.None? && !ctx.builtin {
        return Some(ProviderMissing);
      }
      var o := if stored.Some? then stored.value else Overlay([], [], None);
      for i := 0 to |ids|
        invariant "" !in ids[..i]
      {
        if ids[i] == "" {
          return Some(EmptyId);
        }
        assert ids[..i + 1] == ids[..i] + [ids[i]];
      }
      assert ids[..|ids|] == ids;
      var order := NormalizedOrder(ctx.inherited, o.personal, ids, o.excluded);
      var frozen := UniqueInOrder(order);
      stored := Some(o.(order := Some(frozen)));
      return None;
    }
  }
}
