/**
 * `ItemsController`: the `item_params` whitelist, the attribute merge and
 * completion stamp of `update`, and the four actions `index`, `show`,
 * `create` and `update` over an in-memory `items` table.
 */
module ItemsController {
  import opened Wrappers
  import opened Calendar
  import opened ItemModel
  import Numerals

  /** How an action fails: `RecordNotFound`, `ParameterMissing`, or `permit` sent to a non-hash. */
  datatype Error = NotFound | ParameterMissing | NotAHash

  /** A request parameter as the decoded `params` hash holds it. */
  datatype Param =
    | Nil
    | Text(text: string)
    | Number(number: Duration)
    | Moment(moment: DateTime)
    | Hash(entries: map<string, Param>)

  /** `present?` fails: nil, a blank string, or an empty hash. */
  predicate ParamBlank(p: Param) {
    match p
    case Nil => true
    case Text(s) => IsBlank(s)
    case Number(_) => false
    case Moment(_) => false
    case Hash(e) => e == map[]
  }

  /** One permitted attribute of a payload: absent (`Keep`), or present with a value that may be nil. */
  datatype Field<T> = Keep | Set(value: Option<T>)

  /** The whitelisted payload: exactly the six attributes `item_params` permits. */
  datatype Patch = Patch(
    name: Field<string>,
    description: Field<string>,
    status: Field<string>,
    duration: Field<Duration>,
    deadline: Field<DateTime>,
    completedAt: Field<DateTime>)

  /** The keys `permit` lets through, in the order the controller lists them. */
  const PermittedKeys: seq<string> := ["name", "description", "duration", "deadline", "status", "completed_at"]

  function AsString(p: Param): Option<string> {
    if p.Text? then Some(p.text) else None
  }

  function AsDuration(p: Param): Option<Duration> {
    if p.Number? then Some(p.number) else None
  }

  function AsDateTime(p: Param): Option<DateTime> {
    if p.Moment? then Some(p.moment) else None
  }

  /** One permitted key: a scalar entry is kept, a nested hash is dropped as `permit` drops it. */
  function Pick<T>(entries: map<string, Param>, key: string, cast: Param -> Option<T>): (f: Field<T>)
    ensures f.Set? <==> key in entries && !entries[key].Hash?
    ensures f.Set? ==> f.value == cast(entries[key])
  {
    if key in entries && !entries[key].Hash? then Set(cast(entries[key])) else Keep
  }

  /** `permit(:name, :description, :duration, :deadline, :status, :completed_at)`. */
  function Permit(entries: map<string, Param>): (p: Patch)
    ensures p.name.Set? <==> "name" in entries && !entries["name"].Hash?
    ensures p.name.Set? ==> p.name.value == AsString(entries["name"])
    ensures p.description.Set? <==> "description" in entries && !entries["description"].Hash?
    ensures p.description.Set? ==> p.description.value == AsString(entries["description"])
    ensures p.status.Set? <==> "status" in entries && !entries["status"].Hash?
    ensures p.status.Set? ==> p.status.value == AsString(entries["status"])
    ensures p.duration.Set? <==> "duration" in entries && !entries["duration"].Hash?
    ensures p.duration.Set? ==> p.duration.value == AsDuration(entries["duration"])
    ensures p.deadline.Set? <==> "deadline" in entries && !entries["deadline"].Hash?
    ensures p.deadline.Set? ==> p.deadline.value == AsDateTime(entries["deadline"])
    ensures p.completedAt.Set? <==> "completed_at" in entries && !entries["completed_at"].Hash?
    ensures p.completedAt.Set? ==> p.completedAt.value == AsDateTime(entries["completed_at"])
  {
    Patch(
      Pick(entries, "name", AsString),
      Pick(entries, "description", AsString),
      Pick(entries, "status", AsString),
      Pick(entries, "duration", AsDuration),
      Pick(entries, "deadline", AsDateTime),
      Pick(entries, "completed_at", AsDateTime))
  }

  /** `params.require(:item).permit(...)`. */
  function ItemParams(params: map<string, Param>): (r: Result<Patch, Error>)
    ensures r == Failure(ParameterMissing) <==> "item" !in params || ParamBlank(params["item"])
    ensures r == Failure(NotAHash) <==> "item" in params && !ParamBlank(params["item"]) && !params["item"].Hash?
    ensures r.Success? ==> params["item"].Hash? && r.value == Permit(params["item"].entries)
  {
    if "item" !in params || ParamBlank(params["item"]) then Failure(ParameterMissing)
    else if !params["item"].Hash? then Failure(NotAHash)
    else Success(Permit(params["item"].entries))
  }

  /** Two payloads that agree on the six permitted keys. */
  predicate AgreeOnPermitted(a: map<string, Param>, b: map<string, Param>) {
    forall k :: k in PermittedKeys ==> (k in a <==> k in b) && (k in a ==> a[k] == b[k])
  }

  /** No key outside the six reaches the patch: only the permitted keys decide it. */
  lemma PermitIgnoresOtherKeys(a: map<string, Param>, b: map<string, Param>)
    requires AgreeOnPermitted(a, b)
    ensures Permit(a) == Permit(b)
  {
  }

  /**
   * Adding one key outside the six to a non-empty `item` hash leaves the
   * whitelisted params unchanged. (An empty hash is blank, so there the
   * added key turns `ParameterMissing` into an empty patch.)
   */
  lemma ItemParamsDropsOtherKeys(params: map<string, Param>, extra: string, value: Param)
    requires "item" in params && params["item"].Hash? && params["item"].entries != map[]
    requires extra !in PermittedKeys
    ensures var widened := params["item" := Hash(params["item"].entries[extra := value])];
      ItemParams(widened) == ItemParams(params)
  {
  }

  function Apply<T>(f: Field<T>, prior: Option<T>): Option<T> {
    match f
    case Keep => prior
    case Set(v) => v
  }

  /**
   * `assign_attributes(item_params)`: each attribute the payload names takes
   * the payload's value; every other attribute, and the id, keeps its value.
   */
  function Assign(item: Item, patch: Patch): (r: Item)
    ensures r.id == item.id
    ensures patch.name.Keep? ==> r.name == item.name
    ensures patch.name.Set? ==> r.name == patch.name.value
    ensures patch.description.Keep? ==> r.description == item.description
    ensures patch.description.Set? ==> r.description == patch.description.value
    ensures patch.status.Keep? ==> r.status == item.status
    ensures patch.status.Set? ==> r.status == patch.status.value
    ensures patch.duration.Keep? ==> r.duration == item.duration
    ensures patch.duration.Set? ==> r.duration == patch.duration.value
    ensures patch.deadline.Keep? ==> r.deadline == item.deadline
    ensures patch.deadline.Set? ==> r.deadline == patch.deadline.value
    ensures patch.completedAt.Keep? ==> r.completedAt == item.completedAt
    ensures patch.completedAt.Set? ==> r.completedAt == patch.completedAt.value
  {
    Item(
      item.id,
      Apply(patch.name, item.name),
      Apply(patch.description, item.description),
      Apply(patch.status, item.status),
      Apply(patch.duration, item.duration),
      Apply(patch.deadline, item.deadline),
      Apply(patch.completedAt, item.completedAt))
  }

  /** `Item.new`: every attribute nil. */
  const NewItem: Item := Item(None, None, None, None, None, None, None)

  /** `Item.new(item_params)`: the payload's attributes, nil everywhere else; no default status. */
  function Build(patch: Patch): (r: Item)
    ensures r.id.None?
    ensures r.name == Apply(patch.name, None) && r.description == Apply(patch.description, None)
    ensures r.status == Apply(patch.status, None) && r.duration == Apply(patch.duration, None)
    ensures r.deadline == Apply(patch.deadline, None) && r.completedAt == Apply(patch.completedAt, None)
  {
    Assign(NewItem, patch)
  }

  /**
   * A payload without `status` builds an item that cannot be saved: the
   * column has no default, so `create` adds nothing.
   */
  lemma BuildWithoutStatusInvalid(patch: Patch)
    requires patch.status.Keep? || patch.status == Set(None)
    ensures !IsValid(Build(patch))
  {
  }

  /**
   * The state `update` saves: the payload merged over the stored item, then
   * `completed_at := now` whenever the merged status is "done".
   */
  function Updated(prior: Item, patch: Patch, now: DateTime): (r: Item)
    ensures r.id == prior.id
    ensures r.name == Apply(patch.name, prior.name)
    ensures r.description == Apply(patch.description, prior.description)
    ensures r.status == Apply(patch.status, prior.status)
    ensures r.duration == Apply(patch.duration, prior.duration)
    ensures r.deadline == Apply(patch.deadline, prior.deadline)
    ensures r.status == Some(Done) ==> r.completedAt == Some(now)
    ensures r.status != Some(Done) ==> r.completedAt == Apply(patch.completedAt, prior.completedAt)
  {
    var merged := Assign(prior, patch);
    if merged.status == Some(Done) then merged.(completedAt := Some(now)) else merged
  }

  /** A "done" update stamps `now`, whatever `completed_at` the payload carried. */
  lemma DoneStampOverridesPayload(prior: Item, patch: Patch, now: DateTime)
    requires patch.status == Set(Some(Done))
    ensures Updated(prior, patch, now).completedAt == Some(now)
  {
  }

  /**
   * An item already "done" is stamped again by any update that leaves its
   * status alone, such as an edit of its description.
   */
  lemma DoneItemRestampedOnEveryUpdate(prior: Item, patch: Patch, now: DateTime)
    requires prior.status == Some(Done) && patch.status.Keep?
    ensures Updated(prior, patch, now).completedAt == Some(now)
  {
  }

  /**
   * When the merged status is not "done", `completed_at` is never cleared
   * automatically: it is cleared only by a payload that sets it to nil.
   */
  lemma CompletionNeverAutoCleared(prior: Item, patch: Patch, now: DateTime)
    requires prior.completedAt.Some?
    requires Updated(prior, patch, now).completedAt.None?
    ensures patch.completedAt == Set(None)
  {
  }

  /** Where a successful action redirects: `/items` or `/items/<id>`. */
  datatype Target = ItemsList | ItemDetail(id: nat)

  /**
   * The redirect path: "/items" for the list, "/items/" followed by the
   * decimal id for an item's page.
   */
  function Path(t: Target): (s: string)
    ensures t.ItemsList? <==> s == "/items"
    ensures t.ItemDetail? ==>
      && |s| > 7 && s[..7] == "/items/"
      && Numerals.AllDigits(s[7..]) && Numerals.Value(s[7..]) == t.id
  {
    match t
    case ItemsList => "/items"
    case ItemDetail(id) =>
      var digits := Numerals.Decimal(id);
      Numerals.ValueOfDecimal(id);
      assert ("/items/" + digits)[7..] == digits;
      "/items/" + digits
  }

  /** Distinct targets have distinct paths, so a redirect names one page. */
  lemma PathInjective(a: Target, b: Target)
    requires Path(a) == Path(b)
    ensures a == b
  {
  }

  /** Which of the two forms a view shows (`@form_type`). */
  datatype FormType = NewForm | EditForm

  /** What `index` exposes to its view. */
  datatype IndexView = IndexView(
    queued: seq<Item>, active: seq<Item>, done: seq<Item>,
    form: Item, statuses: seq<string>, formType: FormType)

  /** What `show` exposes to its view. */
  datatype ShowView = ShowView(item: Item, statuses: seq<string>, formType: FormType)

  /** Every stored row sits under its own id. */
  ghost predicate Keyed(table: map<nat, Item>) {
    forall k :: k in table ==> table[k].id == Some(k)
  }

  /** The id of a stored item, or -1 for an unsaved one. */
  function Key(x: Item): int {
    if x.id.Some? then x.id.value else -1
  }

  /** Listed in strictly increasing id order, that is, in insertion order. */
  predicate Ascending(s: seq<Item>) {
    forall i, j :: 0 <= i < j < |s| ==> Key(s[i]) < Key(s[j])
  }

  /**
   * `Item.where(status: status)` restricted to ids below n: exactly the
   * stored rows with that status and such an id, each once, by ascending id.
   */
  function WhereBelow(table: map<nat, Item>, status: string, n: nat): (r: seq<Item>)
    requires Keyed(table)
    ensures Ascending(r)
    ensures forall i :: 0 <= i < |r| ==>
      r[i].id.Some? && r[i].id.value < n && r[i].id.value in table
      && table[r[i].id.value] == r[i] && r[i].status == Some(status)
    ensures forall k :: k in table && k < n && table[k].status == Some(status) ==> table[k] in r
  {
    if n == 0 then []
    else
      var before := WhereBelow(table, status, n - 1);
      if n - 1 in table && table[n - 1].status == Some(status) then before + [table[n - 1]] else before
  }

  /**
   * The `items` table, with the id the next saved row receives. Ids start at
   * 1 and are never reused.
   */
  class ItemStore {
    var table: map<nat, Item>
    var nextId: nat

    /**
     * Every row sits under its own id, below `nextId`, and is valid: the only
     * writers, `create` and `update`, save a row only when it validates.
     */
    ghost predicate Valid()
      reads this
    {
      forall k :: k in table ==> table[k].id == Some(k) && k < nextId && IsValid(table[k])
    }

    constructor ()
      ensures Valid() && table == map[] && nextId == 1
    {
      table := map[];
      nextId := 1;
    }

    /** `Item.where(status: status)`: the stored rows with that status, by ascending id. */
    function Where(status: string): (r: seq<Item>)
      reads this
      requires Valid()
      ensures Ascending(r)
      ensures forall x :: x in r <==> x in table.Values && x.status == Some(status)
    {
      var r := WhereBelow(table, status, nextId);
      assert forall x :: x in table.Values && x.status == Some(status) ==> x in r by {
        forall x | x in table.Values && x.status == Some(status) ensures x in r {
          var k :| k in table && table[k] == x;
        }
      }
      r
    }

    /**
     * `index`: the rows split by status into three disjoint groups that
     * together hold the whole table, a blank form item with status "queued",
     * and `Item.statuses` for the selector.
     */
    function Index(): (v: IndexView)
      reads this
      requires Valid()
      ensures forall x :: x in v.queued <==> x in table.Values && x.status == Some(Queued)
      ensures forall x :: x in v.active <==> x in table.Values && x.status == Some(Active)
      ensures forall x :: x in v.done <==> x in table.Values && x.status == Some(Done)
      ensures Ascending(v.queued) && Ascending(v.active) && Ascending(v.done)
      ensures forall x :: x in v.queued ==> x !in v.active && x !in v.done
      ensures forall x :: x in v.active ==> x !in v.done
      ensures forall x :: x in table.Values ==> x in v.queued || x in v.active || x in v.done
      ensures v.form == NewItem.(status := Some(Queued))
      ensures v.statuses == Statuses && v.formType == NewForm
    {
      IndexView(Where(Queued), Where(Active), Where(Done), NewItem.(status := Some(Queued)), Statuses, NewForm)
    }

    /** `Item.find(id)`: the row stored under id, or `NotFound`. */
    function Find(id: nat): (r: Result<Item, Error>)
      reads this
      requires Valid()
      ensures r.Success? <==> id in table
      ensures r.Failure? ==> r.error == NotFound
      ensures r.Success? ==> r.value == table[id] && r.value.id == Some(id) && IsValid(r.value)
    {
      if id in table then Success(table[id]) else Failure(NotFound)
    }

    /** `show`: the row to edit and `Item.statuses`, or `NotFound`. */
    function Show(id: nat): (r: Result<ShowView, Error>)
      reads this
      requires Valid()
      ensures r.Success? <==> id in table
      ensures r.Failure? ==> r.error == NotFound
      ensures r.Success? ==> r.value == ShowView(table[id], Statuses, EditForm)
    {
      match Find(id)
      case Success(item) => Success(ShowView(item, Statuses, EditForm))
      case Failure(e) => Failure(e)
    }

    /**
     * `create`: build an item from the whitelisted params and save it under
     * a fresh id if it validates; either way redirect to the list. A payload
     * error raises before anything is built.
     */
    method Create(params: map<string, Param>) returns (r: Result<Target, Error>)
      requires Valid()
      modifies this
      ensures Valid()
      ensures ItemParams(params).Failure? ==>
        r == Failure(ItemParams(params).error) && table == old(table) && nextId == old(nextId)
      ensures ItemParams(params).Success? ==> r == Success(ItemsList)
      ensures ItemParams(params).Success? ==>
        var item := Build(ItemParams(params).value);
        if IsValid(item) then
          && old(nextId) !in old(table)
          && table == old(table)[old(nextId) := item.(id := Some(old(nextId)))]
          && nextId == old(nextId) + 1
        else
          table == old(table) && nextId == old(nextId)
    {
      var patch := ItemParams(params);
      if patch.Failure? {
        return Failure(patch.error);
      }
      var item := Build(patch.value);
      if IsValid(item) {
        var id := nextId;
        table := table[id := item.(id := Some(id))];
        nextId := nextId + 1;
      }
      return Success(ItemsList);
    }

    /**
     * `update`: find the row, merge the whitelisted params over it, stamp
     * `completed_at := now` if the merged status is "done", and save it if it
     * validates; either way redirect to its page. Nothing else changes.
     */
    method Update(id: nat, params: map<string, Param>, now: DateTime) returns (r: Result<Target, Error>)
      requires Valid()
      modifies this
      ensures Valid()
      ensures nextId == old(nextId)
      ensures id !in old(table) ==> r == Failure(NotFound) && table == old(table)
      ensures id in old(table) && ItemParams(params).Failure? ==>
        r == Failure(ItemParams(params).error) && table == old(table)
      ensures id in old(table) && ItemParams(params).Success? ==>
        var item := Updated(old(table)[id], ItemParams(params).value, now);
        && r == Success(ItemDetail(id))
        && table == if IsValid(item) then old(table)[id := item] else old(table)
    {
      var found := Find(id);
      if found.Failure? {
        return Failure(found.error);
      }
      var patch := ItemParams(params);
      if patch.Failure? {
        return Failure(patch.error);
      }
      var item := Assign(found.value, patch.value);
      if item.status == Some(Done) {
        item := item.(completedAt := Some(now));
      }
      if IsValid(item) {
        table := table[id := item];
      }
      return Success(ItemDetail(id));
    }
  }

  /** The item the two scenario methods below follow. */
  const WriteSpec: Item := Item(Some(1), Some("Write spec"), None, Some(Queued), None, None, None)

  /**
   * Creating `{name: "Write spec", status: "queued"}` in an empty table
   * stores it under id 1, listed in the queued group with no completion
   * time. An id never stored is not found.
   */
  method CreateScenario() returns (store: ItemStore)
    ensures fresh(store) && store.Valid() && store.table == map[1 := WriteSpec]
  {
    store := new ItemStore();
    var entries := map["name" := Text("Write spec"), "status" := Text(Queued)];
    assert "name" in entries;
    var patch := Patch(Set(Some("Write spec")), Keep, Set(Some(Queued)), Keep, Keep, Keep);
    assert ItemParams(map["item" := Hash(entries)]) == Success(patch);
    assert "Write spec"[0] == 'W';
    assert IsValid(Build(patch));
    var created := store.Create(map["item" := Hash(entries)]);
    assert created == Success(ItemsList);
    assert WriteSpec in store.Index().queued && WriteSpec.completedAt.None?;
    assert store.Show(999999) == Failure(NotFound);
  }

  /**
   * Updating that item to `{status: "done"}` moves it from the queued group
   * to the done group, stamped with the time of the update.
   */
  method DoneScenario(store: ItemStore, now: DateTime)
    requires store.Valid() && store.table == map[1 := WriteSpec]
    modifies store
  {
    var change := map["status" := Text(Done)];
    assert "status" in change;
    assert ItemParams(map["item" := Hash(change)]) == Success(Patch(Keep, Keep, Set(Some(Done)), Keep, Keep, Keep));
    var updated := store.Update(1, map["item" := Hash(change)], now);
    assert updated == Success(ItemDetail(1));
    var finished := WriteSpec.(status := Some(Done), completedAt := Some(now));
    assert store.table == map[1 := finished];
    assert finished in store.Index().done && WriteSpec !in store.Index().queued;
  }
}
