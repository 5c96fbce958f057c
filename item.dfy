/**
 * The `Item` record, its fixed status list `Item.statuses`, and its two
 * validations: `name` must be present and `status` must be one of the list.
 */
module ItemModel {
  import opened Wrappers
  import opened Calendar

  /** A `float` column value, kept as its IEEE 754 bits: it is only ever copied. */
  datatype Duration = Duration(bits: bv64)

  /**
   * One row of the `items` table. Every attribute may be nil; `id` is nil
   * until the row is first saved.
   */
  datatype Item = Item(
    id: Option<nat>,
    name: Option<string>,
    description: Option<string>,
    status: Option<string>,
    duration: Option<Duration>,
    deadline: Option<DateTime>,
    completedAt: Option<DateTime>)

  const Queued: string := "queued"
  const Active: string := "active"
  const Done: string := "done"

  /** `Item.statuses`, in the order the form selector offers them. */
  const Statuses: seq<string> := [Queued, Active, Done]

  /**
   * The characters ActiveSupport's `blank?` treats as white space (the
   * `[[:space:]]` class: Unicode White_Space).
   */
  predicate IsSpace(c: char) {
    || c == ' ' || '\t' <= c <= '\r' || c == '\U{85}' || c == '\U{A0}' || c == '\U{1680}'
    || '\U{2000}' <= c <= '\U{200A}' || c == '\U{2028}' || c == '\U{2029}'
    || c == '\U{202F}' || c == '\U{205F}' || c == '\U{3000}'
  }

  /** `String#blank?`: empty, or white space only. */
  predicate IsBlank(s: string) {
    forall i :: 0 <= i < |s| ==> IsSpace(s[i])
  }

  /** `validates :name, presence: true`. */
  predicate NamePresent(name: Option<string>) {
    name.Some? && !IsBlank(name.value)
  }

  /** `validates :status, inclusion: { in: statuses }`; nil is not included. */
  predicate StatusIncluded(status: Option<string>) {
    status.Some? && status.value in Statuses
  }

  /**
   * `item.valid?`: both validations pass, so a valid item has a non-empty
   * name and one of the three statuses.
   */
  predicate IsValid(item: Item)
    ensures IsValid(item) ==>
      && item.name.Some? && item.name.value != []
      && item.status in {Some(Queued), Some(Active), Some(Done)}
  {
    NamePresent(item.name) && StatusIncluded(item.status)
  }

  /** `Item.statuses` is queued, active, done, in that order, all distinct. */
  lemma StatusesAreThreeDistinct()
    ensures Statuses == ["queued", "active", "done"]
    ensures forall i, j :: 0 <= i < j < |Statuses| ==> Statuses[i] != Statuses[j]
  {
  }

  /** Every status the form selector offers passes the inclusion check. */
  lemma ListedStatusesIncluded(s: string)
    requires s in Statuses
    ensures StatusIncluded(Some(s))
  {
  }

  /** An absent or blank name makes an item invalid, whatever else it holds. */
  lemma BlankNameInvalid(item: Item)
    requires item.name.None? || IsBlank(item.name.value)
    ensures !IsValid(item)
  {
  }

  /** An absent status, or one other than the three, makes an item invalid. */
  lemma UnlistedStatusInvalid(item: Item)
    requires item.status.None? || item.status.value !in {"queued", "active", "done"}
    ensures !IsValid(item)
  {
  }

  /** Characterisation of validity in the three status values. */
  lemma ValidIff(item: Item)
    ensures IsValid(item) <==>
      && item.name.Some? && (exists i :: 0 <= i < |item.name.value| && !IsSpace(item.name.value[i]))
      && item.status in {Some("queued"), Some("active"), Some("done")}
  {
  }

  /** The verdict depends on `name` and `status` only. */
  lemma ValidityIgnoresOtherFields(a: Item, b: Item)
    requires a.name == b.name && a.status == b.status
    ensures IsValid(a) == IsValid(b)
  {
  }
}
