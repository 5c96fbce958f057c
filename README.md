# codenow-todo items: a Dafny model

codenow-todo is a small Rails application that tracks *items*, task-like records that move through three statuses: `queued`, `active` and `done`. This project models its core in Dafny and proves properties of that model:

- **The `Item` record and its validations** (`item.rb`, module `ItemModel`, file `item.dfy`). The record has the six attributes of the `items` table plus an id. All of them may be nil. `Item.statuses` is the fixed list `["queued", "active", "done"]`. An item is valid when its name is present, meaning not nil and not blank in ActiveSupport's sense, and its status is one of the three values.
- **The controller** (`items_controller.rb`, module `ItemsController`, file `items_controller.dfy`). The `items` table is an in-memory class `ItemStore`. It holds a map from id to item and the next id to hand out.
  - `item_params` is modelled as `ItemParams`. It turns the decoded `params` hash into a `Patch` with exactly six fields. Each field is either absent (`Keep`) or present with a value that may be nil.
  - `index` splits the table by status.
  - `show` looks an item up.
  - `create` builds an item from the patch and saves it only if it validates.
  - `update` first merges the patch over the stored item. If the merged status is "done" it then stamps `completed_at` with `now`, and it saves only if the result validates.
  - Redirects come back as a `Target` value.
  - The clock reading `Time.now` becomes the parameter `now`.
- **The date helpers** (`application_helper.rb`, module `ApplicationHelper`, file `application_helper.dfy`). `display_date` gives `strftime('%B %d, %Y')` and `display_form_date` gives `strftime('%Y-%m-%d')`. Both return the empty string for nil. Each comes with a reader (`ParseDisplayDate`, `ParseFormDate`), and a round-trip lemma proves that reading a rendered string gives the calendar date back.

Supporting modules: `Wrappers` holds `Option` and `Result`. `Numerals` handles decimal numerals and zero padding and proves that reading a numeral back gives its value. `Calendar` defines the `Date` and `DateTime` values held in the `deadline` and `completed_at` columns.

The table invariant `ItemStore.Valid()` says three things about every stored row: it sits under its own id, that id is below the next id, and the row is valid. `Create` and `Update` preserve it, because a row is saved only when it validates.

Two behaviours of the code worth knowing:

- **No default status.** `create` passes the permitted params straight to `Item.new`, and the `status` column (`db/migrate/20170916212133_create_items.rb`, line 6) is declared without a default. So a `create` without a status builds an invalid item and stores nothing (`BuildWithoutStatusInvalid`).
- **Re-stamping.** `update` stamps `completed_at` on every update whose merged status is "done". That includes any edit of an item that is already done (`DoneItemRestampedOnEveryUpdate`).

## Model

| member | source | states |
|---|---|---|
| `ItemModel.StatusesAreThreeDistinct` | app/models/item.rb:2-4 | `Item.statuses` is exactly queued, active, done, in that order, with three distinct elements |
| `ItemModel.ListedStatusesIncluded` | app/models/item.rb:2-8 | every status the form selector offers passes the inclusion validation |
| `ItemModel.BlankNameInvalid` | app/models/item.rb:6 | an item whose name is nil, empty or white space only is invalid, whatever its other attributes |
| `ItemModel.UnlistedStatusInvalid` | app/models/item.rb:7-8 | an item whose status is nil or not one of the three values is invalid |
| `ItemModel.IsValid` | app/models/item.rb:6-8 | a valid item has a non-empty name and a status of "queued", "active" or "done" |
| `ItemModel.ValidIff` | app/models/item.rb:6-8 | an item is valid exactly when its name holds a non-space character and its status is "queued", "active" or "done" |
| `ItemModel.ValidityIgnoresOtherFields` | app/models/item.rb:6-8 | two items with equal name and status get the same verdict: description, duration, deadline, completed_at and id never matter |
| `ItemsController.Pick` | app/controllers/items_controller.rb:38-40 | a permitted key reaches the patch exactly when the payload has it with a scalar (non-hash) value, and then carries that value cast to the attribute's type |
| `ItemsController.ItemParams` | app/controllers/items_controller.rb:37-40 | a missing or blank `item` parameter is `ParameterMissing`; a present non-hash is an error; otherwise the result is the permitted patch |
| `ItemsController.Permit` | app/controllers/items_controller.rb:38-40 | each of the six attributes is set exactly when its key holds a scalar, and then to that entry's value; otherwise it is left alone |
| `ItemsController.PermitIgnoresOtherKeys` | app/controllers/items_controller.rb:38-40 | payloads that agree on the six permitted keys give the same patch: no other key of the decoded payload reaches the patch |
| `ItemsController.ItemParamsDropsOtherKeys` | app/controllers/items_controller.rb:37-40 | when the `item` hash is non-empty, adding one non-permitted key, such as `admin`, to it leaves the whitelisted params unchanged |
| `ItemsController.Assign` | app/controllers/items_controller.rb:22 | each attribute named by the payload takes its value; every other attribute, and the id, is unchanged |
| `ItemsController.Build` | app/controllers/items_controller.rb:32 | a new item has no id, carries the payload's attributes, and has nil everywhere else, including a status left out |
| `ItemsController.BuildWithoutStatusInvalid` | app/controllers/items_controller.rb:32-33 | a payload without a status, or with a nil one, builds an item that does not validate, so `create` stores nothing |
| `ItemsController.Updated` | app/controllers/items_controller.rb:22-25 | the id is kept and other attributes are merged; a merged status of "done" gives `completed_at == now`; otherwise `completed_at` is the payload's value if supplied, else the prior one |
| `ItemsController.DoneStampOverridesPayload` | app/controllers/items_controller.rb:22-25 | an update setting status "done" stamps `now`, overriding any `completed_at` in the payload |
| `ItemsController.DoneItemRestampedOnEveryUpdate` | app/controllers/items_controller.rb:22-25 | an update that leaves a done item's status alone still re-stamps `completed_at` with `now` |
| `ItemsController.CompletionNeverAutoCleared` | app/controllers/items_controller.rb:22-25 | a set `completed_at` becomes nil only through a payload that sets it to nil, never by a status change |
| `ItemsController.Path` | app/controllers/items_controller.rb:28-34 | the list redirect is "/items"; an item's redirect is "/items/" followed by digits that denote its id |
| `ItemsController.PathInjective` | app/controllers/items_controller.rb:28-34 | distinct redirect targets have distinct paths: `/items` and `/items/<id>` name different pages for different ids |
| `ItemsController.WhereBelow` | app/controllers/items_controller.rb:3-5 | the result holds exactly the stored rows whose id is below n and whose status matches, each once, in ascending id order |
| `ItemsController.ItemStore.Where` | app/controllers/items_controller.rb:3-5 | `Item.where(status:)` lists exactly the stored items with that status, by ascending id with no repeats |
| `ItemsController.ItemStore.Index` | app/controllers/items_controller.rb:2-11 | the three groups hold exactly the queued, active and done items; they are pairwise disjoint and together cover the whole table; the form item is blank with status "queued"; the statuses are `Item.statuses` |
| `ItemsController.ItemStore.Find` | app/controllers/items_controller.rb:14 | finds the stored row under the id, which carries that id and is valid; an absent id gives `NotFound` |
| `ItemsController.ItemStore.Show` | app/controllers/items_controller.rb:13-17 | shows the stored row with `Item.statuses` and the edit form; an absent id gives `NotFound` |
| `ItemsController.ItemStore.Create` | app/controllers/items_controller.rb:31-35 | a valid built item is stored under the fresh id `nextId`, which is then advanced; an invalid one changes nothing; the redirect is to `/items` either way; a params error changes nothing |
| `ItemsController.ItemStore.Update` | app/controllers/items_controller.rb:19-29 | an absent id gives `NotFound` and changes nothing; otherwise only that row may change, to `Updated(...)` if it validates; the redirect is to the item's page either way |
| `ItemsController.CreateScenario` | app/controllers/items_controller.rb:31-35 | creating `{name: "Write spec", status: "queued"}` in an empty table stores it under id 1, in the queued group, with no completion time; an unknown id is not found |
| `ItemsController.DoneScenario` | app/controllers/items_controller.rb:19-29 | updating that item to `{status: "done"}` moves it from the queued group to the done group, with `completed_at == now` |
| `ApplicationHelper.YearText` | app/helpers/application_helper.rb:7 | `%Y` reads back as the year, and is four digits for the years 0 to 9999 |
| `ApplicationHelper.DisplayDate` | app/helpers/application_helper.rb:2-4 | the result is empty exactly when the timestamp is nil |
| `ApplicationHelper.DisplayFormDate` | app/helpers/application_helper.rb:6-8 | the result is empty exactly when the timestamp is nil |
| `ApplicationHelper.DisplayDateLayout` | app/helpers/application_helper.rb:3 | the full English month name, a space, the day in two digits, ", ", then the year |
| `ApplicationHelper.DisplayDateRoundTrip` | app/helpers/application_helper.rb:3 | reading `display_date`'s output back gives the same calendar date |
| `ApplicationHelper.DisplayDateInjective` | app/helpers/application_helper.rb:3 | timestamps rendered alike fall on the same calendar date |
| `ApplicationHelper.FormDateRoundTrip` | app/helpers/application_helper.rb:7 | reading `display_form_date`'s output back gives the same (year, month, day) |
| `ApplicationHelper.FormDateInjective` | app/helpers/application_helper.rb:7 | distinct calendar dates give distinct form strings |
| `ApplicationHelper.FormDateShape` | app/helpers/application_helper.rb:7 | for the years 0 to 9999: length 10, '-' at positions 4 and 7, digits elsewhere, denoting the year, month and day |
| `ApplicationHelper.IgnoresTimeOfDay` | app/helpers/application_helper.rb:3-7 | both helpers depend on the calendar date only, never on the time of day |

## Left out

- HTTP, routing (`config/routes.rb`), view rendering and `redirect_to`. A redirect is returned as a `Target`. The `destroy` route has no action in the controller, so there is nothing to model for it.
- ActiveRecord and SQL persistence. The table is the map in `ItemStore`, with ids handed out from 1 and never reused.
- Storage races between concurrent requests (last write wins). Every action runs to completion on its own.
- `created_at` and `updated_at`. They are audit columns filled in by storage, and no code in the core reads them.
- `Time.now`. The clock reading is the parameter `now` of `ItemStore.Update`.
- Decoding the HTTP request. `params` arrives already decoded, with typed scalars (`Param`). Booleans, arrays and uploaded files are left out.
- Multi-parameter attribute keys such as `deadline(1i)`, `deadline(2i)` and `deadline(3i)`. `permit(:deadline)` lets them through and `assign_attributes` combines them into one datetime. Here they count as part of decoding `params`: the model expects the combined `deadline` or `completed_at` key, and treats the split keys like any other unpermitted key.
- Row order of `Item.where`. The query has no `order`, so SQL promises no order. The model lists rows by ascending id.
- `ItemsController.AsString`, `AsDuration`, `AsDateTime`: these do not model ActiveModel's conversion between kinds, such as a number sent for a string attribute or a string for a datetime one. A value of the wrong kind for its attribute is read as nil.
- `duration` as a floating-point number. It is kept as its 64-bit pattern (`Duration`) and only copied.
- `strftime` locale and time-zone conversion. A `DateTime` is already resolved to the display zone, and `%B` is the English name. The day is any number from 1 to 31. Whether that day exists in its month is not checked, because the helpers do not depend on it.
- Sub-second precision and the zone offset of a timestamp. Neither helper prints them.
