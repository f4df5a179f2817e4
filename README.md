# Food-Application: the two form submit handlers

This project models the two pieces of the Food-Application front end that
carry rules of their own:

- the **"add food item" form** (`FoodItemForm`): its submit handler checks that
  the item name, description, category and price inputs are all non-empty,
  needs a signed-in user, builds a food item record attributed to that user,
  appends it to the list kept in browser storage under the key `foodItems`
  (read the list, treating an absent key as `[]`, push, write the whole list
  back), clears the four inputs and shows a success toast;
- the **registration form** (`RegisterForm`): its submit handler reports empty
  inputs first, then a password/confirmation mismatch, and only when both
  checks pass asks the account service to register (name, email, password);
  the service's yes/no answer becomes "Account created successfully!" or
  "Email already exists".

The food item form changes state in place, so it is a class `Form` holding the
four inputs, with a method `HandleSubmit` that updates them and a `Storage`
object holding the value under `foodItems` (`None` when the key is absent).
The method is proved against the pure function `Submit`, and the properties of
the handler are proved about `Submit`. That includes what a series of submits
does to the stored list (`Run`, `Added`, `RunAppendsAdded`).

The registration handler changes no data. It is the total function
`RegisterForm.HandleSubmit` from the four inputs and the account service's
answer to the calls made to the service and the toasts raised.

Files: `wrappers.dfy` (Option), `toasts.dfy` (the five messages and their
titles), `food_item_form.dfy`, `register_form.dfy`.

External inputs are parameters of the model:
- the signed-in user (`Option<User>`), which comes from the authentication context;
- the two clock readings that give a new record its `id` (`Date.now()`) and its
  `createdAt` (`new Date().toISOString()`);
- the account service `register`, a function from credentials to its boolean answer.

## Model

| member | source | states |
|---|---|---|
| `FoodItemForm.Submit` | src/components/food/FoodItemForm.tsx:30-70 | an empty input gives the "Please fill in all fields" toast whatever the user; filled inputs with no user give no toast; otherwise the success toast. On both error paths the stored value and the inputs are unchanged. On success the list grows by exactly one, the old list (an absent key reads as empty) is a prefix of the new one, the last record carries the inputs, the user's id, name and email, the id and the creation time, and the inputs are cleared |
| `FoodItemForm.Form.HandleSubmit` | src/components/food/FoodItemForm.tsx:30-70 | the handler's new stored value, new inputs and toast are those `Submit` gives for the old stored value and old inputs |
| `FoodItemForm.Form.constructor` | src/components/food/FoodItemForm.tsx:23-26 | the four inputs start empty |
| `FoodItemForm.Storage.Load` | src/components/food/FoodItemForm.tsx:56 | reading the list gives `[]` when the key is absent and the stored list otherwise |
| `FoodItemForm.Storage.Save` | src/components/food/FoodItemForm.tsx:58 | writing the list back stores exactly that list under the key |
| `FoodItemForm.FirstSubmitStoresOne` | src/components/food/FoodItemForm.tsx:56-58 | with the key absent, a successful submit stores a one-element list holding the new record |
| `FoodItemForm.SecondSubmitRefused` | src/components/food/FoodItemForm.tsx:33-64 | after a successful submit the inputs are cleared, so a second submit straight after is refused with the fill-all-fields toast and stores nothing |
| `FoodItemForm.RunAppendsAdded` | src/components/food/FoodItemForm.tsx:56-58 | over any series of submits the stored list is the old list followed by the records of the accepted submits, in order; the old list is always a prefix |
| `RegisterForm.HandleSubmit` | src/components/auth/RegisterForm.tsx:21-56 | exactly one toast per submit and at most one service call; an empty input gives "Please fill in all fields" before the password check; filled inputs with differing passwords give "Passwords do not match"; the service is called exactly when both checks pass, with (name, email, password); a yes gives "Account created successfully!" and a no "Email already exists" |
| `RegisterForm.RefusedIgnoresService` | src/components/auth/RegisterForm.tsx:24-40 | when a check refuses the inputs the outcome does not depend on the account service |
| `RegisterForm.ToastRevealsServiceCall` | src/components/auth/RegisterForm.tsx:42-55 | the service was called exactly when the toast is the success or the duplicate-email message |
| `RegisterForm.ConfirmationOnlyGates` | src/components/auth/RegisterForm.tsx:33-42 | with the other inputs filled and fixed, changing only a non-empty confirmation decides whether the service is called: it is called with (name, email, password) exactly when the confirmation equals the password, and otherwise the mismatch toast is shown |

## Left out

- RegisterForm.HandleSubmit: assumes `register` answers; a rejected `await register(...)` (RegisterForm.tsx:42) would end the handler with no toast and an unhandled rejection, a path the "exactly one toast" contract does not cover.
- FoodItemForm.Submit: assumes the storage reads and accepts the write; `localStorage.getItem` or `setItem` throwing (storage disabled, quota exceeded; FoodItemForm.tsx:56, 58) would end the handler with no toast and the inputs not reset, and a stored value that parses to something other than an array (for example `null`) would make the push at line 57 throw; the success outcome is promised only when none of these happens.
- The JSON encoding of the stored list (`JSON.parse`, `JSON.stringify`): the stored value is the list itself, so a malformed stored string, which would make `JSON.parse` throw, is not modelled; neither is a stored empty string, which the handler's `|| '[]'` also reads as `[]`.
- `parseFloat(price)`: floating-point parsing is not modelled; a record's `price` is the text typed into the price input.
- `Date.now()` and `new Date().toISOString()`: clock readings, taken as parameters; nothing is claimed about the uniqueness of ids, which the handler does not guarantee.
- The internals of the authentication context (`useAuth`, `register`, `isLoading`) and of the toast system: their source is not part of this model; `register` is an uninterpreted function and its asynchrony is not modelled.
- `e.preventDefault()` and all rendering (JSX), including the disabled submit button while registering.
- `src/components/food/FoodItemsTable.tsx`: re-reading the list on `storage` events, on a `foodItemAdded` event (which the form never raises) and every second, and its date formatting; event, timer and cross-tab plumbing. Lost updates between tabs writing the same key are concurrency and are not modelled.
- `src/components/dashboard/Dashboard.tsx` and `src/pages/Index.tsx`: presentation and routing only.
