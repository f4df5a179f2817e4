/**
 * The "add food item" form. Its submit handler checks the four inputs, needs a
 * signed-in user, builds a record attributed to that user, appends it to the
 * list stored under the key 'foodItems' (read, push, write back) and clears the
 * inputs.
 *
 * The browser's key-value storage is a `Storage` object holding the one slot
 * this form uses: `None` when the key is absent, `Some(items)` otherwise. The
 * clock readings that give the new record its id and creation time are
 * parameters.
 */
module FoodItemForm {
  import opened Wrappers
  import opened Toasts

  /** The signed-in user, as the authentication context provides it. */
  datatype User = User(id: string, name: string, email: string)

  /** A stored record. `price` is the text typed into the price input. */
  datatype FoodItem = FoodItem(
    id: string,
    name: string,
    description: string,
    category: string,
    price: string,
    userId: string,
    userName: string,
    userEmail: string,
    createdAt: string)

  /** The form's four text inputs. */
  datatype Inputs = Inputs(name: string, description: string, category: string, price: string)

  /** The inputs as the form starts, and as a successful submit leaves them. */
  const Blank := Inputs("", "", "", "")

  /** An empty string is falsy, so the submit goes ahead only when none is empty. */
  predicate AllFilled(f: Inputs) {
    f.name != "" && f.description != "" && f.category != "" && f.price != ""
  }

  /** The stored list as the handler reads it: an absent key reads as `[]`. */
  function Existing(slot: Option<seq<FoodItem>>): seq<FoodItem> {
    if slot.Some? then slot.value else []
  }

  /** The record built from the inputs, the user and the two clock readings. */
  function NewItem(f: Inputs, u: User, id: string, createdAt: string): FoodItem {
    FoodItem(id, f.name, f.description, f.category, f.price, u.id, u.name, u.email, createdAt)
  }

  /** `item` carries the inputs `f`, the attribution of `u` and the given id and time. */
  predicate Describes(item: FoodItem, f: Inputs, u: User, id: string, createdAt: string) {
    && item.name == f.name && item.description == f.description
    && item.category == f.category && item.price == f.price
    && item.userId == u.id && item.userName == u.name && item.userEmail == u.email
    && item.id == id && item.createdAt == createdAt
  }

  /** What one submit leaves behind: the storage slot, the inputs and the toast shown, if any. */
  datatype Submission = Submission(slot: Option<seq<FoodItem>>, inputs: Inputs, notice: Option<Toast>)

  /** One submit of the form, as a function of the state it starts from. */
  function Submit(slot: Option<seq<FoodItem>>, f: Inputs, user: Option<User>, id: string, createdAt: string): (r: Submission)
    // the three outcomes, and which inputs lead to each
    ensures r.notice == Some(FillAllFields) <==> !AllFilled(f)
    ensures r.notice == None <==> AllFilled(f) && user.None?
    ensures r.notice == Some(FoodItemAdded) <==> AllFilled(f) && user.Some?
    // on both error paths nothing is written and the inputs stay as typed
    ensures !(AllFilled(f) && user.Some?) ==> r.slot == slot && r.inputs == f
    // on success exactly one record is appended after the kept ones, and the inputs are cleared
    ensures AllFilled(f) && user.Some? ==>
      && r.slot.Some?
      && |r.slot.value| == |Existing(slot)| + 1
      && Existing(slot) <= r.slot.value
      && Describes(r.slot.value[|r.slot.value| - 1], f, user.value, id, createdAt)
      && r.inputs == Blank
  {
    if !AllFilled(f) then
      Submission(slot, f, Some(FillAllFields))
    else if user.None? then
      Submission(slot, f, None)
    else
      Submission(Some(Existing(slot) + [NewItem(f, user.value, id, createdAt)]), Blank, Some(FoodItemAdded))
  }

  /** With the key absent, a successful submit leaves a list holding only the new record. */
  lemma FirstSubmitStoresOne(f: Inputs, u: User, id: string, createdAt: string)
    requires AllFilled(f)
    ensures Submit(None, f, Some(u), id, createdAt).slot == Some([NewItem(f, u, id, createdAt)])
  {
    assert Existing(None) + [NewItem(f, u, id, createdAt)] == [NewItem(f, u, id, createdAt)];
  }

  /**
   * Submitting twice in a row: the first submit clears the inputs, so a second
   * one straight after it is refused and stores nothing more.
   */
  lemma SecondSubmitRefused(slot: Option<seq<FoodItem>>, f: Inputs, user: Option<User>, id: string, createdAt: string,
                            user': Option<User>, id': string, createdAt': string)
    requires AllFilled(f) && user.Some?
    ensures var first := Submit(slot, f, user, id, createdAt);
            var second := Submit(first.slot, first.inputs, user', id', createdAt');
            second.slot == first.slot && second.notice == Some(FillAllFields)
  {
  }

  /** One press of the submit button: the inputs at that moment, the user and the clock. */
  datatype Attempt = Attempt(inputs: Inputs, user: Option<User>, id: string, createdAt: string)

  predicate Accepted(a: Attempt) {
    AllFilled(a.inputs) && a.user.Some?
  }

  /** The storage slot after a series of submits, one after the other. */
  function Run(slot: Option<seq<FoodItem>>, attempts: seq<Attempt>): Option<seq<FoodItem>>
    decreases |attempts|
  {
    if attempts == [] then slot
    else
      var a := attempts[0];
      Run(Submit(slot, a.inputs, a.user, a.id, a.createdAt).slot, attempts[1..])
  }

  /** The records the accepted attempts build, in the order they were made. */
  function Added(attempts: seq<Attempt>): seq<FoodItem>
    decreases |attempts|
  {
    if attempts == [] then []
    else
      var a := attempts[0];
      (if Accepted(a) then [NewItem(a.inputs, a.user.value, a.id, a.createdAt)] else []) + Added(attempts[1..])
  }

  /**
   * Over any series of submits the stored list only grows: what was stored
   * stays first and in order, and after it come exactly the records of the
   * accepted attempts, in the order of the attempts.
   */
  lemma {:induction false} RunAppendsAdded(slot: Option<seq<FoodItem>>, attempts: seq<Attempt>)
    ensures Existing(Run(slot, attempts)) == Existing(slot) + Added(attempts)
    ensures Existing(slot) <= Existing(Run(slot, attempts))
    decreases |attempts|
  {
    if attempts != [] {
      var a := attempts[0];
      var next := Submit(slot, a.inputs, a.user, a.id, a.createdAt).slot;
      RunAppendsAdded(next, attempts[1..]);
      if Accepted(a) {
        assert Existing(next) == Existing(slot) + [NewItem(a.inputs, a.user.value, a.id, a.createdAt)];
      }
      assert Existing(slot) + Added(attempts) == Existing(next) + Added(attempts[1..]);
    }
  }

  /** The browser storage, reduced to the value under the key 'foodItems'. */
  class Storage {
    var foodItems: Option<seq<FoodItem>>

    constructor (initial: Option<seq<FoodItem>>)
      ensures foodItems == initial
    {
      foodItems := initial;
    }

    /** Reads the stored list; an absent key reads as the empty list. */
    method Load() returns (items: seq<FoodItem>)
      ensures items == Existing(foodItems)
    {
      if foodItems.Some? {
        items := foodItems.value;
      } else {
        items := [];
      }
    }

    /** Writes the whole list back under the key. */
    method Save(items: seq<FoodItem>)
      modifies this
      ensures foodItems == Some(items)
    {
      foodItems := Some(items);
    }
  }

  /** The form component: its four input fields. */
  class Form {
    var name: string
    var description: string
    var category: string
    var price: string

    constructor ()
      ensures Current() == Blank
    {
      name, description, category, price := "", "", "", "";
    }

    function Current(): Inputs
      reads this
    {
      Inputs(name, description, category, price)
    }

    /** The submit handler; its effect on the storage and the inputs is that of `Submit`. */
    method HandleSubmit(store: Storage, user: Option<User>, id: string, createdAt: string) returns (notice: Option<Toast>)
      modifies this, store
      ensures var s := Submit(old(store.foodItems), old(Current()), user, id, createdAt);
              store.foodItems == s.slot && Current() == s.inputs && notice == s.notice
    {
      if !AllFilled(Current()) {
        notice := Some(FillAllFields);
        return;
      }
      if user.None? {
        notice := None;
        return;
      }
      var u := user.value;
      var newItem := FoodItem(id, name, description, category, price, u.id, u.name, u.email, createdAt);
      var existingItems := store.Load();
      existingItems := existingItems + [newItem];
      store.Save(existingItems);
      name, description, category, price := "", "", "", "";
      notice := Some(FoodItemAdded);
    }
  }
}
