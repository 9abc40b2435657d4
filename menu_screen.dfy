/**
 * The selection rules of src/components/MenuScreen.tsx: which items the
 * category tabs show, the add-to-order modal's state (selected item and
 * option, quantity, notes), the quantity stepper, the price preview, and
 * what the add button puts into the cart.
 */
module MenuScreen {
  import opened Common
  import opened Money
  import opened Types
  import Store

  const MaxQuantity: int := 99
  const NotesMaxLength: int := 200
  const AllCategories: string := "All"

  /** The stepper's lower bound: ten for the "Hallaca x Decena" option, one otherwise. */
  function MinQuantity(selectedOption: Option<MenuOption>): (m: int)
    ensures m == 1 || m == 10
    ensures m == 10 <==> selectedOption.Some? && selectedOption.value.name == HallacaDecena
  {
    if selectedOption.Some? && selectedOption.value.name == HallacaDecena then 10 else 1
  }

  /** The quantity set when an item or an option named `name` is picked. */
  function InitialQuantity(name: string): (q: int)
    ensures q == 1 || q == 10
    ensures q == 10 <==> name == HallacaDecena
  {
    if name == HallacaDecena then 10 else 1
  }

  /** Picking an option starts the stepper exactly at that option's minimum. */
  lemma InitialQuantityIsMinimum(option: MenuOption)
    ensures InitialQuantity(option.name) == MinQuantity(Some(option))
    ensures MinQuantity(Some(option)) <= InitialQuantity(option.name) <= MaxQuantity
  {
  }

  function Min(a: int, b: int): int { if a <= b then a else b }
  function Max(a: int, b: int): int { if a >= b then a else b }

  /**
   * `handleQuantityChange`: one step up or down, refusing to step down from
   * the minimum, then clamped into [minimum, 99].
   */
  function NextQuantity(prev: int, increment: bool, selectedOption: Option<MenuOption>): (q: int)
    ensures MinQuantity(selectedOption) <= q <= MaxQuantity
    ensures MinQuantity(selectedOption) <= prev <= MaxQuantity ==>
      && (increment && prev < MaxQuantity ==> q == prev + 1)
      && (increment && prev == MaxQuantity ==> q == MaxQuantity)
      && (!increment && prev == MinQuantity(selectedOption) ==> q == prev)
      && (!increment && prev > MinQuantity(selectedOption) ==> q == prev - 1)
  {
    var minQuantity := MinQuantity(selectedOption);
    var newQuantity := if !increment && prev == minQuantity then prev
                       else if increment then prev + 1 else prev - 1;
    Max(minQuantity, Min(MaxQuantity, newQuantity))
  }

  /**
   * The item stored in the cart when an option is chosen: the option's price,
   * a combined name and id, the option's description when it has a non-empty
   * one, and every other field from the item.
   */
  function WithOption(item: MenuItem, option: MenuOption): (r: MenuItem)
    ensures r.id == item.id + "-" + option.id
    ensures r.name == item.name + " - " + option.name
    ensures r.price == option.price
    ensures r.description == (if option.description.Some? && option.description.value != ""
                              then option.description.value else item.description)
    ensures r.(id := item.id, name := item.name, price := item.price, description := item.description) == item
    ensures r.id != item.id && IsPrefix(item.id, r.id)
  {
    item.(id := item.id + "-" + option.id,
          name := item.name + " - " + option.name,
          price := option.price,
          description := if option.description.Some? && option.description.value != ""
                         then option.description.value else item.description)
  }

  /** What `handleAddToOrder` stores for a selected item: the option folded in only when the item has options and one is chosen. */
  function ResolvedItem(item: MenuItem, selectedOption: Option<MenuOption>): (r: MenuItem)
    ensures item.hasOptions && selectedOption.Some? ==>
      && r.price == selectedOption.value.price
      && r.id != item.id && IsPrefix(item.id, r.id)
    ensures !(item.hasOptions && selectedOption.Some?) ==> r == item
    ensures r.category == item.category && r.hasOptions == item.hasOptions && r.options == item.options
  {
    if item.hasOptions && selectedOption.Some? then WithOption(item, selectedOption.value) else item
  }

  /** The `totalPrice` memo shown on the add button. */
  function PreviewPrice(selectedItem: Option<MenuItem>, selectedOption: Option<MenuOption>, quantity: int): (p: Cents)
    ensures selectedItem.None? ==> p == 0
    ensures selectedItem.Some? ==>
      p == Store.Subtotal(Store.OrderLine(ResolvedItem(selectedItem.value, selectedOption), quantity, ""))
    ensures selectedItem.Some? && selectedItem.value.hasOptions && selectedOption.Some? ==>
      p == selectedOption.value.price * quantity
    ensures selectedItem.Some? && !(selectedItem.value.hasOptions && selectedOption.Some?) ==>
      p == selectedItem.value.price * quantity
  {
    if selectedItem.None? then 0
    else
      var basePrice := if selectedItem.value.hasOptions && selectedOption.Some?
                       then selectedOption.value.price else selectedItem.value.price;
      basePrice * quantity
  }

  /** `menuItems.filter(item => item.category === category)`. */
  function ItemsInCategory(menu: seq<MenuItem>, category: string): (r: seq<MenuItem>)
    ensures |r| <= |menu|
    ensures forall x :: x in r <==> x in menu && x.category == category
  {
    if menu == [] then []
    else
      var last := menu[|menu| - 1];
      assert menu == menu[..|menu| - 1] + [last];
      ItemsInCategory(menu[..|menu| - 1], category) + (if last.category == category then [last] else [])
  }

  /** Filtering keeps menu order: it distributes over joining two parts of the menu. */
  lemma {:induction false} ItemsInCategoryAppend(a: seq<MenuItem>, b: seq<MenuItem>, category: string)
    ensures ItemsInCategory(a + b, category) == ItemsInCategory(a, category) + ItemsInCategory(b, category)
    decreases |b|
  {
    if b == [] {
      assert a + b == a;
    } else {
      assert (a + b)[..|a + b| - 1] == a + b[..|b| - 1];
      ItemsInCategoryAppend(a, b[..|b| - 1], category);
    }
  }

  /** The `filteredItems` memo: the whole menu for "All", otherwise that category's items. */
  function FilteredItems(menu: seq<MenuItem>, selectedCategory: string): (r: seq<MenuItem>)
    ensures selectedCategory == AllCategories ==> r == menu
    ensures selectedCategory != AllCategories ==>
      forall x :: x in r <==> x in menu && x.category == selectedCategory
  {
    if selectedCategory == AllCategories then menu else ItemsInCategory(menu, selectedCategory)
  }

  /** The add-to-order modal's state (the component's `useState` fields). */
  class ItemModal {
    var selectedItem: Option<MenuItem>
    var selectedOption: Option<MenuOption>
    var quantity: int
    var notes: string

    /** Quantity within the stepper's bounds, notes within the text box's limit. */
    ghost predicate Valid()
      reads this
    {
      && MinQuantity(selectedOption) <= quantity <= MaxQuantity
      && |notes| <= NotesMaxLength
    }

    constructor ()
      ensures Valid()
      ensures selectedItem == None && selectedOption == None && quantity == 1 && notes == ""
    {
      selectedItem, selectedOption, quantity, notes := None, None, 1, "";
    }

    /** `handleItemSelect`: opens the modal for `item` with no option and empty notes. */
    method SelectItem(item: MenuItem)
      modifies this
      ensures Valid()
      ensures selectedItem == Some(item) && selectedOption == None && notes == ""
      ensures quantity == InitialQuantity(item.name)
    {
      selectedItem := Some(item);
      selectedOption := None;
      quantity := InitialQuantity(item.name);
      notes := "";
    }

    /** Clicking (or pressing Enter/Space on) an option. */
    method SelectOption(option: MenuOption)
      requires Valid()
      modifies this`selectedOption, this`quantity
      ensures Valid()
      ensures selectedOption == Some(option) && quantity == InitialQuantity(option.name)
      ensures quantity == MinQuantity(selectedOption)
    {
      selectedOption := Some(option);
      quantity := InitialQuantity(option.name);
    }

    /** `handleQuantityChange`. */
    method ChangeQuantity(increment: bool)
      requires Valid()
      modifies this`quantity
      ensures Valid()
      ensures quantity == NextQuantity(old(quantity), increment, selectedOption)
    {
      quantity := NextQuantity(quantity, increment, selectedOption);
    }

    /** Typing in the notes box, whose `maxLength` is 200. */
    method SetNotes(text: string)
      requires Valid()
      requires |text| <= NotesMaxLength
      modifies this`notes
      ensures Valid() && notes == text
    {
      notes := text;
    }

    /** `handleModalClose`: back to the empty selection. */
    method Close()
      modifies this
      ensures Valid()
      ensures selectedItem == None && selectedOption == None && quantity == 1 && notes == ""
    {
      selectedItem, selectedOption, quantity, notes := None, None, 1, "";
    }

    /**
     * The button's `disabled` condition, evaluated while the modal is open.
     * It blocks exactly the case where `handleAddToOrder` would store an item
     * that has options as the bare item, at the item's own price and id;
     * while enabled, such an item is stored with the chosen option folded in.
     */
    function AddDisabled(): (disabled: bool)
      reads this
      requires selectedItem.Some?
      ensures disabled <==> selectedItem.value.hasOptions && selectedOption.None?
      ensures disabled ==>
        selectedItem.value.hasOptions && ResolvedItem(selectedItem.value, selectedOption) == selectedItem.value
      ensures !disabled && selectedItem.value.hasOptions ==>
        && ResolvedItem(selectedItem.value, selectedOption) == WithOption(selectedItem.value, selectedOption.value)
        && ResolvedItem(selectedItem.value, selectedOption).price == selectedOption.value.price
    {
      selectedItem.value.hasOptions && selectedOption.None?
    }

    /** The price shown on the add button. */
    function Preview(): (p: Cents)
      reads this
      ensures selectedItem.None? ==> p == 0
      ensures selectedItem.Some? ==>
        p == Store.Subtotal(Store.OrderLine(ResolvedItem(selectedItem.value, selectedOption), quantity, notes))
    {
      PreviewPrice(selectedItem, selectedOption, quantity)
    }

    /**
     * `handleAddToOrder`: with an item selected, appends one line (option
     * folded in when there is one) and resets the selection; with none, does
     * nothing. The cart total grows by exactly the price the button showed.
     */
    method AddToOrder(store: Store.OrderStore)
      requires Valid()
      modifies this, store`orderItems
      ensures Valid()
      ensures old(selectedItem).None? ==>
        && store.orderItems == old(store.orderItems)
        && selectedItem == old(selectedItem) && selectedOption == old(selectedOption)
        && quantity == old(quantity) && notes == old(notes)
      ensures old(selectedItem).Some? ==>
        && store.orderItems == old(store.orderItems) +
             [Store.OrderLine(ResolvedItem(old(selectedItem).value, old(selectedOption)), old(quantity), old(notes))]
        && MinQuantity(old(selectedOption)) <= old(quantity) <= MaxQuantity
        && store.GetOrderTotal() == old(store.GetOrderTotal()) + old(Preview())
        && store.GetOrderItemCount() == old(store.GetOrderItemCount()) + old(quantity)
        && selectedItem == None && selectedOption == None && quantity == 1 && notes == ""
      ensures store.currentScreen == old(store.currentScreen)
    {
      if selectedItem.Some? {
        var item := selectedItem.value;
        if item.hasOptions && selectedOption.Some? {
          store.AddToOrder(WithOption(item, selectedOption.value), quantity, notes);
        } else {
          store.AddToOrder(item, quantity, notes);
        }
        selectedItem, selectedOption, quantity, notes := None, None, 1, "";
      }
    }
  }
}
